/** The client and the server of the QUIC test program over a reliable byte stream each way. */
module LineDialogue {
  import opened LineFramer

  datatype System = System(client: State, server: State, toServer: string, toClient: string, started: bool)

  /** `ServerReads(n)`: its callback gets the next `n` bytes of the stream. */
  datatype Action = Connected | ServerReads(n: nat) | ClientReads(n: nat)

  function Start(): System {
    System(State(Client, "", 0, false, false, []), State(Server, "", 0, false, false, []), "", "", false)
  }

  predicate Enabled(sys: System, action: Action) {
    match action
    case Connected => !sys.started
    case ServerReads(n) => 0 < n <= |sys.toServer|
    case ClientReads(n) => 0 < n <= |sys.toClient|
  }

  /** What was sent between two states of one side. */
  function SentSince(before: State, after: State): string {
    if |before.replies| <= |after.replies| then Stream(after.replies[|before.replies|..]) else ""
  }

  function Next(sys: System, action: Action, link: Link): System
    requires Enabled(sys, action)
  {
    match action
    case Connected =>
      var client := if sys.client.failed then sys.client else Send(sys.client, Request(0), link);
      sys.(client := client, toServer := sys.toServer + SentSince(sys.client, client), started := true)
    case ServerReads(n) =>
      var server := Callback(sys.server, sys.toServer[..n], link);
      sys.(server := server, toServer := sys.toServer[n..], toClient := sys.toClient + SentSince(sys.server, server))
    case ClientReads(n) =>
      var client := Callback(sys.client, sys.toClient[..n], link);
      sys.(client := client, toClient := sys.toClient[n..], toServer := sys.toServer + SentSince(sys.client, client))
  }

  predicate Run(states: seq<System>, actions: seq<Action>, link: Link) {
    |states| == |actions| + 1 && states[0] == Start() &&
    forall i :: 0 <= i < |actions| ==>
      Enabled(states[i], actions[i]) && states[i + 1] == Next(states[i], actions[i], link)
  }

  // ---------------------------------------------------------------- one line in pieces

  /** Only the last character of an awaited line is a newline. */
  lemma LineShape(mode: Mode, round: nat)
    requires round < TEST_ROUNDS
    ensures var text := Awaited(mode, round);
            0 < |text| < LINE_LIMIT && text[|text| - 1] == '\n' &&
            forall i :: 0 <= i < |text| - 1 ==> text[i] != '\n'
  {
  }

  lemma {:induction false} PartOfLine(s: State, chunk: string, last: bool, link: Link)
    requires !s.failed && s.rounds < TEST_ROUNDS && s.message + chunk < Awaited(s.mode, s.rounds)
    ensures Feed(s, chunk, last, link) == s.(message := s.message + chunk)
    decreases |chunk|
  {
    LineShape(s.mode, s.rounds);
    if chunk == "" {
      assert s.message + chunk == s.message;
    } else {
      var n := |chunk| - 1;
      assert chunk == chunk[..n] + [chunk[n]];
      assert s.message + chunk == (s.message + chunk[..n]) + [chunk[n]];
      PartOfLine(s, chunk[..n], false, link);
      assert (s.message + chunk)[|s.message| + n] == chunk[n];
    }
  }

  lemma EndOfLineReached(s: State, chunk: string, last: bool, link: Link)
    requires !s.failed && s.rounds < TEST_ROUNDS && chunk != "" && s.message + chunk == Awaited(s.mode, s.rounds)
    ensures Feed(s, chunk, last, link) == Complete(s.(message := ""), last, link)
  {
    LineShape(s.mode, s.rounds);
    var n := |chunk| - 1;
    assert s.message + chunk == (s.message + chunk[..n]) + [chunk[n]];
    PartOfLine(s, chunk[..n], false, link);
    assert (s.message + chunk)[|s.message| + n] == chunk[n];
  }

  // ---------------------------------------------------------------- lock-step

  predicate Quiet(sys: System) {
    sys.toServer == "" && sys.toClient == "" && sys.client.message == "" && sys.server.message == ""
  }

  /** Request `k` is on its way. */
  predicate Asking(sys: System) {
    var k := sys.client.rounds;
    && k < TEST_ROUNDS && sys.server.rounds == k && sys.started && !sys.client.hungUp
    && sys.client.message == "" && sys.toClient == ""
    && sys.toServer != "" && sys.server.message + sys.toServer == Request(k)
    && |sys.client.replies| == k + 1 && |sys.server.replies| == k
  }

  /** Response `k` is on its way. */
  predicate Answering(sys: System) {
    var k := sys.client.rounds;
    && k < TEST_ROUNDS && sys.server.rounds == k + 1 && sys.started && !sys.client.hungUp
    && sys.server.message == "" && sys.toServer == ""
    && sys.toClient != "" && sys.client.message + sys.toClient == Response(k)
    && |sys.client.replies| == k + 1 && |sys.server.replies| == k + 1
  }

  predicate Done(sys: System) {
    Quiet(sys) && sys.started && sys.client.rounds == sys.server.rounds == TEST_ROUNDS && sys.client.hungUp
  }

  predicate LockStep(sys: System) {
    && sys.client.mode.Client? && sys.server.mode.Server? && !sys.client.failed && !sys.server.failed
    && !sys.server.hungUp
    && (sys == Start() || Asking(sys) || Answering(sys) || Done(sys))
  }

  lemma StreamOfOne(before: seq<string>, text: string)
    ensures Stream((before + [text])[|before|..]) == text
  {
    assert (before + [text])[|before|..] == [text];
    assert [text][..0] == [];
    assert Stream([]) + text == text;
  }

  lemma StreamOfNone(replies: seq<string>)
    ensures Stream(replies[|replies|..]) == ""
  {
  }

  lemma ServerReadsKeeps(sys: System, n: nat, link: Link)
    requires LockStep(sys) && link.sends >= TEST_ROUNDS && Enabled(sys, ServerReads(n))
    ensures LockStep(Next(sys, ServerReads(n), link))
  {
    var chunk, k := sys.toServer[..n], sys.client.rounds;
    assert sys.toServer == chunk + sys.toServer[n..];
    assert sys.server.message + sys.toServer == (sys.server.message + chunk) + sys.toServer[n..];
    StreamOfNone(sys.server.replies);
    if n < |sys.toServer| {
      PartOfLine(sys.server, chunk, true, link);
    } else {
      assert chunk == sys.toServer;
      EndOfLineReached(sys.server, chunk, true, link);
      StreamOfOne(sys.server.replies, Response(k));
      assert "" + Response(k) == Response(k);
      LineShape(Client, k);
    }
  }

  lemma ClientReadsKeeps(sys: System, n: nat, link: Link)
    requires LockStep(sys) && link.sends >= TEST_ROUNDS && link.hangsUp && Enabled(sys, ClientReads(n))
    ensures LockStep(Next(sys, ClientReads(n), link))
  {
    var chunk, k := sys.toClient[..n], sys.client.rounds;
    assert sys.toClient == chunk + sys.toClient[n..];
    assert sys.client.message + sys.toClient == (sys.client.message + chunk) + sys.toClient[n..];
    StreamOfNone(sys.client.replies);
    if n < |sys.toClient| {
      PartOfLine(sys.client, chunk, true, link);
    } else {
      assert chunk == sys.toClient;
      EndOfLineReached(sys.client, chunk, true, link);
      if k + 1 < TEST_ROUNDS {
        StreamOfOne(sys.client.replies, Request(k + 1));
        assert "" + Request(k + 1) == Request(k + 1);
        LineShape(Server, k + 1);
      }
    }
  }

  lemma ConnectedKeeps(sys: System, link: Link)
    requires LockStep(sys) && link.sends >= TEST_ROUNDS && Enabled(sys, Connected)
    ensures LockStep(Next(sys, Connected, link))
  {
    StreamOfOne([], Request(0));
    assert "" + Request(0) == Request(0);
    LineShape(Server, 0);
  }

  /** Over reliable streams, with complete sends and a successful disconnect, and however the streams
      are cut into chunks: neither side ever fails, the server's rounds are the client's or one
      more, and nothing is left to deliver only once all rounds are complete and the client has
      hung up. */
  lemma {:induction false} RoundsInLockStep(states: seq<System>, actions: seq<Action>, link: Link, i: nat)
    requires Run(states, actions, link) && link.sends >= TEST_ROUNDS && link.hangsUp && i < |states|
    ensures LockStep(states[i])
    ensures !states[i].client.failed && !states[i].server.failed
    ensures states[i].client.rounds <= states[i].server.rounds <= states[i].client.rounds + 1
    ensures states[i].started && states[i].toServer == states[i].toClient == "" ==>
              && states[i].client.rounds == states[i].server.rounds == TEST_ROUNDS
              && states[i].client.hungUp && Quiet(states[i])
  {
    if i > 0 {
      RoundsInLockStep(states, actions, link, i - 1);
      match actions[i - 1] {
        case Connected => ConnectedKeeps(states[i - 1], link);
        case ServerReads(n) => ServerReadsKeeps(states[i - 1], n, link);
        case ClientReads(n) => ClientReadsKeeps(states[i - 1], n, link);
      }
    }
  }
}
