/** Each process of `HandshakeSystem` and `Closing`, driven by one inbox instead of the network, is the
    loop of `Handshake` it stands for. */
module Alone {
  import opened Wire
  import opened UdpSockets
  import opened ChownatPeer
  import opened Handshake
  import opened HandshakeSystem
  import Closing

  /** The next result; afterwards every receive times out. */
  function Head(inbox: seq<RecvResult>): (result: RecvResult)
    ensures Cut(result, 3) == First(inbox, 3)
  {
    if inbox == [] then TimedOut else inbox[0]
  }

  /** What a step says, if that is `only` or nothing. */
  function Listed(said: set<Bytes>, only: Bytes): seq<Bytes>
    requires said <= {only}
  {
    if only in said then [only] else []
  }

  // ---------------------------------------------------------------- asking

  predicate Sound(limit: nat, asker: Asker) {
    match asker
    case Ready(attempts) => attempts <= limit
    case Waiting(attempts) => attempts < limit
    case Done(_) => true
  }

  function Rank(limit: nat, asker: Asker): nat
    requires Sound(limit, asker)
  {
    match asker
    case Ready(attempts) => 2 * (limit - attempts) + 1
    case Waiting(attempts) => 2 * (limit - attempts)
    case Done(_) => 0
  }

  function Question(client: Client): Bytes {
    if client.Opening? then OPEN_01 else CLOSE_02
  }

  /** The client takes its steps with these results. */
  function ClientAlone(limits: Limits, client: Client, inbox: seq<RecvResult>): Dialogue
    requires Sound(limits.client, client.asker)
    decreases Rank(limits.client, client.asker)
  {
    var s := START.(client := client);
    match client.asker
    case Done(ok) => Dialogue(ok, [], inbox, 0)
    case Ready(_) =>
      var t := ClientStep(limits, s);
      Then(Listed(t.toServer, Question(client)), 0, ClientAlone(limits, t.client, inbox))
    case Waiting(_) =>
      var t := ClientGets(s, Head(inbox));
      Then(Listed(t.toServer, ACK_03), 1, ClientAlone(limits, t.client, Rest(inbox)))
  }

  lemma ThenTwice(a: seq<Bytes>, m: nat, b: seq<Bytes>, n: nat, later: Dialogue)
    ensures Then(a, m, Then(b, n, later)) == Then(a + b, m + n, later)
    ensures a + [] == a && [] + b == b
  {
    assert a + (b + later.said) == (a + b) + later.said;
  }

  /** Opening or closing, the client asks as `AskDialogue` says. */
  lemma {:induction false} ClientAsks(limits: Limits, client: Client, n: nat, inbox: seq<RecvResult>)
    requires client.asker == Ready(n) && n <= limits.client
    ensures ClientAlone(limits, client, inbox) == AskDialogue(Question(client), limits.client, n, inbox)
    decreases limits.client - n
  {
    if n < limits.client {
      var waiting, question := client.(asker := Waiting(n)), Question(client);
      assert ClientAlone(limits, client, inbox) == Then([question], 0, ClientAlone(limits, waiting, inbox));
      if First(inbox, 3) == Got(ACK_03) {
        ClientConfirmed(limits, waiting, inbox);
        ThenTwice([question], 0, [ACK_03], 1, Dialogue(true, [], Rest(inbox), 0));
      } else {
        var next := client.(asker := Ready(n + 1));
        ClientGoesOn(limits, waiting, n, inbox);
        ClientAsks(limits, next, n + 1, Rest(inbox));
        ThenTwice([question], 0, [], 1, ClientAlone(limits, next, Rest(inbox)));
      }
    }
  }

  lemma ClientConfirmed(limits: Limits, waiting: Client, inbox: seq<RecvResult>)
    requires waiting.asker.Waiting? && Sound(limits.client, waiting.asker) && First(inbox, 3) == Got(ACK_03)
    ensures ClientAlone(limits, waiting, inbox) == Then([ACK_03], 1, Dialogue(true, [], Rest(inbox), 0))
  {
  }

  lemma ClientGoesOn(limits: Limits, waiting: Client, n: nat, inbox: seq<RecvResult>)
    requires waiting.asker == Waiting(n) && n < limits.client && First(inbox, 3) != Got(ACK_03)
    ensures ClientAlone(limits, waiting, inbox) ==
            Then([], 1, ClientAlone(limits, waiting.(asker := Ready(n + 1)), Rest(inbox)))
  {
  }

  // ---------------------------------------------------------------- listening

  predicate SoundServer(limit: nat, server: Server) {
    match server
    case Listening(attempts) => attempts <= limit
    case AnswerReady(outer, inner) => outer <= limit && inner <= limit
    case AnswerWaiting(outer, inner) => outer <= limit && inner < limit
    case Serving => true
    case Failed => true
    case ServerClosing(_) => false
  }

  function ServerRank(limit: nat, server: Server): nat
    requires SoundServer(limit, server)
  {
    match server
    case Listening(attempts) => limit - attempts + 1
    case AnswerReady(outer, inner) => limit - outer + 2 * (limit - inner) + 3
    case AnswerWaiting(outer, inner) => limit - outer + 2 * (limit - inner) + 2
    case _ => 0
  }

  /** The server takes its steps with these results, up to the end of its opening. */
  function ServerAlone(limits: Limits, server: Server, inbox: seq<RecvResult>): Dialogue
    requires SoundServer(limits.server, server)
    decreases |inbox|, ServerRank(limits.server, server)
  {
    var s := START.(server := server);
    if server.Serving? || server.Failed? then Dialogue(server.Serving?, [], inbox, 0)
    else if ServerWaits(limits, server) then
      var t := ServerGets(limits, s, Head(inbox));
      Then(Listed(t.toClient, KEEP_ALIVE), 1, ServerAlone(limits, t.server, Rest(inbox)))
    else
      var t := ServerStep(limits, s);
      Then(Listed(t.toClient, ACK_03), 0, ServerAlone(limits, t.server, inbox))
  }

  /** What the answering loop makes of the rest: success, or listening again with the count it had. */
  function Resumed(limits: Limits, outer: nat, inner: Dialogue): Dialogue
    requires outer <= limits.server
  {
    if inner.ok then inner else Then(inner.said, inner.receives, ServerAlone(limits, Listening(outer), inner.rest))
  }

  lemma AnswerTurn(limits: Limits, outer: nat, n: nat, inbox: seq<RecvResult>, next: Server)
    requires outer <= limits.server && n < limits.server
    requires next == match Answered(n, First(inbox, 3)) case GoOn(m) => AnswerReady(outer, m) case _ => Serving
    ensures SoundServer(limits.server, next)
    ensures ServerAlone(limits, AnswerReady(outer, n), inbox) ==
            Then([ACK_03], 1, ServerAlone(limits, next, Rest(inbox)))
  {
    AnswerWaits(limits, outer, n, inbox, next);
    ThenTwice([ACK_03], 0, [], 1, ServerAlone(limits, next, Rest(inbox)));
  }

  lemma AnswerWaits(limits: Limits, outer: nat, n: nat, inbox: seq<RecvResult>, next: Server)
    requires outer <= limits.server && n < limits.server
    requires next == match Answered(n, First(inbox, 3)) case GoOn(m) => AnswerReady(outer, m) case _ => Serving
    ensures SoundServer(limits.server, next)
    ensures ServerAlone(limits, AnswerWaiting(outer, n), inbox) == Then([], 1, ServerAlone(limits, next, Rest(inbox)))
  {
  }

  lemma ResumedAfter(limits: Limits, outer: nat, inner: Dialogue)
    requires outer <= limits.server
    ensures Resumed(limits, outer, Then([ACK_03], 1, inner)) == Then([ACK_03], 1, Resumed(limits, outer, inner))
  {
    if !inner.ok {
      ThenTwice([ACK_03], 1, inner.said, inner.receives, ServerAlone(limits, Listening(outer), inner.rest));
    }
  }

  lemma {:induction false} ServerAnswers(limits: Limits, outer: nat, n: nat, inbox: seq<RecvResult>)
    requires outer <= limits.server && n <= limits.server
    ensures ServerAlone(limits, AnswerReady(outer, n), inbox) ==
            Resumed(limits, outer, AnswerDialogue(limits.server, n, inbox))
    decreases |inbox|, limits.server - n
  {
    if n < limits.server {
      if Answered(n, First(inbox, 3)).GoOn? {
        var m := Answered(n, First(inbox, 3)).attempts;
        AnswerTurn(limits, outer, n, inbox, AnswerReady(outer, m));
        ServerAnswers(limits, outer, m, Rest(inbox));
        ResumedAfter(limits, outer, AnswerDialogue(limits.server, m, Rest(inbox)));
      } else {
        AnswerTurn(limits, outer, n, inbox, Serving);
        ThenTwice([ACK_03], 1, [], 0, Dialogue(true, [], Rest(inbox), 0));
      }
    } else {
      ThenTwice([], 0, [], 0, ServerAlone(limits, Listening(outer), inbox));
    }
  }

  lemma ListenTurn(limits: Limits, attempts: nat, inbox: seq<RecvResult>, said: seq<Bytes>, next: Server)
    requires attempts < limits.server && said == (if First(inbox, 3) == TimedOut then [KEEP_ALIVE] else [])
    requires next == match Listened(attempts, First(inbox, 3))
                     case GoOn(n) => Listening(n)
                     case _ => AnswerReady(attempts, 0)
    ensures SoundServer(limits.server, next)
    ensures ServerAlone(limits, Listening(attempts), inbox) == Then(said, 1, ServerAlone(limits, next, Rest(inbox)))
  {
  }

  /** The server opens as `ListenDialogue` says. */
  lemma {:induction false} ServerListens(limits: Limits, attempts: nat, inbox: seq<RecvResult>)
    requires attempts <= limits.server
    ensures ServerAlone(limits, Listening(attempts), inbox) ==
            ListenDialogue(true, limits.server, attempts, inbox)
    decreases |inbox|, limits.server - attempts
  {
    if attempts < limits.server {
      if Listened(attempts, First(inbox, 3)).GoOn? {
        var n := Listened(attempts, First(inbox, 3)).attempts;
        ListenTurn(limits, attempts, inbox, if First(inbox, 3) == TimedOut then [KEEP_ALIVE] else [], Listening(n));
        ServerListens(limits, n, Rest(inbox));
        ListeningPasses(true, limits.server, attempts, inbox);
      } else {
        var inner := AnswerDialogue(limits.server, 0, Rest(inbox));
        ListenTurn(limits, attempts, inbox, [], AnswerReady(attempts, 0));
        ServerAnswers(limits, attempts, 0, Rest(inbox));
        ListeningAnswers(true, limits.server, attempts, inbox);
        ServerListens(limits, attempts, inner.rest);
        ThenTwice([], 1, inner.said, inner.receives, ListenDialogue(true, limits.server, attempts, inner.rest));
      }
    }
  }

  /** A server that closes takes its steps with these results. */
  function ServerClosesAlone(limits: Limits, asker: Asker, inbox: seq<RecvResult>): Dialogue
    requires Sound(limits.server, asker)
    decreases Rank(limits.server, asker)
  {
    var s := START.(server := ServerClosing(asker));
    match asker
    case Done(ok) => Dialogue(ok, [], inbox, 0)
    case Ready(_) =>
      var t := ServerStep(limits, s);
      Then(Listed(t.toClient, CLOSE_02), 0, ServerClosesAlone(limits, t.server.asker, inbox))
    case Waiting(_) =>
      var t := ServerGets(limits, s, Head(inbox));
      Then(Listed(t.toClient, ACK_03), 1, ServerClosesAlone(limits, t.server.asker, Rest(inbox)))
  }

  lemma ServerClosesTurn(limits: Limits, n: nat, inbox: seq<RecvResult>, said: seq<Bytes>, next: Asker)
    requires n < limits.server && said == (if First(inbox, 3) == Got(ACK_03) then [ACK_03] else [])
    requires next == if First(inbox, 3) == Got(ACK_03) then Done(true) else Ready(n + 1)
    ensures ServerClosesAlone(limits, Ready(n), inbox) ==
            Then([CLOSE_02] + said, 1, ServerClosesAlone(limits, next, Rest(inbox)))
  {
    var later := ServerClosesAlone(limits, next, Rest(inbox));
    ServerClosesWaits(limits, n, inbox, said, next);
    ServerClosesSends(limits, n, inbox, Then(said, 1, later));
    ThenTwice([CLOSE_02], 0, said, 1, later);
  }

  lemma ServerClosesSends(limits: Limits, n: nat, inbox: seq<RecvResult>, later: Dialogue)
    requires n < limits.server && later == ServerClosesAlone(limits, Waiting(n), inbox)
    ensures ServerClosesAlone(limits, Ready(n), inbox) == Then([CLOSE_02], 0, later)
  {
  }

  lemma ServerClosesWaits(limits: Limits, n: nat, inbox: seq<RecvResult>, said: seq<Bytes>, next: Asker)
    requires n < limits.server && said == (if First(inbox, 3) == Got(ACK_03) then [ACK_03] else [])
    requires next == if First(inbox, 3) == Got(ACK_03) then Done(true) else Ready(n + 1)
    ensures ServerClosesAlone(limits, Waiting(n), inbox) ==
            Then(said, 1, ServerClosesAlone(limits, next, Rest(inbox)))
  {
  }

  lemma {:induction false} ServerAsks(limits: Limits, n: nat, inbox: seq<RecvResult>)
    requires n <= limits.server
    ensures ServerClosesAlone(limits, Ready(n), inbox) == AskDialogue(CLOSE_02, limits.server, n, inbox)
    decreases limits.server - n
  {
    if n < limits.server {
      if First(inbox, 3) == Got(ACK_03) {
        ServerClosesTurn(limits, n, inbox, [ACK_03], Done(true));
      } else {
        ServerClosesTurn(limits, n, inbox, [], Ready(n + 1));
        ServerAsks(limits, n + 1, Rest(inbox));
        ThenTwice([CLOSE_02], 0, [], 1, AskDialogue(CLOSE_02, limits.server, n + 1, Rest(inbox)));
      }
    }
  }

  /** Either process that closes runs the whole asking exchange with 02. */
  lemma ClosingBegins(limits: Limits, teardown: bool, s: System, inbox: seq<RecvResult>)
    ensures Enabled(limits, teardown, s, ClientCloses) ==>
              var client := Apply(limits, teardown, s, ClientCloses).client;
              client.asker == Ready(0) &&
              ClientAlone(limits, client, inbox) == AskDialogue(CLOSE_02, limits.client, 0, inbox)
    ensures Enabled(limits, teardown, s, ServerCloses) ==>
              var server := Apply(limits, teardown, s, ServerCloses).server;
              server == ServerClosing(Ready(0)) &&
              ServerClosesAlone(limits, server.asker, inbox) == AskDialogue(CLOSE_02, limits.server, 0, inbox)
  {
    ClientAsks(limits, HandshakeSystem.Closing(Ready(0)), 0, inbox);
    ServerAsks(limits, 0, inbox);
  }

  // ---------------------------------------------------------------- closing

  predicate SoundSide(limit: nat, side: Closing.Side) {
    match side
    case Asking(asker) => Sound(limit, asker)
    case Answering(AboutToAnswer(n)) => n <= limit
    case Answering(Awaiting(n)) => n < limit
    case Answering(Ended(_)) => true
    case _ => false
  }

  function SideRank(limit: nat, side: Closing.Side): nat
    requires SoundSide(limit, side)
  {
    match side
    case Asking(asker) => Rank(limit, asker)
    case Answering(AboutToAnswer(n)) => 2 * (limit - n) + 1
    case Answering(Awaiting(n)) => 2 * (limit - n)
    case _ => 0
  }

  function Arrived(result: RecvResult): set<Bytes> {
    if result.Got? then {result.datagram} else {}
  }

  /** A side that closes takes its steps with these results. */
  function SideAlone(limit: nat, side: Closing.Side, inbox: seq<RecvResult>): Dialogue
    requires SoundSide(limit, side)
    decreases |inbox|, SideRank(limit, side)
  {
    if Closing.Enabled(side, {}, Closing.Goes) then
      var (next, said) := Closing.Act(limit, side, {}, Closing.Goes);
      Then(Listed(said, if side.Asking? then CLOSE_02 else ACK_03), 0, SideAlone(limit, next, inbox))
    else if side.Asking? && side.asker.Done? then Dialogue(side.asker.confirmed, [], inbox, 0)
    else if side.Answering? && side.answerer.Ended? then Dialogue(side.answerer.ok, [], inbox, 0)
    else
      var result := Head(inbox);
      var (next, said) := Closing.Act(limit, side, Arrived(result), Closing.Gets(result));
      Then(Listed(said, ACK_03), 1, SideAlone(limit, next, Rest(inbox)))
  }

  lemma AskTurn(limit: nat, n: nat, inbox: seq<RecvResult>, said: seq<Bytes>, next: Asker)
    requires n < limit && said == (if First(inbox, 3) == Got(ACK_03) then [ACK_03] else [])
    requires next == if First(inbox, 3) == Got(ACK_03) then Done(true) else Ready(n + 1)
    ensures SideAlone(limit, Closing.Asking(Ready(n)), inbox) ==
            Then([CLOSE_02] + said, 1, SideAlone(limit, Closing.Asking(next), Rest(inbox)))
  {
    AskWaits(limit, n, inbox, said, next);
    ThenTwice([CLOSE_02], 0, said, 1, SideAlone(limit, Closing.Asking(next), Rest(inbox)));
  }

  lemma AskWaits(limit: nat, n: nat, inbox: seq<RecvResult>, said: seq<Bytes>, next: Asker)
    requires n < limit && said == (if First(inbox, 3) == Got(ACK_03) then [ACK_03] else [])
    requires next == if First(inbox, 3) == Got(ACK_03) then Done(true) else Ready(n + 1)
    ensures SideAlone(limit, Closing.Asking(Waiting(n)), inbox) ==
            Then(said, 1, SideAlone(limit, Closing.Asking(next), Rest(inbox)))
  {
  }

  /** A side that closes first asks as `AskDialogue` says. */
  lemma {:induction false} SideAsks(limit: nat, n: nat, inbox: seq<RecvResult>)
    requires n <= limit
    ensures SideAlone(limit, Closing.Asking(Ready(n)), inbox) == AskDialogue(CLOSE_02, limit, n, inbox)
    decreases limit - n
  {
    if n < limit {
      if First(inbox, 3) == Got(ACK_03) {
        AskTurn(limit, n, inbox, [ACK_03], Done(true));
      } else {
        AskTurn(limit, n, inbox, [], Ready(n + 1));
        SideAsks(limit, n + 1, Rest(inbox));
        ThenTwice([CLOSE_02], 0, [], 1, AskDialogue(CLOSE_02, limit, n + 1, Rest(inbox)));
      }
    }
  }

  lemma ReplyTurn(limit: nat, n: nat, inbox: seq<RecvResult>, next: Closing.Answerer)
    requires n < limit
    requires next == match Answered(n, First(inbox, 3))
                     case GoOn(m) => Closing.AboutToAnswer(m)
                     case _ => Closing.Ended(true)
    ensures SoundSide(limit, Closing.Answering(next))
    ensures SideAlone(limit, Closing.Answering(Closing.AboutToAnswer(n)), inbox) ==
            Then([ACK_03], 1, SideAlone(limit, Closing.Answering(next), Rest(inbox)))
  {
    ReplyWaits(limit, n, inbox, next);
    ThenTwice([ACK_03], 0, [], 1, SideAlone(limit, Closing.Answering(next), Rest(inbox)));
  }

  lemma ReplyWaits(limit: nat, n: nat, inbox: seq<RecvResult>, next: Closing.Answerer)
    requires n < limit
    requires next == match Answered(n, First(inbox, 3))
                     case GoOn(m) => Closing.AboutToAnswer(m)
                     case _ => Closing.Ended(true)
    ensures SoundSide(limit, Closing.Answering(next))
    ensures SideAlone(limit, Closing.Answering(Closing.Awaiting(n)), inbox) ==
            Then([], 1, SideAlone(limit, Closing.Answering(next), Rest(inbox)))
  {
  }

  /** One that is asked to close answers as `AnswerDialogue` says. */
  lemma {:induction false} SideAnswers(limit: nat, n: nat, inbox: seq<RecvResult>)
    requires n <= limit
    ensures SideAlone(limit, Closing.Answering(Closing.AboutToAnswer(n)), inbox) == AnswerDialogue(limit, n, inbox)
    decreases |inbox|, limit - n
  {
    if n < limit {
      if Answered(n, First(inbox, 3)).GoOn? {
        var m := Answered(n, First(inbox, 3)).attempts;
        ReplyTurn(limit, n, inbox, Closing.AboutToAnswer(m));
        SideAnswers(limit, m, Rest(inbox));
      } else {
        ReplyTurn(limit, n, inbox, Closing.Ended(true));
        ThenTwice([ACK_03], 1, [], 0, Dialogue(true, [], Rest(inbox), 0));
      }
    }
  }

  /** An open side stays open through every datagram that leaves the endpoint open. One that closes it
      begins the whole answering exchange, a failing receive closes without one, and the application
      begins the whole asking exchange. */
  lemma OpenSideTakes(limit: nat, build: Build, peer: Peer, result: RecvResult, later: seq<RecvResult>)
    requires !peer.closed
    ensures var (next, said) := Closing.Act(limit, Closing.Open, Arrived(result), Closing.Gets(result));
            && said == {} && (next.Open? <==> result.Got? && !React(build, peer, result.datagram).peer.closed)
            && (next.Broken? <==> result.TimedOut?)
            && (!next.Open? && !next.Broken? ==>
                  SoundSide(limit, next) && SideAlone(limit, next, later) == AnswerDialogue(limit, 0, later))
    ensures var (next, said) := Closing.Act(limit, Closing.Open, {}, Closing.Starts);
            && said == {} && SoundSide(limit, next)
            && SideAlone(limit, next, later) == AskDialogue(CLOSE_02, limit, 0, later)
  {
    SideAnswers(limit, 0, later);
    SideAsks(limit, 0, later);
  }
}
