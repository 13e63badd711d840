/** QUIC hole punching: the client probes until it hears a probe, the server waits for one; each
    then sends ten more and succeeds if it hears a second. The network loses, duplicates, delays
    and reorders. */
module QuicHolePunch {
  import opened Wire
  import opened UdpSockets

  const ROUNDS: nat := 10

  /** `Bursting`: before the `sendto` of a round; `Polling`: before its `recv`. */
  datatype Phase =
    | Discovering
    | Bursting(round: nat, punched: bool)
    | Polling(round: nat, punched: bool)
    | Done(ok: bool)

  /** `heard`: probes consumed. `burst`: probes sent after discovery. */
  datatype Side = Side(phase: Phase, heard: nat, burst: nat)

  const FRESH: Side := Side(Discovering, 0, 0)

  predicate IsProbe(result: RecvResult) {
    Cut(result, 3) == Got(OPEN_01)
  }

  /** The receive of the discovery loop. */
  function Discover(side: Side, result: RecvResult): Side {
    if IsProbe(result) then side.(phase := Bursting(0, false), heard := side.heard + 1) else side
  }

  /** A round of the burst begins with a probe, unless the `sendto` is interrupted, which ends it. */
  function Burst(side: Side, interrupted: bool): Side
    requires side.phase.Bursting?
  {
    var Bursting(round, punched) := side.phase;
    if round == ROUNDS then side.(phase := Done(punched))
    else if interrupted then side.(phase := Bursting(round + 1, punched))
    else side.(phase := Polling(round, punched), burst := side.burst + 1)
  }

  /** It ends with a receive that does not wait, until a second probe has been heard. */
  function Poll(side: Side, result: RecvResult): Side
    requires side.phase.Polling?
  {
    var Polling(round, punched) := side.phase;
    if punched then side.(phase := Bursting(round + 1, true))
    else if IsProbe(result) then side.(phase := Bursting(round + 1, true), heard := side.heard + 1)
    else side.(phase := Bursting(round + 1, false))
  }

  function BurstSays(side: Side, interrupted: bool): set<Bytes>
    requires side.phase.Bursting?
  {
    if side.phase.round < ROUNDS && !interrupted then {OPEN_01} else {}
  }

  // ---------------------------------------------------------------- the function itself

  datatype Outcome = Punched | NotPunched | StillWaiting

  /** The position of the first probe, or the length if there is none. */
  function FirstProbe(inbox: seq<RecvResult>): (i: nat)
    ensures i <= |inbox| && (i < |inbox| ==> IsProbe(inbox[i]))
    ensures forall k :: 0 <= k < i ==> !IsProbe(inbox[k])
  {
    if inbox == [] || IsProbe(inbox[0]) then 0 else 1 + FirstProbe(inbox[1..])
  }

  /** The rounds among the first `n` whose `sendto` is not interrupted. */
  function Sends(interrupted: seq<bool>, n: nat): (sends: nat)
    requires n <= |interrupted|
    ensures sends <= n
  {
    if n == 0 then 0 else Sends(interrupted, n - 1) + (if interrupted[n - 1] then 0 else 1)
  }

  /** One of the first `n` results is a probe. */
  predicate ProbeWithin(inbox: seq<RecvResult>, n: nat) {
    exists j :: 0 <= j < n && j < |inbox| && IsProbe(inbox[j])
  }

  lemma OneResultMore(inbox: seq<RecvResult>, n: nat)
    ensures ProbeWithin(inbox, n + 1) <==> ProbeWithin(inbox, n) || (n < |inbox| && IsProbe(inbox[n]))
    ensures n >= |inbox| ==> (ProbeWithin(inbox, n + 1) <==> ProbeWithin(inbox, n))
  {
  }

  /** The receives that time out. */
  function Expired(inbox: seq<RecvResult>): nat {
    if inbox == [] then 0
    else Expired(inbox[..|inbox| - 1]) + (if inbox[|inbox| - 1] == TimedOut then 1 else 0)
  }

  lemma ExpiredMore(inbox: seq<RecvResult>, n: nat)
    requires n < |inbox|
    ensures Expired(inbox[..n + 1]) == Expired(inbox[..n]) + (if inbox[n] == TimedOut then 1 else 0)
  {
    assert inbox[..n + 1][..n] == inbox[..n];
  }

  /** What discovery sends: a client one probe for each receive, the last of which brings the first
      probe; a server one keep-alive for each receive that times out. */
  function DiscoverySends(client: bool, inbox: seq<RecvResult>): nat {
    var i := FirstProbe(inbox);
    if !client then Expired(inbox[..i]) else if i < |inbox| then i + 1 else i
  }

  function Copies(datagram: Bytes, n: nat): (copies: seq<Bytes>)
    ensures |copies| == n && forall i :: 0 <= i < n ==> copies[i] == datagram
  {
    if n == 0 then [] else Copies(datagram, n - 1) + [datagram]
  }

  /** One iteration of the discovery loop. */
  method DiscoveryRound(client: bool, socket: UdpSocket) returns (result: RecvResult)
    requires socket.inbox != []
    modifies socket
    ensures result == First(old(socket.inbox), 3) && socket.inbox == old(socket.inbox)[1..]
    ensures socket.outbox ==
            old(socket.outbox) + (if client then [OPEN_01] else if result == TimedOut then [KEEP_ALIVE] else [])
  {
    if client {
      var _ := socket.SendTo(OPEN_01);
    }
    result := socket.Recv(3);
    if result == TimedOut && !client {
      var _ := socket.SendTo(KEEP_ALIVE);
    }
  }

  function Sent(client: bool): Bytes {
    if client then OPEN_01 else KEEP_ALIVE
  }

  /** What discovery has sent after so many receives. */
  function SentAfter(client: bool, inbox: seq<RecvResult>, taken: nat): seq<Bytes>
    requires taken <= |inbox|
  {
    Copies(Sent(client), if client then taken else Expired(inbox[..taken]))
  }

  lemma SentMore(client: bool, inbox: seq<RecvResult>, taken: nat, before: seq<Bytes>)
    requires taken < |inbox|
    ensures before + SentAfter(client, inbox, taken + 1) ==
            (before + SentAfter(client, inbox, taken)) +
            (if client then [OPEN_01] else if First(inbox[taken..], 3) == TimedOut then [KEEP_ALIVE] else [])
  {
    ExpiredMore(inbox, taken);
  }

  /** The discovery loop ends with the first probe received, if there is one. */
  method Discovery(client: bool, socket: UdpSocket) returns (found: bool, ghost side: Side)
    modifies socket
    ensures var i := FirstProbe(old(socket.inbox));
            && found == (i < |old(socket.inbox)|)
            && socket.inbox == (if found then old(socket.inbox)[i + 1..] else [])
    ensures socket.outbox == old(socket.outbox) + Copies(Sent(client), DiscoverySends(client, old(socket.inbox)))
    ensures side == if found then Side(Bursting(0, false), 1, 0) else FRESH
  {
    ghost var inbox, taken := socket.inbox, 0;
    found, side := false, FRESH;
    while !found && socket.inbox != []
      invariant 0 <= taken <= |inbox| && socket.inbox == inbox[taken..]
      invariant if found then taken == FirstProbe(inbox) + 1 else taken <= FirstProbe(inbox)
      invariant found ==> FirstProbe(inbox) < |inbox|
      invariant socket.outbox == old(socket.outbox) + SentAfter(client, inbox, taken)
      invariant side == if found then Side(Bursting(0, false), 1, 0) else FRESH
      decreases |socket.inbox|
    {
      SentMore(client, inbox, taken, old(socket.outbox));
      var result := DiscoveryRound(client, socket);
      taken := taken + 1;
      found := result == Got(OPEN_01);
      side := Discover(side, result);
    }
    if found { ExpiredMore(inbox, FirstProbe(inbox)); }
  }

  function Least(m: nat, n: nat): nat {
    if m < n then m else n
  }

  /** The results a burst of so many probes takes: none after the first probe among them. */
  function Polled(inbox: seq<RecvResult>, sends: nat): (n: nat)
    ensures n <= |inbox|
  {
    var i := FirstProbe(inbox);
    if i < |inbox| then Least(i + 1, sends) else Least(|inbox|, sends)
  }

  /** What such a burst leaves unread. */
  function Remaining(inbox: seq<RecvResult>, sends: nat): seq<RecvResult> {
    inbox[Polled(inbox, sends)..]
  }

  lemma PolledMore(inbox: seq<RecvResult>, sends: nat, next: nat, punched: bool)
    requires next == sends + 1 && (punched <==> ProbeWithin(inbox, sends))
    ensures Remaining(inbox, next) == if punched then Remaining(inbox, sends) else Rest(Remaining(inbox, sends))
    ensures (punched || First(Remaining(inbox, sends), 3) == Got(OPEN_01)) <==> ProbeWithin(inbox, next)
  {
    OneResultMore(inbox, sends);
  }

  lemma OneMoreSaid(before: seq<Bytes>, said: seq<Bytes>, sends: nat, next: nat)
    requires said == Copies(OPEN_01, sends) && next == sends + 1
    ensures said + [OPEN_01] == Copies(OPEN_01, next) && (before + said) + [OPEN_01] == before + (said + [OPEN_01])
  {
  }

  lemma RoundTaken(i: nat, j: nat, before: bool, after: bool, result: RecvResult, sends: nat, next: nat)
    requires i < ROUNDS && j == i + 1 && next == sends + 1 && Cut(result, 3) == result
    requires (after <==> before || result == Got(OPEN_01)) && (before ==> result == TimedOut)
    ensures Poll(Burst(Side(Bursting(i, before), if before then 2 else 1, sends), false), result) ==
            Side(Bursting(j, after), if after then 2 else 1, next)
  {
  }

  /** One round of the transient loop that is not interrupted. */
  method TransientRound(socket: UdpSocket, punchedBefore: bool) returns (punched: bool, result: RecvResult)
    modifies socket
    ensures socket.outbox == old(socket.outbox) + [OPEN_01]
    ensures result == (if punchedBefore then TimedOut else First(old(socket.inbox), 3)) && Cut(result, 3) == result
    ensures punched <==> punchedBefore || result == Got(OPEN_01)
    ensures socket.inbox == if punchedBefore then old(socket.inbox) else Rest(old(socket.inbox))
  {
    var _ := socket.SendTo(OPEN_01);
    punched, result := punchedBefore, TimedOut;
    if !punched {
      result := socket.Recv(3);
      punched := result == Got(OPEN_01);
    }
  }

  /** Before round i, with so many probes sent. */
  ghost predicate InRound(side: Side, i: nat, punched: bool, inbox: seq<RecvResult>, sends: nat) {
    side == Side(Bursting(i, punched), if punched then 2 else 1, sends) && (punched <==> ProbeWithin(inbox, sends))
  }

  method TransientStep(socket: UdpSocket, interrupted: bool, ghost i: nat, ghost j: nat, punchedBefore: bool,
                       ghost inbox: seq<RecvResult>, ghost sends: nat, ghost before: Side)
      returns (punched: bool, ghost side: Side, ghost next: nat)
    requires i < ROUNDS && j == i + 1 && InRound(before, i, punchedBefore, inbox, sends)
    requires socket.inbox == Remaining(inbox, sends)
    modifies socket
    ensures next == (if interrupted then sends else sends + 1) && InRound(side, j, punched, inbox, next)
    ensures socket.inbox == Remaining(inbox, next)
    ensures socket.outbox == if interrupted then old(socket.outbox) else old(socket.outbox) + [OPEN_01]
  {
    punched, next, side := punchedBefore, sends, Burst(before, interrupted);
    if !interrupted {
      PolledMore(inbox, sends, sends + 1, punchedBefore);
      var result;
      punched, result := TransientRound(socket, punchedBefore);
      RoundTaken(i, j, punchedBefore, punched, result, sends, sends + 1);
      next, side := sends + 1, Poll(side, result);
    }
  }

  /** The transient loop: a probe each round that is not interrupted, and a receive after it until a
      probe has come. It succeeds exactly if one of as many results as probes sent is a probe, and
      takes nothing after it. */
  method Transient(socket: UdpSocket, interrupted: seq<bool>) returns (punched: bool, ghost side: Side)
    requires |interrupted| == ROUNDS
    modifies socket
    ensures punched <==> ProbeWithin(old(socket.inbox), Sends(interrupted, |interrupted|))
    ensures socket.inbox == Remaining(old(socket.inbox), Sends(interrupted, |interrupted|))
    ensures socket.outbox == old(socket.outbox) + Copies(OPEN_01, Sends(interrupted, |interrupted|))
    ensures side == Side(Done(punched), if punched then 2 else 1, Sends(interrupted, |interrupted|))
  {
    punched, side := false, Side(Bursting(0, false), 1, 0);
    ghost var inbox, sends, said := socket.inbox, 0, Copies(OPEN_01, 0);
    for i := 0 to ROUNDS
      invariant sends == Sends(interrupted, i) && said == Copies(OPEN_01, sends)
      invariant InRound(side, i, punched, inbox, sends) && socket.inbox == Remaining(inbox, sends)
      invariant socket.outbox == old(socket.outbox) + said
    {
      if !interrupted[i] { OneMoreSaid(old(socket.outbox), said, sends, sends + 1); }
      punched, side, sends := TransientStep(socket, interrupted[i], i, i + 1, punched, inbox, sends, side);
      said := Copies(OPEN_01, sends);
    }
    side := Burst(side, false);
  }

  /** `ossl_quic_hole_punching` on a socket, `interrupted[i]` telling whether the `sendto` of round i
      is. It waits for ever exactly if no probe ever comes. It succeeds exactly if a second probe
      is among the results that follow the first one, as many as probes were sent, and takes none
      after that. */
  method HolePunching(client: bool, socket: UdpSocket, interrupted: seq<bool>)
      returns (outcome: Outcome, ghost side: Side)
    requires |interrupted| == ROUNDS
    modifies socket
    ensures var inbox, i, sends := old(socket.inbox), FirstProbe(old(socket.inbox)), Sends(interrupted, |interrupted|);
            && (outcome == StillWaiting <==> i == |inbox|)
            && (outcome == Punched <==> i < |inbox| && ProbeWithin(inbox[i + 1..], sends))
            && socket.inbox == (if i < |inbox| then Remaining(inbox[i + 1..], sends) else [])
            && side.phase == (if outcome == StillWaiting then Discovering else Done(outcome == Punched))
    ensures socket.outbox ==
            old(socket.outbox) + Copies(Sent(client), DiscoverySends(client, old(socket.inbox))) +
            (if outcome == StillWaiting then [] else Copies(OPEN_01, Sends(interrupted, |interrupted|)))
  {
    var found, discovered := Discovery(client, socket);
    side := discovered;
    if !found { return StillWaiting, side; }
    var punched, ended := Transient(socket, interrupted);
    return if punched then Punched else NotPunched, ended;
  }

  // ---------------------------------------------------------------- two processes

  datatype System = System(client: Side, server: Side, toServer: set<Bytes>, toClient: set<Bytes>)

  const START: System := System(FRESH, FRESH, {}, {})

  datatype Step =
    | ClientProbes
    | ClientHears(result: RecvResult)
    | ClientBursts(interrupted: bool)
    | ClientPolls(result: RecvResult)
    | ServerKeepsAlive
    | ServerHears(result: RecvResult)
    | ServerBursts(interrupted: bool)
    | ServerPolls(result: RecvResult)

  predicate CanArrive(result: RecvResult, network: set<Bytes>) {
    result.Got? ==> result.datagram in network
  }

  /** Once a second probe has been heard nothing is received any more. */
  predicate Polls(side: Side, result: RecvResult)
    requires side.phase.Polling?
  {
    side.phase.punched ==> result == TimedOut
  }

  predicate Enabled(s: System, step: Step) {
    match step
    case ClientProbes => s.client.phase.Discovering?
    case ClientHears(result) => s.client.phase.Discovering? && CanArrive(result, s.toClient)
    case ClientBursts(_) => s.client.phase.Bursting?
    case ClientPolls(result) => s.client.phase.Polling? && Polls(s.client, result) && CanArrive(result, s.toClient)
    case ServerKeepsAlive => s.server.phase.Discovering?
    case ServerHears(result) => s.server.phase.Discovering? && CanArrive(result, s.toServer)
    case ServerBursts(_) => s.server.phase.Bursting?
    case ServerPolls(result) => s.server.phase.Polling? && Polls(s.server, result) && CanArrive(result, s.toServer)
  }

  function Apply(s: System, step: Step): System
    requires Enabled(s, step)
  {
    match step
    case ClientProbes => s.(toServer := s.toServer + {OPEN_01})
    case ClientHears(result) => s.(client := Discover(s.client, result))
    case ClientBursts(interrupted) =>
      s.(client := Burst(s.client, interrupted), toServer := s.toServer + BurstSays(s.client, interrupted))
    case ClientPolls(result) => s.(client := Poll(s.client, result))
    case ServerKeepsAlive => s.(toClient := s.toClient + {KEEP_ALIVE})
    case ServerHears(result) => s.(server := Discover(s.server, result))
    case ServerBursts(interrupted) =>
      s.(server := Burst(s.server, interrupted), toClient := s.toClient + BurstSays(s.server, interrupted))
    case ServerPolls(result) => s.(server := Poll(s.server, result))
  }

  predicate Runs(s: System, steps: seq<Step>)
    decreases |steps|
  {
    steps == [] || (Enabled(s, steps[0]) && Runs(Apply(s, steps[0]), steps[1..]))
  }

  function Run(s: System, steps: seq<Step>): System
    requires Runs(s, steps)
    decreases |steps|
  {
    if steps == [] then s else Run(Apply(s, steps[0]), steps[1..])
  }

  /** Probes heard so far, by phase; no more than one probe a round. */
  predicate SideHolds(side: Side) {
    match side.phase
    case Discovering => side.heard == 0 && side.burst == 0
    case Bursting(round, punched) => side.heard == (if punched then 2 else 1) && side.burst <= round <= ROUNDS
    case Polling(round, punched) => side.heard == (if punched then 2 else 1) && side.burst <= round + 1 <= ROUNDS
    case Done(ok) => side.heard == (if ok then 2 else 1) && side.burst <= ROUNDS
  }

  predicate Knowledge(s: System) {
    && SideHolds(s.client) && SideHolds(s.server)
    && (s.server.phase.Discovering? ==> forall d :: d in s.toClient ==> !IsProbe(Got(d)))
    && (!s.client.phase.Discovering? ==> !s.server.phase.Discovering?)
  }

  lemma StepKeepsKnowledge(s: System, step: Step)
    requires Knowledge(s) && Enabled(s, step)
    ensures Knowledge(Apply(s, step))
  {
  }

  lemma {:induction false} RunKeepsKnowledge(s: System, steps: seq<Step>)
    requires Knowledge(s) && Runs(s, steps)
    ensures Knowledge(Run(s, steps))
    decreases |steps|
  {
    if steps != [] {
      StepKeepsKnowledge(s, steps[0]);
      RunKeepsKnowledge(Apply(s, steps[0]), steps[1..]);
    }
  }

  /** Whether the step hands a probe to the client, or to the server. */
  predicate GivesProbe(step: Step, client: bool) {
    match step
    case ClientHears(result) => client && IsProbe(result)
    case ClientPolls(result) => client && IsProbe(result)
    case ServerHears(result) => !client && IsProbe(result)
    case ServerPolls(result) => !client && IsProbe(result)
    case _ => false
  }

  function ProbesGiven(steps: seq<Step>, client: bool): nat {
    if steps == [] then 0 else (if GivesProbe(steps[0], client) then 1 else 0) + ProbesGiven(steps[1..], client)
  }

  lemma {:induction false} ProbesAreHeard(s: System, steps: seq<Step>)
    requires Runs(s, steps)
    ensures Run(s, steps).client.heard == s.client.heard + ProbesGiven(steps, true)
    ensures Run(s, steps).server.heard == s.server.heard + ProbesGiven(steps, false)
    decreases |steps|
  {
    if steps != [] {
      ProbesAreHeard(Apply(s, steps[0]), steps[1..]);
    }
  }

  /** In every run: no probe of the server exists before it received one of the client's, so a
      client that has left discovery knows the server has too; a side that ends has succeeded
      exactly if the network gave it two probes; and a burst is at most ten probes. */
  lemma PunchingOrder(steps: seq<Step>)
    requires Runs(START, steps)
    ensures var s := Run(START, steps);
            && (ProbesGiven(steps, false) == 0 ==> forall d :: d in s.toClient ==> !IsProbe(Got(d)))
            && (!s.client.phase.Discovering? ==> ProbesGiven(steps, false) > 0)
            && (s.client.phase.Done? ==> (s.client.phase.ok <==> ProbesGiven(steps, true) == 2))
            && (s.server.phase.Done? ==> (s.server.phase.ok <==> ProbesGiven(steps, false) == 2))
            && s.client.burst <= ROUNDS && s.server.burst <= ROUNDS
            && ProbesGiven(steps, true) <= 2 && ProbesGiven(steps, false) <= 2
  {
    RunKeepsKnowledge(START, steps);
    ProbesAreHeard(START, steps);
  }

  // ---------------------------------------------------------------- one side alone

  lemma {:induction false} RunConcat(s: System, first: seq<Step>, second: seq<Step>)
    requires Runs(s, first) && Runs(Run(s, first), second)
    ensures Runs(s, first + second) && Run(s, first + second) == Run(Run(s, first), second)
    decreases |first|
  {
    if first == [] {
      assert first + second == second;
    } else {
      RunConcat(Apply(s, first[0]), first[1..], second);
      assert (first + second)[1..] == first[1..] + second;
    }
  }

  /** The client's burst from `round` on with nothing arriving. */
  function DeafRounds(round: nat): seq<Step>
    requires round <= ROUNDS
    decreases ROUNDS - round
  {
    if round == ROUNDS then [ClientBursts(false)]
    else [ClientBursts(false), ClientPolls(TimedOut)] + DeafRounds(round + 1)
  }

  lemma {:induction false} DeafClientFails(s: System, round: nat)
    requires round <= ROUNDS && s.client.phase == Bursting(round, false)
    ensures Runs(s, DeafRounds(round))
    ensures var t := Run(s, DeafRounds(round)); t.client.phase == Done(false) && t.server == s.server
    decreases ROUNDS - round
  {
    var steps := DeafRounds(round);
    var t := Apply(s, steps[0]);
    if round < ROUNDS {
      var u := Apply(t, steps[1]);
      assert steps[1..][1..] == DeafRounds(round + 1);
      DeafClientFails(u, round + 1);
      assert Runs(t, steps[1..]);
    } else {
      assert steps[1..] == [];
    }
  }

  /** The server's burst from `round` on, hearing a probe in its first round. */
  function ServerRounds(round: nat): seq<Step>
    requires round <= ROUNDS
    decreases ROUNDS - round
  {
    if round == ROUNDS then [ServerBursts(false)]
    else
      [ServerBursts(false), ServerPolls(if round == 0 then Got(OPEN_01) else TimedOut)] + ServerRounds(round + 1)
  }

  lemma {:induction false} HearingServerSucceeds(s: System, round: nat)
    requires round <= ROUNDS && s.server.phase == Bursting(round, round > 0) && OPEN_01 in s.toServer
    ensures Runs(s, ServerRounds(round))
    ensures var t := Run(s, ServerRounds(round));
            t.server.phase == Done(true) && t.client == s.client && OPEN_01 in s.toServer && s.toClient <= t.toClient
    ensures round < ROUNDS ==> OPEN_01 in Run(s, ServerRounds(round)).toClient
    decreases ROUNDS - round
  {
    var steps := ServerRounds(round);
    var t := Apply(s, steps[0]);
    if round < ROUNDS {
      var u := Apply(t, steps[1]);
      assert steps[1..][1..] == ServerRounds(round + 1);
      HearingServerSucceeds(u, round + 1);
      assert Runs(t, steps[1..]);
    } else {
      assert steps[1..] == [];
    }
  }

  lemma ProbeAnswered() returns (steps: seq<Step>, s: System)
    ensures Runs(START, steps) && Run(START, steps) == s
    ensures s.server.phase == Bursting(0, false) && OPEN_01 in s.toServer && s.client == FRESH
  {
    var probe, hear := ClientProbes, ServerHears(Got(OPEN_01));
    var probed := Apply(START, probe);
    s := Apply(probed, hear);
    RunsOne(START, probe);
    RunsOne(probed, hear);
    RunConcat(START, [probe], [hear]);
    steps := [probe] + [hear];
  }

  lemma RunsOne(s: System, step: Step)
    requires Enabled(s, step)
    ensures Runs(s, [step]) && Run(s, [step]) == Apply(s, step)
  {
    assert [step][1..] == [];
    assert Runs(Apply(s, step), []);
  }

  lemma ClientStarts(s: System)
    requires s.client.phase == Discovering && OPEN_01 in s.toClient
    ensures Runs(s, [ClientHears(Got(OPEN_01))])
    ensures var t := Run(s, [ClientHears(Got(OPEN_01))]);
            t.client.phase == Bursting(0, false) && t.server == s.server
  {
    RunsOne(s, ClientHears(Got(OPEN_01)));
  }

  /** The order is all the two sides agree on: the server can succeed while the client fails. */
  lemma PunchingCanDisagree() returns (steps: seq<Step>)
    ensures Runs(START, steps)
    ensures Run(START, steps).server.phase == Done(true) && Run(START, steps).client.phase == Done(false)
  {
    var opening, s1 := ProbeAnswered();
    HearingServerSucceeds(s1, 0);
    RunConcat(START, opening, ServerRounds(0));
    var s2 := Run(s1, ServerRounds(0));
    ClientStarts(s2);
    var hearing := [ClientHears(Got(OPEN_01))];
    RunConcat(START, opening + ServerRounds(0), hearing);
    DeafClientFails(Run(s2, hearing), 0);
    RunConcat(START, opening + ServerRounds(0) + hearing, DeafRounds(0));
    steps := opening + ServerRounds(0) + hearing + DeafRounds(0);
  }
}
