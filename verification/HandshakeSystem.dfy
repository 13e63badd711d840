/** The opening and closing exchanges between two processes over a network that loses, duplicates,
    delays and reorders: whatever was once sent may arrive any number of times, or never. */
module HandshakeSystem {
  import opened Wire
  import opened UdpSockets
  import opened Handshake

  /** The asking loop stopped at its `sendto`, stopped at its `recv`, or left. */
  datatype Asker = Ready(attempts: nat) | Waiting(attempts: nat) | Done(confirmed: bool)

  /** The loop test and the `sendto`. */
  function AskerSends(question: Bytes, limit: nat, asker: Asker): (Asker, set<Bytes>)
    requires asker.Ready?
  {
    if asker.attempts < limit then (Waiting(asker.attempts), {question}) else (Done(false), {})
  }

  function AskerGets(asker: Asker, result: RecvResult): (Asker, set<Bytes>)
    requires asker.Waiting?
  {
    match Asked(asker.attempts, result)
    case GoOn(n) => (Ready(n), {})
    case _ => (Done(true), {ACK_03})
  }

  /** `conn_max_attempts` of either side. */
  datatype Limits = Limits(client: nat, server: nat)

  /** The client opens; a client that opened, or that gave up and is deinitialised, closes. */
  datatype Client = Opening(asker: Asker) | Closing(asker: Asker)

  /** The server listens, answers, has succeeded or has failed; either way it may close. */
  datatype Server =
    | Listening(attempts: nat)
    | AnswerReady(outer: nat, inner: nat)
    | AnswerWaiting(outer: nat, inner: nat)
    | Serving
    | Failed
    | ServerClosing(asker: Asker)

  /** `clientOpen`, `serverOpen`: that side's opening succeeded. `heard`: the server took a client's
      01. */
  datatype System = System(
    client: Client, server: Server,
    toServer: set<Bytes>, toClient: set<Bytes>,
    clientOpen: bool, serverOpen: bool, heard: bool)

  const START: System := System(Opening(Ready(0)), Listening(0), {}, {}, false, false, false)

  /** `ClientTalks`, `ServerTalks`: a side whose opening succeeded may send anything at all. */
  datatype Step =
    | ClientSends
    | ClientReceives(result: RecvResult)
    | ClientTalks(message: Bytes)
    | ClientCloses
    | ServerSends
    | ServerReceives(result: RecvResult)
    | ServerTalks(message: Bytes)
    | ServerCloses

  predicate CanArrive(result: RecvResult, network: set<Bytes>) {
    result.Got? ==> result.datagram in network
  }

  function ClientStep(limits: Limits, s: System): System
    requires s.client.asker.Ready?
  {
    var question := if s.client.Opening? then OPEN_01 else CLOSE_02;
    var (asker, said) := AskerSends(question, limits.client, s.client.asker);
    s.(client := s.client.(asker := asker), toServer := s.toServer + said)
  }

  function ClientGets(s: System, result: RecvResult): System
    requires s.client.asker.Waiting?
  {
    var (asker, said) := AskerGets(s.client.asker, Cut(result, 3));
    s.(client := s.client.(asker := asker), toServer := s.toServer + said,
       clientOpen := s.clientOpen || (s.client.Opening? && asker == Done(true)))
  }

  /** The inner loop's test and `sendto`; the outer loop's test. */
  function ServerStep(limits: Limits, s: System): System {
    match s.server
    case AnswerReady(outer, inner) =>
      if inner < limits.server then s.(server := AnswerWaiting(outer, inner), toClient := s.toClient + {ACK_03})
      else s.(server := Listening(outer))
    case Listening(attempts) => if attempts < limits.server then s else s.(server := Failed)
    case ServerClosing(Ready(attempts)) =>
      var (asker, said) := AskerSends(CLOSE_02, limits.server, Ready(attempts));
      s.(server := ServerClosing(asker), toClient := s.toClient + said)
    case _ => s
  }

  /** The server stands at a `recv`. */
  predicate ServerWaits(limits: Limits, server: Server) {
    || server.AnswerWaiting?
    || (server.Listening? && server.attempts < limits.server)
    || (server.ServerClosing? && server.asker.Waiting?)
  }

  function ServerGets(limits: Limits, s: System, result: RecvResult): System
    requires ServerWaits(limits, s.server)
  {
    match s.server
    case Listening(attempts) =>
      (match Listened(attempts, Cut(result, 3))
       case GoOn(n) =>
         s.(server := Listening(n), toClient := s.toClient + (if result.TimedOut? then {KEEP_ALIVE} else {}))
       case _ => s.(server := AnswerReady(attempts, 0), heard := true))
    case AnswerWaiting(outer, inner) =>
      (match Answered(inner, Cut(result, 3))
       case GoOn(n) => s.(server := AnswerReady(outer, n))
       case _ => s.(server := Serving, serverOpen := true))
    case ServerClosing(asker) =>
      var (asker', said) := AskerGets(asker, Cut(result, 3));
      s.(server := ServerClosing(asker'), toClient := s.toClient + said)
    case _ => s
  }

  /** `teardown`: whether a side that gave up is deinitialised, and so runs the closing exchange, while
      the other may still be at its opening. */
  predicate Enabled(limits: Limits, teardown: bool, s: System, step: Step) {
    match step
    case ClientSends => s.client.asker.Ready?
    case ClientReceives(result) => s.client.asker.Waiting? && CanArrive(result, s.toClient)
    case ClientTalks(_) => s.clientOpen
    case ClientCloses => s.client.Opening? && s.client.asker.Done? && (s.clientOpen || teardown)
    case ServerSends => true
    case ServerReceives(result) =>
      ServerWaits(limits, s.server) && CanArrive(result, s.toServer)
    case ServerTalks(_) => s.serverOpen
    case ServerCloses => s.server.Serving? || (s.server.Failed? && teardown)
  }

  function Apply(limits: Limits, teardown: bool, s: System, step: Step): System
    requires Enabled(limits, teardown, s, step)
  {
    match step
    case ClientSends => ClientStep(limits, s)
    case ClientReceives(result) => ClientGets(s, result)
    case ClientTalks(message) => s.(toServer := s.toServer + {message})
    case ClientCloses => s.(client := Closing(Ready(0)))
    case ServerSends => ServerStep(limits, s)
    case ServerReceives(result) => ServerGets(limits, s, result)
    case ServerTalks(message) => s.(toClient := s.toClient + {message})
    case ServerCloses => s.(server := ServerClosing(Ready(0)))
  }

  datatype Outcome = Stuck | Reached(state: System)

  function Run(limits: Limits, teardown: bool, s: System, steps: seq<Step>): Outcome {
    if steps == [] then Reached(s)
    else
      match Run(limits, teardown, s, steps[..|steps| - 1])
      case Stuck => Stuck
      case Reached(t) =>
        if Enabled(limits, teardown, t, steps[|steps| - 1])
        then Reached(Apply(limits, teardown, t, steps[|steps| - 1])) else Stuck
  }

  // ---------------------------------------------------------------- agreement

  /** Something in the network reads as an 03. */
  predicate HasAck(network: set<Bytes>) {
    exists d :: d in network && Says(Cut(Got(d), 3), ACK_03)
  }

  /** The client took an 03 and sent its own, opening or closing. */
  predicate Confirmed03(s: System) {
    s.clientOpen || s.client == Closing(Done(true))
  }

  ghost predicate Knowledge(teardown: bool, s: System) {
    && (HasAck(s.toServer) ==> Confirmed03(s))
    && (HasAck(s.toClient) ==> s.heard)
    && (Confirmed03(s) ==> s.heard)
    && (s.server.AnswerReady? || s.server.AnswerWaiting? ==> s.heard)
    && (s.serverOpen ==> s.heard && Confirmed03(s))
    && (s.server.Serving? ==> s.serverOpen)
    && (s.client == Opening(Done(true)) ==> s.clientOpen)
    && (s.client.Closing? ==> s.clientOpen || teardown)
  }

  lemma StepKeepsKnowledge(limits: Limits, teardown: bool, s: System, step: Step)
    requires Knowledge(teardown, s) && Enabled(limits, teardown, s, step)
    ensures Knowledge(teardown, Apply(limits, teardown, s, step))
  {
    var t := Apply(limits, teardown, s, step);
    assert !Says(Cut(Got(OPEN_01), 3), ACK_03) && !Says(Cut(Got(CLOSE_02), 3), ACK_03);
    assert forall d :: d in t.toServer ==> d in s.toServer || d == OPEN_01 || d == CLOSE_02 || Confirmed03(t);
    assert forall d :: d in t.toClient ==> d in s.toClient || d == KEEP_ALIVE || d == CLOSE_02 || t.heard;
  }

  lemma {:induction false} RunKeepsKnowledge(limits: Limits, teardown: bool, steps: seq<Step>)
    requires Run(limits, teardown, START, steps).Reached?
    ensures Knowledge(teardown, Run(limits, teardown, START, steps).state)
  {
    if steps != [] {
      var front := steps[..|steps| - 1];
      RunKeepsKnowledge(limits, teardown, front);
      StepKeepsKnowledge(limits, teardown, Run(limits, teardown, START, front).state, steps[|steps| - 1]);
    }
  }

  /** Agreement of the opening: whenever the server has succeeded it took a client's 01, and the
      client had already taken an 03, sent its own and succeeded; and whenever the client has
      succeeded the server took its 01. */
  lemma OpeningAgrees(limits: Limits, steps: seq<Step>)
    requires Run(limits, false, START, steps).Reached?
    ensures var s := Run(limits, false, START, steps).state;
            && (s.serverOpen ==> s.heard && s.clientOpen)
            && (s.clientOpen ==> s.heard)
  {
    RunKeepsKnowledge(limits, false, steps);
  }

  /** With teardown in the picture the server only knows that the client confirmed an 03: that of
      its opening, or that of the closing exchange of a client that gave up. */
  lemma OpeningWithTeardown(limits: Limits, steps: seq<Step>)
    requires Run(limits, true, START, steps).Reached?
    ensures var s := Run(limits, true, START, steps).state;
            && (s.serverOpen ==> s.heard && (s.clientOpen || s.client == Closing(Done(true))))
            && (s.clientOpen ==> s.heard)
  {
    RunKeepsKnowledge(limits, true, steps);
  }

  // ---------------------------------------------------------------- runs that disagree

  ghost predicate Leads(limits: Limits, teardown: bool, steps: seq<Step>, s: System) {
    Run(limits, teardown, START, steps) == Reached(s)
  }

  lemma OneMore(limits: Limits, teardown: bool, steps: seq<Step>, s: System, step: Step)
      returns (steps': seq<Step>, s': System)
    requires Leads(limits, teardown, steps, s) && Enabled(limits, teardown, s, step)
    ensures steps' == steps + [step] && s' == Apply(limits, teardown, s, step)
    ensures Leads(limits, teardown, steps', s')
  {
    steps', s' := steps + [step], Apply(limits, teardown, s, step);
    assert steps'[..|steps|] == steps;
  }

  /** The client asked n times without an answer. */
  lemma {:induction false} AskInVain(limits: Limits, n: nat) returns (steps: seq<Step>, s: System)
    requires n <= limits.client
    ensures Leads(limits, true, steps, s)
    ensures s == START.(client := Opening(Ready(n)), toServer := s.toServer)
    ensures s.toServer == if n == 0 then {} else {OPEN_01}
  {
    if n == 0 {
      steps, s := [], START;
    } else {
      steps, s := AskInVain(limits, n - 1);
      steps, s := OneMore(limits, true, steps, s, ClientSends);
      steps, s := OneMore(limits, true, steps, s, ClientReceives(TimedOut));
    }
  }

  /** A client that gave up can make the server succeed: the 03 that was meant to open reaches it
      in its closing exchange, and the 03 it closes with confirms the opening. */
  lemma TeardownBreaksAgreement(limits: Limits) returns (steps: seq<Step>, s: System)
    requires limits.client > 0 && limits.server > 0
    ensures Leads(limits, true, steps, s) && s.serverOpen && !s.clientOpen
  {
    steps, s := AskInVain(limits, limits.client);
    steps, s := OneMore(limits, true, steps, s, ClientSends);
    steps, s := OneMore(limits, true, steps, s, ServerReceives(Got(OPEN_01)));
    steps, s := OneMore(limits, true, steps, s, ServerSends);
    steps, s := OneMore(limits, true, steps, s, ClientCloses);
    steps, s := OneMore(limits, true, steps, s, ClientSends);
    steps, s := OneMore(limits, true, steps, s, ClientReceives(Got(ACK_03)));
    steps, s := OneMore(limits, true, steps, s, ServerReceives(Got(ACK_03)));
  }

  /** The client opened, and the server answered n times in vain. */
  lemma {:induction false} AnswerInVain(limits: Limits, n: nat) returns (steps: seq<Step>, s: System)
    requires 0 < n <= limits.server && limits.client > 0
    ensures Leads(limits, false, steps, s) && s.clientOpen
    ensures s.server == AnswerReady(0, n)
  {
    if n == 1 {
      steps, s := [], START;
      steps, s := OneMore(limits, false, steps, s, ClientSends);
      steps, s := OneMore(limits, false, steps, s, ServerReceives(Got(OPEN_01)));
      steps, s := OneMore(limits, false, steps, s, ServerSends);
      steps, s := OneMore(limits, false, steps, s, ClientReceives(Got(ACK_03)));
      steps, s := OneMore(limits, false, steps, s, ServerReceives(TimedOut));
    } else {
      steps, s := AnswerInVain(limits, n - 1);
      steps, s := OneMore(limits, false, steps, s, ServerSends);
      steps, s := OneMore(limits, false, steps, s, ServerReceives(TimedOut));
    }
  }

  lemma {:induction false} ListenInVain(limits: Limits, n: nat) returns (steps: seq<Step>, s: System)
    requires limits.client > 0 && limits.server > 0 && n <= limits.server
    ensures Leads(limits, false, steps, s) && s.clientOpen
    ensures s.server == Listening(n)
  {
    if n == 0 {
      steps, s := AnswerInVain(limits, limits.server);
      steps, s := OneMore(limits, false, steps, s, ServerSends);
    } else {
      steps, s := ListenInVain(limits, n - 1);
      steps, s := OneMore(limits, false, steps, s, ServerReceives(TimedOut));
    }
  }

  /** The converse of agreement fails: losing the client's single 03 leaves an opened client and a
      server that has used up its attempts. */
  lemma ClientCanStandAlone(limits: Limits) returns (steps: seq<Step>, s: System)
    requires limits.client > 0 && limits.server > 0
    ensures Leads(limits, false, steps, s) && s.clientOpen && s.server.Failed?
  {
    steps, s := ListenInVain(limits, limits.server);
    steps, s := OneMore(limits, false, steps, s, ServerSends);
  }

  /** A closing can be confirmed by the 03 of the opening: the client is through with it and the server,
      which has taken nothing but the 01, still waits for the opening to be confirmed. */
  lemma StaleAckClosesClient(limits: Limits) returns (steps: seq<Step>, s: System)
    requires limits.client > 0 && limits.server > 0
    ensures Leads(limits, false, steps, s) && s.clientOpen
    ensures s.client == Closing(Done(true)) && s.server == AnswerWaiting(0, 0) && !s.serverOpen
  {
    steps, s := [], START;
    steps, s := OneMore(limits, false, steps, s, ClientSends);
    steps, s := OneMore(limits, false, steps, s, ServerReceives(Got(OPEN_01)));
    steps, s := OneMore(limits, false, steps, s, ServerSends);
    steps, s := OneMore(limits, false, steps, s, ClientReceives(Got(ACK_03)));
    steps, s := OneMore(limits, false, steps, s, ClientCloses);
    steps, s := OneMore(limits, false, steps, s, ClientSends);
    steps, s := OneMore(limits, false, steps, s, ClientReceives(Got(ACK_03)));
  }

  // ---------------------------------------------------------------- both close at once

  /** Two peers in `chownat_disconnect_send`, each with its count of receives. */
  datatype Closers = Closers(left: Asker, right: Asker, toLeft: set<Bytes>, toRight: set<Bytes>,
                             leftReceives: nat, rightReceives: nat)

  datatype CloseStep = LeftSends | RightSends | LeftReceives(result: RecvResult) | RightReceives(result: RecvResult)

  predicate CloseEnabled(c: Closers, step: CloseStep) {
    match step
    case LeftSends => c.left.Ready?
    case RightSends => c.right.Ready?
    case LeftReceives(result) => c.left.Waiting? && CanArrive(result, c.toLeft)
    case RightReceives(result) => c.right.Waiting? && CanArrive(result, c.toRight)
  }

  function CloseApply(limit: nat, c: Closers, step: CloseStep): Closers
    requires CloseEnabled(c, step)
  {
    match step
    case LeftSends =>
      var (asker, said) := AskerSends(CLOSE_02, limit, c.left);
      c.(left := asker, toRight := c.toRight + said)
    case RightSends =>
      var (asker, said) := AskerSends(CLOSE_02, limit, c.right);
      c.(right := asker, toLeft := c.toLeft + said)
    case LeftReceives(result) =>
      var (asker, said) := AskerGets(c.left, Cut(result, 3));
      c.(left := asker, toRight := c.toRight + said, leftReceives := c.leftReceives + 1)
    case RightReceives(result) =>
      var (asker, said) := AskerGets(c.right, Cut(result, 3));
      c.(right := asker, toLeft := c.toLeft + said, rightReceives := c.rightReceives + 1)
  }

  predicate CloseRuns(limit: nat, c: Closers, steps: seq<CloseStep>)
    decreases |steps|
  {
    steps == [] || (CloseEnabled(c, steps[0]) && CloseRuns(limit, CloseApply(limit, c, steps[0]), steps[1..]))
  }

  function CloseRun(limit: nat, c: Closers, steps: seq<CloseStep>): Closers
    requires CloseRuns(limit, c, steps)
    decreases |steps|
  {
    if steps == [] then c else CloseRun(limit, CloseApply(limit, c, steps[0]), steps[1..])
  }

  /** The loop tests and receives of one of the two. */
  function Turns(steps: seq<CloseStep>, left: bool): nat {
    if steps == [] then 0
    else (if left == (steps[0].LeftSends? || steps[0].LeftReceives?) then 1 else 0) + Turns(steps[1..], left)
  }

  /** After so many turns without an 03, with a receive in every second one. */
  predicate CloserHolds(limit: nat, asker: Asker, receives: nat, turns: nat) {
    match asker
    case Ready(attempts) => attempts == receives <= limit && turns == 2 * attempts
    case Waiting(attempts) => attempts == receives < limit && turns == 2 * attempts + 1
    case Done(confirmed) => !confirmed && receives == limit && turns == 2 * limit + 1
  }

  predicate ClosingAlone(limit: nat, c: Closers, leftTurns: nat, rightTurns: nat) {
    && !HasAck(c.toLeft) && !HasAck(c.toRight)
    && CloserHolds(limit, c.left, c.leftReceives, leftTurns)
    && CloserHolds(limit, c.right, c.rightReceives, rightTurns)
  }

  lemma CloseStepKeeps(limit: nat, c: Closers, step: CloseStep, leftTurns: nat, rightTurns: nat)
    requires ClosingAlone(limit, c, leftTurns, rightTurns) && CloseEnabled(c, step)
    ensures ClosingAlone(limit, CloseApply(limit, c, step),
                         leftTurns + (if step.LeftSends? || step.LeftReceives? then 1 else 0),
                         rightTurns + (if step.LeftSends? || step.LeftReceives? then 0 else 1))
  {
    var d := CloseApply(limit, c, step);
    assert !Says(Cut(Got(CLOSE_02), 3), ACK_03);
    assert forall m :: m in d.toLeft ==> m in c.toLeft || m == CLOSE_02;
    assert forall m :: m in d.toRight ==> m in c.toRight || m == CLOSE_02;
  }

  lemma {:induction false} ClosingAloneRun(
    limit: nat, c: Closers, steps: seq<CloseStep>, leftTurns: nat, rightTurns: nat)
    requires ClosingAlone(limit, c, leftTurns, rightTurns) && CloseRuns(limit, c, steps)
    ensures ClosingAlone(limit, CloseRun(limit, c, steps),
                         leftTurns + Turns(steps, true), rightTurns + Turns(steps, false))
    decreases |steps|
  {
    if steps != [] {
      CloseStepKeeps(limit, c, steps[0], leftTurns, rightTurns);
      var leftNow := if steps[0].LeftSends? || steps[0].LeftReceives? then 1 else 0;
      ClosingAloneRun(limit, CloseApply(limit, c, steps[0]), steps[1..], leftTurns + leftNow, rightTurns + 1 - leftNow);
    }
  }

  /** Two peers that start closing at once, with no 03 but anything else in flight, never confirm
      each other. Whatever arrives, each is through after exactly `limit` receives and 2 * limit + 1
      turns, and takes no further turn. */
  lemma SimultaneousClose(limit: nat, toLeft: set<Bytes>, toRight: set<Bytes>, steps: seq<CloseStep>)
    requires !HasAck(toLeft) && !HasAck(toRight)
    requires CloseRuns(limit, Closers(Ready(0), Ready(0), toLeft, toRight, 0, 0), steps)
    ensures var c := CloseRun(limit, Closers(Ready(0), Ready(0), toLeft, toRight, 0, 0), steps);
            && c.leftReceives <= limit && c.rightReceives <= limit
            && Turns(steps, true) <= 2 * limit + 1 && Turns(steps, false) <= 2 * limit + 1
            && (c.left.Done? <==> Turns(steps, true) == 2 * limit + 1)
            && (c.right.Done? <==> Turns(steps, false) == 2 * limit + 1)
            && (c.left.Done? ==> !c.left.confirmed && c.leftReceives == limit)
            && (c.right.Done? ==> !c.right.confirmed && c.rightReceives == limit)
            && !HasAck(c.toLeft) && !HasAck(c.toRight)
  {
    ClosingAloneRun(limit, Closers(Ready(0), Ready(0), toLeft, toRight, 0, 0), steps, 0, 0);
  }
}
