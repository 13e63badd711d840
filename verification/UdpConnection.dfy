/** The event loop `udp_connection`: keep-alive deadline, inactivity count, socket turns. The
    backend, the clock and `select` are an environment that may answer anything; every call the
    loop makes is written to a log with its answer, and what the loop must do is stated about the log. */
module UdpConnection {

  /** What a wait found: the sockets that are readable, or nothing. */
  datatype Wake = Broken | Interrupted | Woken(tcp: bool, udp: bool) | Expired

  /** `Clock`: a reading of the monotonic clock, in microseconds. `Timer`: what the backend wants
      to wait for, if it says. `Select`: a wait and how it ended. `Handled`: the backend's own events.
      `Pending`, `Payload`: how much the backend has buffered itself, and a read of it. `TcpTurn`,
      `UdpTurn`: a read of a readable socket. `Forward`: what was received is written to TCP.
      `IsClosed`: the loop asks whether the session is closed. */
  datatype Event =
    | Clock(now: int)
    | ClockFailed
    | Handled(ok: bool)
    | Pending(size: nat)
    | Payload(ok: bool, size: nat)
    | Timer(limited: bool, micros: int)
    | TimerFailed
    | Select(micros: int, wake: Wake)
    | TcpTurn(ok: bool)
    | UdpTurn(ok: bool)
    | Forward(ok: bool)
    | KeepAlive(ok: bool)
    | Disconnect
    | IsClosed(closed: bool)

  /** What happened so far, newest last. */
  datatype Log = Start | Then(before: Log, last: Event)

  /** The optional functions of the backend, whether there is a TCP socket, and the number of keep-alives
      without an answer that is tolerated. */
  datatype Config = Config(hasEvents: bool, hasPending: bool, hasTcp: bool, threshold: int)

  const KA_INTERVAL: int := 5 * 1000000

  // ---------------------------------------------------------------- what a log says

  predicate IsActivity(e: Event) {
    (e.Payload? && e.ok && e.size > 0) || (e.Select? && e.wake.Woken?)
  }

  /** A clock reading restarts the interval if it is the first, or the first one since a socket
      became ready, payload was drained or a keep-alive was sent. */
  predicate Renews(log: Log) {
    match log
    case Start => true
    case Then(before, e) => !e.Clock? && (IsActivity(e) || e == KeepAlive(true) || Renews(before))
  }

  /** The reading that last restarted the interval. */
  function LastRenewal(log: Log): int {
    match log
    case Start => 0
    case Then(before, e) => if e.Clock? && Renews(before) then e.now else LastRenewal(before)
  }

  function Deadline(log: Log): int {
    LastRenewal(log) + KA_INTERVAL
  }

  function LastClock(log: Log): int {
    match log
    case Start => 0
    case Then(before, e) => if e.Clock? then e.now else LastClock(before)
  }

  /** The clock never goes back. */
  predicate Monotone(log: Log) {
    log.Then? ==> Monotone(log.before) && (log.last.Clock? ==> LastClock(log.before) <= log.last.now)
  }

  /** Keep-alives since the last activity. */
  function IdleKeepAlives(log: Log): nat {
    match log
    case Start => 0
    case Then(before, e) =>
      if IsActivity(e) then 0 else IdleKeepAlives(before) + (if e == KeepAlive(true) then 1 else 0)
  }

  function Min(a: int, b: int): int {
    if a < b then a else b
  }

  // ---------------------------------------------------------------- what is to be done

  /** After the event before it, the session was found still open. */
  predicate StillOpen(log: Log) {
    log.Then? && log.last == IsClosed(false) && log.before.Then?
  }

  predicate FoundClosed(log: Log) {
    log.Then? && log.last == IsClosed(true)
  }

  /** A keep-alive is due: a wait expired and the clock read next has reached the deadline. */
  predicate Due(log: Log) {
    && log.Then? && log.last.Clock? && StillOpen(log.before)
    && log.before.before.last.Select? && log.before.before.last.wake.Expired?
    && log.last.now >= Deadline(log)
  }

  /** A wait is the time left to the deadline, or less if the backend asks for less. */
  predicate WaitRight(log: Log, micros: int) {
    && log.Then? && log.last.Clock? && log.before.Then? && log.before.last.Timer?
    && var remaining := if Deadline(log) > log.last.now then Deadline(log) - log.last.now else 0;
       micros == if log.before.last.limited then Min(log.before.last.micros, remaining) else remaining
  }

  /** Since the last wait the backend's events have been handled. */
  predicate HandledSince(log: Log) {
    log.Then? && !log.last.Select? && (log.last == Handled(true) || HandledSince(log.before))
  }

  /** Since the last wait the backend was found to hold nothing, or to deliver nothing. */
  predicate DrainedSince(log: Log) {
    log.Then? && !log.last.Select? &&
    (log.last == Pending(0) || log.last == Payload(true, 0) || DrainedSince(log.before))
  }

  /** Reading the clock after a keep-alive is where inactivity is judged. */
  predicate Judged(log: Log) {
    log.Then? && log.last.Clock? && StillOpen(log.before) && log.before.before.last == KeepAlive(true)
  }

  /** The count inactivity disconnects at: consecutive idle keep-alive number threshold + 1, and
      only for a backend without an event handler of its own. */
  predicate Inactive(log: Log, config: Config) {
    !config.hasEvents && IdleKeepAlives(log) == config.threshold + 1
  }

  predicate TcpOwed(log: Log, config: Config) {
    log.Then? && log.last.Select? && log.last.wake.Woken? && log.last.wake.tcp && config.hasTcp
  }

  /** The wait found UDP readable, and only TCP has been served since. */
  predicate UdpReady(log: Log) {
    && log.Then?
    && match log.last
       case Select(_, wake) => wake.Woken? && wake.udp
       case TcpTurn(_) => UdpReady(log.before)
       case Disconnect => log.before.Then? && log.before.last == TcpTurn(false) && UdpReady(log.before)
       case _ => false
  }

  predicate UdpOwed(log: Log) {
    StillOpen(log) && UdpReady(log.before)
  }

  predicate ForwardOwed(log: Log) {
    StillOpen(log) && (log.before.last == UdpTurn(true) || (log.before.last.Payload? && log.before.last.ok))
  }

  predicate PayloadOwed(log: Log) {
    log.Then? && log.last.Pending? && log.last.size > 0
  }

  /** A failure to read TCP or to write it, one to receive on a session that is still open, and inactivity. */
  predicate HangUpOwed(log: Log, config: Config) {
    || (log.Then? && (log.last == TcpTurn(false) || log.last == Forward(false)))
    || (StillOpen(log) && (log.before.last == UdpTurn(false) || (log.before.last.Payload? && !log.before.last.ok)))
    || (Judged(log) && Inactive(log, config))
  }

  /** The loop has failed: it does nothing more. A disconnect ends it too, except after a failure to read
      TCP or for inactivity. */
  predicate Over(log: Log) {
    && log.Then?
    && match log.last
       case ClockFailed => true
       case TimerFailed => true
       case Handled(ok) => !ok
       case KeepAlive(ok) => !ok
       case Select(_, wake) => wake.Broken?
       case Disconnect => log.before.Then? && log.before.last != TcpTurn(false) && !Judged(log.before)
       case _ => false
  }

  /** The event that comes next is right: each turn is taken exactly when it is owed, a wait has the right
      length and comes after everything the backend holds, and nothing is done to a closed session. */
  predicate Right(log: Log, e: Event, config: Config) {
    && !Over(log) && (FoundClosed(log) ==> e.IsClosed?)
    && (e.KeepAlive? <==> Due(log))
    && (e.TcpTurn? <==> TcpOwed(log, config))
    && (e.UdpTurn? <==> UdpOwed(log))
    && (e.Forward? <==> ForwardOwed(log))
    && (e.Payload? <==> PayloadOwed(log))
    && (e.Disconnect? <==> HangUpOwed(log, config))
    && (e.Select? ==>
          && WaitRight(log, e.micros)
          && (config.hasEvents ==> HandledSince(log)) && (config.hasPending ==> DrainedSince(log)))
  }

  predicate Scheduled(log: Log, config: Config) {
    log.Then? ==> Scheduled(log.before, config) && Right(log.before, log.last, config)
  }

  /** Nothing is owed. */
  predicate Settled(log: Log, config: Config) {
    && !Due(log) && !TcpOwed(log, config) && !UdpOwed(log) && !ForwardOwed(log) && !PayloadOwed(log)
    && !HangUpOwed(log, config)
  }

  /** Nothing is owed, nor will be if the session is found open. */
  predicate Rested(log: Log, config: Config) {
    && log.Then?
    && match log.last
       case Clock(_) => !Due(log) && !HangUpOwed(log, config)
       case Select(_, wake) => wake.Interrupted?
       case Disconnect => Judged(log.before)
       case Handled(ok) => ok
       case Pending(size) => size == 0
       case Forward(ok) => ok
       case Timer(_, _) => true
       case IsClosed(closed) => !closed && Rested(log.before, config)
       case _ => false
  }

  lemma RestedSettles(log: Log, config: Config)
    requires Rested(log, config)
    ensures Settled(log, config) && !Over(log) && !FoundClosed(log)
    ensures StillOpen(log) ==>
              !log.before.last.KeepAlive? && !(log.before.last.Select? && log.before.last.wake.Expired?)
  {
  }

  lemma EndSettles(log: Log, config: Config)
    requires FoundClosed(log) || Over(log)
    ensures Settled(log, config)
  {
  }

  /** The newest event, read off each of the notions above. */
  lemma Newest(log: Log, config: Config)
    requires log.Then?
    ensures var e, before := log.last, log.before;
            && LastRenewal(log) == (if e.Clock? && Renews(before) then e.now else LastRenewal(before))
            && (Renews(log) <==> !e.Clock? && (IsActivity(e) || e == KeepAlive(true) || Renews(before)))
            && IdleKeepAlives(log) ==
               (if IsActivity(e) then 0 else IdleKeepAlives(before) + (if e == KeepAlive(true) then 1 else 0))
            && (HandledSince(log) <==> !e.Select? && (e == Handled(true) || HandledSince(before)))
            && (DrainedSince(log) <==> !e.Select? && (e == Pending(0) || e == Payload(true, 0) || DrainedSince(before)))
            && (Scheduled(log, config) <==> Scheduled(before, config) && Right(before, e, config))
  {
  }

  // ---------------------------------------------------------------- the environment

  datatype Status = Ok | NotApplicable | Error

  class Environment {
    const config: Config
    var closed: bool
    var log: Log
    /** How many waits and drained payloads are still to be observed. */
    var budget: nat
    var clock: nat

    ghost predicate Valid()
      reads this
    {
      Monotone(log) && LastClock(log) <= clock
    }

    constructor (config: Config, clock: nat, budget: nat)
      ensures Valid() && log == Start && this.budget == budget && this.config == config
    {
      this.config, this.clock, this.budget := config, clock, budget;
      this.log, this.closed := Start, false;
    }

    /** The clock never goes back. */
    method MonotonicMicros() returns (ok: bool, now: int)
      requires Valid()
      modifies this`log, this`clock
      ensures Valid() && log == Then(old(log), if ok then Clock(now) else ClockFailed)
    {
      var passed: nat :| true;
      clock := clock + passed;
      now := clock;
      ok := *;
      log := Then(log, if ok then Clock(now) else ClockFailed);
    }

    method AskClosed() returns (closed: bool)
      requires Valid()
      modifies this`log
      ensures Valid() && closed == this.closed && log == Then(old(log), IsClosed(closed))
    {
      closed := this.closed;
      log := Then(log, IsClosed(closed));
    }

    method ProcessEvents() returns (status: Status)
      requires Valid()
      modifies this`closed, this`log
      ensures Valid() && log == Then(old(log), Handled(status != Error))
    {
      status, closed := *, *;
      log := Then(log, Handled(status != Error));
    }

    method PendingData() returns (size: nat)
      requires Valid()
      modifies this`log
      ensures Valid() && log == Then(old(log), Pending(size))
    {
      size := *;
      log := Then(log, Pending(size));
    }

    method ReceivePending() returns (status: Status, size: nat)
      requires Valid() && budget > 0
      modifies this`closed, this`budget, this`log
      ensures Valid() && budget == old(budget) - 1 && log == Then(old(log), Payload(status != Error, size))
    {
      status, size, closed := *, *, *;
      budget := budget - 1;
      log := Then(log, Payload(status != Error, size));
    }

    method ReceiveTcp() returns (status: Status)
      requires Valid()
      modifies this`closed, this`log
      ensures Valid() && log == Then(old(log), TcpTurn(status != Error))
    {
      status, closed := *, *;
      log := Then(log, TcpTurn(status != Error));
    }

    method ReceiveUdp() returns (status: Status)
      requires Valid()
      modifies this`closed, this`log
      ensures Valid() && log == Then(old(log), UdpTurn(status != Error))
    {
      status, closed := *, *;
      log := Then(log, UdpTurn(status != Error));
    }

    method SendTcp() returns (status: Status)
      requires Valid()
      modifies this`closed, this`log
      ensures Valid() && log == Then(old(log), Forward(status != Error))
    {
      status, closed := *, *;
      log := Then(log, Forward(status != Error));
    }

    method GetTimeout() returns (status: Status, seconds: int, micros: int)
      requires Valid()
      modifies this`log
      ensures Valid()
      ensures log == Then(old(log), if status == Error then TimerFailed
                                    else Timer(status == Ok, seconds * 1000000 + micros))
    {
      status, seconds, micros := *, *, *;
      log := Then(log, if status == Error then TimerFailed else Timer(status == Ok, seconds * 1000000 + micros));
    }

    method SelectSockets(seconds: int, micros: int) returns (wake: Wake)
      requires Valid() && budget > 0
      modifies this`log, this`budget
      ensures Valid() && budget == old(budget) - 1
      ensures log == Then(old(log), Select(seconds * 1000000 + micros, wake))
    {
      wake := *;
      budget := budget - 1;
      log := Then(log, Select(seconds * 1000000 + micros, wake));
    }

    method SendKeepAlive() returns (status: Status)
      requires Valid()
      modifies this`closed, this`log
      ensures Valid() && log == Then(old(log), KeepAlive(status == Ok))
    {
      status, closed := *, *;
      log := Then(log, KeepAlive(status == Ok));
    }

    method Disconnects()
      requires Valid()
      modifies this`closed, this`log
      ensures Valid() && log == Then(old(log), Disconnect)
    {
      closed := *;
      log := Then(log, Disconnect);
    }
  }

  // ---------------------------------------------------------------- consequences of the schedule

  lemma {:induction false} RenewalIsPast(log: Log)
    requires Monotone(log)
    ensures LastRenewal(log) <= LastClock(log)
  {
    if log.Then? {
      RenewalIsPast(log.before);
    }
  }

  /** The reading that restarted the interval after the last activity, or the first reading. */
  function IdleSince(log: Log): int {
    match log
    case Start => 0
    case Then(before, e) =>
      if e.Clock? && Renews(before) && IdleKeepAlives(before) == 0 then e.now else IdleSince(before)
  }

  lemma {:induction false} IdleKeepAlivesTakeTime(log: Log, config: Config)
    requires Scheduled(log, config) && Monotone(log)
    ensures LastClock(log) >= IdleSince(log) + KA_INTERVAL * IdleKeepAlives(log)
    ensures !Renews(log) ==> LastRenewal(log) >= IdleSince(log) + KA_INTERVAL * IdleKeepAlives(log)
  {
    if log.Then? {
      IdleKeepAlivesTakeTime(log.before, config);
    }
  }

  /** Inactivity never disconnects sooner than (threshold + 1) * 5 s after the peer was last heard. */
  lemma NoEarlyDisconnect(log: Log, config: Config)
    requires Scheduled(Then(log, Disconnect), config) && Monotone(log) && Judged(log)
    ensures !config.hasEvents && LastClock(log) >= IdleSince(log) + KA_INTERVAL * (config.threshold + 1)
  {
    IdleKeepAlivesTakeTime(log, config);
  }

  /** The waits that found TCP readable, and the turns of TCP. */
  function TcpWakes(log: Log): nat {
    match log
    case Start => 0
    case Then(before, e) => TcpWakes(before) + (if e.Select? && e.wake.Woken? && e.wake.tcp then 1 else 0)
  }

  function TcpTurns(log: Log): nat {
    match log
    case Start => 0
    case Then(before, e) => TcpTurns(before) + (if e.TcpTurn? then 1 else 0)
  }

  /** What was received without an error on a session still open, and what was written to TCP. */
  function Received(log: Log): nat {
    match log
    case Start => 0
    case Then(before, e) => Received(before) + (if ForwardOwed(log) then 1 else 0)
  }

  function Forwarded(log: Log): nat {
    match log
    case Start => 0
    case Then(before, e) => Forwarded(before) + (if e.Forward? then 1 else 0)
  }

  /** Every wait that finds TCP readable is answered by one turn of TCP, and everything received on an open
      session by one write to TCP: none is left out and none is made up. */
  lemma {:induction false} TurnsMatchWakes(log: Log, config: Config)
    requires Scheduled(log, config)
    ensures TcpTurns(log) + (if TcpOwed(log, config) then 1 else 0) == if config.hasTcp then TcpWakes(log) else 0
    ensures Forwarded(log) + (if ForwardOwed(log) then 1 else 0) == Received(log)
  {
    if log.Then? {
      TurnsMatchWakes(log.before, config);
    }
  }

  /** The log of a wait that expires on an open session and the clock read next. */
  function ExpiredWait(log: Log, asked: int, wait: int, now: int): Log {
    Then(Then(Then(Then(Then(log, Timer(true, KA_INTERVAL)), Clock(asked)), Select(wait, Expired)), IsClosed(false)),
         Clock(now))
  }

  /** With a backend that asks for 5 s, as CHOWNAT does, a wait that expires no earlier than it
      was asked to always leads to a keep-alive: no idle interval passes without one. */
  lemma IdleWaitKeepsAlive(log: Log, asked: int, wait: int, now: int, config: Config)
    requires var expired := ExpiredWait(log, asked, wait, now);
             Scheduled(expired, config) && Monotone(expired) && !Renews(log)
    requires now >= asked + wait
    ensures Due(ExpiredWait(log, asked, wait, now))
  {
    var timed := Then(log, Timer(true, KA_INTERVAL));
    var read := Then(timed, Clock(asked));
    var waited := Then(read, Select(wait, Expired));
    var open := Then(waited, IsClosed(false));
    Newest(Then(open, Clock(now)), config);
    Newest(open, config);
    Newest(waited, config);
    Newest(read, config);
    Newest(timed, config);
    assert Monotone(open) && Monotone(waited) && Monotone(read);
    RenewalIsPast(timed);
    assert WaitRight(read, wait);
  }

  // ---------------------------------------------------------------- the loop

  /** `Observed`: the environment's budget ran out while the session was open. */
  datatype Ending = Closed | Failed | Observed

  ghost predicate Kept(env: Environment)
    reads env
  {
    env.Valid() && Scheduled(env.log, env.config)
  }

  /** What holds of the log wherever the loop owes nothing, and what its two variables mean. */
  ghost predicate InStep(env: Environment, nextKa: int, threshold: int)
    reads env
  {
    && Kept(env) && Rested(env.log, env.config)
    && !Renews(env.log) && nextKa == Deadline(env.log)
    && (!env.config.hasEvents ==> threshold == IdleKeepAlives(env.log))
  }

  /** How the loop ends with the log as it is. */
  ghost predicate EndsAs(env: Environment, ending: Ending)
    reads env
  {
    && Kept(env)
    && match ending
       case Closed => FoundClosed(env.log)
       case Failed => Over(env.log)
       case Observed => env.budget == 0
  }

  /** The session is asked for and found open: nothing changes. */
  method Check(env: Environment, nextKa: int, threshold: int) returns (closed: bool)
    requires InStep(env, nextKa, threshold)
    modifies env`log
    ensures Kept(env) && closed == env.closed
    ensures if closed then FoundClosed(env.log) else InStep(env, nextKa, threshold)
    ensures HandledSince(env.log) == HandledSince(old(env.log)) && DrainedSince(env.log) == DrainedSince(old(env.log))
  {
    RestedSettles(env.log, env.config);
    closed := env.AskClosed();
    Newest(env.log, env.config);
  }

  /** A disconnect that ends the loop. */
  method HangUp(env: Environment)
    requires Kept(env) && HangUpOwed(env.log, env.config) && env.log.last != TcpTurn(false) && !Judged(env.log)
    requires !FoundClosed(env.log)
    modifies env`closed, env`log
    ensures EndsAs(env, Failed)
  {
    env.Disconnects();
    Newest(env.log, env.config);
  }

  /** The log has one event more, which changes neither the interval nor the count. */
  ghost predicate Alike(log: Log, before: Log) {
    && Renews(log) == Renews(before) && LastRenewal(log) == LastRenewal(before)
    && IdleKeepAlives(log) == IdleKeepAlives(before)
    && HandledSince(log) == HandledSince(before) && DrainedSince(log) == DrainedSince(before)
  }

  /** What was received is written to TCP; a failure ends the loop. */
  method ForwardReceived(env: Environment) returns (ok: bool)
    requires Kept(env) && ForwardOwed(env.log)
    modifies env`closed, env`log
    ensures if ok then Kept(env) && env.log == Then(old(env.log), Forward(true)) && Alike(env.log, old(env.log))
            else EndsAs(env, Failed)
  {
    var status := env.SendTcp();
    Newest(env.log, env.config);
    ok := status != Error;
    if !ok { HangUp(env); }
  }

  /** After a receive: whether the session is closed; if it failed on an open session the loop ends. */
  method CheckReceived(env: Environment, received: bool) returns (closed: bool, failed: bool)
    requires Kept(env) && env.log.Then?
    requires env.log.last == UdpTurn(received) || (env.log.last.Payload? && env.log.last.ok == received)
    modifies env`closed, env`log
    ensures failed ==> EndsAs(env, Failed)
    ensures !failed ==>
              && Kept(env) && env.log == Then(old(env.log), IsClosed(closed)) && Alike(env.log, old(env.log))
              && env.closed == old(env.closed) == closed && (!closed ==> ForwardOwed(env.log))
  {
    closed := env.AskClosed();
    Newest(env.log, env.config);
    failed := !closed && !received;
    if failed { HangUp(env); }
  }

  /** The payload the backend holds is read and written to TCP. `stops`: the loop over it ends. */
  method DrainOne(env: Environment, nextKaBefore: int, thresholdBefore: int)
      returns (failed: bool, stops: bool, nextKa: int, threshold: int)
    requires Kept(env) && PayloadOwed(env.log) && env.budget > 0
    requires !Renews(env.log) && nextKaBefore == Deadline(env.log)
    requires !env.config.hasEvents ==> thresholdBefore == IdleKeepAlives(env.log)
    modifies env`log, env`clock, env`closed, env`budget
    ensures env.budget < old(env.budget)
    ensures failed ==> EndsAs(env, Failed)
    ensures !failed && HandledSince(old(env.log)) ==> HandledSince(env.log)
    ensures !failed && stops ==> Kept(env) && ((FoundClosed(env.log) && env.closed) ||
                                               (InStep(env, nextKa, threshold) && DrainedSince(env.log)))
    ensures !failed && !stops ==> InStep(env, nextKa, threshold)
  {
    nextKa, threshold, stops := nextKaBefore, thresholdBefore, true;
    var status, received := env.ReceivePending();
    Newest(env.log, env.config);
    var closed;
    closed, failed := CheckReceived(env, status != Error);
    if failed || closed { return; }
    var forwarded := ForwardReceived(env);
    if !forwarded { return true, stops, nextKa, threshold; }
    failed, stops, nextKa, threshold := AfterForwarding(env, received, nextKa, threshold);
  }

  /** Nothing more if the session is closed or nothing was received; otherwise the interval restarts. */
  method AfterForwarding(env: Environment, received: nat, nextKaBefore: int, thresholdBefore: int)
      returns (failed: bool, stops: bool, nextKa: int, threshold: int)
    requires Kept(env) && env.log.Then? && env.log.last == Forward(true)
    requires if received > 0 then Renews(env.log) && IdleKeepAlives(env.log) == 0
             else !Renews(env.log) && nextKaBefore == Deadline(env.log) && DrainedSince(env.log)
    requires !env.config.hasEvents && received == 0 ==> thresholdBefore == IdleKeepAlives(env.log)
    modifies env`log, env`clock
    ensures failed ==> EndsAs(env, Failed)
    ensures !failed && HandledSince(old(env.log)) ==> HandledSince(env.log)
    ensures !failed && stops ==> Kept(env) && ((FoundClosed(env.log) && env.closed) ||
                                               (InStep(env, nextKa, threshold) && DrainedSince(env.log)))
    ensures !failed && !stops ==> InStep(env, nextKa, threshold)
  {
    nextKa, threshold := nextKaBefore, thresholdBefore;
    assert Rested(env.log, env.config);
    var closed := env.AskClosed();
    Newest(env.log, env.config);
    if closed || received == 0 { return false, true, nextKa, threshold; }
    var ok, now := env.MonotonicMicros();
    Newest(env.log, env.config);
    return !ok, false, now + KA_INTERVAL, 0;
  }

  /** The inner loop: forward everything the backend holds. */
  method DrainPending(env: Environment, nextKaBefore: int, thresholdBefore: int)
      returns (ending: Ending, goOn: bool, nextKa: int, threshold: int)
    requires InStep(env, nextKaBefore, thresholdBefore)
    modifies env`log, env`clock, env`closed, env`budget
    ensures env.budget <= old(env.budget) && (goOn && HandledSince(old(env.log)) ==> HandledSince(env.log))
    ensures goOn ==> Kept(env)
    ensures goOn ==> (FoundClosed(env.log) && env.closed) ||
                     (InStep(env, nextKa, threshold) && (env.config.hasPending ==> DrainedSince(env.log)))
    ensures !goOn ==> ending != Closed && EndsAs(env, ending)
  {
    ending, goOn, nextKa, threshold := Failed, true, nextKaBefore, thresholdBefore;
    var stops := false;
    while env.config.hasPending && !stops
      invariant Kept(env) && env.budget <= old(env.budget) && (HandledSince(old(env.log)) ==> HandledSince(env.log))
      invariant !stops ==> InStep(env, nextKa, threshold)
      invariant stops ==> (FoundClosed(env.log) && env.closed) ||
                          (InStep(env, nextKa, threshold) && DrainedSince(env.log))
      decreases env.budget, !stops
    {
      RestedSettles(env.log, env.config);
      var size := env.PendingData();
      Newest(env.log, env.config);
      if size == 0 { break; }
      if env.budget == 0 { return Observed, false, nextKa, threshold; }
      var failed;
      failed, stops, nextKa, threshold := DrainOne(env, nextKa, threshold);
      if failed { return Failed, false, nextKa, threshold; }
    }
  }

  /** The sockets are being served: the interval is about to be restarted. */
  ghost predicate Restarting(env: Environment)
    reads env
  {
    Kept(env) && Renews(env.log) && IdleKeepAlives(env.log) == 0
  }

  /** The wait found sockets readable, and if TCP is among them it has been served. */
  ghost predicate TcpServed(env: Environment)
    reads env
  {
    && Restarting(env) && env.log.Then? && !Over(env.log) && !TcpOwed(env.log, env.config)
    && ((env.log.last.Select? && env.log.last.wake.Woken?) || env.log.last == TcpTurn(true)
        || (env.log.last.Disconnect? && env.log.before.Then? && env.log.before.last == TcpTurn(false)))
  }

  /** Read from TCP; a failure disconnects but does not end the turn. */
  method ServeTcp(env: Environment)
    requires Restarting(env) && TcpOwed(env.log, env.config)
    modifies env`log, env`closed
    ensures TcpServed(env) && (UdpReady(env.log) <==> UdpReady(old(env.log)))
    ensures env.log == Then(old(env.log), TcpTurn(true)) ||
            env.log == Then(Then(old(env.log), TcpTurn(false)), Disconnect)
  {
    var status := env.ReceiveTcp();
    Newest(env.log, env.config);
    if status == Error {
      env.Disconnects();
      Newest(env.log, env.config);
    }
  }

  /** Read from UDP and forward to TCP: a failing read or write disconnects and ends the loop, unless
      the read failed because the session is closed. */
  method ServeUdp(env: Environment) returns (ending: Ending, goOn: bool)
    requires Restarting(env) && UdpOwed(env.log)
    modifies env`log, env`closed
    ensures goOn ==> Restarting(env) && env.log == Then(Then(Then(old(env.log), UdpTurn(true)), IsClosed(false)),
                                                        Forward(true))
    ensures !goOn ==> ending != Observed && EndsAs(env, ending)
  {
    var status := env.ReceiveUdp();
    Newest(env.log, env.config);
    var closed, failed := CheckReceived(env, status != Error);
    if failed { return Failed, false; }
    if closed { return Closed, false; }
    goOn := ForwardReceived(env);
    ending := Failed;
  }

  /** Read TCP if it is readable, and see whether the session is still open. */
  method ServeTcpFirst(env: Environment, wake: Wake) returns (closed: bool)
    requires Restarting(env) && wake.Woken? && env.log.Then? && env.log.last.Select? && env.log.last.wake == wake
    modifies env`log, env`closed
    ensures Kept(env) && (if closed then FoundClosed(env.log) else Restarting(env) && SocketsSeen(env.log))
    ensures !closed ==> (UdpOwed(env.log) <==> wake.udp)
  {
    if env.config.hasTcp && wake.tcp { ServeTcp(env); }
    closed := env.AskClosed();
    Newest(env.log, env.config);
  }

  /** The session was found open after a wait that found sockets readable, or after TCP was served. */
  predicate SocketsSeen(log: Log) {
    StillOpen(log) && (log.before.last.Select? || log.before.last.TcpTurn? || log.before.last.Disconnect?)
    && !(log.before.last.Select? && log.before.last.wake.Expired?)
  }

  /** The sockets are ready: read TCP, read UDP and forward, restart the interval. */
  method ServeSockets(env: Environment) returns (ending: Ending, goOn: bool, nextKa: int)
    requires Restarting(env) && env.log.Then? && env.log.last.Select? && env.log.last.wake.Woken?
    modifies env`log, env`clock, env`closed
    ensures goOn ==> InStep(env, nextKa, 0)
    ensures !goOn ==> ending != Observed && EndsAs(env, ending)
  {
    nextKa := 0;
    var wake := env.log.last.wake;
    var closed := ServeTcpFirst(env, wake);
    if closed { return Closed, false, nextKa; }
    if wake.udp {
      ending, goOn := ServeUdp(env);
      if !goOn { return; }
    }
    goOn, nextKa := Restart(env);
    ending := Failed;
  }

  /** The clock is read and the interval restarted. */
  method Restart(env: Environment) returns (ok: bool, nextKa: int)
    requires Restarting(env) && env.log.Then?
    requires env.log.last == Forward(true) || (SocketsSeen(env.log) && !UdpOwed(env.log))
    modifies env`log, env`clock
    ensures if ok then InStep(env, nextKa, 0) else EndsAs(env, Failed)
  {
    var now;
    ok, now := env.MonotonicMicros();
    Newest(env.log, env.config);
    nextKa := now + KA_INTERVAL;
  }

  /** The keep-alive is sent and inactivity judged. */
  method KeepAwake(env: Environment, thresholdBefore: int)
      returns (ending: Ending, goOn: bool, nextKa: int, threshold: int)
    requires Kept(env) && Due(env.log) && !Renews(env.log)
    requires !env.config.hasEvents ==> thresholdBefore == IdleKeepAlives(env.log)
    modifies env`log, env`clock, env`closed
    ensures goOn ==> InStep(env, nextKa, threshold)
    ensures !goOn ==> ending != Observed && EndsAs(env, ending)
  {
    ending, nextKa, threshold := Failed, 0, thresholdBefore;
    var status := env.SendKeepAlive();
    Newest(env.log, env.config);
    if status != Ok { return Failed, false, nextKa, threshold; }
    var closed := env.AskClosed();
    Newest(env.log, env.config);
    if closed { return Closed, false, nextKa, threshold; }
    goOn, nextKa, threshold := Judge(env, threshold);
  }

  /** The interval restarts after a keep-alive; the count reaches its end or grows. */
  method Judge(env: Environment, thresholdBefore: int) returns (ok: bool, nextKa: int, threshold: int)
    requires Kept(env) && StillOpen(env.log) && env.log.before.last == KeepAlive(true) && Renews(env.log)
    requires !env.config.hasEvents ==> thresholdBefore + 1 == IdleKeepAlives(env.log)
    modifies env`log, env`clock, env`closed
    ensures if ok then InStep(env, nextKa, threshold) else EndsAs(env, Failed)
  {
    threshold := thresholdBefore;
    var now;
    ok, now := env.MonotonicMicros();
    Newest(env.log, env.config);
    nextKa := now + KA_INTERVAL;
    if ok && !env.config.hasEvents {
      if threshold == env.config.threshold {
        env.Disconnects();
        Newest(env.log, env.config);
      }
      threshold := threshold + 1;
    }
  }

  /** The wait expired: send a keep-alive if it is due, and judge inactivity. */
  method Idle(env: Environment, nextKaBefore: int, thresholdBefore: int)
      returns (ending: Ending, goOn: bool, nextKa: int, threshold: int)
    requires Kept(env) && env.log.Then? && env.log.last.Select? && env.log.last.wake.Expired?
    requires !Renews(env.log) && nextKaBefore == Deadline(env.log)
    requires !env.config.hasEvents ==> thresholdBefore == IdleKeepAlives(env.log)
    modifies env`log, env`clock, env`closed
    ensures goOn ==> InStep(env, nextKa, threshold)
    ensures !goOn ==> ending != Observed && EndsAs(env, ending)
  {
    ending, goOn, nextKa, threshold := Failed, true, nextKaBefore, thresholdBefore;
    var closed := env.AskClosed();
    Newest(env.log, env.config);
    if closed { return Closed, false, nextKa, threshold; }
    var ok, now := env.MonotonicMicros();
    Newest(env.log, env.config);
    if !ok { return Failed, false, nextKa, threshold; }
    if now >= nextKa {
      ending, goOn, nextKa, threshold := KeepAwake(env, threshold);
    }
  }

  /** Ask the backend, read the clock, and take the earlier of its wish and the deadline. */
  method ChooseWait(env: Environment, nextKa: int, threshold: int) returns (ok: bool, seconds: int, micros: int)
    requires InStep(env, nextKa, threshold)
    modifies env`log, env`clock
    ensures !ok ==> EndsAs(env, Failed)
    ensures ok ==> InStep(env, nextKa, threshold) && WaitRight(env.log, seconds * 1000000 + micros)
    ensures HandledSince(env.log) == HandledSince(old(env.log)) && DrainedSince(env.log) == DrainedSince(old(env.log))
  {
    var status;
    RestedSettles(env.log, env.config);
    status, seconds, micros := env.GetTimeout();
    Newest(env.log, env.config);
    if status == Error { return false, 0, 0; }
    RestedSettles(env.log, env.config);
    var now;
    ok, now := env.MonotonicMicros();
    Newest(env.log, env.config);
    if !ok { return; }
    var remaining := if nextKa > now then nextKa - now else 0;
    if status == NotApplicable || remaining < seconds * 1000000 + micros {
      seconds, micros := remaining / 1000000, remaining % 1000000;
    }
  }

  /** Everything before the wait: is the session open, the backend's events, what it holds. */
  method Prepare(env: Environment, nextKaBefore: int, thresholdBefore: int)
      returns (ending: Ending, goOn: bool, nextKa: int, threshold: int)
    requires InStep(env, nextKaBefore, thresholdBefore)
    modifies env`log, env`clock, env`closed, env`budget
    ensures env.budget <= old(env.budget)
    ensures goOn ==>
              && InStep(env, nextKa, threshold) && (env.config.hasEvents ==> HandledSince(env.log))
              && (env.config.hasPending ==> DrainedSince(env.log))
    ensures !goOn ==> EndsAs(env, ending)
  {
    ending, goOn, nextKa, threshold := Closed, false, nextKaBefore, thresholdBefore;
    var closed := Check(env, nextKa, threshold);
    if closed { return; }
    if env.config.hasEvents {
      RestedSettles(env.log, env.config);
      var status := env.ProcessEvents();
      Newest(env.log, env.config);
      if status == Error { return Failed, false, nextKa, threshold; }
      closed := Check(env, nextKa, threshold);
      if closed { return; }
    }
    ending, goOn, nextKa, threshold := DrainPending(env, nextKa, threshold);
    if !goOn { return; }
    closed := CheckDrained(env, nextKa, threshold);
    if closed { return Closed, false, nextKa, threshold; }
  }

  method CheckDrained(env: Environment, nextKa: int, threshold: int) returns (closed: bool)
    requires Kept(env) && ((FoundClosed(env.log) && env.closed) || InStep(env, nextKa, threshold))
    modifies env`log
    ensures Kept(env)
    ensures if closed then FoundClosed(env.log)
            else InStep(env, nextKa, threshold) && HandledSince(env.log) == HandledSince(old(env.log))
                 && DrainedSince(env.log) == DrainedSince(old(env.log)) && !FoundClosed(old(env.log))
  {
    if Rested(env.log, env.config) { RestedSettles(env.log, env.config); }
    closed := env.AskClosed();
    Newest(env.log, env.config);
  }

  /** One wait and what it leads to. */
  method Turn(env: Environment, nextKaBefore: int, thresholdBefore: int)
      returns (ending: Ending, goOn: bool, nextKa: int, threshold: int)
    requires InStep(env, nextKaBefore, thresholdBefore) && env.budget > 0
    requires (env.config.hasEvents ==> HandledSince(env.log)) && (env.config.hasPending ==> DrainedSince(env.log))
    modifies env`log, env`clock, env`closed, env`budget
    ensures env.budget <= old(env.budget) && (goOn ==> env.budget < old(env.budget))
    ensures goOn ==> InStep(env, nextKa, threshold)
    ensures !goOn ==> EndsAs(env, ending)
  {
    ending, goOn, nextKa, threshold := Failed, true, nextKaBefore, thresholdBefore;
    var ok, seconds, micros := ChooseWait(env, nextKa, threshold);
    if !ok { return Failed, false, nextKa, threshold; }
    RestedSettles(env.log, env.config);
    var wake := env.SelectSockets(seconds, micros);
    Newest(env.log, env.config);
    match wake {
      case Broken => return Failed, false, nextKa, threshold;
      case Interrupted =>
      case Woken(_, _) =>
        ending, goOn, nextKa := ServeSockets(env);
        threshold := 0;
      case Expired =>
        ending, goOn, nextKa, threshold := Idle(env, nextKa, threshold);
    }
  }

  /** `udp_connection` after the session has been opened: over the whole log every turn is taken exactly
      when it is owed; it ends only with a session found closed, after a failure, or when the
      environment is no longer observed. */
  method Loop(env: Environment) returns (ending: Ending)
    requires env.Valid() && env.log == Start
    modifies env`log, env`clock, env`closed, env`budget
    ensures Monotone(env.log) && Scheduled(env.log, env.config) && EndsAs(env, ending)
    ensures ending != Observed ==> Settled(env.log, env.config)
  {
    var nextKa;
    ending, nextKa := Begin(env);
    if ending == Failed {
      EndSettles(env.log, env.config);
      return;
    }
    var goOn, threshold := true, 0;
    while goOn && env.budget > 0
      invariant if goOn then InStep(env, nextKa, threshold) else EndsAs(env, ending)
      decreases env.budget, goOn
    {
      ending, goOn, nextKa, threshold := Prepare(env, nextKa, threshold);
      if goOn && env.budget > 0 {
        ending, goOn, nextKa, threshold := Turn(env, nextKa, threshold);
      }
    }
    if goOn { return Observed; }
    if ending != Observed { EndSettles(env.log, env.config); }
  }

  /** The first reading of the clock. */
  method Begin(env: Environment) returns (ending: Ending, nextKa: int)
    requires env.Valid() && env.log == Start
    modifies env`log, env`clock
    ensures if ending == Failed then EndsAs(env, Failed) else InStep(env, nextKa, 0)
  {
    var ok, now := env.MonotonicMicros();
    Newest(env.log, env.config);
    ending, nextKa := if ok then Observed else Failed, now + KA_INTERVAL;
  }
}
