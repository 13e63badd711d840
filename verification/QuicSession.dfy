/** The life of an OpenSSL QUIC session: who owns which handle, when it is closed and with what
    status, and how long a shutdown may wait. OpenSSL, the clock and `select` may answer anything. */
module QuicSession {

  datatype Status = Ok | Err | AlreadyInit | NotInit

  datatype Reason = ConnectedCallback | DisconnectedCallback

  datatype ShutdownResult = Complete | InProgress | WantsIo | Fatal

  /** What the library, the clock and `select` answered. `Looked`: a clock reading in milliseconds; the
      first of a shutdown is `Started`, or `StartFailed`. `Timer`: the library's next event, in
      microseconds. `Waited`: a wait in milliseconds. `Created`: a new handle, 0 if there is none.
      `Tried`: a call on the way to a connection. `Failed`: any other call that failed. */
  datatype Event =
    | Started(now: int)
    | StartFailed
    | Handled
    | Shut(result: ShutdownResult)
    | CloseKnown(known: bool, code: nat)
    | Looked(now: int)
    | Timer(infinite: bool, micros: int)
    | Waited(millis: int)
    | Created(handle: nat)
    | Tried(ok: bool)
    | Failed

  datatype Log = Start | Then(before: Log, last: Event)

  const BUDGET_MS: int := 5000

  /** When the shutdown under way began. */
  function Began(log: Log): int {
    match log
    case Start => 0
    case Then(before, e) => if e.Started? then e.now else Began(before)
  }

  /** The smallest number of whole milliseconds that is no less than `micros`. */
  predicate RoundsUp(micros: int, millis: int) {
    (millis - 1) * 1000 < micros <= millis * 1000
  }

  /** A wait never ends before it begins nor after the shutdown's budget, and is the backend's
      timer rounded up to a millisecond wherever that comes first. */
  predicate WaitInBudget(log: Log, millis: int) {
    && log.Then? && log.last.Timer? && log.before.Then? && log.before.last.Looked?
    && var timer, now, deadline := log.last, log.before.last.now, Began(log) + BUDGET_MS;
       && now < deadline && 0 <= millis && now + millis <= deadline
       && (timer.infinite ==> now + millis == deadline)
       && (!timer.infinite ==>
             RoundsUp(timer.micros, millis) || (now + millis == deadline && millis * 1000 < timer.micros))
  }

  /** The shutdown under way has been tried after its events were handled, and was not complete; the
      close status was looked at. */
  predicate TriedInVain(log: Log) {
    && log.Then? && log.last.CloseKnown? && log.before.Then?
    && (log.before.last == Shut(InProgress) || log.before.last == Shut(WantsIo))
  }

  /** Events are handled before every attempt, an attempt and a look at the close status come before every
      look at the clock, and every wait is inside the budget. */
  predicate InBudget(log: Log) {
    log.Then? ==>
      && InBudget(log.before)
      && (log.last.Waited? ==> WaitInBudget(log.before, log.last.millis))
      && (log.last.Shut? ==> log.before.Then? && log.before.last.Handled?)
      && (log.last.Looked? ==> TriedInVain(log.before))
  }

  /** `log` continues `before`. */
  predicate Continues(before: Log, log: Log) {
    log == before || (log.Then? && Continues(before, log.before))
  }

  lemma {:induction false} ContinuesOn(first: Log, second: Log, third: Log)
    requires Continues(first, second) && Continues(second, third)
    ensures Continues(first, third)
  {
    if third != second { ContinuesOn(first, second, third.before); }
  }

  predicate Starts(e: Event) {
    e.Started? || e.StartFailed?
  }

  /** The shutdowns begun. */
  function Shutdowns(log: Log): nat {
    match log
    case Start => 0
    case Then(before, e) => Shutdowns(before) + (if Starts(e) then 1 else 0)
  }

  /** The last shutdown begun has been completed. */
  predicate Completed(log: Log) {
    log.Then? && !Starts(log.last) && (log.last == Shut(Complete) || Completed(log.before))
  }

  /** A close with a code other than 0 has been seen since it began. */
  predicate CodeSeen(log: Log) {
    && log.Then? && !Starts(log.last)
    && ((log.last.CloseKnown? && log.last.known && log.last.code != 0) || CodeSeen(log.before))
  }

  /** The newest event, read off each of the notions above. */
  lemma Newest(from: Log, log: Log)
    requires log.Then?
    ensures var e, before := log.last, log.before;
            && Began(log) == (if e.Started? then e.now else Began(before))
            && Shutdowns(log) == Shutdowns(before) + (if Starts(e) then 1 else 0)
            && (Completed(log) <==> !Starts(e) && (e == Shut(Complete) || Completed(before)))
            && (CodeSeen(log) <==> !Starts(e) && ((e.CloseKnown? && e.known && e.code != 0) || CodeSeen(before)))
            && (Continues(from, before) ==> Continues(from, log))
            && (InBudget(log) <==>
                  && InBudget(before) && (e.Waited? ==> WaitInBudget(before, e.millis))
                  && (e.Shut? ==> before.Then? && before.last.Handled?) && (e.Looked? ==> TriedInVain(before)))
  {
  }

  /** A call failed, the shutdown did, or its time is over. */
  predicate GaveUp(log: Log) {
    && log.Then?
    && (log.last.StartFailed? || log.last.Failed? || log.last == Shut(Fatal)
        || (log.last.Looked? && log.last.now >= Began(log) + BUDGET_MS))
  }

  /** A connection that has been shut down: the status stays OK exactly if it was and a shutdown was
      completed without a code; one not completed has been given up for a reason. */
  predicate ShutDown(usable: bool, before: Log, log: Log, was: Status, status: Status) {
    && Continues(before, log) && Shutdowns(log) == Shutdowns(before) + 1
    && (status == Ok || status == Err) && (status == Ok <==> was == Ok && Completed(log) && !CodeSeen(log))
    && (!Completed(log) && usable ==> GaveUp(log))
  }

  /** A session that has been closed: without a connection that is an error. */
  predicate ClosedWith(usable: bool, conn: nat, before: Log, log: Log, was: Status, status: Status) {
    if conn == 0 then log == before && status == Err else ShutDown(usable, before, log, was, status)
  }

  /** Waits since the shutdown began. */
  function Waits(log: Log): nat {
    match log
    case Start => 0
    case Then(before, e) => if e.Started? then 0 else Waits(before) + (if e.Waited? then 1 else 0)
  }

  function LastLook(log: Log): int {
    match log
    case Start => 0
    case Then(before, e) => if e.Started? || e.Looked? then e.now else LastLook(before)
  }

  /** Whether a wait has passed since the last look. */
  predicate WaitedSince(log: Log) {
    log.Then? && !log.last.Started? && !log.last.Looked? && (log.last.Waited? || WaitedSince(log.before))
  }

  /** Every look is no earlier than the previous one, and later if a wait lies in between. */
  predicate ClockGains(log: Log) {
    log.Then? ==>
      && ClockGains(log.before)
      && (log.last.Looked? ==> LastLook(log.before) + (if WaitedSince(log.before) then 1 else 0) <= log.last.now)
  }

  /** If the clock gains at least a millisecond from one iteration to the next, a shutdown waits
      at most 5000 times. */
  lemma {:induction false} ShutdownEnds(log: Log)
    requires InBudget(log) && ClockGains(log)
    ensures Waits(log) <= BUDGET_MS
    ensures log.Then? ==> LastLook(log) + (if WaitedSince(log) then 1 else 0) >= Began(log) + Waits(log)
  {
    if log.Then? {
      ShutdownEnds(log.before);
    }
  }

  // ---------------------------------------------------------------- the foreign library

  /** OpenSSL, the clock and `select`. Handles are numbered as they are created; 0 is NULL. */
  class Library {
    var created: nat
    /** The handles created and not yet freed. */
    ghost var live: set<nat>
    var log: Log
    var clock: nat
    /** How many more shutdown calls may stay undecided: any number, but not for ever. */
    var undecided: nat

    constructor (clock: nat, undecided: nat)
      ensures created == 0 && live == {} && log == Start
    {
      created, live, log, this.clock, this.undecided := 0, {}, Start, clock, undecided;
    }

    /** A new object, or NULL. */
    method Create() returns (handle: nat)
      modifies this`created, this`live, this`log
      ensures log == Then(old(log), Created(handle))
      ensures handle == 0 ==> created == old(created) && live == old(live)
      ensures handle != 0 ==> handle == created == old(created) + 1 && live == old(live) + {handle}
    {
      var succeeds: bool := *;
      handle := 0;
      if succeeds {
        created := created + 1;
        live := live + {created};
        handle := created;
      }
      log := Then(log, Created(handle));
    }

    /** Freeing NULL does nothing; freeing anything twice must not happen. */
    method Free(handle: nat)
      requires handle == 0 || handle in live
      modifies this`live
      ensures live == old(live) - {handle}
    {
      live := live - {handle};
    }

    /** A call on the way to a connection. */
    method Succeeds() returns (ok: bool)
      modifies this`log
      ensures log == Then(old(log), Tried(ok))
    {
      ok := *;
      log := Then(log, Tried(ok));
    }

    method HandleEvents() returns (ok: bool)
      modifies this`log
      ensures log == Then(old(log), if ok then Handled else Failed)
    {
      ok := *;
      log := Then(log, if ok then Handled else Failed);
    }

    method Shutdown() returns (result: ShutdownResult)
      modifies this`undecided, this`log
      ensures log == Then(old(log), Shut(result))
      ensures result == Complete || result == Fatal || undecided < old(undecided)
    {
      result := *;
      if undecided == 0 {
        if result != Complete { result := Fatal; }
      } else {
        undecided := undecided - 1;
      }
      log := Then(log, Shut(result));
    }

    /** Whether the peer's or our own close is known, and its error code. */
    method CloseInfo() returns (known: bool, code: nat)
      modifies this`log
      ensures log == Then(old(log), CloseKnown(known, code))
    {
      known, code := *, *;
      log := Then(log, CloseKnown(known, code));
    }

    method MonotonicMs(starting: bool) returns (now: int)
      modifies this`log, this`clock
      ensures log == Then(old(log), if now < 0 then (if starting then StartFailed else Failed)
                                    else if starting then Started(now) else Looked(now))
    {
      var passed: nat :| true;
      var fails: bool := *;
      clock := clock + passed;
      now := if fails then -1 else clock;
      log := Then(log, if fails then (if starting then StartFailed else Failed)
                       else if starting then Started(now) else Looked(now));
    }

    /** Timer values are normalised. */
    method EventTimeout() returns (ok: bool, infinite: bool, seconds: nat, micros: nat)
      modifies this`log
      ensures micros < 1000000
      ensures log == Then(old(log), if ok then Timer(infinite, seconds * 1000000 + micros) else Failed)
    {
      ok, infinite, seconds := *, *, *;
      micros := *;
      micros := micros % 1000000;
      log := Then(log, if ok then Timer(infinite, seconds * 1000000 + micros) else Failed);
    }

    /** `broken`: `select` failed for another reason than an interruption. */
    method SelectFor(seconds: int, micros: int) returns (broken: bool)
      requires micros % 1000 == 0
      modifies this`log
      ensures var waited := Then(old(log), Waited(seconds * 1000 + micros / 1000));
              log == if broken then Then(waited, Failed) else waited
    {
      broken := *;
      log := Then(log, Waited(seconds * 1000 + micros / 1000));
      if broken { log := Then(log, Failed); }
    }
  }

  // ---------------------------------------------------------------- the session

  function Count(callbacks: seq<Reason>): nat {
    if callbacks == [] then 0
    else Count(callbacks[..|callbacks| - 1]) + (if callbacks[|callbacks| - 1] == DisconnectedCallback then 1 else 0)
  }

  lemma CountAppend(callbacks: seq<Reason>, reason: Reason)
    ensures Count(callbacks + [reason]) == Count(callbacks) + (if reason == DisconnectedCallback then 1 else 0)
  {
    assert (callbacks + [reason])[..|callbacks|] == callbacks;
  }

  lemma SplitMillis(wait: nat)
    ensures (wait / 1000) * 1000 + ((wait % 1000) * 1000) / 1000 == wait
    ensures ((wait % 1000) * 1000) % 1000 == 0
  {
  }

  lemma WaitChosen(log: Log, started: int, now: int, infinite: bool, seconds: nat, micros: nat, wait: int)
    requires log.Then? && log.last == Looked(now) && Began(log) == started && now < started + BUDGET_MS
    requires micros < 1000000
    requires var event := seconds * 1000 + (micros + 999) / 1000;
             wait == if !infinite && event < started + BUDGET_MS - now then event else started + BUDGET_MS - now
    ensures WaitInBudget(Then(log, Timer(infinite, seconds * 1000000 + micros)), wait)
  {
  }

  datatype Mode = ClientMode | ServerMode | OtherMode

  /** The handles a new connection loses. */
  function Overwritten(mode: Mode, conn: nat, listener: nat): set<nat> {
    match mode
    case ClientMode => {conn} - {0}
    case ServerMode => {conn, listener} - {0}
    case OtherMode => {}
  }

  /** Whether there is nothing to lose: what a caller can look at before connecting. */
  predicate NothingOverwritten(mode: Mode, conn: nat, listener: nat) {
    mode == OtherMode || (conn == 0 && (mode == ServerMode ==> listener == 0))
  }

  /** A server needs its certificate and key. */
  predicate CanInit(mode: Mode, certified: bool) {
    mode == ClientMode || (mode == ServerMode && certified)
  }

  /** What opening a connection says to the library: a handle, and each call only after the one before
      succeeded, except that a missing first handle is noticed only by the call that uses it. */
  predicate Opening(mode: Mode, before: Log, first: nat, second: nat, log: Log, ok: bool) {
    match mode
    case ClientMode =>
      var created := Then(before, Created(first));
      if ok then log == Then(Then(created, Tried(true)), Tried(true))
      else log == Then(created, Tried(false)) || log == Then(Then(created, Tried(true)), Tried(false))
    case ServerMode =>
      var created := Then(Then(before, Created(first)), Created(second));
      if second == 0 then !ok && log == created else log == Then(created, Tried(ok))
    case OtherMode => !ok && log == before
  }

  class Session {
    const library: Library
    var initialised: bool
    var closed: bool
    var closeStatus: Status
    var ctx: nat
    var listener: nat
    var conn: nat
    /** The callbacks since `Init`. */
    var callbacks: seq<Reason>
    /** How often `Connect` found the session closed when it set `closed` to 0, since `Init`. */
    ghost var reopenings: nat
    /** Handles a second `Connect` overwrote. */
    ghost var leaked: set<nat>

    /** Every live handle is held by exactly one field or was overwritten. */
    ghost predicate Accounted()
      reads this`ctx, this`listener, this`conn, this`leaked, library`created, library`live
    {
      && (forall h :: h in library.live ==>
            0 < h <= library.created && (h == ctx || h == listener || h == conn || h in leaked))
      && leaked <= library.live && ctx !in leaked && listener !in leaked && conn !in leaked
      && (ctx != 0 ==> ctx in library.live && ctx != listener && ctx != conn)
      && (listener != 0 ==> listener in library.live && listener != conn)
      && (conn != 0 ==> conn in library.live)
    }

    /** The DISCONNECTED callbacks are as many as reopenings, plus one if closed now. */
    ghost predicate Latched()
      reads this`closed, this`closeStatus, this`callbacks, this`reopenings
    {
      (closeStatus == Ok || closeStatus == Err) && Count(callbacks) == reopenings + (if closed then 1 else 0)
    }

    ghost predicate Valid()
      reads this, library
    {
      Accounted() && Latched() && InBudget(library.log)
    }

    constructor (library: Library)
      requires library.created == 0 && library.live == {} && library.log == Start
      ensures Valid() && this.library == library && !initialised && callbacks == [] && leaked == {}
    {
      this.library, initialised, closed, closeStatus := library, false, false, Ok;
      ctx, listener, conn, callbacks := 0, 0, 0, [];
      reopenings, leaked := 0, {};
    }

    /** Exactly a known close with a code other than 0 is recorded, and only over OK. */
    method RecordCloseStatus() returns (known: bool, code: nat)
      modifies this`closeStatus, library`log
      ensures library.log == Then(old(library.log), CloseKnown(known, code))
      ensures closeStatus == if known && code != 0 && old(closeStatus) == Ok then Err else old(closeStatus)
    {
      known, code := library.CloseInfo();
      if !known { return; }
      if code != 0 && closeStatus == Ok { closeStatus := Err; }
    }

    /** One attempt: the events handled, the shutdown tried, the close status looked at. `decided`: there
        is nothing to wait for. */
    method TryShutdown() returns (decided: bool, status: Status)
      requires InBudget(library.log) && (closeStatus == Ok || closeStatus == Err) && !Completed(library.log)
      requires CodeSeen(library.log) ==> closeStatus == Err
      modifies this`closeStatus, library`log, library`undecided
      ensures InBudget(library.log) && Continues(old(library.log), library.log)
      ensures Began(library.log) == Began(old(library.log)) && Shutdowns(library.log) == Shutdowns(old(library.log))
      ensures closeStatus == if old(closeStatus) == Ok && CodeSeen(library.log) then Err else old(closeStatus)
      ensures CodeSeen(old(library.log)) ==> CodeSeen(library.log)
      ensures decided ==> status == (if Completed(library.log) then closeStatus else Err)
      ensures decided && !Completed(library.log) ==> GaveUp(library.log)
      ensures !decided ==>
                library.undecided < old(library.undecided) && TriedInVain(library.log) && !Completed(library.log)
    {
      ghost var before := library.log;
      var handled := library.HandleEvents();
      Newest(before, library.log);
      if !handled { return true, Err; }
      var result := library.Shutdown();
      Newest(before, library.log);
      if result == Fatal { return true, Err; }
      var _, _ := RecordCloseStatus();
      Newest(before, library.log);
      return result == Complete, closeStatus;
    }

    /** The wait between two attempts, unless the time is over. */
    method WaitForEvents(deadline: int) returns (ok: bool)
      requires InBudget(library.log) && TriedInVain(library.log) && deadline == Began(library.log) + BUDGET_MS
      modifies library`log, library`clock
      ensures InBudget(library.log) && Continues(old(library.log), library.log)
      ensures Began(library.log) == Began(old(library.log)) && Shutdowns(library.log) == Shutdowns(old(library.log))
      ensures CodeSeen(library.log) == CodeSeen(old(library.log))
      ensures Completed(library.log) == Completed(old(library.log))
      ensures !ok ==> GaveUp(library.log)
    {
      ghost var before := library.log;
      var now := library.MonotonicMs(false);
      Newest(before, library.log);
      if now < 0 || now >= deadline { return false; }
      ghost var looked := library.log;
      var more, infinite, seconds, micros := library.EventTimeout();
      Newest(before, library.log);
      if !more { return false; }
      var wait := deadline - now;
      if !infinite {
        var event := seconds * 1000 + (micros + 999) / 1000;
        if event < wait { wait := event; }
      }
      if wait < 0 { wait := 0; }
      WaitChosen(looked, deadline - BUDGET_MS, now, infinite, seconds, micros, wait);
      SplitMillis(wait);
      var broken := library.SelectFor(wait / 1000, (wait % 1000) * 1000);
      if broken { Newest(before, library.log.before); }
      Newest(before, library.log);
      return !broken;
    }

    /** Waits only inside the budget. It succeeds exactly if the shutdown was completed and neither it nor
        anything before it recorded a code; it fails otherwise only if it had to be given up. */
    method FinishShutdown(usable: bool) returns (status: Status)
      requires InBudget(library.log) && (closeStatus == Ok || closeStatus == Err)
      modifies this`closeStatus, library`log, library`clock, library`undecided
      ensures InBudget(library.log) && ShutDown(usable, old(library.log), library.log, old(closeStatus), status)
      ensures closeStatus == if old(closeStatus) == Ok && CodeSeen(library.log) then Err else old(closeStatus)
    {
      var started := library.MonotonicMs(true);
      Newest(old(library.log), library.log);
      if started < 0 || !usable { return Err; }
      var deadline := started + BUDGET_MS;
      while true
        invariant InBudget(library.log) && Began(library.log) == started && !Completed(library.log)
        invariant Continues(old(library.log), library.log)
        invariant Shutdowns(library.log) == Shutdowns(old(library.log)) + 1
        invariant closeStatus == if old(closeStatus) == Ok && CodeSeen(library.log) then Err else old(closeStatus)
        decreases library.undecided
      {
        ghost var before := library.log;
        var decided;
        decided, status := TryShutdown();
        ContinuesOn(old(library.log), before, library.log);
        if decided { return; }
        ghost var tried := library.log;
        var ok := WaitForEvents(deadline);
        ContinuesOn(old(library.log), tried, library.log);
        if !ok { return Err; }
      }
    }

    method EndSession()
      requires Latched() && !closed
      modifies this`closed, this`callbacks
      ensures Latched() && closed && callbacks == old(callbacks) + [DisconnectedCallback]
    {
      closed := true;
      CountAppend(callbacks, DisconnectedCallback);
      callbacks := callbacks + [DisconnectedCallback];
    }

    /** A session without a connection has not been closed properly. */
    method ShutDownConnection(usable: bool)
      requires InBudget(library.log) && (closeStatus == Ok || closeStatus == Err)
      modifies this`closeStatus, library`log, library`clock, library`undecided
      ensures InBudget(library.log)
      ensures ClosedWith(usable, conn, old(library.log), library.log, old(closeStatus), closeStatus)
    {
      var status := Err;
      if conn != 0 { status := FinishShutdown(usable); }
      if status == Err { closeStatus := Err; }
    }

    /** Terminal even if the shutdown fails, and idempotent. */
    method Disconnect(usable: bool) returns (status: Status)
      requires Valid()
      modifies this`closeStatus, this`closed, this`callbacks, library`log, library`clock, library`undecided
      ensures Valid() && (old(closeStatus) == Err ==> closeStatus == Err)
      ensures !initialised || old(closed) ==>
                && closed == old(closed) && callbacks == old(callbacks) && closeStatus == old(closeStatus)
                && library.log == old(library.log)
      ensures initialised && !old(closed) ==>
                && closed && callbacks == old(callbacks) + [DisconnectedCallback]
                && ClosedWith(usable, conn, old(library.log), library.log, old(closeStatus), closeStatus)
      ensures status == if initialised then closeStatus else NotInit
    {
      if !initialised { return NotInit; }
      if closed { return closeStatus; }
      ShutDownConnection(usable);
      EndSession();
      return closeStatus;
    }

    /** An error without a connection, or if its events cannot be handled; a close that is known by then
        is recorded and completed. */
    method ProcessEvents(usable: bool) returns (status: Status, ghost handled: bool, ghost known: bool, ghost code: nat)
      requires Valid()
      modifies this`closeStatus, this`closed, this`callbacks, library`log, library`clock, library`undecided
      ensures Valid() && (old(closeStatus) == Err ==> closeStatus == Err)
      ensures conn == 0 ==> status == Err && !known && library.log == old(library.log)
      ensures conn != 0 && !handled ==> status == Err && !known && library.log == Then(old(library.log), Failed)
      ensures !known ==> closeStatus == old(closeStatus) && closed == old(closed)
      ensures conn != 0 && handled ==>
                var seen := Then(Then(old(library.log), Handled), CloseKnown(known, code));
                var recorded := if code != 0 && old(closeStatus) == Ok then Err else old(closeStatus);
                if !known then status == Ok && library.log == seen
                else if !initialised || old(closed) then
                  && status == (if initialised then closeStatus else NotInit)
                  && library.log == seen && closeStatus == recorded
                else
                  status == closeStatus && ClosedWith(usable, conn, seen, library.log, recorded, closeStatus)
      ensures known ==> closed == (old(closed) || initialised)
      ensures callbacks == if closed == old(closed) then old(callbacks) else old(callbacks) + [DisconnectedCallback]
    {
      handled, known, code := false, false, 0;
      if conn == 0 { return Err, handled, known, code; }
      var ok := library.HandleEvents();
      handled := ok;
      if !ok { return Err, handled, known, code; }
      var closing, error := RecordCloseStatus();
      known, code := closing, error;
      if !closing { return Ok, handled, known, code; }
      status := Disconnect(usable);
    }

    /** A context left over from a failed `Init` is freed first. */
    method NewContext()
      requires Accounted()
      modifies this`ctx, library`created, library`live, library`log
      ensures Accounted() && library.log == Then(old(library.log), Created(ctx))
    {
      if ctx != 0 {
        library.Free(ctx);
        ctx := 0;
      }
      ctx := library.Create();
    }

    /** `certified`, `prepared`: whether certificate and key paths were given, and whether the
        context and the socket could be configured. */
    method Init(mode: Mode, certified: bool, prepared: bool) returns (status: Status)
      requires Valid()
      modifies this, library`created, library`live, library`log
      ensures Valid() && leaked == old(leaked)
      ensures old(initialised) ==> status == AlreadyInit
      ensures !old(initialised) ==>
                status == if CanInit(mode, certified) && ctx != 0 && prepared then Ok else Err
      ensures library.log == if !old(initialised) && CanInit(mode, certified) then Then(old(library.log), Created(ctx))
                             else old(library.log)
      ensures status == Ok ==> initialised && !closed && closeStatus == Ok && callbacks == [] && reopenings == 0
      ensures status != Ok ==>
                initialised == old(initialised) && callbacks == old(callbacks) && reopenings == old(reopenings)
      ensures status != Ok ==> closed == old(closed) && closeStatus == old(closeStatus)
      ensures conn == old(conn) && listener == old(listener)
    {
      if initialised { return AlreadyInit; }
      if mode == OtherMode || (mode == ServerMode && !certified) { return Err; }
      NewContext();
      if ctx == 0 || !prepared { return Err; }
      initialised, closed, closeStatus := true, false, Ok;
      callbacks, reopenings := [], 0;
      return Ok;
    }

    /** `ossl_quic_pre_connect`; its result is not looked at. */
    method PreConnect(mode: Mode)
      requires Accounted()
      modifies this`conn, this`listener, this`leaked, library`created, library`live, library`log
      ensures Accounted()
      ensures mode == ServerMode ==> conn == 0 && library.log == Then(old(library.log), Created(listener))
      ensures mode == ClientMode ==> library.log == Then(old(library.log), Created(conn))
      ensures mode == OtherMode ==> library.log == old(library.log)
      ensures leaked == old(leaked) + Overwritten(mode, old(conn), old(listener))
      ensures leaked == old(leaked) <==> NothingOverwritten(mode, old(conn), old(listener))
    {
      match mode
      case ClientMode =>
        leaked := leaked + ({conn} - {0});
        conn := 0;
        conn := library.Create();
      case ServerMode =>
        leaked := leaked + ({conn, listener} - {0});
        conn, listener := 0, 0;
        listener := library.Create();
      case OtherMode =>
    }

    method OpenConnection(mode: Mode) returns (ok: bool)
      requires Accounted() && InBudget(library.log)
      modifies this`conn, this`listener, this`leaked, library`created, library`live, library`log
      ensures Accounted() && InBudget(library.log)
      ensures Opening(mode, old(library.log), if mode == ClientMode then conn else listener, conn, library.log, ok)
      ensures leaked == old(leaked) + Overwritten(mode, old(conn), old(listener))
      ensures leaked == old(leaked) <==> NothingOverwritten(mode, old(conn), old(listener))
    {
      PreConnect(mode);
      match mode {
        case ClientMode =>
          var connected := library.Succeeds();
          if !connected { return false; }
        case ServerMode =>
          conn := library.Create();
          if conn == 0 { return false; }
        case OtherMode => return false;
      }
      ok := library.Succeeds();
    }

    /** `hangsUp`: whether the application disconnects inside the CONNECTED callback. Setting
        `closed` to 0 afterwards reopens a session exactly if it was closed before the call or
        hung up inside the callback. `settled`: the log when the connection was open, or was not. */
    method Connect(mode: Mode, hangsUp: bool, usable: bool) returns (status: Status, ghost settled: Log)
      requires Valid()
      modifies this`conn, this`listener, this`leaked, this`closeStatus, this`closed, this`callbacks
      modifies this`reopenings, library
      ensures Valid() && (old(closeStatus) == Err ==> closeStatus == Err)
      ensures initialised == old(initialised) && (status == Ok || status == Err)
      ensures Opening(mode, old(library.log), if mode == ClientMode then conn else listener, conn, settled,
                      status == Ok)
      ensures status == Ok && hangsUp && initialised && !old(closed) ==>
                ClosedWith(usable, conn, settled, library.log, old(closeStatus), closeStatus)
      ensures !(status == Ok && hangsUp && initialised && !old(closed)) ==>
                closeStatus == old(closeStatus) && library.log == settled
      ensures status == Ok ==>
                && !closed
                && reopenings == old(reopenings) + (if old(closed) || (hangsUp && initialised) then 1 else 0)
                && callbacks == old(callbacks) + [ConnectedCallback] +
                                (if hangsUp && initialised && !old(closed) then [DisconnectedCallback] else [])
      ensures status != Ok ==>
                closed == old(closed) && reopenings == old(reopenings) && callbacks == old(callbacks)
      ensures leaked == old(leaked) + Overwritten(mode, old(conn), old(listener))
      ensures leaked == old(leaked) <==> NothingOverwritten(mode, old(conn), old(listener))
    {
      var established := OpenConnection(mode);
      settled := library.log;
      if !established { return Err, settled; }
      Reopen(hangsUp, usable);
      return Ok, settled;
    }

    /** What follows a connection: the callback, then the session is open. */
    method Reopen(hangsUp: bool, usable: bool)
      requires Valid()
      modifies this`closeStatus, this`closed, this`callbacks, this`reopenings
      modifies library`log, library`clock, library`undecided
      ensures Valid() && !closed && (old(closeStatus) == Err ==> closeStatus == Err)
      ensures reopenings == old(reopenings) + (if old(closed) || (hangsUp && initialised) then 1 else 0)
      ensures var closes := hangsUp && initialised && !old(closed);
              && callbacks == old(callbacks) + [ConnectedCallback] + (if closes then [DisconnectedCallback] else [])
              && (closes ==> ClosedWith(usable, conn, old(library.log), library.log, old(closeStatus), closeStatus))
              && (!closes ==> closeStatus == old(closeStatus) && library.log == old(library.log))
    {
      NotifyConnected(hangsUp, usable);
      if closed { reopenings := reopenings + 1; }
      closed := false;
    }

    /** The CONNECTED callback, in which the application may disconnect. */
    method NotifyConnected(hangsUp: bool, usable: bool)
      requires Valid()
      modifies this`closeStatus, this`closed, this`callbacks, library`log, library`clock, library`undecided
      ensures Valid() && (old(closeStatus) == Err ==> closeStatus == Err)
      ensures closed <==> old(closed) || (hangsUp && initialised)
      ensures var closes := hangsUp && initialised && !old(closed);
              && callbacks == old(callbacks) + [ConnectedCallback] + (if closes then [DisconnectedCallback] else [])
              && (closes ==> ClosedWith(usable, conn, old(library.log), library.log, old(closeStatus), closeStatus))
              && (!closes ==> closeStatus == old(closeStatus) && library.log == old(library.log))
    {
      CountAppend(callbacks, ConnectedCallback);
      callbacks := callbacks + [ConnectedCallback];
      if hangsUp {
        var _ := Disconnect(usable);
      }
    }

    method ReleaseAll()
      requires Accounted()
      modifies this`conn, this`listener, this`ctx, library`live
      ensures Accounted() && conn == listener == ctx == 0 && library.live == leaked
    {
      library.Free(conn);
      conn := 0;
      library.Free(listener);
      listener := 0;
      library.Free(ctx);
      ctx := 0;
    }

    method EnsureClosed(usable: bool)
      requires Valid() && initialised
      modifies this`closeStatus, this`closed, this`callbacks, library`log, library`clock, library`undecided
      ensures Valid() && closed && (old(closeStatus) == Err ==> closeStatus == Err)
      ensures if old(closed) then closeStatus == old(closeStatus) && library.log == old(library.log)
              else ClosedWith(usable, conn, old(library.log), library.log, old(closeStatus), closeStatus)
      ensures callbacks == if old(closed) then old(callbacks) else old(callbacks) + [DisconnectedCallback]
    {
      if !closed {
        var _ := Disconnect(usable);
      }
    }

    /** Releases everything whatever the closing brought, once. */
    method Deinit(usable: bool) returns (status: Status)
      requires Valid()
      modifies this`initialised, this`conn, this`listener, this`ctx, this`closeStatus, this`closed, this`callbacks
      modifies library`live, library`log, library`clock, library`undecided
      ensures Valid() && !initialised && (old(closeStatus) == Err ==> closeStatus == Err)
      ensures callbacks == if closed == old(closed) then old(callbacks) else old(callbacks) + [DisconnectedCallback]
      ensures !old(initialised) ==> status == NotInit && closed == old(closed) && library.live == old(library.live)
      ensures old(initialised) ==>
                && closed && status == closeStatus && conn == listener == ctx == 0
                && library.live == leaked
      ensures !old(initialised) || old(closed) ==>
                closeStatus == old(closeStatus) && library.log == old(library.log)
      ensures old(initialised) && !old(closed) ==>
                ClosedWith(usable, old(conn), old(library.log), library.log, old(closeStatus), closeStatus)
    {
      if !initialised { return NotInit; }
      EnsureClosed(usable);
      ReleaseAll();
      initialised := false;
      return closeStatus;
    }
  }

  // ---------------------------------------------------------------- all call sequences

  datatype Call =
    | CallInit(mode: Mode, certified: bool, prepared: bool)
    | CallConnect(mode: Mode, hangsUp: bool)
    | CallProcessEvents
    | CallDisconnect
    | CallDeinit

  /** One call: until `Init` the status only moves from OK to error, without `Connect` no handle is
      lost, and without either a session stays closed and makes its one DISCONNECTED callback
      when it closes. */
  method Take(session: Session, call: Call, usable: bool)
    requires session.Valid()
    modifies session, session.library
    ensures session.Valid()
    ensures !call.CallInit? && old(session.closeStatus) == Err ==> session.closeStatus == Err
    ensures !call.CallConnect? ==> session.leaked == old(session.leaked)
    ensures !call.CallInit? && !call.CallConnect? ==>
              && (old(session.closed) ==> session.closed)
              && session.callbacks == old(session.callbacks) +
                   (if session.closed && !old(session.closed) then [DisconnectedCallback] else [])
  {
    match call {
      case CallInit(mode, certified, prepared) => var _ := session.Init(mode, certified, prepared);
      case CallConnect(mode, hangsUp) => var _, _ := session.Connect(mode, hangsUp, usable);
      case CallProcessEvents => var _, _, _, _ := session.ProcessEvents(usable);
      case CallDisconnect => var _ := session.Disconnect(usable);
      case CallDeinit => var _ := session.Deinit(usable);
    }
  }

  predicate NoInit(calls: seq<Call>) {
    forall i :: 0 <= i < |calls| ==> !calls[i].CallInit?
  }

  predicate NoConnect(calls: seq<Call>) {
    forall i :: 0 <= i < |calls| ==> !calls[i].CallConnect?
  }

  /** Any sequence of calls, with any behaviour of the library: no handle is ever released twice;
      the DISCONNECTED callbacks since `Init` are as many as reopenings, plus one if the session
      is closed now; until the next `Init` the close status only moves from OK to error; without a
      `Connect` no handle is lost; and without either at most one DISCONNECTED callback is made. */
  method Use(session: Session, calls: seq<Call>, usable: bool)
    requires session.Valid()
    modifies session, session.library
    ensures session.Valid()
    ensures NoInit(calls) && old(session.closeStatus) == Err ==> session.closeStatus == Err
    ensures NoConnect(calls) ==> session.leaked == old(session.leaked)
    ensures NoInit(calls) && NoConnect(calls) ==>
              && (old(session.closed) ==> session.closed)
              && session.callbacks == old(session.callbacks) +
                   (if session.closed && !old(session.closed) then [DisconnectedCallback] else [])
    decreases |calls|
  {
    if |calls| > 0 {
      Use(session, calls[..|calls| - 1], usable);
      Take(session, calls[|calls| - 1], usable);
    }
  }

  /** Hanging up inside the CONNECTED callback and again later makes two DISCONNECTED callbacks in one
      session, whenever the calls succeed. */
  method HangUpTwice(session: Session, mode: Mode, usable: bool) returns (succeeded: bool)
    requires session.Valid() && !session.initialised
    modifies session, session.library
    ensures session.Valid()
    ensures succeeded ==> session.closed && session.reopenings == 1 && Count(session.callbacks) == 2
    ensures !succeeded && mode != OtherMode ==>
              session.library.log.Then? &&
              (session.library.log.last == Created(0) || session.library.log.last == Tried(false))
  {
    var status := session.Init(mode, true, true);
    if status != Ok { return false; }
    ghost var settled;
    status, settled := session.Connect(mode, true, usable);
    if status != Ok { return false; }
    var _ := session.Disconnect(usable);
    return true;
  }
}
