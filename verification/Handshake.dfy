/** The control exchanges. Opening: the client asks with 01, the server answers with 03, the client
    confirms with 03. Closing: one side asks with 02, the other answers with 03, the first
    confirms with 03. Both kinds share two loops, one asking and one answering; the server's
    opening wraps the answering loop in one that listens. */
module Handshake {
  import opened Wire
  import opened UdpSockets

  predicate Says(result: RecvResult, message: Bytes) {
    result == Got(message)
  }

  /** Where a loop stands after a receive: it goes on, has been confirmed, or (listening) starts
      to answer. */
  datatype Progress = GoOn(attempts: nat) | Confirmed | Answers

  /** Asking counts every receive that is not an 03. */
  function Asked(attempts: nat, result: RecvResult): Progress {
    if Says(result, ACK_03) then Confirmed else GoOn(attempts + 1)
  }

  /** Answering counts timeouts only. */
  function Answered(attempts: nat, result: RecvResult): Progress {
    if result == TimedOut then GoOn(attempts + 1)
    else if Says(result, ACK_03) then Confirmed
    else GoOn(attempts)
  }

  /** Listening counts timeouts only. */
  function Listened(attempts: nat, result: RecvResult): Progress {
    if result == TimedOut then GoOn(attempts + 1)
    else if Says(result, OPEN_01) then Answers
    else GoOn(attempts)
  }

  /** How a loop ends: confirmed or out of attempts, what it sent, what it left unread, how often
      it received. */
  datatype Dialogue = Dialogue(ok: bool, said: seq<Bytes>, rest: seq<RecvResult>, receives: nat)

  function Then(said: seq<Bytes>, receives: nat, later: Dialogue): Dialogue {
    Dialogue(later.ok, said + later.said, later.rest, receives + later.receives)
  }

  /** `chownat_hole_punching` as client (01) and `chownat_disconnect_send` (02). */
  function AskDialogue(question: Bytes, limit: nat, attempts: nat, inbox: seq<RecvResult>): Dialogue
    decreases limit - attempts
  {
    if attempts >= limit then Dialogue(false, [], inbox, 0)
    else
      match Asked(attempts, First(inbox, 3))
      case GoOn(n) => Then([question], 1, AskDialogue(question, limit, attempts + 1, Rest(inbox)))
      case _ => Dialogue(true, [question, ACK_03], Rest(inbox), 1)
  }

  /** The inner loop of the server's opening, and `chownat_disconnect_recv`. */
  function AnswerDialogue(limit: nat, attempts: nat, inbox: seq<RecvResult>): Dialogue
    decreases |inbox|, limit - attempts
  {
    if attempts >= limit then Dialogue(false, [], inbox, 0)
    else
      match Answered(attempts, First(inbox, 3))
      case GoOn(n) => Then([ACK_03], 1, AnswerDialogue(limit, n, Rest(inbox)))
      case _ => Dialogue(true, [ACK_03], Rest(inbox), 1)
  }

  lemma {:induction false} AnswerShrinks(limit: nat, attempts: nat, inbox: seq<RecvResult>)
    ensures |AnswerDialogue(limit, attempts, inbox).rest| <= |inbox|
    decreases |inbox|, limit - attempts
  {
    if attempts < limit && Answered(attempts, First(inbox, 3)).GoOn? {
      AnswerShrinks(limit, Answered(attempts, First(inbox, 3)).attempts, Rest(inbox));
    }
  }

  /** `chownat_hole_punching` as server: the inner attempt counter starts at zero each time and
      an exhausted inner loop leaves the outer counter as it was. A timeout of the outer loop is
      answered with a keep-alive, which only a session that is not closed sends (`audible`). */
  function ListenDialogue(audible: bool, limit: nat, attempts: nat, inbox: seq<RecvResult>): Dialogue
    decreases |inbox|, limit - attempts
  {
    if attempts >= limit then Dialogue(false, [], inbox, 0)
    else
      match Listened(attempts, First(inbox, 3))
      case GoOn(n) =>
        Then(if audible && First(inbox, 3) == TimedOut then [KEEP_ALIVE] else [], 1,
             ListenDialogue(audible, limit, n, Rest(inbox)))
      case _ =>
        AnswerShrinks(limit, 0, Rest(inbox));
        var inner := AnswerDialogue(limit, 0, Rest(inbox));
        if inner.ok then Then([], 1, inner)
        else Then(inner.said, 1 + inner.receives, ListenDialogue(audible, limit, attempts, inner.rest))
  }

  // ---------------------------------------------------------------- what the loops amount to

  function Result(inbox: seq<RecvResult>, i: nat): RecvResult {
    if i < |inbox| then Cut(inbox[i], 3) else TimedOut
  }

  function Repeat<T>(x: T, n: nat): (s: seq<T>)
    ensures |s| == n && forall i :: 0 <= i < n ==> s[i] == x
  {
    if n == 0 then [] else [x] + Repeat(x, n - 1)
  }

  /** Asking succeeds exactly if one of the next `limit - attempts` receives is an 03: it stops at
      the first of those, or after `limit - attempts` receives. */
  lemma {:induction false} AskingExact(question: Bytes, limit: nat, attempts: nat, inbox: seq<RecvResult>)
    requires attempts <= limit
    ensures var d := AskDialogue(question, limit, attempts, inbox);
            && d.receives <= limit - attempts
            && (forall i :: 0 <= i < d.receives - (if d.ok then 1 else 0) ==> Result(inbox, i) != Got(ACK_03))
            && (if d.ok then d.receives > 0 && Result(inbox, d.receives - 1) == Got(ACK_03)
                else d.receives == limit - attempts)
    decreases limit - attempts
  {
    if attempts < limit {
      assert First(inbox, 3) == Result(inbox, 0);
      if Asked(attempts, First(inbox, 3)).GoOn? {
        AskingExact(question, limit, attempts + 1, Rest(inbox));
        assert forall i :: 0 < i ==> Result(inbox, i) == Result(Rest(inbox), i - 1);
      }
    }
  }

  lemma AskedOnceMore(question: Bytes, n: nat, confirmation: seq<Bytes>)
    ensures [question] + (Repeat(question, n) + confirmation) == Repeat(question, n + 1) + confirmation
  {
  }

  lemma AskingGoesOn(question: Bytes, limit: nat, attempts: nat, inbox: seq<RecvResult>)
    requires attempts < limit && Asked(attempts, First(inbox, 3)).GoOn?
    ensures AskDialogue(question, limit, attempts, inbox) ==
            Then([question], 1, AskDialogue(question, limit, attempts + 1, Rest(inbox)))
  {
  }

  function Confirmation(ok: bool): seq<Bytes> {
    if ok then [ACK_03] else []
  }

  /** It asks once before each receive and confirms only a success. */
  lemma {:induction false} AskingSays(question: Bytes, limit: nat, attempts: nat, inbox: seq<RecvResult>)
    requires attempts <= limit
    ensures var d := AskDialogue(question, limit, attempts, inbox);
            d.said == Repeat(question, d.receives) + Confirmation(d.ok)
    decreases limit - attempts
  {
    if attempts < limit {
      if Asked(attempts, First(inbox, 3)).GoOn? {
        AskingSays(question, limit, attempts + 1, Rest(inbox));
        AskingGoesOn(question, limit, attempts, inbox);
        var later := AskDialogue(question, limit, attempts + 1, Rest(inbox));
        AskedOnceMore(question, later.receives, Confirmation(later.ok));
      } else {
        AskedOnceMore(question, 0, [ACK_03]);
      }
    }
  }

  function Unread(inbox: seq<RecvResult>, receives: nat): seq<RecvResult> {
    inbox[if receives <= |inbox| then receives else |inbox|..]
  }

  lemma RestOfUnread(inbox: seq<RecvResult>, n: nat)
    ensures Rest(Unread(inbox, n)) == Unread(inbox, n + 1)
  {
  }

  /** It reads one result for each receive and leaves the rest: `now` is what it finds of `inbox` after
      n results. */
  lemma {:induction false} AskingLeaves(
    question: Bytes, limit: nat, attempts: nat, inbox: seq<RecvResult>, n: nat, now: seq<RecvResult>)
    requires attempts <= limit && now == Unread(inbox, n)
    ensures var d := AskDialogue(question, limit, attempts, now); d.rest == Unread(inbox, n + d.receives)
    decreases limit - attempts
  {
    if attempts < limit {
      RestOfUnread(inbox, n);
      if Asked(attempts, First(now, 3)).GoOn? {
        AskingLeaves(question, limit, attempts + 1, inbox, n + 1, Rest(now));
      }
    }
  }

  function Arrivals(inbox: seq<RecvResult>): nat {
    if inbox == [] then 0 else (if inbox[0].Got? then 1 else 0) + Arrivals(inbox[1..])
  }

  /** Answering receives at most once per remaining attempt and once per datagram it takes. It
      sends one 03 before each receive and none after. */
  lemma {:induction false} AnsweringBounded(limit: nat, attempts: nat, inbox: seq<RecvResult>)
    requires attempts <= limit
    ensures var d := AnswerDialogue(limit, attempts, inbox);
            && Arrivals(d.rest) <= Arrivals(inbox)
            && d.receives <= limit - attempts + (Arrivals(inbox) - Arrivals(d.rest))
            && d.said == Repeat(ACK_03, d.receives)
    decreases |inbox|, limit - attempts
  {
    if attempts < limit && Answered(attempts, First(inbox, 3)).GoOn? {
      AnsweringBounded(limit, Answered(attempts, First(inbox, 3)).attempts, Rest(inbox));
      var d := AnswerDialogue(limit, attempts, inbox);
      assert d.said == Repeat(ACK_03, d.receives);
    }
  }

  function Timeouts(inbox: seq<RecvResult>, n: nat): nat {
    if n == 0 then 0 else Timeouts(inbox, n - 1) + (if Result(inbox, n - 1) == TimedOut then 1 else 0)
  }

  lemma {:induction false} TimeoutsShift(inbox: seq<RecvResult>, n: nat)
    ensures Timeouts(inbox, n + 1) == (if Result(inbox, 0) == TimedOut then 1 else 0) + Timeouts(Rest(inbox), n)
  {
    if n > 0 {
      TimeoutsShift(inbox, n - 1);
      assert Result(inbox, n) == Result(Rest(inbox), n - 1);
    }
  }

  /** Answering succeeds exactly if an 03 arrives before the attempts are used up by timeouts, no
      matter how many other datagrams arrive; otherwise it ends with the last of those timeouts. */
  lemma {:induction false} AnsweringExact(limit: nat, attempts: nat, inbox: seq<RecvResult>)
    requires attempts <= limit
    ensures var d := AnswerDialogue(limit, attempts, inbox);
            && (forall i :: 0 <= i < d.receives - (if d.ok then 1 else 0) ==> Result(inbox, i) != Got(ACK_03))
            && (if d.ok then d.receives > 0 && Result(inbox, d.receives - 1) == Got(ACK_03)
                             && attempts + Timeouts(inbox, d.receives) < limit
                else attempts + Timeouts(inbox, d.receives) == limit
                     && (d.receives > 0 ==> Result(inbox, d.receives - 1) == TimedOut))
    decreases |inbox|, limit - attempts
  {
    if attempts < limit {
      assert First(inbox, 3) == Result(inbox, 0);
      assert Timeouts(inbox, 1) == Timeouts(inbox, 0) + (if Result(inbox, 0) == TimedOut then 1 else 0);
      if Answered(attempts, First(inbox, 3)).GoOn? {
        var n := Answered(attempts, First(inbox, 3)).attempts;
        AnsweringExact(limit, n, Rest(inbox));
        var later := AnswerDialogue(limit, n, Rest(inbox));
        TimeoutsShift(inbox, later.receives);
        assert forall i :: 0 < i ==> Result(inbox, i) == Result(Rest(inbox), i - 1);
      }
    }
  }

  /** What `used` datagrams account for: each starts at most one round of answers. */
  function Laps(limit: nat, used: nat): nat {
    if used == 0 then 0 else Laps(limit, used - 1) + 1 + limit
  }

  lemma {:induction false} LapsAdd(limit: nat, one: nat, other: nat)
    ensures Laps(limit, one + other) == Laps(limit, one) + Laps(limit, other)
    ensures Laps(limit, one) >= one
  {
    if one > 0 { LapsAdd(limit, one - 1, other); }
  }

  lemma {:induction false} LapsProduct(limit: nat, used: nat)
    ensures Laps(limit, used) == used * (1 + limit)
  {
    if used > 0 { LapsProduct(limit, used - 1); }
  }

  /** A dialogue that began with `left` attempts left and `arrivals` datagrams to come took no more
      receives than attempts and laps. */
  predicate Within(limit: nat, left: nat, arrivals: nat, d: Dialogue) {
    Arrivals(d.rest) <= arrivals && d.receives <= left + Laps(limit, arrivals - Arrivals(d.rest))
  }

  lemma ListeningGoesOn(audible: bool, limit: nat, attempts: nat, inbox: seq<RecvResult>, n: nat)
    requires attempts < limit && Listened(attempts, First(inbox, 3)) == GoOn(n)
    ensures attempts <= n <= limit && Arrivals(inbox) == Arrivals(Rest(inbox)) + (if n == attempts then 1 else 0)
    ensures |Rest(inbox)| < |inbox| || (Rest(inbox) == inbox && n > attempts)
    ensures n <= attempts + 1
    ensures exists said ::
              ListenDialogue(audible, limit, attempts, inbox) ==
              Then(said, 1, ListenDialogue(audible, limit, n, Rest(inbox)))
  {
    var said := if audible && First(inbox, 3) == TimedOut then [KEEP_ALIVE] else [];
    assert ListenDialogue(audible, limit, attempts, inbox) ==
           Then(said, 1, ListenDialogue(audible, limit, n, Rest(inbox)));
  }

  lemma ListeningPasses(audible: bool, limit: nat, attempts: nat, inbox: seq<RecvResult>)
    requires attempts < limit && First(inbox, 3) != Got(OPEN_01)
    ensures ListenDialogue(audible, limit, attempts, inbox) ==
            if First(inbox, 3) == TimedOut
            then Then(if audible then [KEEP_ALIVE] else [], 1,
                      ListenDialogue(audible, limit, attempts + 1, Rest(inbox)))
            else Then([], 1, ListenDialogue(audible, limit, attempts, Rest(inbox)))
  {
  }

  lemma WithinAfterOne(limit: nat, attempts: nat, n: nat, arrivals: nat, said: seq<Bytes>, later: Dialogue)
    requires attempts <= n <= limit && n <= attempts + 1
    requires Within(limit, limit - n, arrivals, later)
    ensures Within(limit, limit - attempts, arrivals + (if n == attempts then 1 else 0), Then(said, 1, later))
  {
    LapsAdd(limit, 1, arrivals - Arrivals(later.rest));
  }

  lemma ListeningAnswers(audible: bool, limit: nat, attempts: nat, inbox: seq<RecvResult>)
    requires attempts < limit && Listened(attempts, First(inbox, 3)) == Answers
    ensures inbox != [] && Arrivals(inbox) == 1 + Arrivals(Rest(inbox))
    ensures var inner := AnswerDialogue(limit, 0, Rest(inbox));
            && |inner.rest| < |inbox|
            && ListenDialogue(audible, limit, attempts, inbox) ==
               if inner.ok then Then([], 1, inner)
               else Then(inner.said, 1 + inner.receives, ListenDialogue(audible, limit, attempts, inner.rest))
  {
    AnswerShrinks(limit, 0, Rest(inbox));
  }

  /** A round of answers costs one lap for the 01 that began it and every datagram it took. */
  lemma WithinAfterAnswers(limit: nat, left: nat, arrivals: nat, inner: Dialogue, said: seq<Bytes>, later: Dialogue)
    requires Arrivals(inner.rest) <= arrivals && inner.receives <= limit + (arrivals - Arrivals(inner.rest))
    requires Within(limit, left, Arrivals(inner.rest), later)
    ensures Within(limit, left, arrivals + 1, Then(said, 1 + inner.receives, later))
    ensures Within(limit, left, arrivals + 1, Then(said, 1, inner))
  {
    LapsAdd(limit, arrivals - Arrivals(inner.rest), 1);
    LapsAdd(limit, arrivals + 1 - Arrivals(inner.rest), Arrivals(inner.rest) - Arrivals(later.rest));
  }

  lemma {:induction false} ListeningInLaps(audible: bool, limit: nat, attempts: nat, inbox: seq<RecvResult>)
    requires attempts <= limit
    ensures Within(limit, limit - attempts, Arrivals(inbox), ListenDialogue(audible, limit, attempts, inbox))
    decreases |inbox|, limit - attempts
  {
    if attempts < limit {
      match Listened(attempts, First(inbox, 3))
      case GoOn(n) =>
        ListeningGoesOn(audible, limit, attempts, inbox, n);
        ListeningInLaps(audible, limit, n, Rest(inbox));
        var later := ListenDialogue(audible, limit, n, Rest(inbox));
        var said :| ListenDialogue(audible, limit, attempts, inbox) == Then(said, 1, later);
        WithinAfterOne(limit, attempts, n, Arrivals(Rest(inbox)), said, later);
      case Confirmed =>
      case Answers =>
        var inner := AnswerDialogue(limit, 0, Rest(inbox));
        ListeningAnswers(audible, limit, attempts, inbox);
        AnsweringBounded(limit, 0, Rest(inbox));
        ListeningInLaps(audible, limit, attempts, inner.rest);
        var later := ListenDialogue(audible, limit, attempts, inner.rest);
        WithinAfterAnswers(limit, limit - attempts, Arrivals(Rest(inbox)), inner,
                           if inner.ok then [] else inner.said, later);
    }
  }

  /** The server's opening ends: with `limit` attempts and R datagrams arriving it receives at most
      limit + R + limit * R times. */
  lemma ListeningBounded(audible: bool, limit: nat, attempts: nat, inbox: seq<RecvResult>)
    requires attempts <= limit
    ensures var d := ListenDialogue(audible, limit, attempts, inbox);
            && Arrivals(d.rest) <= Arrivals(inbox)
            && d.receives <= limit - attempts + (Arrivals(inbox) - Arrivals(d.rest)) * (1 + limit)
  {
    ListeningInLaps(audible, limit, attempts, inbox);
    LapsProduct(limit, Arrivals(inbox) - Arrivals(ListenDialogue(audible, limit, attempts, inbox).rest));
  }

  /** R requests to open, each followed by silence for as long as the server keeps answering. */
  function SilentClients(limit: nat, requests: nat): seq<RecvResult> {
    if requests == 0 then []
    else [Got(OPEN_01)] + (Repeat(TimedOut, limit) + SilentClients(limit, requests - 1))
  }

  lemma {:induction false} SilenceAnswered(limit: nat, attempts: nat, later: seq<RecvResult>)
    requires attempts <= limit
    ensures var d := AnswerDialogue(limit, attempts, Repeat(TimedOut, limit - attempts) + later);
            !d.ok && d.rest == later && d.receives == limit - attempts
    decreases limit - attempts
  {
    var inbox := Repeat(TimedOut, limit - attempts) + later;
    if attempts < limit {
      SilenceAnswered(limit, attempts + 1, later);
      assert Rest(inbox) == Repeat(TimedOut, limit - attempts - 1) + later;
    } else {
      assert inbox == later;
    }
  }

  lemma {:induction false} SilenceListened(audible: bool, limit: nat, attempts: nat)
    requires attempts <= limit
    ensures var d := ListenDialogue(audible, limit, attempts, []); !d.ok && d.receives == limit - attempts
    decreases limit - attempts
  {
    if attempts < limit {
      SilenceListened(audible, limit, attempts + 1);
    }
  }

  /** The bound is reached for every limit and every number of datagrams. */
  lemma {:induction false} ListeningBoundTight(audible: bool, limit: nat, requests: nat)
    requires limit > 0
    ensures Arrivals(SilentClients(limit, requests)) == requests
    ensures var d := ListenDialogue(audible, limit, 0, SilentClients(limit, requests));
            !d.ok && d.receives == limit + requests + limit * requests
  {
    if requests == 0 {
      SilenceListened(audible, limit, 0);
    } else {
      var later := SilentClients(limit, requests - 1);
      var inbox := SilentClients(limit, requests);
      ListeningBoundTight(audible, limit, requests - 1);
      assert Rest(inbox) == Repeat(TimedOut, limit) + later;
      SilenceAnswered(limit, 0, later);
      SilentArrivals(limit, later);
      assert limit * requests == limit * (requests - 1) + limit;
    }
  }

  lemma {:induction false} SilentArrivals(n: nat, later: seq<RecvResult>)
    ensures Arrivals(Repeat(TimedOut, n) + later) == Arrivals(later)
  {
    var inbox := Repeat(TimedOut, n) + later;
    if n > 0 {
      SilentArrivals(n - 1, later);
      assert inbox[1..] == Repeat(TimedOut, n - 1) + later;
    } else {
      assert inbox == later;
    }
  }

  // ---------------------------------------------------------------- what opens the server

  lemma UnreadTwice(inbox: seq<RecvResult>, m: nat, rest: seq<RecvResult>, n: nat, total: nat)
    requires rest == Unread(inbox, m) && total == m + n
    ensures Unread(rest, n) == Unread(inbox, total) && Result(rest, n) == Result(inbox, total)
  {
  }

  /** An 01 at i, an 03 `gap` results later, and fewer than `limit` timeouts between them. */
  predicate Opens(inbox: seq<RecvResult>, i: nat, gap: nat, limit: nat) {
    OpensWith(Result(inbox, i), Result(inbox, i + gap), Unread(inbox, i + 1), gap, limit)
  }

  predicate OpensWith(first: RecvResult, last: RecvResult, between: seq<RecvResult>, gap: nat, limit: nat) {
    gap > 0 && first == Got(OPEN_01) && last == Got(ACK_03) && Timeouts(between, gap) < limit
  }

  /** The last of the results read is the 03 that opens the server. */
  ghost predicate OpenedBy(inbox: seq<RecvResult>, receives: nat, limit: nat) {
    exists i: nat, gap: nat :: Opens(inbox, i, gap, limit) && receives == i + gap + 1
  }

  lemma OpensAlike(first: RecvResult, first': RecvResult, last: RecvResult, last': RecvResult,
                   between: seq<RecvResult>, between': seq<RecvResult>, gap: nat, limit: nat)
    requires first == first' && last == last' && between == between'
    ensures OpensWith(first, last, between, gap, limit) <==> OpensWith(first', last', between', gap, limit)
  {
  }

  lemma OpensLater(inbox: seq<RecvResult>, n: nat, rest: seq<RecvResult>, i: nat, k: nat, gap: nat, limit: nat)
    requires rest == Unread(inbox, n) && k == n + i
    ensures Opens(rest, i, gap, limit) <==> Opens(inbox, k, gap, limit)
  {
    UnreadTwice(inbox, n, rest, i, k);
    UnreadTwice(inbox, n, rest, i + gap, k + gap);
    UnreadTwice(inbox, n, rest, i + 1, k + 1);
    OpensAlike(Result(rest, i), Result(inbox, k), Result(rest, i + gap), Result(inbox, k + gap),
               Unread(rest, i + 1), Unread(inbox, k + 1), gap, limit);
  }

  lemma OpenedLater(inbox: seq<RecvResult>, n: nat, rest: seq<RecvResult>, receives: nat, limit: nat)
    requires rest == Unread(inbox, n) && OpenedBy(rest, receives, limit)
    ensures OpenedBy(inbox, n + receives, limit)
  {
    var i: nat, gap: nat :| Opens(rest, i, gap, limit) && receives == i + gap + 1;
    OpensLater(inbox, n, rest, i, n + i, gap, limit);
    assert Opens(inbox, n + i, gap, limit);
  }

  lemma FirstIsRead(inbox: seq<RecvResult>)
    ensures Unread(inbox, 1) == Rest(inbox)
  {
  }

  /** What an answering loop leaves of an inbox it began to read at position n. */
  lemma {:induction false} AnswerLeaves(
    limit: nat, attempts: nat, inbox: seq<RecvResult>, n: nat, now: seq<RecvResult>)
    requires now == Unread(inbox, n)
    ensures var d := AnswerDialogue(limit, attempts, now); d.rest == Unread(inbox, n + d.receives)
    decreases |now|, limit - attempts
  {
    if attempts < limit {
      RestOfUnread(inbox, n);
      if Answered(attempts, First(now, 3)).GoOn? {
        AnswerLeaves(limit, Answered(attempts, First(now, 3)).attempts, inbox, n + 1, Rest(now));
      }
    }
  }

  /** An answering loop that succeeds right after an 01 has found what opens the server. */
  lemma AnswerOpens(limit: nat, inbox: seq<RecvResult>)
    requires First(inbox, 3) == Got(OPEN_01) && AnswerDialogue(limit, 0, Rest(inbox)).ok
    ensures OpenedBy(inbox, 1 + AnswerDialogue(limit, 0, Rest(inbox)).receives, limit)
  {
    AnsweringExact(limit, 0, Rest(inbox));
    var gap := AnswerDialogue(limit, 0, Rest(inbox)).receives;
    FirstIsRead(inbox);
    UnreadTwice(inbox, 1, Rest(inbox), gap - 1, gap);
    assert Opens(inbox, 0, gap, limit);
  }

  lemma OpenedAfterAnswers(limit: nat, inbox: seq<RecvResult>, receives: nat)
    requires OpenedBy(AnswerDialogue(limit, 0, Rest(inbox)).rest, receives, limit)
    ensures OpenedBy(inbox, 1 + AnswerDialogue(limit, 0, Rest(inbox)).receives + receives, limit)
  {
    var inner := AnswerDialogue(limit, 0, Rest(inbox));
    FirstIsRead(inbox);
    AnswerLeaves(limit, 0, inbox, 1, Rest(inbox));
    OpenedLater(inbox, 1 + inner.receives, inner.rest, receives, limit);
  }

  /** The server's opening succeeds only with an 03 that ends it, after an 01 and fewer than `limit`
      timeouts. */
  lemma {:induction false} ListeningNeeds(audible: bool, limit: nat, attempts: nat, inbox: seq<RecvResult>)
    requires attempts <= limit
    ensures var d := ListenDialogue(audible, limit, attempts, inbox); d.ok ==> OpenedBy(inbox, d.receives, limit)
    decreases |inbox|, limit - attempts
  {
    if attempts < limit && ListenDialogue(audible, limit, attempts, inbox).ok {
      match Listened(attempts, First(inbox, 3))
      case GoOn(n) =>
        ListeningGoesOn(audible, limit, attempts, inbox, n);
        ListeningNeeds(audible, limit, n, Rest(inbox));
        FirstIsRead(inbox);
        OpenedLater(inbox, 1, Rest(inbox), ListenDialogue(audible, limit, n, Rest(inbox)).receives, limit);
      case Confirmed =>
      case Answers =>
        ListeningAnswers(audible, limit, attempts, inbox);
        var inner := AnswerDialogue(limit, 0, Rest(inbox));
        if inner.ok {
          AnswerOpens(limit, inbox);
        } else {
          ListeningNeeds(audible, limit, attempts, inner.rest);
          OpenedAfterAnswers(limit, inbox, ListenDialogue(audible, limit, attempts, inner.rest).receives);
        }
    }
  }

  lemma {:induction false} TimeoutsGrow(inbox: seq<RecvResult>, m: nat, n: nat)
    requires m <= n
    ensures Timeouts(inbox, m) <= Timeouts(inbox, n)
  {
    if m < n { TimeoutsGrow(inbox, m, n - 1); }
  }

  lemma AnswerSucceeds(limit: nat, inbox: seq<RecvResult>, gap: nat)
    requires Opens(inbox, 0, gap, limit)
    ensures AnswerDialogue(limit, 0, Rest(inbox)).ok
  {
    AnsweringExact(limit, 0, Rest(inbox));
    var d := AnswerDialogue(limit, 0, Rest(inbox));
    FirstIsRead(inbox);
    UnreadTwice(inbox, 1, Rest(inbox), gap - 1, gap);
    if !d.ok && d.receives <= gap { TimeoutsGrow(Rest(inbox), d.receives, gap); }
  }
}
