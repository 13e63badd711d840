/** The server's opening round by round: from the results it receives alone, what it says, how often it
    receives, what it leaves unread and whether it succeeds. */
module Listening {
  import opened Wire
  import opened UdpSockets
  import opened Handshake

  // ---------------------------------------------------------------- the rounds of an inbox

  /** The n-th result is the `left`-th timeout, and no `message` is before it. */
  predicate Exhausted(inbox: seq<RecvResult>, n: nat, left: int, message: Bytes) {
    && Timeouts(inbox, n) == left && (n > 0 ==> Result(inbox, n - 1) == TimedOut)
    && forall k :: 0 <= k < n ==> Result(inbox, k) != Got(message)
  }

  /** The first 01 is at i and comes with attempts left. */
  predicate Reaches(inbox: seq<RecvResult>, attempts: nat, i: nat, limit: nat) {
    && attempts + Timeouts(inbox, i) < limit && Result(inbox, i) == Got(OPEN_01)
    && forall k :: 0 <= k < i ==> Result(inbox, k) != Got(OPEN_01)
  }

  /** The first 03 is the n-th result, and fewer than `limit` timeouts are before it. */
  predicate Confirms(inbox: seq<RecvResult>, n: nat, limit: nat) {
    && n > 0 && Result(inbox, n - 1) == Got(ACK_03) && Timeouts(inbox, n) < limit
    && forall k :: 0 <= k < n - 1 ==> Result(inbox, k) != Got(ACK_03)
  }

  /** A round in vain: an 01 after `wait` results, then `answers` results without a confirmation. */
  datatype Round = Round(wait: nat, answers: nat)

  /** `Opened`: an 01 after `wait` results, confirmed by the last of `answers` results. `GivenUp`: the
      last of `wait` results is the timeout that uses up the attempts. */
  datatype Ending = Opened(wait: nat, answers: nat) | GivenUp(wait: nat)

  function Length(round: Round): nat {
    round.wait + 1 + round.answers
  }

  predicate InVain(inbox: seq<RecvResult>, attempts: nat, round: Round, limit: nat) {
    && Reaches(inbox, attempts, round.wait, limit)
    && Exhausted(Unread(inbox, round.wait + 1), round.answers, limit, ACK_03)
  }

  function Behind(inbox: seq<RecvResult>, round: Round): seq<RecvResult> {
    Unread(inbox, Length(round))
  }

  function Spent(inbox: seq<RecvResult>, attempts: nat, round: Round): nat {
    attempts + Timeouts(inbox, round.wait)
  }

  predicate EndsWith(inbox: seq<RecvResult>, attempts: nat, ending: Ending, limit: nat) {
    match ending
    case Opened(wait, answers) =>
      Reaches(inbox, attempts, wait, limit) && Confirms(Unread(inbox, wait + 1), answers, limit)
    case GivenUp(wait) => Exhausted(inbox, wait, limit - attempts, OPEN_01)
  }

  /** The results begin with these rounds in vain and then this ending. Only timeouts while waiting use up
      attempts, and those of all rounds count together. */
  predicate Passes(inbox: seq<RecvResult>, attempts: nat, rounds: seq<Round>, ending: Ending, limit: nat)
    decreases |rounds|
  {
    if rounds == [] then EndsWith(inbox, attempts, ending, limit)
    else
      && InVain(inbox, attempts, rounds[0], limit)
      && Passes(Behind(inbox, rounds[0]), Spent(inbox, attempts, rounds[0]), rounds[1..], ending, limit)
  }

  function KeepAlives(audible: bool, n: nat): seq<Bytes> {
    if audible then Repeat(KEEP_ALIVE, n) else []
  }

  /** One keep-alive for every timeout of the wait, if it can be heard, and one 03 for every answer. */
  function SaidInRound(audible: bool, inbox: seq<RecvResult>, wait: nat, answers: nat): seq<Bytes> {
    KeepAlives(audible, Timeouts(inbox, wait)) + Repeat(ACK_03, answers)
  }

  function SaidAtEnd(audible: bool, inbox: seq<RecvResult>, ending: Ending): seq<Bytes> {
    match ending
    case Opened(wait, answers) => SaidInRound(audible, inbox, wait, answers)
    case GivenUp(wait) => KeepAlives(audible, Timeouts(inbox, wait))
  }

  function SaidInRounds(audible: bool, inbox: seq<RecvResult>, rounds: seq<Round>, ending: Ending): seq<Bytes>
    decreases |rounds|
  {
    if rounds == [] then SaidAtEnd(audible, inbox, ending)
    else SaidInRound(audible, inbox, rounds[0].wait, rounds[0].answers)
         + SaidInRounds(audible, Behind(inbox, rounds[0]), rounds[1..], ending)
  }

  function ReceivesAtEnd(ending: Ending): nat {
    match ending
    case Opened(wait, answers) => wait + 1 + answers
    case GivenUp(wait) => wait
  }

  function ReceivesInRounds(rounds: seq<Round>, ending: Ending): nat {
    if rounds == [] then ReceivesAtEnd(ending)
    else Length(rounds[0]) + ReceivesInRounds(rounds[1..], ending)
  }

  /** What these rounds and this ending make of the server's opening. */
  function Heard(audible: bool, inbox: seq<RecvResult>, rounds: seq<Round>, ending: Ending): Dialogue {
    Dialogue(ending.Opened?, SaidInRounds(audible, inbox, rounds, ending),
             Unread(inbox, ReceivesInRounds(rounds, ending)), ReceivesInRounds(rounds, ending))
  }

  // ---------------------------------------------------------------- waiting

  /** The results before i are passed over. */
  predicate Quiet(inbox: seq<RecvResult>, attempts: nat, i: nat, limit: nat) {
    && (i > 0 ==> attempts + Timeouts(inbox, i - 1) < limit)
    && forall k :: 0 <= k < i ==> Result(inbox, k) != Got(OPEN_01)
  }

  lemma FirstPassed(inbox: seq<RecvResult>, attempts: nat, i: nat, before: nat, limit: nat)
      returns (n: nat, silent: nat)
    requires i == before + 1 && Quiet(inbox, attempts, i, limit)
    ensures attempts < limit && First(inbox, 3) != Got(OPEN_01)
    ensures n == attempts + (if First(inbox, 3) == TimedOut then 1 else 0)
    ensures Quiet(Rest(inbox), n, before, limit)
    ensures silent == Timeouts(Rest(inbox), before) && n + silent == attempts + Timeouts(inbox, i)
    ensures Unread(Rest(inbox), before) == Unread(inbox, i)
  {
    FirstIsRead(inbox);
    assert Result(inbox, 0) == First(inbox, 3);
    n := attempts + (if First(inbox, 3) == TimedOut then 1 else 0);
    silent := Timeouts(Rest(inbox), before);
    TimeoutsShift(inbox, before);
    if before > 0 { TimeoutsShift(inbox, before - 1); }
    UnreadTwice(inbox, 1, Rest(inbox), before, i);
    assert forall k :: 0 <= k < before ==> Result(Rest(inbox), k) == Result(inbox, k + 1);
  }

  lemma KeepAliveFirst(audible: bool, n: nat, more: nat, later: Dialogue, i: nat, next: nat)
    requires more == n + 1 && next == i + 1
    ensures Then(if audible then [KEEP_ALIVE] else [], 1, Then(KeepAlives(audible, n), i, later)) ==
            Then(KeepAlives(audible, more), next, later)
  {
    assert Repeat(KEEP_ALIVE, more) == [KEEP_ALIVE] + Repeat(KEEP_ALIVE, n);
  }

  lemma NothingFirst(said: seq<Bytes>, later: Dialogue, i: nat, next: nat)
    requires next == i + 1
    ensures Then([], 1, Then(said, i, later)) == Then(said, next, later)
  {
  }

  lemma OnePassed(audible: bool, limit: nat, attempts: nat, inbox: seq<RecvResult>, n: nat, after: nat, before: nat,
                  i: nat, next: nat, later: Dialogue)
    requires attempts < limit && First(inbox, 3) != Got(OPEN_01) && next == i + 1
    requires n == attempts + (if First(inbox, 3) == TimedOut then 1 else 0) && n + after == attempts + before
    requires ListenDialogue(audible, limit, n, Rest(inbox)) == Then(KeepAlives(audible, after), i, later)
    ensures ListenDialogue(audible, limit, attempts, inbox) == Then(KeepAlives(audible, before), next, later)
  {
    ListeningPasses(audible, limit, attempts, inbox);
    if First(inbox, 3) == TimedOut {
      KeepAliveFirst(audible, after, before, later, i, next);
    } else {
      NothingFirst(KeepAlives(audible, after), later, i, next);
    }
  }

  /** Listening passes over quiet results with a keep-alive for every timeout. */
  lemma {:induction false} PassesQuietly(audible: bool, limit: nat, attempts: nat, inbox: seq<RecvResult>, i: nat,
                                         silent: nat, used: nat, now: seq<RecvResult>, later: Dialogue)
    requires Quiet(inbox, attempts, i, limit) && silent == Timeouts(inbox, i) && now == Unread(inbox, i)
    requires used == attempts + silent && later == ListenDialogue(audible, limit, used, now)
    ensures ListenDialogue(audible, limit, attempts, inbox) == Then(KeepAlives(audible, silent), i, later)
    decreases i
  {
    if i == 0 {
      assert now == inbox && [] + later.said == later.said;
    } else {
      var before: nat := i - 1;
      var n, after := FirstPassed(inbox, attempts, i, before, limit);
      PassesQuietly(audible, limit, n, Rest(inbox), before, after, used, now, later);
      OnePassed(audible, limit, attempts, inbox, n, after, silent, before, i, later);
    }
  }

  lemma QuietBefore(inbox: seq<RecvResult>, attempts: nat, i: nat, limit: nat)
    requires attempts <= limit
    ensures Reaches(inbox, attempts, i, limit) ==> Quiet(inbox, attempts, i, limit)
    ensures Exhausted(inbox, i, limit - attempts, OPEN_01) ==> Quiet(inbox, attempts, i, limit)
  {
    if i > 0 { TimeoutsGrow(inbox, i - 1, i); }
  }

  /** Waiting ends: with an 01 or with the attempts. */
  lemma {:induction false} WaitingEnds(attempts: nat, inbox: seq<RecvResult>, limit: nat) returns (i: nat)
    requires attempts <= limit
    ensures Reaches(inbox, attempts, i, limit) || Exhausted(inbox, i, limit - attempts, OPEN_01)
    decreases |inbox|, limit - attempts
  {
    i := 0;
    assert Result(inbox, 0) == First(inbox, 3);
    if attempts < limit && First(inbox, 3) != Got(OPEN_01) {
      var n := attempts + (if First(inbox, 3) == TimedOut then 1 else 0);
      var later := WaitingEnds(n, Rest(inbox), limit);
      i := later + 1;
      OneWaitMore(inbox, attempts, n, later, i, limit);
    }
  }

  lemma OneWaitMore(inbox: seq<RecvResult>, attempts: nat, n: nat, later: nat, i: nat, limit: nat)
    requires attempts < limit && First(inbox, 3) != Got(OPEN_01) && i == later + 1
    requires n == attempts + (if First(inbox, 3) == TimedOut then 1 else 0)
    requires Reaches(Rest(inbox), n, later, limit) || Exhausted(Rest(inbox), later, limit - n, OPEN_01)
    ensures Reaches(inbox, attempts, i, limit) || Exhausted(inbox, i, limit - attempts, OPEN_01)
  {
    assert Result(inbox, 0) == First(inbox, 3);
    TimeoutsShift(inbox, later);
    assert forall k :: 0 < k ==> Result(inbox, k) == Result(Rest(inbox), k - 1);
  }

  // ---------------------------------------------------------------- answering

  /** The answering loop, exactly: it says one 03 for every result up to the first 03 or the last timeout
      allowed, whichever comes first. */
  lemma AnswersExactly(limit: nat, inbox: seq<RecvResult>, n: nat)
    requires Exhausted(inbox, n, limit, ACK_03) || Confirms(inbox, n, limit)
    ensures AnswerDialogue(limit, 0, inbox) ==
            Dialogue(Confirms(inbox, n, limit), Repeat(ACK_03, n), Unread(inbox, n), n)
  {
    var d := AnswerDialogue(limit, 0, inbox);
    AnsweringExact(limit, 0, inbox);
    AnsweringBounded(limit, 0, inbox);
    assert inbox == Unread(inbox, 0);
    AnswerLeaves(limit, 0, inbox, 0, inbox);
    AnswersOnce(inbox, d.receives, n, limit);
  }

  lemma AnsweringEnds(limit: nat, inbox: seq<RecvResult>)
    ensures var d := AnswerDialogue(limit, 0, inbox);
            if d.ok then Confirms(inbox, d.receives, limit) else Exhausted(inbox, d.receives, limit, ACK_03)
  {
    AnsweringExact(limit, 0, inbox);
  }

  lemma AnswersOnce(inbox: seq<RecvResult>, m: nat, n: nat, limit: nat)
    requires Exhausted(inbox, m, limit, ACK_03) || Confirms(inbox, m, limit)
    requires Exhausted(inbox, n, limit, ACK_03) || Confirms(inbox, n, limit)
    ensures m == n && (Confirms(inbox, m, limit) ==> !Exhausted(inbox, m, limit, ACK_03))
  {
    if m < n { TimeoutsGrow(inbox, m, n - 1); }
    if n < m { TimeoutsGrow(inbox, n, m - 1); }
  }

  // ---------------------------------------------------------------- the whole listening

  lemma RequestAt(inbox: seq<RecvResult>, i: nat, now: seq<RecvResult>)
    requires Result(inbox, i) == Got(OPEN_01) && now == Unread(inbox, i)
    ensures First(now, 3) == Got(OPEN_01) && Rest(now) == Unread(inbox, i + 1)
  {
    RestOfUnread(inbox, i);
    UnreadTwice(inbox, i, now, 0, i);
    assert Result(now, 0) == First(now, 3);
  }

  lemma UnreadFurther(inbox: seq<RecvResult>, i: nat, n: nat, total: nat)
    requires total == i + n
    ensures Unread(Unread(inbox, i), n) == Unread(inbox, total)
  {
  }

  lemma ThenTogether(a: seq<Bytes>, m: nat, b: seq<Bytes>, n: nat, later: Dialogue, total: nat)
    requires total == m + n
    ensures Then(a, m, Then(b, n, later)) == Then(a + b, total, later)
  {
    assert a + (b + later.said) == (a + b) + later.said;
  }

  /** The answers to an 01 at i. */
  lemma AnswersAt(limit: nat, inbox: seq<RecvResult>, i: nat, answers: nat, now: seq<RecvResult>,
                  rest: seq<RecvResult>, ok: bool)
    requires Result(inbox, i) == Got(OPEN_01) && now == Unread(inbox, i) && rest == Unread(inbox, i + 1 + answers)
    requires if ok then Confirms(Unread(inbox, i + 1), answers, limit)
             else Exhausted(Unread(inbox, i + 1), answers, limit, ACK_03)
    ensures First(now, 3) == Got(OPEN_01)
    ensures AnswerDialogue(limit, 0, Rest(now)) == Dialogue(ok, Repeat(ACK_03, answers), rest, answers)
  {
    RequestAt(inbox, i, now);
    AnswersExactly(limit, Rest(now), answers);
    AnswersOnce(Rest(now), answers, answers, limit);
    UnreadFurther(inbox, i + 1, answers, i + 1 + answers);
  }

  /** A round in vain, then the rest. */
  lemma RoundInVain(audible: bool, limit: nat, attempts: nat, inbox: seq<RecvResult>, round: Round, later: Dialogue)
    requires InVain(inbox, attempts, round, limit)
    requires later == ListenDialogue(audible, limit, Spent(inbox, attempts, round), Behind(inbox, round))
    ensures ListenDialogue(audible, limit, attempts, inbox) ==
            Then(SaidInRound(audible, inbox, round.wait, round.answers), Length(round), later)
  {
    var used, now, said := Spent(inbox, attempts, round), Unread(inbox, round.wait), Repeat(ACK_03, round.answers);
    AnswersAt(limit, inbox, round.wait, round.answers, now, Behind(inbox, round), false);
    FailedRequest(audible, limit, used, now, said, Behind(inbox, round), round.answers, later);
    QuietBefore(inbox, attempts, round.wait, limit);
    var silent := Timeouts(inbox, round.wait);
    PassesQuietly(audible, limit, attempts, inbox, round.wait, silent, used, now, Then(said, 1 + round.answers, later));
    ThenTogether(KeepAlives(audible, silent), round.wait, said, 1 + round.answers, later, Length(round));
  }

  lemma FailedRequest(audible: bool, limit: nat, used: nat, now: seq<RecvResult>, said: seq<Bytes>,
                      rest: seq<RecvResult>, answers: nat, later: Dialogue)
    requires used < limit && First(now, 3) == Got(OPEN_01)
    requires AnswerDialogue(limit, 0, Rest(now)) == Dialogue(false, said, rest, answers)
    requires later == ListenDialogue(audible, limit, used, rest)
    ensures ListenDialogue(audible, limit, used, now) == Then(said, 1 + answers, later)
  {
    ListeningAnswers(audible, limit, used, now);
  }

  /** The last round, if it opens. */
  lemma RoundOpens(audible: bool, limit: nat, attempts: nat, inbox: seq<RecvResult>, wait: nat, answers: nat)
    requires EndsWith(inbox, attempts, Opened(wait, answers), limit)
    ensures ListenDialogue(audible, limit, attempts, inbox) == Heard(audible, inbox, [], Opened(wait, answers))
  {
    var used, now := attempts + Timeouts(inbox, wait), Unread(inbox, wait);
    var inner := Dialogue(true, Repeat(ACK_03, answers), Unread(inbox, wait + 1 + answers), answers);
    AnswersAt(limit, inbox, wait, answers, now, inner.rest, true);
    TakenRequest(audible, limit, used, now, inner);
    QuietBefore(inbox, attempts, wait, limit);
    PassesQuietly(audible, limit, attempts, inbox, wait, Timeouts(inbox, wait), used, now, Then([], 1, inner));
    OpeningTogether(audible, inbox, wait, answers, inner);
  }

  lemma OpeningTogether(audible: bool, inbox: seq<RecvResult>, wait: nat, answers: nat, inner: Dialogue)
    requires inner == Dialogue(true, Repeat(ACK_03, answers), Unread(inbox, wait + 1 + answers), answers)
    ensures Then(KeepAlives(audible, Timeouts(inbox, wait)), wait, Then([], 1, inner)) ==
            Heard(audible, inbox, [], Opened(wait, answers))
  {
    assert [] + inner.said == inner.said;
  }

  lemma TakenRequest(audible: bool, limit: nat, used: nat, now: seq<RecvResult>, inner: Dialogue)
    requires used < limit && First(now, 3) == Got(OPEN_01)
    requires AnswerDialogue(limit, 0, Rest(now)) == inner && inner.ok
    ensures ListenDialogue(audible, limit, used, now) == Then([], 1, inner)
  {
    ListeningAnswers(audible, limit, used, now);
  }

  lemma RoundGivenUp(audible: bool, limit: nat, attempts: nat, inbox: seq<RecvResult>, wait: nat)
    requires EndsWith(inbox, attempts, GivenUp(wait), limit) && attempts <= limit
    ensures ListenDialogue(audible, limit, attempts, inbox) ==
            Dialogue(false, KeepAlives(audible, Timeouts(inbox, wait)), Unread(inbox, wait), wait)
  {
    QuietBefore(inbox, attempts, wait, limit);
    PassesQuietly(audible, limit, attempts, inbox, wait, limit - attempts, limit, Unread(inbox, wait),
                  Dialogue(false, [], Unread(inbox, wait), 0));
  }

  /** What the server says, how often it receives, what it leaves and whether it succeeds, for whatever
      rounds its inbox begins with. */
  lemma {:induction false} ListeningSays(
    audible: bool, limit: nat, attempts: nat, inbox: seq<RecvResult>, rounds: seq<Round>, ending: Ending)
    requires attempts <= limit && Passes(inbox, attempts, rounds, ending, limit)
    ensures ListenDialogue(audible, limit, attempts, inbox) == Heard(audible, inbox, rounds, ending)
    decreases |rounds|
  {
    if rounds == [] {
      match ending
      case Opened(wait, answers) => RoundOpens(audible, limit, attempts, inbox, wait, answers);
      case GivenUp(wait) => RoundGivenUp(audible, limit, attempts, inbox, wait);
    } else {
      var round, rest, used := rounds[0], Behind(inbox, rounds[0]), Spent(inbox, attempts, rounds[0]);
      ListeningSays(audible, limit, used, rest, rounds[1..], ending);
      var later := Heard(audible, rest, rounds[1..], ending);
      RoundInVain(audible, limit, attempts, inbox, round, later);
      RoundFirst(audible, inbox, rounds, ending, rounds[1..], Length(round), later.receives,
                 ReceivesInRounds(rounds, ending));
    }
  }

  lemma RoundFirst(audible: bool, inbox: seq<RecvResult>, rounds: seq<Round>, ending: Ending, others: seq<Round>,
                   m: nat, n: nat, total: nat)
    requires rounds != [] && others == rounds[1..] && m == Length(rounds[0]) && n == ReceivesInRounds(others, ending)
    requires total == ReceivesInRounds(rounds, ending)
    ensures Then(SaidInRound(audible, inbox, rounds[0].wait, rounds[0].answers), m,
                 Heard(audible, Behind(inbox, rounds[0]), others, ending)) == Heard(audible, inbox, rounds, ending)
  {
    assert total == m + n;
    UnreadFurther(inbox, m, n, total);
  }

  lemma SomethingRead(inbox: seq<RecvResult>, i: nat, n: nat)
    requires Result(inbox, i) == Got(OPEN_01) && n > 0
    ensures |Unread(inbox, n)| < |inbox|
  {
  }

  lemma FirstRound(limit: nat, attempts: nat, inbox: seq<RecvResult>) returns (ending: Ending, round: Round)
    requires attempts <= limit
    ensures EndsWith(inbox, attempts, ending, limit) || InVain(inbox, attempts, round, limit)
  {
    var i := WaitingEnds(attempts, inbox, limit);
    var answers := AnswerDialogue(limit, 0, Unread(inbox, i + 1)).receives;
    AnsweringEnds(limit, Unread(inbox, i + 1));
    round := Round(i, answers);
    ending := if Reaches(inbox, attempts, i, limit) then Opened(i, answers) else GivenUp(i);
  }

  lemma OneRoundMore(inbox: seq<RecvResult>, attempts: nat, rounds: seq<Round>, later: seq<Round>, ending: Ending,
                     limit: nat)
    requires rounds != [] && rounds[1..] == later && InVain(inbox, attempts, rounds[0], limit)
    requires Passes(Behind(inbox, rounds[0]), Spent(inbox, attempts, rounds[0]), later, ending, limit)
    ensures Passes(inbox, attempts, rounds, ending, limit)
  {
  }

  /** And every inbox begins with some rounds and an ending. */
  lemma {:induction false} ListeningEnds(limit: nat, attempts: nat, inbox: seq<RecvResult>)
      returns (rounds: seq<Round>, ending: Ending)
    requires attempts <= limit
    ensures Passes(inbox, attempts, rounds, ending, limit)
    decreases |inbox|
  {
    var round;
    ending, round := FirstRound(limit, attempts, inbox);
    rounds := [];
    if !EndsWith(inbox, attempts, ending, limit) {
      SomethingRead(inbox, round.wait, Length(round));
      var later;
      later, ending := ListeningEnds(limit, Spent(inbox, attempts, round), Behind(inbox, round));
      rounds := [round] + later;
      OneRoundMore(inbox, attempts, rounds, later, ending, limit);
    }
  }

  /** After some rounds in vain an 01 comes before the timeouts of all the waits are `limit`, and an 03
      before there are `limit` timeouts more. */
  ghost predicate OpensInRounds(inbox: seq<RecvResult>, attempts: nat, limit: nat) {
    exists rounds, ending: Ending :: ending.Opened? && Passes(inbox, attempts, rounds, ending, limit)
  }

  lemma OpenedInRounds(audible: bool, limit: nat, attempts: nat, inbox: seq<RecvResult>)
    requires attempts <= limit && ListenDialogue(audible, limit, attempts, inbox).ok
    ensures OpensInRounds(inbox, attempts, limit)
  {
    var rounds, ending := ListeningEnds(limit, attempts, inbox);
    ListeningSays(audible, limit, attempts, inbox, rounds, ending);
  }

  /** The server's opening succeeds exactly if its results open it in rounds. */
  lemma ListeningExact(audible: bool, limit: nat, attempts: nat, inbox: seq<RecvResult>)
    requires attempts <= limit
    ensures ListenDialogue(audible, limit, attempts, inbox).ok <==> OpensInRounds(inbox, attempts, limit)
  {
    if OpensInRounds(inbox, attempts, limit) {
      var rounds, ending: Ending :| ending.Opened? && Passes(inbox, attempts, rounds, ending, limit);
      ListeningSays(audible, limit, attempts, inbox, rounds, ending);
    } else if ListenDialogue(audible, limit, attempts, inbox).ok {
      OpenedInRounds(audible, limit, attempts, inbox);
    }
  }

  /** A server nobody asks sends a keep-alive for each attempt, if it can be heard, and nothing else. */
  lemma NobodyAsks(audible: bool, limit: nat, inbox: seq<RecvResult>)
    requires forall k :: 0 <= k < ListenDialogue(audible, limit, 0, inbox).receives ==> Result(inbox, k) != Got(OPEN_01)
    ensures var d := ListenDialogue(audible, limit, 0, inbox); !d.ok && d.said == KeepAlives(audible, limit)
  {
    var rounds, ending := ListeningEnds(limit, 0, inbox);
    ListeningSays(audible, limit, 0, inbox, rounds, ending);
  }

  /** The first 01 is enough, if any 03 follows in time: then the server's opening succeeds. */
  lemma ListeningSuffices(audible: bool, limit: nat, attempts: nat, inbox: seq<RecvResult>, i: nat, gap: nat)
    requires Reaches(inbox, attempts, i, limit) && Opens(inbox, i, gap, limit)
    ensures ListenDialogue(audible, limit, attempts, inbox).ok
  {
    var now := Unread(inbox, i);
    RequestAt(inbox, i, now);
    OpensLater(inbox, i, now, 0, i, gap, limit);
    AnswerSucceeds(limit, now, gap);
    var answers := AnswerDialogue(limit, 0, Rest(now)).receives;
    AnsweringEnds(limit, Rest(now));
    RoundOpens(audible, limit, attempts, inbox, i, answers);
  }
}
