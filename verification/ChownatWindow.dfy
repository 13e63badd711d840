/** 256 outstanding packets are the most the one-byte sequence numbers can tell apart, and nothing
    in the sender keeps to that limit; and two packets of every lap cannot be repaired if lost. */
module ChownatWindow {
  import opened Wire
  import opened ChownatPeer
  import opened ChownatLink
  import opened ChownatDelivery
  import opened ChownatRepair

  // ---------------------------------------------------------------- a run that loses packets

  function Losses(actions: seq<Action>): nat {
    if actions == [] then 0
    else Losses(actions[..|actions| - 1]) + (if actions[|actions| - 1].step.Lose? then 1 else 0)
  }

  /** No action takes a datagram out of turn and none repeats one. */
  ghost predicate InTurn(actions: seq<Action>) {
    forall i :: 0 <= i < |actions| && actions[i].step.Receive? ==> actions[i].step == Receive(0, false)
  }

  /** The run leads to `s`, in turn, with so many losses and never more outstanding packets. */
  ghost predicate Leads(build: Build, channel: Channel, actions: seq<Action>, s: System, losses: nat, bound: nat) {
    && Run(build, channel, START, actions) == Reached(s) && InTurn(actions)
    && Losses(actions) == losses && NeverMore(build, channel, actions, bound)
  }

  lemma OneMore(build: Build, channel: Channel, actions: seq<Action>, s: System, losses: nat, bound: nat,
                action: Action, s': System)
    requires Leads(build, channel, actions, s, losses, bound) && Advance(build, channel, s, action) == Reached(s')
    requires action.step.Receive? ==> action.step == Receive(0, false)
    requires |s'.a.sent| - |s'.b.delivered| <= bound
    ensures Leads(build, channel, actions + [action], s', losses + (if action.step.Lose? then 1 else 0), bound)
  {
    RunExtends(build, channel, START, actions, action);
    assert (actions + [action])[..|actions|] == actions;
  }

  /** Exactly packets [first, upto) are in flight from `source`, in order. */
  predicate InFlight(source: End, chunks: seq<Bytes>, first: nat, upto: nat) {
    && first <= upto <= |chunks| && |source.wire| == upto - first
    && forall i :: 0 <= i < |source.wire| ==>
         && source.wire[i].index == first + i
         && source.wire[i].datagram == DataFrame((first + i) % RING_SIZE, chunks[first + i])
  }

  /** b accepted `delivered` payloads, a numbered the first `upto` chunks, and packets
      [first, upto) are in flight. */
  predicate Backlog(s: System, chunks: seq<Bytes>, delivered: nat, first: nat, upto: nat) {
    && !s.a.peer.closed && !s.b.peer.closed && s.b.wire == []
    && s.a.peer.id == upto % RING_SIZE && s.b.peer.expected == delivered % RING_SIZE
    && |s.b.accepted| == |s.b.delivered|
    && InFlight(s.a, chunks, first, upto) && s.a.sent == chunks[..upto]
    && |s.b.delivered| == delivered
  }

  predicate Sized(chunks: seq<Bytes>) {
    forall i :: 0 <= i < |chunks| ==> |chunks[i]| <= TCP_MTU_SIZE
  }

  lemma OneInFlight(before: seq<Tagged>, chunks: seq<Bytes>, first: nat, upto: nat, source: End, source': End)
    requires 0 < upto <= |chunks| && source.wire == before && InFlight(source, chunks, first, upto - 1)
    requires source'.wire ==
             before + [Tagged(DataFrame((upto - 1) % RING_SIZE, chunks[upto - 1]), upto - 1, upto, false)]
    ensures InFlight(source', chunks, first, upto)
  {
    forall i | 0 <= i < |source'.wire|
      ensures source'.wire[i].index == first + i
      ensures source'.wire[i].datagram == DataFrame((first + i) % RING_SIZE, chunks[first + i])
    {
      if i < |before| {
        assert source'.wire[i] == source.wire[i];
      } else {
        assert first + i == upto - 1;
      }
    }
  }

  lemma OneNumbered(source: End, chunks: seq<Bytes>, first: nat, upto: nat)
    requires 0 < upto <= |chunks| && |chunks[upto - 1]| <= TCP_MTU_SIZE
    requires InFlight(source, chunks, first, upto - 1)
    requires |source.sent| == upto - 1 && source.peer.id == (upto - 1) % RING_SIZE
    ensures InFlight(AfterSend(source, chunks[upto - 1]), chunks, first, upto)
    ensures AfterSend(source, chunks[upto - 1]).peer.id == upto % RING_SIZE
  {
    OneInFlight(source.wire, chunks, first, upto, source, AfterSend(source, chunks[upto - 1]));
    NextResidue(upto - 1, source.peer.id);
  }

  lemma HeadGone(source: End, chunks: seq<Bytes>, first: nat, upto: nat)
    requires InFlight(source, chunks, first, upto) && first < upto
    ensures InFlight(source.(wire := Without(source.wire, 0)), chunks, first + 1, upto)
  {
    var wire := Without(source.wire, 0);
    forall i | 0 <= i < |wire|
      ensures wire[i].index == first + 1 + i
      ensures wire[i].datagram == DataFrame((first + 1 + i) % RING_SIZE, chunks[first + 1 + i])
    {
      assert wire[i] == source.wire[i + 1];
      assert first + (i + 1) == first + 1 + i;
    }
  }

  lemma Number(build: Build, channel: Channel, s: System, chunks: seq<Bytes>, delivered: nat, first: nat, upto: nat)
      returns (s': System)
    requires upto > 0 && Backlog(s, chunks, delivered, first, upto - 1) && upto <= |chunks| && Sized(chunks)
    ensures Advance(build, channel, s, Action(A, SendChunk(chunks[upto - 1]))) == Reached(s')
    ensures Backlog(s', chunks, delivered, first, upto) && s'.b == s.b
  {
    var chunk := chunks[upto - 1];
    OneNumbered(s.a, chunks, first, upto);
    assert chunks[..upto - 1] + [chunk] == chunks[..upto];
    SendTaken(build, channel, s, chunk);
    s' := System(AfterSend(s.a, chunk), s.b);
  }

  lemma LoseFirst(build: Build, channel: Channel, s: System, chunks: seq<Bytes>, delivered: nat, first: nat, upto: nat)
      returns (s': System)
    requires 0 < first <= upto && Backlog(s, chunks, delivered, first - 1, upto)
    ensures Advance(build, channel, s, Action(A, Lose(0))) == Reached(s')
    ensures Backlog(s', chunks, delivered, first, upto) && s'.b == s.b
  {
    HeadGone(s.a, chunks, first - 1, upto);
    LossTaken(build, channel, s, 0);
    s' := System(s.a.(wire := Without(s.a.wire, 0)), s.b);
  }

  lemma TakeAwaited(build: Build, target: End, t: Tagged, payload: Bytes, count: nat)
    requires |payload| <= TCP_MTU_SIZE && t.datagram == DataFrame(target.peer.expected, payload)
    requires count > 0 && target.peer.expected == (count - 1) % RING_SIZE
    ensures var target' := AfterReceive(build, target, t);
            && target'.accepted == target.accepted + [t.index]
            && target'.delivered == target.delivered + [payload]
            && target'.peer == target.peer.(expected := count % RING_SIZE) && target'.wire == target.wire
  {
    FramesRoundTrip(target.peer.expected, payload);
    assert target.wire + [] == target.wire;
  }

  lemma SameResidueBefore(x: nat, y: nat)
    requires x > 0 && y > 0 && x % RING_SIZE == y % RING_SIZE
    ensures (x - 1) % RING_SIZE == (y - 1) % RING_SIZE
  {
    ResidueBefore(x);
    ResidueBefore(y);
  }

  lemma ResidueBefore(x: nat)
    requires x > 0
    ensures (x - 1) % RING_SIZE == if x % RING_SIZE == 0 then RING_SIZE - 1 else x % RING_SIZE - 1
  {
  }

  /** The head of the backlog is accepted if its number is awaited modulo 256. */
  lemma TakeFirst(build: Build, channel: Channel, s: System, chunks: seq<Bytes>, delivered: nat, first: nat, upto: nat)
      returns (s': System)
    requires 0 < first <= upto && 0 < delivered && Backlog(s, chunks, delivered - 1, first - 1, upto)
    requires first % RING_SIZE == delivered % RING_SIZE && Sized(chunks)
    requires channel != Fresh && (channel == Fifo ==> upto - (delivered - 1) <= RING_SIZE)
    ensures Advance(build, channel, s, Action(B, Receive(0, false))) == Reached(s')
    ensures Backlog(s', chunks, delivered, first, upto)
    ensures s'.b.accepted == s.b.accepted + [first - 1]
    ensures s'.b.delivered == s.b.delivered + [chunks[first - 1]]
  {
    assert s.a.wire[0].index == first - 1 + 0;
    SameResidueBefore(first, delivered);
    TakeAwaited(build, s.b, s.a.wire[0], chunks[first - 1], delivered);
    HeadGone(s.a, chunks, first - 1, upto);
    HandedOver(build, channel, s, 0, false);
    s' := System(s.a.(wire := Without(s.a.wire, 0)), AfterReceive(build, s.b, s.a.wire[0]));
  }

  /** The first k chunks, sent and delivered one after the other. */
  lemma {:induction false} DeliverFirst(build: Build, channel: Channel, chunks: seq<Bytes>, k: nat, bound: nat)
      returns (actions: seq<Action>, s: System)
    requires k <= |chunks| && Sized(chunks) && channel != Fresh && bound > 0
    ensures Leads(build, channel, actions, s, 0, bound) && Backlog(s, chunks, k, k, k)
    ensures s.b.delivered == chunks[..k]
  {
    if k == 0 {
      actions, s := [], START;
    } else {
      var before, t := DeliverFirst(build, channel, chunks, k - 1, bound);
      var send, take := Action(A, SendChunk(chunks[k - 1])), Action(B, Receive(0, false));
      var u := Number(build, channel, t, chunks, k - 1, k - 1, k);
      OneMore(build, channel, before, t, 0, bound, send, u);
      s := TakeFirst(build, channel, u, chunks, k, k, k);
      OneMore(build, channel, before + [send], u, 0, bound, take, s);
      actions := before + [send] + [take];
      assert chunks[..k - 1] + [chunks[k - 1]] == chunks[..k];
    }
  }

  lemma {:induction false} NumberMore(build: Build, channel: Channel, chunks: seq<Bytes>, k: nat, upto: nat, bound: nat)
      returns (actions: seq<Action>, s: System)
    requires k <= upto <= |chunks| && Sized(chunks) && channel != Fresh
    requires bound > 0 && upto - k <= bound
    ensures Leads(build, channel, actions, s, 0, bound) && Backlog(s, chunks, k, k, upto)
    ensures s.b.delivered == chunks[..k]
  {
    if upto == k {
      actions, s := DeliverFirst(build, channel, chunks, k, bound);
    } else {
      var before, t := NumberMore(build, channel, chunks, k, upto - 1, bound);
      var send := Action(A, SendChunk(chunks[upto - 1]));
      s := Number(build, channel, t, chunks, k, k, upto);
      OneMore(build, channel, before, t, 0, bound, send, s);
      actions := before + [send];
    }
  }

  /** The first k chunks delivered, packets k to upto - 1 numbered, and k to first - 1 lost. */
  lemma LoseUpTo(build: Build, channel: Channel, chunks: seq<Bytes>, k: nat, first: nat, upto: nat, bound: nat)
      returns (actions: seq<Action>, s: System)
    requires k <= first <= upto <= |chunks| && Sized(chunks) && channel != Fresh
    requires bound > 0 && upto - k <= bound
    ensures Leads(build, channel, actions, s, first - k, bound) && Backlog(s, chunks, k, first, upto)
    ensures s.b.delivered == chunks[..k]
  {
    actions, s := LoseSome(build, channel, chunks, k, first, upto, bound, first - k);
  }

  lemma {:induction false} LoseSome(build: Build, channel: Channel, chunks: seq<Bytes>, k: nat, first: nat, upto: nat,
                                    bound: nat, losses: nat)
      returns (actions: seq<Action>, s: System)
    requires first == k + losses && first <= upto <= |chunks| && Sized(chunks) && channel != Fresh
    requires bound > 0 && upto - k <= bound
    ensures Leads(build, channel, actions, s, losses, bound) && Backlog(s, chunks, k, first, upto)
    ensures s.b.delivered == chunks[..k]
    decreases losses
  {
    if losses == 0 {
      actions, s := NumberMore(build, channel, chunks, k, upto, bound);
    } else {
      var earlier: nat, fewer: nat := first - 1, losses - 1;
      var before, t := LoseSome(build, channel, chunks, k, earlier, upto, bound, fewer);
      actions, s := LoseOneMore(build, channel, before, t, chunks, k, earlier, first, upto, bound, fewer, losses);
    }
  }

  lemma LoseOneMore(build: Build, channel: Channel, before: seq<Action>, t: System, chunks: seq<Bytes>, k: nat,
                    earlier: nat, first: nat, upto: nat, bound: nat, fewer: nat, losses: nat)
      returns (actions: seq<Action>, s: System)
    requires losses == fewer + 1 && first == earlier + 1 && first <= upto && upto - k <= bound
    requires Leads(build, channel, before, t, fewer, bound) && Backlog(t, chunks, k, earlier, upto)
    ensures Leads(build, channel, actions, s, losses, bound) && Backlog(s, chunks, k, first, upto)
    ensures s.b == t.b
  {
    s := LoseFirst(build, channel, t, chunks, k, first, upto);
    OneMore(build, channel, before, t, fewer, bound, Action(A, Lose(0)), s);
    actions := before + [Action(A, Lose(0))];
  }

  // ---------------------------------------------------------------- the window

  lemma OneLapOn(k: nat)
    ensures (k + RING_SIZE) % RING_SIZE == k % RING_SIZE
  {
  }

  /** For every k and every choice of chunks there is a run, free of reordering and duplication, in
      which never more than 257 packets are outstanding, exactly the 256 packets from k on are lost
      and packet k + 256 is accepted as number k. With one packet fewer `DeliversInOrder` excludes
      this. */
  lemma WindowIsTight(build: Build, chunks: seq<Bytes>, k: nat) returns (actions: seq<Action>, s: System)
    requires |chunks| == k + RING_SIZE + 1 && Sized(chunks)
    ensures Leads(build, Wild, actions, s, RING_SIZE, RING_SIZE + 1) && s.a.sent == chunks && s.a.wire == []
    ensures |s.b.delivered| == |s.b.accepted| == k + 1 && s.b.delivered[..k] == chunks[..k]
    ensures s.b.accepted[k] == k + RING_SIZE && s.b.delivered[k] == chunks[k + RING_SIZE]
  {
    OneLapOn(k + 1);
    var n := |chunks|;
    var before, t := LoseUpTo(build, Wild, chunks, k, k + RING_SIZE, n, RING_SIZE + 1);
    s := TakeFirst(build, Wild, t, chunks, k + 1, n, n);
    OneMore(build, Wild, before, t, RING_SIZE, RING_SIZE + 1, Action(B, Receive(0, false)), s);
    actions := before + [Action(B, Receive(0, false))];
    assert chunks[..n] == chunks;
  }

  // ---------------------------------------------------------------- the wrap

  lemma LastOfLap(lap: nat, k: nat, n: nat)
    requires k == RING_SIZE * (lap + 1) - 1 && n == k + 2
    ensures !SameLap(k, n)
  {
  }

  lemma BeyondRepair(build: Build, s: System, chunks: seq<Bytes>, k: nat)
    requires Backlog(s, chunks, k, k + 1, k + 2) && !SameLap(k, k + 2)
    ensures GoneFor(build, s.a, s.b, k, false)
  {
    assert forall i :: 0 <= i < |s.a.wire| ==> s.a.wire[i].index == k + 1 + i;
  }

  /** Packet n is refused by a peer that still awaits k, and its request for k is answered by nothing, as
      the sequence byte has wrapped. */
  lemma RefuseNext(build: Build, s: System, chunks: seq<Bytes>, k: nat, n: nat, next: nat)
      returns (answered: System, refused: System)
    requires next == n + 1 && Backlog(s, chunks, k, n, next) && Sized(chunks)
    requires k % RING_SIZE == RING_SIZE - 1 && k < n < k + RING_SIZE
    ensures Advance(build, Queue, s, Action(B, Receive(0, false))) == Reached(refused)
    ensures Advance(build, Queue, refused, Action(A, Receive(0, false))) == Reached(answered)
    ensures Backlog(answered, chunks, k, next, next) && refused.a.sent == s.a.sent
    ensures answered.b == s.b && refused.b.delivered == s.b.delivered
  {
    assert s.a.wire[0].datagram == DataFrame((n + 0) % RING_SIZE, chunks[n + 0]);
    OtherResidue(k, n);
    FramesRoundTrip(n % RING_SIZE, chunks[n]);
    AsksForAwaited(build, s.b, s.a.wire[0]);
    HandedOver(build, Queue, s, 0, false);
    HeadGone(s.a, chunks, n, next);
    refused := System(s.a.(wire := Without(s.a.wire, 0)), AfterReceive(build, s.b, s.a.wire[0]));
    answered := AnsweredByNothing(build, refused, s.b);
  }

  lemma OtherResidue(k: nat, n: nat)
    requires k < n < k + RING_SIZE
    ensures k % RING_SIZE != n % RING_SIZE
  {
  }

  lemma AnsweredByNothing(build: Build, s: System, before: End) returns (t: System)
    requires !s.a.peer.closed && before.peer.expected == RING_SIZE - 1 && before.wire == []
    requires s.b == before.(wire := before.wire +
                                    [Tagged(NakFrame(before.peer.expected), CONTROL, |before.sent|, false)])
    ensures Advance(build, Queue, s, Action(A, Receive(0, false))) == Reached(t)
    ensures t == System(s.a, before)
  {
    FramesRoundTrip(before.peer.expected, []);
    assert Burst(build, s.a.peer, before.peer.expected) == [];
    assert AfterReceive(build, s.a, s.b.wire[0]).wire == s.a.wire + [] == s.a.wire;
    AnswerTaken(build, Queue, s, 0);
    assert Without(s.b.wire, 0) == before.wire;
    t := System(s.a, before);
  }

  /** The two steps of `RefuseNext` as part of the run. */
  lemma RefusedNext(build: Build, actions: seq<Action>, s: System, chunks: seq<Bytes>, k: nat, n: nat, next: nat)
      returns (longer: seq<Action>, t: System)
    requires Leads(build, Queue, actions, s, 1, RING_SIZE + 1) && next <= k + RING_SIZE
    requires next == n + 1 && Backlog(s, chunks, k, n, next) && Sized(chunks)
    requires k % RING_SIZE == RING_SIZE - 1 && k < n
    ensures Leads(build, Queue, longer, t, 1, RING_SIZE + 1) && actions <= longer
    ensures Backlog(t, chunks, k, next, next) && t.b == s.b
  {
    var take, answer := Action(B, Receive(0, false)), Action(A, Receive(0, false));
    var refused;
    t, refused := RefuseNext(build, s, chunks, k, n, next);
    OneMore(build, Queue, actions, s, 1, RING_SIZE + 1, take, refused);
    OneMore(build, Queue, actions + [take], refused, 1, RING_SIZE + 1, answer, t);
    longer := actions + [take] + [answer];
  }

  /** One packet more is numbered. */
  lemma NumberedNext(build: Build, actions: seq<Action>, s: System, chunks: seq<Bytes>, k: nat, n: nat, next: nat)
      returns (longer: seq<Action>, t: System)
    requires Leads(build, Queue, actions, s, 1, RING_SIZE + 1) && next <= k + RING_SIZE + 1
    requires next == n + 1 && Backlog(s, chunks, k, n, n) && next <= |chunks| && Sized(chunks)
    ensures Leads(build, Queue, longer, t, 1, RING_SIZE + 1) && actions <= longer
    ensures Backlog(t, chunks, k, n, next) && t.b == s.b
  {
    t := Number(build, Queue, s, chunks, k, n, next);
    OneMore(build, Queue, actions, s, 1, RING_SIZE + 1, Action(A, SendChunk(chunks[n])), t);
    longer := actions + [Action(A, SendChunk(chunks[n]))];
  }

  /** Packets k + 1 to n - 1 are refused and not repaired, one after the other. */
  lemma {:induction false} RefuseUpTo(
    build: Build, actions: seq<Action>, s: System, chunks: seq<Bytes>, k: nat, n: nat)
      returns (longer: seq<Action>, t: System)
    requires Leads(build, Queue, actions, s, 1, RING_SIZE + 1) && Backlog(s, chunks, k, k + 1, k + 2)
    requires k + 2 <= n <= k + RING_SIZE && n <= |chunks| && Sized(chunks) && k % RING_SIZE == RING_SIZE - 1
    ensures Leads(build, Queue, longer, t, 1, RING_SIZE + 1) && actions <= longer
    ensures Backlog(t, chunks, k, n, n) && t.b == s.b
  {
    if n == k + 2 {
      longer, t := RefusedNext(build, actions, s, chunks, k, k + 1, n);
    } else {
      var before := n - 1;
      longer, t := RefuseUpTo(build, actions, s, chunks, k, before);
      longer, t := NumberedNext(build, longer, t, chunks, k, before, n);
      longer, t := RefusedNext(build, longer, t, chunks, k, before, n);
    }
  }

  /** Then packet k + 256 is taken for packet k. */
  lemma SlipPastGap(build: Build, actions: seq<Action>, s: System, chunks: seq<Bytes>, k: nat)
      returns (longer: seq<Action>, t: System)
    requires Leads(build, Queue, actions, s, 1, RING_SIZE + 1) && Backlog(s, chunks, k, k + 1, k + 2)
    requires |chunks| == k + RING_SIZE + 1 && Sized(chunks) && k % RING_SIZE == RING_SIZE - 1
    ensures Leads(build, Queue, longer, t, 1, RING_SIZE + 1) && actions <= longer && t.a.sent == chunks
    ensures |t.b.delivered| == |t.b.accepted| == k + 1
    ensures t.b.accepted[k] == k + RING_SIZE && t.b.delivered == s.b.delivered + [chunks[k + RING_SIZE]]
  {
    var n, take := |chunks|, Action(B, Receive(0, false));
    var earlier, u := RefuseUpTo(build, actions, s, chunks, k, k + RING_SIZE);
    var later, v := NumberedNext(build, earlier, u, chunks, k, k + RING_SIZE, n);
    OneLapOn(k + 1);
    t := TakeFirst(build, Queue, v, chunks, k + 1, n, n);
    OneMore(build, Queue, later, v, 1, RING_SIZE + 1, take, t);
    longer := later + [take];
    assert chunks[..n] == chunks;
  }

  lemma {:induction false} MoreRoom(build: Build, channel: Channel, actions: seq<Action>, bound: nat, larger: nat)
    requires NeverMore(build, channel, actions, bound) && bound <= larger
    ensures NeverMore(build, channel, actions, larger)
  {
    if actions != [] {
      MoreRoom(build, channel, actions[..|actions| - 1], bound, larger);
    }
  }

  lemma LostForGood(build: Build, s: System, k: nat)
    requires Invariant(build, s) && OneWay(s.a, s.b) && |s.b.delivered| == k
    requires GoneFor(build, s.a, s.b, k, false)
    ensures forall later :: !Recovers(build, s, later, k, false)
    ensures forall later :: Run(build, Queue, s, later).Reached? &&
                            |Run(build, Queue, s, later).state.a.sent| <= k + RING_SIZE ==>
              Run(build, Queue, s, later).state.b.delivered == s.b.delivered
  {
    forall later | Run(build, Wild, s, later).Reached? ensures !Recovers(build, s, later, k, false) {
      RunKeepsGone(build, s, later, k, false);
    }
    forall later | Run(build, Queue, s, later).Reached? &&
                   |Run(build, Queue, s, later).state.a.sent| <= k + RING_SIZE
      ensures Run(build, Queue, s, later).state.b.delivered == s.b.delivered
    {
      StreamFreezes(build, s, later);
    }
  }

  /** The last packet of every lap, whatever the chunks. A run over a network that keeps order, with
      never more than two packets outstanding, loses only that packet k and leaves the one after it
      in flight. No continuation over any network delivers the lost one, and over a network that
      keeps order nothing at all is delivered while at most k + 256 packets are numbered. */
  lemma WrapLosesPacket(build: Build, chunks: seq<Bytes>, lap: nat, k: nat) returns (actions: seq<Action>, s: System)
    requires k == RING_SIZE * (lap + 1) - 1 && k + 2 <= |chunks| && Sized(chunks)
    ensures Leads(build, Queue, actions, s, 1, 2) && Backlog(s, chunks, k, k + 1, k + 2)
    ensures s.b.delivered == chunks[..k] && Awaits(s) && GoneFor(build, s.a, s.b, k, false)
    ensures forall later :: !Recovers(build, s, later, k, false)
    ensures forall later :: Run(build, Queue, s, later).Reached? &&
                            |Run(build, Queue, s, later).state.a.sent| <= k + RING_SIZE ==>
              Run(build, Queue, s, later).state.b.delivered == s.b.delivered
  {
    actions, s := LoseUpTo(build, Queue, chunks, k, k + 1, k + 2, 2);
    LastOfLap(lap, k, k + 2);
    BeyondRepair(build, s, chunks, k);
    WindowKeepsOneWay(build, actions, 2);
    LostForGood(build, s, k);
  }

  /** One packet more and the stream goes on: from every such state, whatever the chunks and whatever
      length retransmissions have, a run over a network that keeps order, without a further loss and
      with at most 257 packets outstanding, accepts packet k + 256 as number k. The 256 packets
      before it are missing. */
  lemma WrapSlipsPastGap(build: Build, chunks: seq<Bytes>, lap: nat, k: nat, actions: seq<Action>, s: System)
      returns (more: seq<Action>, t: System)
    requires k == RING_SIZE * (lap + 1) - 1 && |chunks| == k + RING_SIZE + 1 && Sized(chunks)
    requires Leads(build, Queue, actions, s, 1, 2) && Backlog(s, chunks, k, k + 1, k + 2)
    ensures Leads(build, Queue, actions + more, t, 1, RING_SIZE + 1) && Run(build, Queue, s, more) == Reached(t)
    ensures t.a.sent == chunks && |t.b.accepted| == k + 1 && t.b.accepted[k] == k + RING_SIZE
    ensures t.b.delivered == s.b.delivered + [chunks[k + RING_SIZE]]
  {
    MoreRoom(build, Queue, actions, 2, RING_SIZE + 1);
    EndOfLap(lap, k);
    var whole;
    whole, t := SlipPastGap(build, actions, s, chunks, k);
    more := whole[|actions|..];
    assert whole == actions + more;
    RunConcat(build, Queue, START, actions, more);
  }

  lemma EndOfLap(lap: nat, k: nat)
    requires k == RING_SIZE * (lap + 1) - 1
    ensures k % RING_SIZE == RING_SIZE - 1
  {
  }

  lemma RoomRunsOut(lap: nat, k: nat)
    requires k == RING_SIZE * lap + RING_SIZE - 2
    ensures SameLap(k, k + 1) && !SameLap(k, k + 2)
  {
  }

  /** The packet before the last of every lap: lost as the last one numbered it is repairable, but
      nothing will ever ask for it, and the next chunk would begin a new lap: no continuation
      delivers it. */
  lemma LapEndWaitsForEver(build: Build, chunks: seq<Bytes>, lap: nat, k: nat)
      returns (actions: seq<Action>, s: System)
    requires k == RING_SIZE * lap + RING_SIZE - 2 && |chunks| == k + 1 && Sized(chunks) && Legible(build, chunks[k])
    ensures Leads(build, Fifo, actions, s, 1, 1) && s.a.sent == chunks && s.b.delivered == chunks[..k]
    ensures Awaits(s) && Repairable(build, s.a, k, false)
    ensures forall more :: !Recovers(build, s, more, k, false)
  {
    actions, s := LoseUpTo(build, Fifo, chunks, k, k + 1, k + 1, 1);
    assert chunks[..k + 1] == chunks;
    RoomRunsOut(lap, k);
    StartHolds(build, Fifo);
    RunKeeps(build, Fifo, START, actions);
    assert !Triggered(build, s);
    LostPacketRecoverableIff(build, s, false);
  }
}
