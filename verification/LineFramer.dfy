/** The callback of the QUIC test program: it cuts a byte stream into lines, compares each line with
    the one it expects and answers it. */
module LineFramer {

  const TEST_ROUNDS: nat := 3
  const LINE_LIMIT: nat := 64

  datatype Mode = Client | Server

  /** `sends`: how many of this side's messages are sent completely before one is not;
      `hangsUp`: whether the client's disconnect succeeds. */
  datatype Link = Link(sends: nat, hangsUp: bool)

  datatype State = State(
    mode: Mode,
    message: string,
    rounds: nat,
    failed: bool,
    hungUp: bool,
    replies: seq<string>)

  function Text(kind: string, round: nat): string
    requires round < TEST_ROUNDS
  {
    "QUIC " + kind + " " + ['0' + round as char] + "\n"
  }

  function Request(round: nat): string
    requires round < TEST_ROUNDS
  {
    Text("request", round)
  }

  function Response(round: nat): string
    requires round < TEST_ROUNDS
  {
    Text("response", round)
  }

  /** The lines of a whole dialogue, in full. */
  lemma LinesInFull()
    ensures Request(0) == "QUIC request 0\n" && Request(1) == "QUIC request 1\n" && Request(2) == "QUIC request 2\n"
    ensures Response(0) == "QUIC response 0\n" && Response(1) == "QUIC response 1\n"
    ensures Response(2) == "QUIC response 2\n"
    ensures Awaited(Client, 0) == Response(0) && Awaited(Server, 0) == Request(0)
  {
  }

  function Awaited(mode: Mode, round: nat): string
    requires round < TEST_ROUNDS
  {
    if mode.Client? then Response(round) else Request(round)
  }

  function Fail(s: State): State {
    s.(failed := true, hungUp := true)
  }

  function Send(s: State, text: string, link: Link): State {
    if |s.replies| < link.sends then s.(replies := s.replies + [text]) else Fail(s)
  }

  /** The line awaited has arrived; `last` tells whether it ends with the chunk. */
  function Complete(s: State, last: bool, link: Link): State
    requires s.rounds < TEST_ROUNDS
  {
    match s.mode
    case Server =>
      var sent := Send(s, Response(s.rounds), link);
      if sent.failed then sent else sent.(rounds := s.rounds + 1)
    case Client =>
      var next := s.(rounds := s.rounds + 1);
      if next.rounds < TEST_ROUNDS then Send(next, Request(next.rounds), link)
      else if !last then Fail(next)
      else next.(hungUp := true, failed := !link.hangsUp)
  }

  /** One byte; once the test has failed every further byte is ignored. */
  function Step(s: State, c: char, last: bool, link: Link): State {
    if s.failed then s
    else if |s.message| == LINE_LIMIT then Fail(s)
    else
      var t := s.(message := s.message + [c]);
      if c != '\n' then t
      else if s.rounds >= TEST_ROUNDS || t.message != Awaited(s.mode, s.rounds) then Fail(t)
      else Complete(t.(message := ""), last, link)
  }

  /** The bytes of one chunk; `last` tells whether the chunk ends with them. */
  function Feed(s: State, bytes: string, last: bool, link: Link): State
    decreases |bytes|
  {
    if bytes == "" then s
    else Step(Feed(s, bytes[..|bytes| - 1], false, link), bytes[|bytes| - 1], last, link)
  }

  function Callback(s: State, chunk: string, link: Link): State {
    if s.failed then s else if chunk == "" then Fail(s) else Feed(s, chunk, true, link)
  }

  function Callbacks(s: State, chunks: seq<string>, link: Link): State {
    if chunks == [] then s
    else Callback(Callbacks(s, chunks[..|chunks| - 1], link), chunks[|chunks| - 1], link)
  }

  function Stream(chunks: seq<string>): string {
    if chunks == [] then "" else Stream(chunks[..|chunks| - 1]) + chunks[|chunks| - 1]
  }

  predicate NonEmpty(chunks: seq<string>) {
    forall i :: 0 <= i < |chunks| ==> chunks[i] != ""
  }

  /** Every byte as a chunk of its own. */
  function Bytewise(s: State, bytes: string, link: Link): State {
    if bytes == "" then s
    else Step(Bytewise(s, bytes[..|bytes| - 1], link), bytes[|bytes| - 1], true, link)
  }

  lemma {:induction false} BytewiseAppend(s: State, front: string, back: string, link: Link)
    ensures Bytewise(s, front + back, link) == Bytewise(Bytewise(s, front, link), back, link)
    decreases |back|
  {
    if back == "" {
      assert front + back == front;
    } else {
      BytewiseAppend(s, front, back[..|back| - 1], link);
      assert (front + back)[..|front + back| - 1] == front + back[..|back| - 1];
    }
  }

  lemma {:induction false} FailedStays(s: State, bytes: string, last: bool, link: Link)
    requires s.failed
    ensures Feed(s, bytes, last, link) == Bytewise(s, bytes, link) == s
    decreases |bytes|
  {
    if bytes != "" { FailedStays(s, bytes[..|bytes| - 1], false, link); }
  }

  lemma {:induction false} FeedHangsUp(s: State, bytes: string, last: bool, link: Link)
    requires s.failed ==> s.hungUp
    ensures var t := Feed(s, bytes, last, link); t.failed ==> t.hungUp
    decreases |bytes|
  {
    if bytes != "" { FeedHangsUp(s, bytes[..|bytes| - 1], false, link); }
  }

  /** A side whose test has failed has hung up, however the bytes came. */
  lemma {:induction false} FailureHangsUp(s: State, chunks: seq<string>, link: Link)
    requires s.failed ==> s.hungUp
    ensures var t := Callbacks(s, chunks, link); t.failed ==> t.hungUp
  {
    if chunks != [] {
      var front := chunks[..|chunks| - 1];
      FailureHangsUp(s, front, link);
      FeedHangsUp(Callbacks(s, front, link), chunks[|chunks| - 1], true, link);
    }
  }

  // ---------------------------------------------------------------- the server: chunks do not matter

  lemma {:induction false} ServerFeed(s: State, bytes: string, last: bool, link: Link)
    requires s.mode.Server?
    ensures Feed(s, bytes, last, link) == Bytewise(s, bytes, link)
    ensures Feed(s, bytes, last, link).mode.Server?
    decreases |bytes|
  {
    if bytes != "" { ServerFeed(s, bytes[..|bytes| - 1], false, link); }
  }

  lemma {:induction false} ServerIsBytewise(s: State, chunks: seq<string>, link: Link)
    requires s.mode.Server? && NonEmpty(chunks)
    ensures Callbacks(s, chunks, link) == Bytewise(s, Stream(chunks), link)
    ensures Callbacks(s, chunks, link).mode.Server?
    decreases |chunks|
  {
    if chunks != [] {
      var front, chunk := chunks[..|chunks| - 1], chunks[|chunks| - 1];
      ServerIsBytewise(s, front, link);
      var t := Callbacks(s, front, link);
      ServerFeed(t, chunk, true, link);
      BytewiseAppend(s, Stream(front), chunk, link);
      if t.failed { FailedStays(t, chunk, true, link); }
    }
  }

  /** Two splits of one byte stream into non-empty chunks leave the server in the same state, with
      the same answers sent. */
  lemma ServerIgnoresChunks(s: State, one: seq<string>, other: seq<string>, link: Link)
    requires s.mode.Server? && NonEmpty(one) && NonEmpty(other) && Stream(one) == Stream(other)
    ensures Callbacks(s, one, link) == Callbacks(s, other, link)
  {
    ServerIsBytewise(s, one, link);
    ServerIsBytewise(s, other, link);
  }

  // ---------------------------------------------------------------- the client: where chunks matter

  /** The byte before position `p` ends the last response. */
  predicate FinishesAt(s: State, bytes: string, p: nat, link: Link) {
    0 < p <= |bytes| && Bytewise(s, bytes[..p - 1], link).rounds < TEST_ROUNDS &&
    Bytewise(s, bytes[..p], link).rounds == TEST_ROUNDS
  }

  lemma {:induction false} RoundsGrow(s: State, bytes: string, p: nat, link: Link)
    requires p <= |bytes|
    ensures Bytewise(s, bytes[..p], link).rounds <= Bytewise(s, bytes, link).rounds
    ensures s.mode == Bytewise(s, bytes, link).mode
    ensures s.rounds <= TEST_ROUNDS ==> Bytewise(s, bytes, link).rounds <= TEST_ROUNDS
    decreases |bytes|
  {
    if p == |bytes| {
      assert bytes[..p] == bytes;
    }
    if bytes != "" {
      var shorter := bytes[..|bytes| - 1];
      RoundsGrow(s, shorter, if p < |bytes| then p else p - 1, link);
      if p < |bytes| { assert shorter[..p] == bytes[..p]; }
    }
  }

  /** After the last round a further byte never leaves an empty line buffer. */
  lemma {:induction false} ExtraBytesStay(s: State, bytes: string, link: Link)
    requires s.rounds == TEST_ROUNDS && !s.failed && (s.message != "" || bytes != "")
    ensures Bytewise(s, bytes, link).message != "" && Bytewise(s, bytes, link).rounds == TEST_ROUNDS
    decreases |bytes|
  {
    if bytes != "" {
      var shorter := bytes[..|bytes| - 1];
      if s.message != "" || shorter != "" { ExtraBytesStay(s, shorter, link); }
    }
  }

  lemma FinishedState(s: State, bytes: string, p: nat, link: Link)
    requires s.mode.Client? && FinishesAt(s, bytes, p, link)
    ensures var t := Bytewise(s, bytes[..p], link);
            t.rounds == TEST_ROUNDS && t.message == "" && t.hungUp && (t.failed <==> !link.hangsUp)
  {
    assert bytes[..p][..p - 1] == bytes[..p - 1];
    RoundsGrow(s, bytes[..p - 1], 0, link);
  }

  lemma FinishesOnce(s: State, bytes: string, p: nat, q: nat, link: Link)
    requires FinishesAt(s, bytes, p, link) && FinishesAt(s, bytes, q, link)
    ensures p == q
  {
    if p < q {
      assert bytes[..q - 1][..p] == bytes[..p];
      RoundsGrow(s, bytes[..q - 1], p, link);
    } else if q < p {
      assert bytes[..p - 1][..q] == bytes[..q];
      RoundsGrow(s, bytes[..p - 1], q, link);
    }
  }

  /** Finishing within a prefix is finishing within the whole. */
  lemma FinishesInPrefix(s: State, bytes: string, n: nat, p: nat, link: Link)
    requires p <= n <= |bytes|
    ensures FinishesAt(s, bytes[..n], p, link) <==> FinishesAt(s, bytes, p, link)
  {
    assert bytes[..n][..p] == bytes[..p];
    if p > 0 { assert bytes[..n][..p - 1] == bytes[..p - 1]; }
  }

  lemma FinishesInRest(s: State, front: string, back: string, q: nat, link: Link)
    requires q <= |back|
    ensures FinishesAt(Bytewise(s, front, link), back, q, link) <==>
            q > 0 && FinishesAt(s, front + back, |front| + q, link)
  {
    if q > 0 {
      assert (front + back)[..|front| + q] == front + back[..q];
      assert (front + back)[..|front| + q - 1] == front + back[..q - 1];
      BytewiseAppend(s, front, back[..q], link);
      BytewiseAppend(s, front, back[..q - 1], link);
    }
  }

  lemma NotFinishedBefore(s: State, bytes: string, n: nat, p: nat, link: Link)
    requires FinishesAt(s, bytes, p, link) && n < p
    ensures forall q: nat :: !FinishesAt(s, bytes[..n], q, link)
  {
    forall q: nat ensures !FinishesAt(s, bytes[..n], q, link) {
      if FinishesAt(s, bytes[..n], q, link) {
        FinishesInPrefix(s, bytes, n, q, link);
        FinishesOnce(s, bytes, p, q, link);
      }
    }
  }

  lemma FinishingStep(s: State, bytes: string, link: Link)
    requires s.mode.Client? && FinishesAt(s, bytes, |bytes|, link)
    ensures Step(Bytewise(s, bytes[..|bytes| - 1], link), bytes[|bytes| - 1], false, link) ==
            Fail(Bytewise(s, bytes, link))
  {
    assert bytes[..|bytes|] == bytes;
    RoundsGrow(s, bytes[..|bytes| - 1], 0, link);
  }

  lemma OtherStep(s: State, bytes: string, last: bool, link: Link)
    requires s.mode.Client? && bytes != "" && (last || !FinishesAt(s, bytes, |bytes|, link))
    ensures Step(Bytewise(s, bytes[..|bytes| - 1], link), bytes[|bytes| - 1], last, link) == Bytewise(s, bytes, link)
  {
    assert bytes[..|bytes|] == bytes;
  }

  /** A run of bytes that does not finish before its chunk ends is taken as byte by byte. */
  lemma {:induction false} UncutFeed(s: State, bytes: string, last: bool, link: Link)
    requires s.mode.Client?
    requires forall p :: FinishesAt(s, bytes, p, link) ==> p == |bytes| && last
    ensures Feed(s, bytes, last, link) == Bytewise(s, bytes, link)
    decreases |bytes|
  {
    if bytes != "" {
      var n := |bytes| - 1;
      forall p: nat ensures !FinishesAt(s, bytes[..n], p, link) {
        if p <= n { FinishesInPrefix(s, bytes, n, p, link); }
      }
      UncutFeed(s, bytes[..n], false, link);
      OtherStep(s, bytes, last, link);
    }
  }

  /** One that does finish inside its chunk ends in the failure for extra data. */
  lemma {:induction false} CutFeed(s: State, bytes: string, last: bool, p: nat, link: Link)
    requires s.mode.Client? && FinishesAt(s, bytes, p, link) && (p < |bytes| || !last)
    ensures Feed(s, bytes, last, link) == Fail(Bytewise(s, bytes[..p], link))
    decreases |bytes|
  {
    var n := |bytes| - 1;
    if p <= n {
      FinishesInPrefix(s, bytes, n, p, link);
      CutFeed(s, bytes[..n], false, p, link);
      assert bytes[..n][..p] == bytes[..p];
    } else {
      NotFinishedBefore(s, bytes, n, p, link);
      UncutFeed(s, bytes[..n], false, link);
      assert bytes[..p] == bytes && bytes[..p - 1] == bytes[..n];
      FinishingStep(s, bytes, link);
    }
  }

  /** Position `p` of the stream is the end of a chunk. */
  predicate ChunkEnd(chunks: seq<string>, p: nat) {
    exists k :: 0 <= k <= |chunks| && p == |Stream(chunks[..k])|
  }

  lemma {:induction false} StreamPrefix(chunks: seq<string>, k: nat)
    requires k <= |chunks|
    ensures Stream(chunks[..k]) <= Stream(chunks)
  {
    if k == |chunks| {
      assert chunks[..k] == chunks;
    } else {
      var front := chunks[..|chunks| - 1];
      StreamPrefix(front, k);
      assert front[..k] == chunks[..k];
    }
  }

  lemma EarlierEnd(chunks: seq<string>, k: nat)
    requires chunks != [] && k < |chunks|
    ensures var front := chunks[..|chunks| - 1];
            chunks[..k] == front[..k] && |Stream(chunks[..k])| <= |Stream(front)|
  {
    var front := chunks[..|chunks| - 1];
    assert chunks[..k] == front[..k];
    StreamPrefix(front, k);
  }

  /** The ends of the chunks are those of the chunks before the last one, and the end of the stream. */
  lemma ChunkEnds(chunks: seq<string>, p: nat)
    requires chunks != [] && NonEmpty(chunks) && p <= |Stream(chunks)|
    ensures var front := chunks[..|chunks| - 1];
            ChunkEnd(chunks, p) <==> if p <= |Stream(front)| then ChunkEnd(front, p) else p == |Stream(chunks)|
  {
    var front := chunks[..|chunks| - 1];
    assert chunks[..|chunks|] == chunks;
    if k: nat :| k <= |chunks| && p == |Stream(chunks[..k])| {
      if k < |chunks| {
        EarlierEnd(chunks, k);
        assert p == |Stream(front[..k])|;
      }
    }
    if k: nat :| k <= |front| && p == |Stream(front[..k])| {
      EarlierEnd(chunks, k);
      assert p == |Stream(chunks[..k])|;
    }
  }

  lemma {:induction false} UncutRun(s: State, chunks: seq<string>, link: Link)
    requires s.mode.Client? && NonEmpty(chunks)
    requires forall p :: FinishesAt(s, Stream(chunks), p, link) ==> ChunkEnd(chunks, p)
    ensures Callbacks(s, chunks, link) == Bytewise(s, Stream(chunks), link)
    decreases |chunks|
  {
    if chunks != [] {
      var front, chunk := chunks[..|chunks| - 1], chunks[|chunks| - 1];
      var before := Stream(front);
      assert Stream(chunks)[..|before|] == before;
      forall p | FinishesAt(s, before, p, link) ensures ChunkEnd(front, p) {
        FinishesInPrefix(s, Stream(chunks), |before|, p, link);
        ChunkEnds(chunks, p);
      }
      UncutRun(s, front, link);
      var t := Bytewise(s, before, link);
      BytewiseAppend(s, before, chunk, link);
      RoundsGrow(s, before, 0, link);
      forall q | FinishesAt(t, chunk, q, link) ensures q == |chunk| {
        FinishesInRest(s, before, chunk, q, link);
        ChunkEnds(chunks, |before| + q);
      }
      if t.failed { FailedStays(t, chunk, true, link); } else { UncutFeed(t, chunk, true, link); }
    }
  }

  lemma {:induction false} CutRun(s: State, chunks: seq<string>, p: nat, link: Link)
    requires s.mode.Client? && NonEmpty(chunks)
    requires FinishesAt(s, Stream(chunks), p, link) && !ChunkEnd(chunks, p)
    ensures Callbacks(s, chunks, link) == Fail(Bytewise(s, Stream(chunks)[..p], link))
    decreases |chunks|
  {
    if chunks != [] {
      var front, chunk := chunks[..|chunks| - 1], chunks[|chunks| - 1];
      var before := Stream(front);
      assert Stream(chunks)[..|before|] == before;
      ChunkEnds(chunks, p);
      if p <= |before| {
        FinishesInPrefix(s, Stream(chunks), |before|, p, link);
        CutRun(s, front, p, link);
        assert before[..p] == Stream(chunks)[..p];
      } else {
        NotFinishedBefore(s, Stream(chunks), |before|, p, link);
        UncutRun(s, front, link);
        RoundsGrow(s, before, 0, link);
        CutChunk(s, before, chunk, p, link);
      }
    }
  }

  lemma CutChunk(s: State, before: string, chunk: string, p: nat, link: Link)
    requires s.mode.Client? && Bytewise(s, before, link).mode.Client?
    requires |before| < p < |before + chunk| && FinishesAt(s, before + chunk, p, link)
    ensures var t := Bytewise(s, before, link);
            Callback(t, chunk, link) == Fail(Bytewise(s, (before + chunk)[..p], link))
  {
    var t, q := Bytewise(s, before, link), p - |before|;
    FinishesInRest(s, before, chunk, q, link);
    if t.failed {
      FailedStays(t, chunk[..q - 1], true, link);
      FailedStays(t, chunk[..q], true, link);
    } else {
      CutFeed(t, chunk, true, q, link);
      BytewiseAppend(s, before, chunk[..q], link);
      assert (before + chunk)[..p] == before + chunk[..q];
    }
  }

  /** The client is the exception: it ends as if its bytes had come one by one exactly if the last
      response does not end inside a chunk, or its disconnect fails, which fails the test as well. */
  lemma ClientChunksMatterIff(s: State, chunks: seq<string>, link: Link)
    requires s.mode.Client? && NonEmpty(chunks)
    ensures Callbacks(s, chunks, link) == Bytewise(s, Stream(chunks), link) <==>
            !link.hangsUp || forall p :: FinishesAt(s, Stream(chunks), p, link) ==> ChunkEnd(chunks, p)
  {
    var stream := Stream(chunks);
    if p: nat :| FinishesAt(s, stream, p, link) && !ChunkEnd(chunks, p) {
      CutRun(s, chunks, p, link);
      FinishedState(s, stream, p, link);
      var t, rest := Bytewise(s, stream[..p], link), stream[p..];
      assert stream == stream[..p] + rest;
      BytewiseAppend(s, stream[..p], rest, link);
      if link.hangsUp {
        assert chunks[..|chunks|] == chunks;
        assert rest != "";
        ExtraBytesStay(t, rest, link);
      } else {
        FailedStays(t, rest, true, link);
      }
    } else {
      UncutRun(s, chunks, link);
    }
  }

  predicate OneLine(text: string) {
    '\n' !in text && |text| <= LINE_LIMIT
  }

  /** What does not end a line is kept. */
  lemma {:induction false} KeepsText(s: State, text: string, link: Link)
    requires !s.failed && s.message == "" && OneLine(text)
    ensures Bytewise(s, text, link) == s.(message := text)
    decreases |text|
  {
    if text != "" {
      var n := |text| - 1;
      KeepsText(s, text[..n], link);
      assert text == text[..n] + [text[n]];
    }
  }

  /** The last response, by itself, ends the client's test well. */
  lemma LastResponse(s: State, text: string, link: Link)
    requires s.mode.Client? && !s.failed && s.message == "" && s.rounds == TEST_ROUNDS - 1 && link.hangsUp
    requires text == Response(TEST_ROUNDS - 1)
    ensures |text| > 0 && Bytewise(s, text[..|text| - 1], link).rounds == s.rounds
    ensures Bytewise(s, text, link) == s.(rounds := TEST_ROUNDS, hungUp := true)
  {
    var n := |text| - 1;
    assert text[n] == '\n' && text == text[..n] + [text[n]];
    KeepsText(s, text[..n], link);
  }

  /** The same bytes, cut in two ways: with the last response in a chunk of its own the client has not
      failed, whatever unfinished line follows; with both in one chunk it has. */
  lemma ClientTellsChunksApart(s: State, extra: string, link: Link)
    requires s.mode.Client? && !s.failed && s.message == "" && s.rounds == TEST_ROUNDS - 1 && link.hangsUp
    requires extra != "" && OneLine(extra)
    ensures !Callbacks(s, [Response(TEST_ROUNDS - 1), extra], link).failed
    ensures Callbacks(s, [Response(TEST_ROUNDS - 1) + extra], link).failed
  {
    var text := Response(TEST_ROUNDS - 1);
    var p, both, one := |text|, text + extra, [text + extra];
    LastResponse(s, text, link);
    assert both[..p] == text && both[..p - 1] == text[..p - 1];
    assert FinishesAt(s, both, p, link);
    StreamOfOne(both);
    ChunkEnds(one, p);
    CutRun(s, one, p, link);
    ApartIsBytewise(s, text, extra, link);
    BytewiseAppend(s, text, extra, link);
    KeepsText(Bytewise(s, text, link), extra, link);
  }

  lemma StreamOfOne(chunk: string)
    ensures Stream([chunk]) == chunk && [chunk][..0] == []
  {
    assert [chunk][..0] == [];
  }

  /** A response in a chunk of its own. */
  lemma ApartIsBytewise(s: State, text: string, extra: string, link: Link)
    requires s.mode.Client? && text != "" && extra != "" && FinishesAt(s, text + extra, |text|, link)
    ensures Callbacks(s, [text, extra], link) == Bytewise(s, text + extra, link)
  {
    var chunks := [text, extra];
    assert chunks[..|chunks| - 1] == [text] && chunks[..1] == [text];
    StreamOfOne(text);
    assert Stream(chunks) == Stream([text]) + extra;
    assert ChunkEnd(chunks, |text|);
    forall p | FinishesAt(s, Stream(chunks), p, link) ensures ChunkEnd(chunks, p) {
      FinishesOnce(s, Stream(chunks), p, |text|, link);
    }
    UncutRun(s, chunks, link);
  }

  // ---------------------------------------------------------------- the callback as it is written

  /** A failure decides the whole chunk. */
  lemma {:induction false} FailedEarly(s: State, chunk: string, i: nat, link: Link)
    requires i <= |chunk| && Feed(s, chunk[..i], i == |chunk|, link).failed
    ensures Feed(s, chunk, true, link) == Feed(s, chunk[..i], i == |chunk|, link)
    decreases |chunk| - i
  {
    if i == |chunk| {
      assert chunk[..i] == chunk;
    } else {
      FeedMore(s, chunk, i, link);
      FailedEarly(s, chunk, i + 1, link);
    }
  }

  lemma FeedMore(s: State, chunk: string, i: nat, link: Link)
    requires i < |chunk|
    ensures Feed(s, chunk[..i + 1], i + 1 == |chunk|, link) ==
            Step(Feed(s, chunk[..i], false, link), chunk[i], i + 1 == |chunk|, link)
  {
    assert chunk[..i + 1][..i] == chunk[..i];
  }

  class Framer {
    const mode: Mode
    const link: Link
    const receivedMessage: array<char>
    var receivedLength: nat
    var completedRounds: nat
    var testFailed: bool
    var disconnected: bool
    var sent: seq<string>

    ghost predicate Valid()
      reads this
    {
      receivedMessage.Length == LINE_LIMIT && receivedLength <= LINE_LIMIT
    }

    ghost function Value(): State
      requires Valid()
      reads this, receivedMessage
    {
      State(mode, receivedMessage[..receivedLength], completedRounds, testFailed, disconnected, sent)
    }

    constructor (mode: Mode, link: Link)
      ensures Valid() && Value() == State(mode, "", 0, false, false, []) && this.link == link
      ensures fresh(receivedMessage)
    {
      this.mode, this.link := mode, link;
      receivedMessage := new char[LINE_LIMIT];
      receivedLength, completedRounds, testFailed, disconnected, sent := 0, 0, false, false, [];
    }

    method FailTest()
      requires Valid()
      modifies this`testFailed, this`disconnected
      ensures Valid() && Value() == Fail(old(Value()))
    {
      testFailed, disconnected := true, true;
    }

    method SendMessage(text: string) returns (complete: bool)
      requires Valid() && !testFailed
      modifies this`testFailed, this`disconnected, this`sent
      ensures Valid() && Value() == Send(old(Value()), text, link) && complete == !testFailed
    {
      complete := |sent| < link.sends;
      if complete { sent := sent + [text]; } else { FailTest(); }
    }

    /** A complete line has been received. */
    method EndOfLine(last: bool)
      requires Valid() && !testFailed
      modifies this
      ensures Valid()
      ensures Value() == var s := old(Value());
                         if s.rounds >= TEST_ROUNDS || s.message != Awaited(s.mode, s.rounds) then Fail(s)
                         else Complete(s.(message := ""), last, link)
    {
      if completedRounds >= TEST_ROUNDS || receivedMessage[..receivedLength] != Awaited(mode, completedRounds) {
        FailTest();
        return;
      }
      receivedLength := 0;
      if mode.Server? {
        var complete := SendMessage(Response(completedRounds));
        if !complete { return; }
      }
      completedRounds := completedRounds + 1;
      if mode.Client? {
        if completedRounds < TEST_ROUNDS {
          var _ := SendMessage(Request(completedRounds));
        } else if !last {
          FailTest();
        } else {
          disconnected := true;
          if !link.hangsUp { testFailed := true; }
        }
      }
    }

    /** One iteration of the loop over a chunk. */
    method TakeByte(c: char, last: bool)
      requires Valid() && !testFailed
      modifies this, receivedMessage
      ensures Valid() && Value() == Step(old(Value()), c, last, link)
    {
      if receivedLength == LINE_LIMIT {
        FailTest();
        return;
      }
      receivedMessage[receivedLength] := c;
      receivedLength := receivedLength + 1;
      assert receivedMessage[..receivedLength] == old(receivedMessage[..receivedLength]) + [c];
      if c == '\n' { EndOfLine(last); }
    }

    /** The callback for received data. */
    method Receive(chunk: string)
      requires Valid()
      modifies this, receivedMessage
      ensures Valid() && Value() == Callback(old(Value()), chunk, link)
    {
      if testFailed { return; }
      if |chunk| == 0 {
        FailTest();
        return;
      }
      ghost var s := Value();
      for i := 0 to |chunk|
        invariant Valid() && !testFailed
        invariant Value() == Feed(s, chunk[..i], i == |chunk|, link)
      {
        FeedMore(s, chunk, i, link);
        TakeByte(chunk[i], i + 1 == |chunk|);
        if testFailed {
          FailedEarly(s, chunk, i + 1, link);
          return;
        }
      }
      assert chunk[..|chunk|] == chunk;
    }
  }
}
