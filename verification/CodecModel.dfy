/**
 Length-prefixed frames (`length_field_codec.cpp`) as byte sequences: what a
 stream of bytes decodes to, and what a decoder that is fed the stream in pieces
 delivers.
 */
module CodecModel {
  import opened Wrappers

  type Byte = b: int | 0 <= b < 256 witness 0

  type Bytes = seq<Byte>

  const HEADER_SIZE := 4

  datatype CodecError = NoError | EmptyFrame | FrameTooLarge | DecoderFailed

  // ---------- encoding ----------

  predicate Encodable(payload: Bytes, max: nat) {
    0 < |payload| <= max && |payload| <= UINT32_MAX
  }

  /** A length in four bytes, the most significant first. */
  function Header(n: nat): (r: Bytes)
    requires n <= UINT32_MAX
    ensures |r| == HEADER_SIZE
  {
    [n / 0x100_0000, n / 0x1_0000 % 0x100, n / 0x100 % 0x100, n % 0x100]
  }

  /** The length a header announces. */
  function Announced(b: Bytes): nat
    requires |b| >= HEADER_SIZE
  {
    (b[0] as int) * 0x100_0000 + (b[1] as int) * 0x1_0000 + (b[2] as int) * 0x100 + b[3]
  }

  lemma HeaderRoundTrip(n: nat)
    requires n <= UINT32_MAX
    ensures Announced(Header(n)) == n
  {
    assert n / 0x100_0000 == n / 0x1_0000 / 0x100;
    assert n / 0x1_0000 == n / 0x100 / 0x100;
  }

  lemma HeaderUnique(b: Bytes)
    requires |b| == HEADER_SIZE
    ensures Announced(b) <= UINT32_MAX && Header(Announced(b)) == b
  {
    Digits(b[0], b[1], b[2], b[3]);
  }

  lemma Digits(b0: nat, b1: nat, b2: nat, b3: nat)
    requires b0 < 256 && b1 < 256 && b2 < 256 && b3 < 256
    ensures var n := b0 * 0x100_0000 + b1 * 0x1_0000 + b2 * 0x100 + b3;
            && n <= UINT32_MAX && n / 0x100_0000 == b0
            && n / 0x1_0000 == b0 * 0x100 + b1 && n / 0x100 == b0 * 0x1_0000 + b1 * 0x100 + b2
  {}

  function Encode(payload: Bytes): Bytes
    requires |payload| <= UINT32_MAX
  {
    Header(|payload|) + payload
  }

  ghost predicate AllEncodable(payloads: seq<Bytes>, max: nat) {
    forall i :: 0 <= i < |payloads| ==> Encodable(payloads[i], max)
  }

  ghost function EncodeAll(payloads: seq<Bytes>): Bytes
    requires forall i :: 0 <= i < |payloads| ==> |payloads[i]| <= UINT32_MAX
  {
    if payloads == [] then [] else Encode(payloads[0]) + EncodeAll(payloads[1..])
  }

  // ---------- decoding ----------

  /** The frames found, the bytes after them, and what is wrong with those bytes, if anything. */
  datatype Decoding = Decoding(frames: seq<Bytes>, rest: Bytes, error: CodecError)

  /** The bytes begin with a whole frame of allowed size. */
  predicate Whole(b: Bytes, max: nat) {
    |b| >= HEADER_SIZE && 0 < Announced(b) <= max && |b| >= HEADER_SIZE + Announced(b)
  }

  function FirstFrame(b: Bytes, max: nat): Bytes
    requires Whole(b, max)
  {
    b[HEADER_SIZE..HEADER_SIZE + Announced(b)]
  }

  function AfterFirst(b: Bytes, max: nat): (r: Bytes)
    requires Whole(b, max)
    ensures |r| < |b|
  {
    b[HEADER_SIZE + Announced(b)..]
  }

  /** What is wrong with the header the bytes begin with. */
  function Fault(b: Bytes, max: nat): (r: CodecError)
    ensures r != DecoderFailed
  {
    if |b| < HEADER_SIZE then NoError
    else if Announced(b) == 0 then EmptyFrame
    else if Announced(b) > max then FrameTooLarge
    else NoError
  }

  /** The beginning of a frame whose end has not arrived. */
  predicate Incomplete(b: Bytes, max: nat) {
    !Whole(b, max) && Fault(b, max) == NoError
  }

  function Decode(b: Bytes, max: nat): (d: Decoding)
    ensures d.error != DecoderFailed
    decreases |b|
  {
    if Whole(b, max) then
      var d := Decode(AfterFirst(b, max), max);
      Decoding([FirstFrame(b, max)] + d.frames, d.rest, d.error)
    else Decoding([], b, Fault(b, max))
  }

  lemma FirstIsEncoded(b: Bytes, max: nat)
    requires Whole(b, max)
    ensures Encodable(FirstFrame(b, max), max) && b == Encode(FirstFrame(b, max)) + AfterFirst(b, max)
  {
    HeaderUnique(b[..HEADER_SIZE]);
  }

  lemma FirstStays(a: Bytes, b: Bytes, max: nat)
    ensures Whole(a, max) ==> Whole(a + b, max) && FirstFrame(a + b, max) == FirstFrame(a, max)
                              && AfterFirst(a + b, max) == AfterFirst(a, max) + b
    ensures Fault(a, max) != NoError ==> Fault(a + b, max) == Fault(a, max) && !Whole(a + b, max)
  {
    if |a| >= HEADER_SIZE {
      assert Announced(a + b) == Announced(a);
    }
  }

  /** Every byte is in a frame, in a header or left over, in order; what is left over is no whole frame. */
  lemma {:induction false} DecodeSound(b: Bytes, max: nat)
    ensures var d := Decode(b, max);
            && AllEncodable(d.frames, max)
            && b == EncodeAll(d.frames) + d.rest
            && (d.error == NoError ==> Incomplete(d.rest, max))
    decreases |b|
  {
    if Whole(b, max) {
      var rest := AfterFirst(b, max);
      var d := Decode(rest, max);
      FirstIsEncoded(b, max);
      DecodeSound(rest, max);
      EncodeAllPrepend(FirstFrame(b, max), d.frames, max);
      Associate(Encode(FirstFrame(b, max)), EncodeAll(d.frames), d.rest);
    }
  }

  lemma Associate<T>(a: seq<T>, b: seq<T>, c: seq<T>)
    ensures a + (b + c) == (a + b) + c
  {}

  lemma EncodeAllPrepend(payload: Bytes, payloads: seq<Bytes>, max: nat)
    requires Encodable(payload, max) && AllEncodable(payloads, max)
    ensures AllEncodable([payload] + payloads, max)
    ensures EncodeAll([payload] + payloads) == Encode(payload) + EncodeAll(payloads)
  {
    assert ([payload] + payloads)[1..] == payloads;
  }

  /** Bytes that follow change nothing about what was decoded before them. */
  lemma {:induction false} DecodeAppend(a: Bytes, b: Bytes, max: nat)
    ensures var d := Decode(a, max);
            if d.error == NoError then
              var e := Decode(d.rest + b, max);
              Decode(a + b, max) == Decoding(d.frames + e.frames, e.rest, e.error)
            else Decode(a + b, max) == Decoding(d.frames, d.rest + b, d.error)
    decreases |a|
  {
    FirstStays(a, b, max);
    if Whole(a, max) {
      var d := Decode(AfterFirst(a, max), max);
      DecodeAppend(AfterFirst(a, max), b, max);
      Associate([FirstFrame(a, max)], d.frames, Decode(d.rest + b, max).frames);
    }
  }

  lemma DecodeIncomplete(b: Bytes, max: nat)
    requires Incomplete(b, max)
    ensures Decode(b, max) == Decoding([], b, NoError)
  {}

  lemma DecodeOne(payload: Bytes, b: Bytes, max: nat)
    requires Encodable(payload, max)
    ensures var d := Decode(b, max);
            Decode(Encode(payload) + b, max) == Decoding([payload] + d.frames, d.rest, d.error)
  {
    var all := Encode(payload) + b;
    HeaderRoundTrip(|payload|);
    assert Announced(all) == Announced(Header(|payload|));
    assert all[HEADER_SIZE..HEADER_SIZE + |payload|] == payload;
    assert all[HEADER_SIZE + |payload|..] == b;
  }

  /** Decoding undoes encoding. */
  lemma {:induction false} RoundTrip(payloads: seq<Bytes>, max: nat)
    requires AllEncodable(payloads, max)
    ensures Decode(EncodeAll(payloads), max) == Decoding(payloads, [], NoError)
  {
    if payloads != [] {
      RoundTrip(payloads[1..], max);
      DecodeOne(payloads[0], EncodeAll(payloads[1..]), max);
    }
  }

  // ---------- a decoder fed in pieces ----------

  /** Bytes waiting for the rest of their frame, and whether the decoder has given up. */
  datatype CodecState = CodecState(unread: Bytes, failed: bool)

  datatype FeedResult = FeedResult(state: CodecState, error: CodecError, frames: seq<Bytes>)

  const FRESH := CodecState([], false)

  function Feed(st: CodecState, chunk: Bytes, max: nat): FeedResult {
    if st.failed then FeedResult(st, DecoderFailed, [])
    else if chunk == [] then FeedResult(st, NoError, [])
    else if |st.unread| + |chunk| > max + HEADER_SIZE then FeedResult(st.(failed := true), FrameTooLarge, [])
    else
      var d := Decode(st.unread + chunk, max);
      if d.error != NoError then FeedResult(CodecState(d.rest, true), d.error, [])
      else FeedResult(CodecState(d.rest, false), NoError, d.frames)
  }

  /** The decoder after a number of pieces, and all frames it delivered. */
  datatype Session = Session(state: CodecState, frames: seq<Bytes>)

  function FeedAll(chunks: seq<Bytes>, max: nat): Session {
    if chunks == [] then Session(FRESH, [])
    else
      var k := |chunks| - 1;
      var before := FeedAll(chunks[..k], max);
      var r := Feed(before.state, chunks[k], max);
      Session(r.state, before.frames + r.frames)
  }

  function Joined(chunks: seq<Bytes>): Bytes {
    if chunks == [] then [] else Joined(chunks[..|chunks| - 1]) + chunks[|chunks| - 1]
  }

  /** Piece `k` is no larger than the room left after the bytes still waiting when it arrives. */
  ghost predicate FitsAt(chunks: seq<Bytes>, k: nat, max: nat)
    requires k < |chunks|
  {
    |Decode(Joined(chunks[..k]), max).rest| + |chunks[k]| <= max + HEADER_SIZE
  }

  ghost predicate Fits(chunks: seq<Bytes>, max: nat) {
    forall k :: 0 <= k < |chunks| ==> FitsAt(chunks, k, max)
  }

  lemma FitsEarlier(chunks: seq<Bytes>, n: nat, k: nat, max: nat)
    requires k < n <= |chunks|
    ensures FitsAt(chunks[..n], k, max) <==> FitsAt(chunks, k, max)
  {
    assert chunks[..n][..k] == chunks[..k];
  }

  lemma FitsStep(chunks: seq<Bytes>, max: nat)
    requires chunks != []
    ensures var n := |chunks| - 1;
            Fits(chunks, max) <==> Fits(chunks[..n], max) && FitsAt(chunks, n, max)
  {
    var n := |chunks| - 1;
    forall k | 0 <= k < n
      ensures FitsAt(chunks[..n], k, max) <==> FitsAt(chunks, k, max)
    {
      FitsEarlier(chunks, n, k, max);
    }
  }

  /** A failed decoder stays failed and delivers nothing, whatever it is fed. */
  lemma FailureLasts(st: CodecState, chunk: Bytes, max: nat)
    requires st.failed
    ensures Feed(st, chunk, max) == FeedResult(st, DecoderFailed, [])
  {}

  /** What the stream decodes to does not depend on where one more piece was cut off. */
  lemma JoinedStep(chunks: seq<Bytes>, max: nat)
    requires chunks != []
    ensures var k := |chunks| - 1;
            var d := Decode(Joined(chunks[..k]), max);
            if d.error == NoError then
              var e := Decode(d.rest + chunks[k], max);
              Decode(Joined(chunks), max) == Decoding(d.frames + e.frames, e.rest, e.error)
            else Decode(Joined(chunks), max) == Decoding(d.frames, d.rest + chunks[k], d.error)
  {
    var k := |chunks| - 1;
    DecodeAppend(Joined(chunks[..k]), chunks[k], max);
  }

  /** One more piece: it is taken if it fits and continues the stream without error. */
  lemma FeedStep(st: CodecState, chunk: Bytes, max: nat)
    requires !st.failed && Incomplete(st.unread, max)
    ensures var e := Decode(st.unread + chunk, max);
            var r := Feed(st, chunk, max);
            && (!r.state.failed <==> e.error == NoError && |st.unread| + |chunk| <= max + HEADER_SIZE)
            && (!r.state.failed ==> r == FeedResult(CodecState(e.rest, false), NoError, e.frames))
  {
    if chunk == [] {
      assert st.unread + chunk == st.unread;
      DecodeIncomplete(st.unread, max);
    }
  }

  /** The decoder has kept up with the stream: its frames delivered, its unfinished rest waiting. */
  ghost predicate KeptUp(x: Session, stream: Bytes, max: nat) {
    var d := Decode(stream, max);
    x == Session(CodecState(d.rest, false), d.frames)
  }

  /**
   Chunk independence, both ways: a stream fed in pieces never fails if and only if it
   decodes without error and every piece fits, and then exactly the frames of the whole
   stream have been delivered and exactly its unfinished rest is waiting.
   */
  lemma {:induction false} ChunkIndependence(chunks: seq<Bytes>, max: nat)
    ensures !FeedAll(chunks, max).state.failed <==> Decode(Joined(chunks), max).error == NoError && Fits(chunks, max)
    ensures !FeedAll(chunks, max).state.failed ==> KeptUp(FeedAll(chunks, max), Joined(chunks), max)
  {
    if chunks != [] {
      var k := |chunks| - 1;
      var before := FeedAll(chunks[..k], max);
      ChunkIndependence(chunks[..k], max);
      JoinedStep(chunks, max);
      FitsStep(chunks, max);
      if before.state.failed {
        FailureLasts(before.state, chunks[k], max);
      } else {
        DecodeSound(Joined(chunks[..k]), max);
        FeedStep(before.state, chunks[k], max);
      }
    }
  }

  /**
   However the encodings of a list of payloads are cut, as long as every piece fits,
   the payloads are delivered in order and nothing is left over.
   */
  lemma PayloadsDelivered(payloads: seq<Bytes>, chunks: seq<Bytes>, max: nat)
    requires AllEncodable(payloads, max) && Joined(chunks) == EncodeAll(payloads) && Fits(chunks, max)
    ensures FeedAll(chunks, max) == Session(FRESH, payloads)
  {
    RoundTrip(payloads, max);
    ChunkIndependence(chunks, max);
  }

  /** Bytes that wait for the rest of their frame are fewer than the largest frame has. */
  lemma WaitingBounded(b: Bytes, max: nat)
    requires Incomplete(b, max) && 0 < max
    ensures |b| < max + HEADER_SIZE
  {}

  /** Fed byte by byte, every piece fits, for any stream whatever. */
  lemma SingleBytesFit(chunks: seq<Bytes>, max: nat)
    requires 0 < max && Decode(Joined(chunks), max).error == NoError
    requires forall k :: 0 <= k < |chunks| ==> |chunks[k]| <= 1
    ensures Fits(chunks, max)
  {
    forall k | 0 <= k < |chunks|
      ensures FitsAt(chunks, k, max)
    {
      PrefixDecodes(chunks, k, max);
      DecodeSound(Joined(chunks[..k]), max);
      WaitingBounded(Decode(Joined(chunks[..k]), max).rest, max);
    }
  }

  lemma {:induction false} PrefixDecodes(chunks: seq<Bytes>, k: nat, max: nat)
    requires k <= |chunks| && Decode(Joined(chunks), max).error == NoError
    ensures Decode(Joined(chunks[..k]), max).error == NoError
    decreases |chunks|
  {
    if k == |chunks| {
      assert chunks[..k] == chunks;
    } else {
      var n := |chunks| - 1;
      JoinedStep(chunks, max);
      PrefixDecodes(chunks[..n], k, max);
      assert chunks[..n][..k] == chunks[..k];
    }
  }

  /** What an error says about the bytes it was found at: a length of zero, or one above the maximum. */
  lemma {:induction false} ErrorsTrue(b: Bytes, max: nat)
    ensures var d := Decode(b, max);
            && (d.error != NoError ==> |d.rest| >= 4)
            && (d.error == EmptyFrame ==> d.rest[0] == 0 && d.rest[1] == 0 && d.rest[2] == 0 && d.rest[3] == 0)
            && (d.error == FrameTooLarge ==>
                  (d.rest[0] as int) * 16777216 + (d.rest[1] as int) * 65536 + (d.rest[2] as int) * 256 + d.rest[3] > max)
    decreases |b|
  {
    if Whole(b, max) {
      ErrorsTrue(AfterFirst(b, max), max);
    }
  }

  /** A piece that does not fit, and nothing else, is refused before it is looked at. */
  lemma FeedErrorsTrue(st: CodecState, chunk: Bytes, max: nat)
    requires !st.failed && chunk != []
    ensures var r := Feed(st, chunk, max);
            if |st.unread| + |chunk| > max + 4 then r.error == FrameTooLarge && r.state.failed && r.state.unread == st.unread
            else r.error == Decode(st.unread + chunk, max).error && (r.state.failed <==> r.error != NoError)
    ensures Feed(st, chunk, max).error != NoError ==> Feed(st, chunk, max).frames == []
  {}
}
