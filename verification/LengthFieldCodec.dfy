/** The incremental decoder with its buffer (`length_field_codec.cpp`). */
module LengthFieldCodecs {
  import opened Wrappers
  import opened CodecModel

  datatype EncodeError = EmptyPayload | PayloadTooLarge

  datatype Encoded = Frame(bytes: Bytes) | Refused(error: EncodeError)

  /** A payload is refused when it is empty or too large; otherwise its frame decodes to it. */
  method EncodePayload(payload: Bytes, maxFrameSize: nat) returns (r: Encoded)
    ensures r.Frame? <==> Encodable(payload, maxFrameSize)
    ensures r.Refused? ==> r.error == if payload == [] then EmptyPayload else PayloadTooLarge
    ensures r.Frame? ==> Decode(r.bytes, maxFrameSize) == Decoding([payload], [], NoError)
    ensures r.Frame? ==> r.bytes == Encode(payload)
    ensures r.Frame? ==>
              && |r.bytes| == 4 + |payload| && r.bytes[4..] == payload
              && (r.bytes[0] as int) * 16777216 + (r.bytes[1] as int) * 65536 + (r.bytes[2] as int) * 256 + r.bytes[3]
                 == |payload|
  {
    if |payload| == 0 {
      return Refused(EmptyPayload);
    }
    if |payload| > maxFrameSize || |payload| > UINT32_MAX {
      return Refused(PayloadTooLarge);
    }
    var size := |payload|;
    var frame := [];
    frame := frame + [size / 0x100_0000];
    frame := frame + [size / 0x1_0000 % 0x100];
    frame := frame + [size / 0x100 % 0x100];
    frame := frame + [size % 0x100];
    assert frame == Header(|payload|);
    frame := frame + payload;
    HeaderRoundTrip(|payload|);
    DecodeOne(payload, [], maxFrameSize);
    assert frame + [] == frame;
    return Frame(frame);
  }

  /** From `start` on, the given frames have been read, up to `at`. */
  ghost predicate ReadUpTo(buffer: Bytes, start: nat, frames: seq<Bytes>, at: nat, max: nat)
    requires start <= |buffer| && at <= |buffer|
  {
    var d := Decode(buffer[at..], max);
    Decode(buffer[start..], max) == Decoding(frames + d.frames, d.rest, d.error)
  }

  /** The frames from `start` on end at `at`, for the given reason. */
  ghost predicate EndsAt(buffer: Bytes, start: nat, frames: seq<Bytes>, at: nat, max: nat, error: CodecError)
    requires start <= |buffer| && at <= |buffer|
  {
    Decode(buffer[start..], max) == Decoding(frames, buffer[at..], error)
  }

  lemma NothingRead(buffer: Bytes, start: nat, max: nat)
    requires start <= |buffer|
    ensures ReadUpTo(buffer, start, [], start, max)
  {
    assert [] + Decode(buffer[start..], max).frames == Decode(buffer[start..], max).frames;
  }

  /** Reading cannot go on at `at`, for the given reason. */
  ghost predicate Stops(buffer: Bytes, at: nat, max: nat, error: CodecError)
    requires at <= |buffer|
  {
    if |buffer| - at < HEADER_SIZE then error == NoError
    else if PeekLength(buffer, at) == 0 then error == EmptyFrame
    else if PeekLength(buffer, at) > max then error == FrameTooLarge
    else |buffer| - at < HEADER_SIZE + PeekLength(buffer, at) && error == NoError
  }

  lemma NothingToRead(buffer: Bytes, start: nat, frames: seq<Bytes>, at: nat, max: nat, error: CodecError)
    requires start <= |buffer| && at <= |buffer| && ReadUpTo(buffer, start, frames, at, max)
    requires Stops(buffer, at, max, error)
    ensures EndsAt(buffer, start, frames, at, max, error)
  {
    if |buffer| - at >= HEADER_SIZE {
      PeekIsAnnounced(buffer, at);
    }
    assert frames + [] == frames;
  }

  lemma OneRead(buffer: Bytes, start: nat, frames: seq<Bytes>, at: nat, max: nat, frame: Bytes, next: nat)
    requires start <= |buffer| && at + HEADER_SIZE + |frame| == next <= |buffer|
    requires ReadUpTo(buffer, start, frames, at, max)
    requires PeekLength(buffer, at) == |frame| && 0 < |frame| <= max && frame == buffer[at + HEADER_SIZE..next]
    ensures ReadUpTo(buffer, start, frames + [frame], next, max)
  {
    var unread := buffer[at..];
    PeekIsAnnounced(buffer, at);
    assert FirstFrame(unread, max) == frame;
    assert AfterFirst(unread, max) == buffer[next..];
    Associate(frames, [frame], Decode(buffer[next..], max).frames);
  }

  /** Header by header, the given frames lie between `start` and `at`. */
  ghost predicate Framed(buffer: Bytes, start: nat, frames: seq<Bytes>, at: nat, max: nat)
    requires at <= |buffer|
    decreases |frames|
  {
    if frames == [] then at == start
    else
      var n := |frames| - 1;
      var before := at - HEADER_SIZE - |frames[n]|;
      && start <= before && PeekLength(buffer, before) == |frames[n]| && 0 < |frames[n]| <= max
      && frames[n] == buffer[before + HEADER_SIZE..at]
      && Framed(buffer, start, frames[..n], before, max)
  }

  lemma {:induction false} FramedReads(buffer: Bytes, start: nat, frames: seq<Bytes>, at: nat, max: nat)
    requires start <= |buffer| && at <= |buffer| && Framed(buffer, start, frames, at, max)
    ensures ReadUpTo(buffer, start, frames, at, max)
    decreases |frames|
  {
    if frames == [] {
      NothingRead(buffer, start, max);
    } else {
      var n := |frames| - 1;
      var before := at - HEADER_SIZE - |frames[n]|;
      FramedReads(buffer, start, frames[..n], before, max);
      OneRead(buffer, start, frames[..n], before, max, frames[n], at);
      WithLast(frames);
    }
  }

  lemma WithLast(frames: seq<Bytes>)
    requires frames != []
    ensures frames[..|frames| - 1] + [frames[|frames| - 1]] == frames
  {}

  lemma FramedEnds(buffer: Bytes, start: nat, frames: seq<Bytes>, at: nat, max: nat, error: CodecError)
    requires start <= |buffer| && at <= |buffer| && Framed(buffer, start, frames, at, max)
    requires Stops(buffer, at, max, error)
    ensures EndsAt(buffer, start, frames, at, max, error)
  {
    FramedReads(buffer, start, frames, at, max);
    NothingToRead(buffer, start, frames, at, max, error);
  }

  /** The length in the header at `at`. */
  function PeekLength(buffer: Bytes, at: nat): nat
    requires at + HEADER_SIZE <= |buffer|
  {
    (buffer[at] as int) * 0x100_0000 + (buffer[at + 1] as int) * 0x1_0000
    + (buffer[at + 2] as int) * 0x100 + buffer[at + 3]
  }

  lemma PeekIsAnnounced(buffer: Bytes, at: nat)
    requires at + HEADER_SIZE <= |buffer|
    ensures PeekLength(buffer, at) == Announced(buffer[at..])
  {}

  /** Takes whole frames off the buffer until there is none or a header is wrong. */
  method ReadFrames(buffer: Bytes, start: nat, max: nat) returns (error: CodecError, frames: seq<Bytes>, at: nat)
    requires start <= |buffer|
    ensures at <= |buffer|
    ensures EndsAt(buffer, start, frames, at, max, error)
  {
    error, frames, at := NoError, [], start;
    while |buffer| - at >= HEADER_SIZE
      invariant at <= |buffer| && error == NoError
      invariant Framed(buffer, start, frames, at, max)
    {
      var length := PeekLength(buffer, at);
      if length == 0 {
        error := EmptyFrame;
        break;
      }
      if length > max {
        error := FrameTooLarge;
        break;
      }
      var next := at + HEADER_SIZE + length;
      if |buffer| < next {
        break;
      }
      assert (frames + [buffer[at + HEADER_SIZE..next]])[..|frames|] == frames;
      frames := frames + [buffer[at + HEADER_SIZE..next]];
      at := next;
    }
    FramedEnds(buffer, start, frames, at, max, error);
  }

  /** From this many bytes read on, the buffer is compacted in any case. */
  const COMPACT_AT := 4096

  class LengthFieldCodec {
    const maxFrameSize: nat
    var buffer: Bytes
    var readOffset: nat
    var failed: bool

    /**
     While the decoder has not failed, what is unread is an unfinished frame, and the
     bytes already read take up less room than the unread ones.
     */
    ghost predicate Valid()
      reads this
    {
      && 0 < maxFrameSize <= UINT32_MAX
      && readOffset <= |buffer|
      && (!failed ==>
            && Incomplete(buffer[readOffset..], maxFrameSize)
            && (readOffset == 0 || (readOffset < COMPACT_AT && readOffset < |buffer| - readOffset)))
    }

    ghost function Value(): CodecState
      reads this
      requires readOffset <= |buffer|
    {
      CodecState(buffer[readOffset..], failed)
    }

    constructor (maxFrameSize: nat)
      requires 0 < maxFrameSize <= UINT32_MAX
      ensures Valid() && Value() == FRESH && this.maxFrameSize == maxFrameSize
    {
      this.maxFrameSize := maxFrameSize;
      buffer, readOffset, failed := [], 0, false;
    }

    method Feed(data: Bytes) returns (error: CodecError, frames: seq<Bytes>)
      requires Valid()
      modifies this
      ensures Valid()
      ensures FeedResult(Value(), error, frames) == CodecModel.Feed(old(Value()), data, maxFrameSize)
      ensures !failed ==> |buffer| - readOffset <= maxFrameSize + 3 && |buffer| <= 2 * (maxFrameSize + 3)
    {
      if failed {
        error, frames := Fail(DecoderFailed);
        return;
      }
      if |data| == 0 {
        WaitingBounded(buffer[readOffset..], maxFrameSize);
        return NoError, [];
      }
      var buffered := |buffer| - readOffset;
      var maximumBuffer := maxFrameSize + HEADER_SIZE;
      if |data| > maximumBuffer || buffered > maximumBuffer - |data| {
        error, frames := Fail(FrameTooLarge);
        return;
      }
      assert (buffer + data)[readOffset..] == buffer[readOffset..] + data;
      buffer := buffer + data;
      error, frames, readOffset := ReadFrames(buffer, readOffset, maxFrameSize);
      if error != NoError {
        error, frames := Fail(error);
        return;
      }
      DecodeSound(old(buffer[readOffset..]) + data, maxFrameSize);
      WaitingBounded(buffer[readOffset..], maxFrameSize);
      Compact();
    }

    /** Drops bytes already read; the unread ones stay, and then fill at least half of the buffer. */
    method Compact()
      requires readOffset <= |buffer|
      modifies this`buffer, this`readOffset
      ensures readOffset <= |buffer|
      ensures buffer[readOffset..] == old(buffer[readOffset..])
      ensures readOffset == 0 || (readOffset < COMPACT_AT && readOffset < |buffer| - readOffset)
    {
      if readOffset == 0 {
        return;
      }
      if readOffset == |buffer| {
        buffer := [];
        readOffset := 0;
        return;
      }
      if readOffset >= COMPACT_AT || readOffset * 2 >= |buffer| {
        buffer := buffer[readOffset..];
        readOffset := 0;
      }
    }

    /** Gives up; frames read by the same call are not delivered. */
    method Fail(cause: CodecError) returns (error: CodecError, frames: seq<Bytes>)
      modifies this`failed
      ensures failed == (old(failed) || cause != DecoderFailed)
      ensures error == cause && frames == []
    {
      if cause != DecoderFailed {
        failed := true;
      }
      return cause, [];
    }

    method Reset()
      requires Valid()
      modifies this
      ensures Valid() && Value() == FRESH
    {
      buffer, readOffset, failed := [], 0, false;
    }

    method BufferedBytes() returns (n: nat)
      requires Valid()
      ensures n == |Value().unread|
      ensures !failed ==> n <= maxFrameSize + 3
    {
      if !failed {
        WaitingBounded(buffer[readOffset..], maxFrameSize);
      }
      return |buffer| - readOffset;
    }
  }

  /** A decoder, unless the maximum frame size is zero or does not fit 32 bits. */
  method NewCodec(maxFrameSize: nat) returns (r: Option<LengthFieldCodec>)
    ensures r.Some? <==> 0 < maxFrameSize <= UINT32_MAX
    ensures r.Some? ==> fresh(r.value) && r.value.Valid() && r.value.Value() == FRESH
                        && r.value.maxFrameSize == maxFrameSize
  {
    if maxFrameSize == 0 || maxFrameSize > UINT32_MAX {
      return None;
    }
    var codec := new LengthFieldCodec(maxFrameSize);
    return Some(codec);
  }
}
