/** The TypeScript client's frame codec. */
module TsFrameReader {
  import opened Bytes
  import opened Wire

  datatype FeedResult = Frames(frames: seq<Frame>) | Threw(error: WireError)

  class FrameReader {
    var buffer: seq<byte>

    constructor ()
      ensures buffer == []
    {
      buffer := [];
    }

    /** When it throws, the frames taken in this call are lost, but not the bytes behind them. */
    method Feed(data: seq<byte>) returns (r: FeedResult)
      modifies this
      ensures var p := Parse(false, old(buffer) + data);
              buffer == p.rest && r == if p.error.Some? then Threw(p.error.value) else Frames(p.frames)
    {
      buffer := buffer + data;
      ghost var all := buffer;
      var frames: seq<Frame> := [];
      assert Parse(false, all) == var p := Parse(false, buffer); p.(frames := frames + p.frames);
      while |buffer| >= 4
        invariant Parse(false, all) == var p := Parse(false, buffer); p.(frames := frames + p.frames)
        decreases |buffer|
      {
        var frameLen := FromU32(buffer[..4]);
        if frameLen < 2 {
          return Threw(TooShort);
        }
        if frameLen > MAX_FRAME_BODY_SIZE {
          return Threw(TooLarge);
        }
        var totalLen := 4 + frameLen;
        if |buffer| < totalLen {
          break;
        }
        if buffer[4] != PROTOCOL_VERSION {
          return Threw(BadVersion);
        }
        var frame := Frame(buffer[5], buffer[6..totalLen]);
        assert Take(false, buffer) == Got(frame, buffer[totalLen..]);
        ghost var later := Parse(false, buffer[totalLen..]);
        assert frames + ([frame] + later.frames) == (frames + [frame]) + later.frames;
        frames := frames + [frame];
        buffer := buffer[totalLen..];
      }
      assert Parse(false, buffer) == Parsed([], buffer, None);
      assert frames + [] == frames;
      r := Frames(frames);
    }
  }

  /** Fills an allocated buffer field by field; the length must fit its 32-bit field. */
  method EncodeFrame(f: Frame) returns (buf: array<byte>)
    requires 2 + |f.payload| < U32_SIZE
    ensures fresh(buf) && buf[..] == Encode(f)
  {
    hide U32;
    var frameLen := 2 + |f.payload|;
    buf := new byte[4 + frameLen](_ => 0);
    var len := U32(frameLen);
    buf[0], buf[1], buf[2], buf[3] := len[0], len[1], len[2], len[3];
    buf[4] := PROTOCOL_VERSION;
    buf[5] := f.kind;
    forall i | 0 <= i < |f.payload| {
      buf[6 + i] := f.payload[i];
    }
    assert buf[..4] == len && buf[4..6] == [PROTOCOL_VERSION, f.kind] && buf[6..] == f.payload;
    assert buf[..] == buf[..4] + buf[4..6] + buf[6..];
    assert buf[..] == len + [PROTOCOL_VERSION, f.kind] + f.payload;
  }

  /** Feeding a stream in any pieces yields the frames of the whole stream, or its error. */
  method FeedAll(chunks: seq<seq<byte>>) returns (frames: seq<Frame>, error: Option<WireError>)
    ensures error == Parse(false, Concat(chunks)).error
    ensures error.None? ==> frames == Parse(false, Concat(chunks)).frames
    ensures forall fs :: AllFit(false, fs) && Concat(chunks) == EncodeAll(fs) ==> error == None && frames == fs
  {
    var reader := new FrameReader();
    frames, error := [], None;
    ghost var all: seq<byte> := [];
    assert Take(false, []) == More;
    for i := 0 to |chunks|
      invariant all == Concat(chunks[..i])
      invariant Parse(false, all) == Parsed(frames, reader.buffer, None) && error == None
    {
      assert chunks[..i + 1] == chunks[..i] + [chunks[i]];
      ConcatSnoc(chunks[..i], chunks[i]);
      ParseResumes(false, all, chunks[i]);
      var r := reader.Feed(chunks[i]);
      all := all + chunks[i];
      match r
      case Frames(more) =>
        frames := frames + more;
      case Threw(e) =>
        error := Some(e);
        ErrorStays(chunks, i + 1);
        StreamsHaveNoError(chunks);
        return;
    }
    assert chunks[..|chunks|] == chunks;
    StreamsHaveNoError(chunks);
  }

  lemma ErrorStays(chunks: seq<seq<byte>>, i: nat)
    requires i <= |chunks| && Parse(false, Concat(chunks[..i])).error.Some?
    ensures Parse(false, Concat(chunks)).error == Parse(false, Concat(chunks[..i])).error
  {
    assert chunks == chunks[..i] + chunks[i..];
    ConcatAppend(chunks[..i], chunks[i..]);
    ParseResumes(false, Concat(chunks[..i]), Concat(chunks[i..]));
  }

  lemma StreamsHaveNoError(chunks: seq<seq<byte>>)
    ensures forall fs :: AllFit(false, fs) && Concat(chunks) == EncodeAll(fs) ==>
              Parse(false, Concat(chunks)) == Parsed(fs, [], None)
  {
    forall fs | AllFit(false, fs) && Concat(chunks) == EncodeAll(fs)
      ensures Parse(false, Concat(chunks)) == Parsed(fs, [], None)
    {
      ParseOfEncodeAll(false, fs);
    }
  }
}
