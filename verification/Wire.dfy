/**
 The keepty wire format: `[u32 length][u8 version][u8 kind][payload]`, one-shot
 reading as the Rust crate does it, and the incremental parse that the buffered
 readers repeat.
 */
module Wire {
  import opened Bytes

  const PROTOCOL_VERSION: byte := 1
  const MAX_PAYLOAD_SIZE: nat := 1_048_576
  const MAX_FRAME_BODY_SIZE: nat := MAX_PAYLOAD_SIZE + 2
  const U32_SIZE: nat := 0x1_0000_0000

  // Message kinds.
  const OUTPUT: byte := 4
  const RESIZE_ACK: byte := 6
  const EXIT: byte := 10
  const PING: byte := 12
  const PONG: byte := 13
  const ERROR: byte := 127

  predicate KnownKind(kind: byte) {
    1 <= kind <= 6 || 10 <= kind <= 13 || kind == ERROR
  }

  datatype Frame = Frame(kind: byte, payload: seq<byte>)

  // ----- big-endian numbers -----

  function U32(n: nat): (s: seq<byte>)
    requires n < U32_SIZE
    ensures |s| == 4
  {
    [n / 0x100_0000, n / 0x1_0000 % 0x100, n / 0x100 % 0x100, n % 0x100]
  }

  function FromU32(s: seq<byte>): (n: nat)
    requires |s| == 4
    ensures n < U32_SIZE
  {
    var (a: int, b: int, c: int) := (s[0], s[1], s[2]);
    a * 0x100_0000 + b * 0x1_0000 + c * 0x100 + s[3]
  }

  lemma U32RoundTrip(n: nat)
    requires n < U32_SIZE
    ensures FromU32(U32(n)) == n
  {
    var a, b, c := n / 0x100, n / 0x1_0000, n / 0x100_0000;
    assert n == a * 0x100 + n % 0x100;
    assert a / 0x100 == b && a == b * 0x100 + a % 0x100;
    assert b / 0x100 == c && b == c * 0x100 + b % 0x100;
  }

  lemma U32Bytes(n: nat)
    requires n < U32_SIZE
    ensures var s := U32(n);
            s[0] as int * 16_777_216 + s[1] as int * 65_536 + s[2] as int * 256 + s[3] as int == n
  {
    U32RoundTrip(n);
  }

  lemma U32Canonical(s: seq<byte>)
    requires |s| == 4
    ensures U32(FromU32(s)) == s
  {
    var n, a: int, b: int := FromU32(s), s[0], s[1];
    assert n / 0x100 == a * 0x1_0000 + b * 0x100 + s[2] && n % 0x100 == s[3];
    assert n / 0x1_0000 == a * 0x100 + b;
    assert n / 0x100_0000 == a;
  }

  // ----- encoding -----

  /** Wire form of a frame; the length field is a truncating cast to 32 bits. */
  function Encode(f: Frame): (s: seq<byte>)
    ensures |s| == |f.payload| + 6 && s[5] == f.kind && s[6..] == f.payload
  {
    U32((2 + |f.payload|) % U32_SIZE) + [PROTOCOL_VERSION, f.kind] + f.payload
  }

  function EncodeAll(fs: seq<Frame>): seq<byte> {
    if fs == [] then [] else Encode(fs[0]) + EncodeAll(fs[1..])
  }

  lemma {:induction false} EncodeAllAppend(a: seq<Frame>, b: seq<Frame>)
    ensures EncodeAll(a + b) == EncodeAll(a) + EncodeAll(b)
  {
    if a == [] {
      assert a + b == b;
    } else {
      assert (a + b)[1..] == a[1..] + b;
      EncodeAllAppend(a[1..], b);
    }
  }

  lemma EncodeAllSnoc(a: seq<Frame>, f: Frame)
    ensures EncodeAll(a + [f]) == EncodeAll(a) + Encode(f)
  {
    EncodeAllAppend(a, [f]);
    assert [f][1..] == [];
  }

  /** The frame in bytes: a big-endian count of what follows it, the version, the kind, the payload. */
  lemma EncodedBytes(f: Frame)
    requires |f.payload| <= 1_048_576
    ensures var s := Encode(f);
            && s[0] as int * 16_777_216 + s[1] as int * 65_536 + s[2] as int * 256 + s[3] as int == |f.payload| + 2
            && s[4] == 1 && s[5] == f.kind && s[6..] == f.payload
  {
    var s := Encode(f);
    U32Bytes(2 + |f.payload|);
    hide U32;
    assert s[..4] == U32(2 + |f.payload|);
    assert s[0] == s[..4][0] && s[1] == s[..4][1] && s[2] == s[..4][2] && s[3] == s[..4][3];
  }

  /** The kinds of the protocol. */
  lemma KnownKinds(kind: byte)
    ensures KnownKind(kind) <==> kind in {1, 2, 3, 4, 5, 6, 10, 11, 12, 13, 127}
  {
  }

  // ----- taking one frame off the front of a buffer -----

  datatype WireError = TooShort | TooLarge | BadVersion | UnknownKind

  datatype Taken = More | Bad(error: WireError) | Got(frame: Frame, rest: seq<byte>)

  /** What the readers decide about the front of a buffer. The Rust readers are
      `strict`: they refuse kinds they do not know. The TypeScript reader is not. */
  function Take(strict: bool, buf: seq<byte>): (t: Taken)
    ensures t.Got? ==> |t.rest| < |buf|
  {
    if |buf| < 4 then More
    else
      var len := FromU32(buf[..4]);
      if len < 2 then Bad(TooShort)
      else if len > MAX_FRAME_BODY_SIZE then Bad(TooLarge)
      else if |buf| < 4 + len then More
      else if buf[4] != PROTOCOL_VERSION then Bad(BadVersion)
      else if strict && !KnownKind(buf[5]) then Bad(UnknownKind)
      else Got(Frame(buf[5], buf[6..4 + len]), buf[4 + len..])
  }

  /** What is wrong with a front that no reader accepts, in bytes and in this order:
      a count below 2, above the limit, another version, another kind. */
  lemma BadFronts(strict: bool, buf: seq<byte>)
    requires |buf| >= 4
    ensures var n := buf[0] as int * 16_777_216 + buf[1] as int * 65_536 + buf[2] as int * 256 + buf[3] as int;
            var whole := 2 <= n <= 1_048_578 && n + 4 <= |buf|;
            && (Take(strict, buf) == Bad(TooShort) <==> n < 2)
            && (Take(strict, buf) == Bad(TooLarge) <==> n > 1_048_578)
            && (Take(strict, buf) == Bad(BadVersion) <==> whole && buf[4] != 1)
            && (Take(strict, buf) == Bad(UnknownKind) <==>
                  strict && whole && buf[4] == 1 && buf[5] !in {1, 2, 3, 4, 5, 6, 10, 11, 12, 13, 127})
            && (Take(strict, buf) == More <==> 2 <= n <= 1_048_578 && n + 4 > |buf|)
  {
  }

  /** Frames a reader of the given strictness must accept. */
  predicate Fits(strict: bool, f: Frame) {
    |f.payload| <= MAX_PAYLOAD_SIZE && (strict ==> KnownKind(f.kind))
  }

  ghost predicate AllFit(strict: bool, fs: seq<Frame>) {
    forall i :: 0 <= i < |fs| ==> Fits(strict, fs[i])
  }

  lemma TakeOfEncode(strict: bool, f: Frame, rest: seq<byte>)
    requires Fits(strict, f)
    ensures Take(strict, Encode(f) + rest) == Got(f, rest)
  {
    var buf := Encode(f) + rest;
    var len := 2 + |f.payload|;
    assert buf[..4] == U32(len);
    U32RoundTrip(len);
    assert buf[6..4 + len] == f.payload;
    assert buf[4 + len..] == rest;
  }

  lemma TakeIsEncode(strict: bool, buf: seq<byte>)
    requires Take(strict, buf).Got?
    ensures var t := Take(strict, buf); Fits(strict, t.frame) && buf == Encode(t.frame) + t.rest
  {
    var len := FromU32(buf[..4]);
    U32Canonical(buf[..4]);
    var t := Take(strict, buf);
    assert Encode(t.frame) == buf[..4 + len];
  }

  /** Reading inverts encoding, and every accepted byte string is the one and
      only encoding of its result. */
  lemma TakeIffEncode(strict: bool, buf: seq<byte>, f: Frame, rest: seq<byte>)
    ensures Take(strict, buf) == Got(f, rest) <==> Fits(strict, f) && buf == Encode(f) + rest
  {
    if Take(strict, buf) == Got(f, rest) {
      TakeIsEncode(strict, buf);
    }
    if Fits(strict, f) && buf == Encode(f) + rest {
      TakeOfEncode(strict, f, rest);
    }
  }

  /** A decision, once made, is not changed by bytes that arrive later. */
  lemma TakeStable(strict: bool, a: seq<byte>, b: seq<byte>)
    requires !Take(strict, a).More?
    ensures match Take(strict, a)
            case Bad(e) => Take(strict, a + b) == Bad(e)
            case Got(f, rest) => Take(strict, a + b) == Got(f, rest + b)
  {
    assert (a + b)[..4] == a[..4];
    if Take(strict, a).Got? {
      var len := FromU32(a[..4]);
      assert (a + b)[6..4 + len] == a[6..4 + len];
      assert (a + b)[4 + len..] == a[4 + len..] + b;
    }
  }

  /** Every proper prefix of an encoding is still undecided. */
  lemma TakeOfPrefix(strict: bool, f: Frame, buf: seq<byte>)
    requires Fits(strict, f) && buf < Encode(f)
    ensures Take(strict, buf) == More
  {
    var rest := Encode(f)[|buf|..];
    assert Encode(f) == buf + rest;
    TakeOfEncode(strict, f, []);
    assert Encode(f) + [] == Encode(f);
    if Take(strict, buf) != More {
      TakeStable(strict, buf, rest);
    }
  }

  // ----- one-shot reading -----

  /** A reader over bytes that will end: a slice, or a socket up to its EOF. */
  class Reader {
    var rest: seq<byte>

    constructor (bytes: seq<byte>)
      ensures rest == bytes
    {
      rest := bytes;
    }

    method ReadExact(n: nat) returns (r: Option<seq<byte>>)
      modifies this
      ensures n <= |old(rest)| ==> r == Some(old(rest)[..n]) && rest == old(rest)[n..]
      ensures n > |old(rest)| ==> r == None && rest == []
    {
      if n <= |rest| {
        r := Some(rest[..n]);
        rest := rest[n..];
      } else {
        r := None;
        rest := [];
      }
    }
  }

  datatype ReadResult = EndOfInput | Truncated | Invalid(error: WireError) | Read(frame: Frame)

  /** `Frame::read_from`: a clean end is one inside the length field. */
  method ReadFrom(reader: Reader) returns (r: ReadResult)
    modifies reader
    ensures r.EndOfInput? <==> |old(reader.rest)| < 4
    ensures r.Truncated? <==> Take(true, old(reader.rest)).More? && |old(reader.rest)| >= 4
    ensures forall e :: r == Invalid(e) <==> Take(true, old(reader.rest)) == Bad(e)
    ensures forall f :: r == Read(f) <==>
              Fits(true, f) && Encode(f) <= old(reader.rest)
    ensures r.Read? ==> old(reader.rest) == Encode(r.frame) + reader.rest
  {
    ghost var all := reader.rest;
    r := ReadFields(reader);
    forall f
      ensures r == Read(f) <==> Fits(true, f) && Encode(f) <= all
    {
      if Encode(f) <= all {
        TakeIffEncode(true, all, f, all[|Encode(f)|..]);
      }
      TakeIffEncode(true, all, f, reader.rest);
    }
  }

  method ReadFields(reader: Reader) returns (r: ReadResult)
    modifies reader
    ensures match Take(true, old(reader.rest))
            case More => r == if |old(reader.rest)| < 4 then EndOfInput else Truncated
            case Bad(e) => r == Invalid(e)
            case Got(f, rest) => r == Read(f) && reader.rest == rest
  {
    var lenBuf := reader.ReadExact(4);
    if lenBuf.None? {
      return EndOfInput;
    }
    var frameLen := FromU32(lenBuf.value);
    if frameLen < 2 {
      return Invalid(TooShort);
    }
    if frameLen > MAX_FRAME_BODY_SIZE {
      return Invalid(TooLarge);
    }
    var data := reader.ReadExact(frameLen);
    if data.None? {
      return Truncated;
    }
    if data.value[0] != PROTOCOL_VERSION {
      return Invalid(BadVersion);
    }
    if !KnownKind(data.value[1]) {
      return Invalid(UnknownKind);
    }
    r := Read(Frame(data.value[1], data.value[2..]));
  }

  // ----- incremental parsing -----

  datatype Parsed = Parsed(frames: seq<Frame>, rest: seq<byte>, error: Option<WireError>)

  /** Everything that can be taken off a buffer. */
  function Parse(strict: bool, buf: seq<byte>): (p: Parsed)
    decreases |buf|
  {
    match Take(strict, buf)
    case More => Parsed([], buf, None)
    case Bad(e) => Parsed([], buf, Some(e))
    case Got(f, rest) =>
      var p := Parse(strict, rest);
      p.(frames := [f] + p.frames)
  }

  /** The frames parsed and the bytes left are together exactly the input. */
  lemma {:induction false} ParseAccountsForInput(strict: bool, buf: seq<byte>)
    ensures var p := Parse(strict, buf);
            AllFit(strict, p.frames) && buf == EncodeAll(p.frames) + p.rest
    decreases |buf|
  {
    hide Take, FromU32, U32;
    var t := Take(strict, buf);
    if t.Got? {
      TakeIsEncode(strict, buf);
      ParseAccountsForInput(strict, t.rest);
    }
  }

  /** Parsing may stop anywhere and resume with what was left over. */
  lemma {:induction false} ParseResumes(strict: bool, a: seq<byte>, b: seq<byte>)
    ensures Parse(strict, a + b) == Resumed(strict, Parse(strict, a), b)
    decreases |a|
  {
    hide Take, FromU32, U32;
    var p := Parse(strict, a);
    match Take(strict, a)
    case More =>
    case Bad(_) => TakeStable(strict, a, b);
    case Got(f, rest) =>
      TakeStable(strict, a, b);
      ParseResumes(strict, rest, b);
      ResumedBehind(strict, f, Parse(strict, rest), b);
  }

  function Resumed(strict: bool, p: Parsed, b: seq<byte>): Parsed {
    if p.error.Some? then p.(rest := p.rest + b)
    else
      var q := Parse(strict, p.rest + b);
      q.(frames := p.frames + q.frames)
  }

  lemma ResumedBehind(strict: bool, f: Frame, p: Parsed, b: seq<byte>)
    ensures var r := Resumed(strict, p, b);
            Resumed(strict, p.(frames := [f] + p.frames), b) == r.(frames := [f] + r.frames)
  {
  }

  /** On any prefix of a well-formed stream the parse yields the frames that are
      complete and leaves a proper prefix of the next encoding. */
  lemma {:induction false} ParseOfStream(strict: bool, fs: seq<Frame>, buf: seq<byte>)
    requires AllFit(strict, fs)
    requires buf <= EncodeAll(fs)
    ensures var p := Parse(strict, buf);
            p.error.None? && p.frames <= fs && buf == EncodeAll(p.frames) + p.rest &&
            if |p.frames| == |fs| then p.rest == [] else p.rest < Encode(fs[|p.frames|])
    decreases |fs|
  {
    hide Take, Encode;
    ParseAccountsForInput(strict, buf);
    if fs == [] {
      TakeOfNothing(strict);
      return;
    }
    var head := Encode(fs[0]);
    PrefixOfJoin(head, EncodeAll(fs[1..]), buf);
    if buf < head {
      TakeOfPrefix(strict, fs[0], buf);
    } else {
      var rest := buf[|head|..];
      TakeOfEncode(strict, fs[0], rest);
      ParseOfStream(strict, fs[1..], rest);
      assert Parse(strict, buf) == var q := Parse(strict, rest); q.(frames := [fs[0]] + q.frames);
    }
  }

  lemma TakeOfNothing(strict: bool)
    ensures Take(strict, []) == More
  {
  }

  /** The whole stream parses to the whole list. */
  lemma ParseOfEncodeAll(strict: bool, fs: seq<Frame>)
    requires AllFit(strict, fs)
    ensures Parse(strict, EncodeAll(fs)) == Parsed(fs, [], None)
  {
    hide Parse, Encode;
    var p := Parse(strict, EncodeAll(fs));
    ParseOfStream(strict, fs, EncodeAll(fs));
    EncodeAllAppend(p.frames, fs[|p.frames|..]);
    assert fs == p.frames + fs[|p.frames|..];
  }

  // ----- payloads the fan-out sends -----

  type u16 = n: nat | n < 0x1_0000

  function U16(n: u16): (s: seq<byte>)
    ensures |s| == 2
  {
    [n / 0x100, n % 0x100]
  }

  function FromU16(hi: byte, lo: byte): u16 {
    var h: int := hi;
    h * 0x100 + lo
  }

  function EncodeResizeAck(gen: nat, cols: u16, rows: u16): (s: seq<byte>)
    requires gen < U32_SIZE
    ensures |s| == 8
  {
    U32(gen) + U16(cols) + U16(rows)
  }

  /** Trailing bytes are ignored, as the decoder does. */
  function DecodeResizeAck(payload: seq<byte>): Option<(nat, u16, u16)> {
    if |payload| < 8 then None
    else Some((FromU32(payload[..4]), FromU16(payload[4], payload[5]), FromU16(payload[6], payload[7])))
  }

  /** A ResizeAck in bytes: generation, columns and rows, each big-endian. */
  lemma ResizeAckBytes(gen: nat, cols: u16, rows: u16)
    requires gen < U32_SIZE
    ensures var s := EncodeResizeAck(gen, cols, rows);
            && s[0] as int * 16_777_216 + s[1] as int * 65_536 + s[2] as int * 256 + s[3] as int == gen
            && s[4] as int * 256 + s[5] as int == cols && s[6] as int * 256 + s[7] as int == rows
  {
    var s := EncodeResizeAck(gen, cols, rows);
    U32Bytes(gen);
    hide U32;
    assert s[..4] == U32(gen);
    assert s[0] == s[..4][0] && s[1] == s[..4][1] && s[2] == s[..4][2] && s[3] == s[..4][3];
  }

  lemma ResizeAckRoundTrip(gen: nat, cols: u16, rows: u16)
    requires gen < U32_SIZE
    ensures DecodeResizeAck(EncodeResizeAck(gen, cols, rows)) == Some((gen, cols, rows))
  {
    var s := EncodeResizeAck(gen, cols, rows);
    assert s[..4] == U32(gen);
    U32RoundTrip(gen);
  }
}
