/**
 The Rust client's screen reader: frames are read from a socket whose data
 arrives in arbitrary pieces and with arbitrary delays.
 */
module ScreenReaders {
  import opened Bytes
  import opened Wire

  /** What the next look at the socket brings; `Expired` is the caller's time running out. */
  datatype Arrival = Data(bytes: seq<byte>) | NotYet | Interrupted | Expired | Hangup | Failure

  datatype FrameResult = Whole(frame: Frame) | Nothing | Aborted | Malformed | Failed

  datatype PollResult = Polled(count: nat) | Exited | PollFailed

  datatype SyncResult = Synced | TimedOut | SyncFailed(error: PollResult)

  /** Everything that the first `n` arrivals bring. */
  function Brought(arrivals: seq<Arrival>, n: nat): seq<byte>
    requires n <= |arrivals|
  {
    if n == 0 then []
    else Brought(arrivals, n - 1) + if arrivals[n - 1].Data? then arrivals[n - 1].bytes else []
  }

  // What one call looks at is the arrivals from index `a` up to `b`.

  predicate GoesOn(x: Arrival) {
    x.Interrupted? || (x.Data? && x.bytes != [])
  }

  ghost predicate Readable(arrivals: seq<Arrival>, a: nat, b: nat) {
    a <= b <= |arrivals| && forall i :: a <= i < b ==> GoesOn(arrivals[i])
  }

  /** Reading went on until this arrival. */
  ghost predicate EndsIn(arrivals: seq<Arrival>, a: nat, b: nat, last: Arrival) {
    a < b <= |arrivals| && arrivals[b - 1] == last && Readable(arrivals, a, b - 1)
  }

  /** Reading went on until nothing came, or until time ran out. */
  ghost predicate Paused(arrivals: seq<Arrival>, a: nat, b: nat) {
    (Readable(arrivals, a, b) && b == |arrivals|) || EndsIn(arrivals, a, b, NotYet) || EndsIn(arrivals, a, b, Expired)
  }

  ghost predicate HungUp(arrivals: seq<Arrival>, a: nat, b: nat) {
    EndsIn(arrivals, a, b, Hangup) || EndsIn(arrivals, a, b, Data([]))
  }

  ghost predicate InTime(arrivals: seq<Arrival>, a: nat, b: nat) {
    a <= b <= |arrivals| && forall i :: a <= i < b ==> arrivals[i] != Expired
  }

  /** Output bytes of frames, in order. */
  function OutputOf(fs: seq<Frame>): seq<byte> {
    if fs == [] then [] else (if fs[0].kind == OUTPUT then fs[0].payload else []) + OutputOf(fs[1..])
  }

  /** The Pongs that Pings call for. */
  function Answers(fs: seq<Frame>): seq<Frame> {
    if fs == [] then [] else (if fs[0].kind == PING then [Frame(PONG, [])] else []) + Answers(fs[1..])
  }

  function PongFrames(fs: seq<Frame>): nat {
    if fs == [] then 0 else (if fs[0].kind == PONG then 1 else 0) + PongFrames(fs[1..])
  }

  /** Frames that change the parsed screen. */
  function Visible(fs: seq<Frame>): nat {
    if fs == [] then 0
    else (if fs[0].kind == OUTPUT || fs[0].kind == RESIZE_ACK then 1 else 0) + Visible(fs[1..])
  }

  lemma {:induction false} FramesSnoc(fs: seq<Frame>, f: Frame)
    ensures OutputOf(fs + [f]) == OutputOf(fs) + if f.kind == OUTPUT then f.payload else []
    ensures PongFrames(fs + [f]) == PongFrames(fs) + if f.kind == PONG then 1 else 0
    ensures Visible(fs + [f]) == Visible(fs) + if f.kind == OUTPUT || f.kind == RESIZE_ACK then 1 else 0
  {
    if fs == [] {
      assert [f][1..] == [];
    } else {
      assert (fs + [f])[1..] == fs[1..] + [f];
      FramesSnoc(fs[1..], f);
    }
  }

  ghost predicate HoldsExit(fs: seq<Frame>) {
    exists f :: f in fs && f.kind == EXIT
  }

  class ScreenReader {
    /** What the socket brings, after which nothing more comes; how much of that
        has been looked at; and the frames written to the socket. */
    const arrivals: seq<Arrival>
    var next: nat
    var sent: seq<Frame>
    var readBuffer: seq<byte>
    var exited: bool
    var pongs: nat

    /** Output bytes given to the terminal parser and the observers, in order. */
    var observed: seq<byte>

    /** The bytes received, and the frames taken from them. */
    ghost var received: seq<byte>
    ghost var taken: seq<Frame>

    /** Nothing received is lost or counted twice. */
    ghost predicate Valid()
      reads this
    {
      AccountedWith([]) && Processed()
    }

    /** What was received is the frames taken, with these that are about to be, and what is buffered. */
    ghost predicate AccountedWith(fs: seq<Frame>)
      reads this
    {
      && next <= |arrivals| && received == Brought(arrivals, next)
      && AllFit(true, taken + fs) && received == EncodeAll(taken + fs) + readBuffer
    }

    /** The frames taken have had their effect. */
    ghost predicate Processed()
      reads this
    {
      && pongs == PongFrames(taken)
      && observed == OutputOf(taken)
      && (HoldsExit(taken) ==> exited)
    }

    /** Everything received has been taken, but for an unfinished frame. */
    ghost predicate Decoded()
      reads this
    {
      AccountedWith([]) && Parse(true, received) == Parsed(taken, readBuffer, None)
    }

    constructor (arrivals: seq<Arrival>)
      ensures Valid() && taken == [] && sent == [] && pongs == 0 && !exited
      ensures next == 0 && this.arrivals == arrivals
    {
      this.arrivals, next, sent, readBuffer, exited, pongs, observed := arrivals, 0, [], [], false, 0, [];
      received, taken := [], [];
    }

    /** The next frame of the stream, reading more as long as there is none. */
    method ReadFrame() returns (r: FrameResult)
      requires AccountedWith([])
      modifies `next, `readBuffer, `received
      ensures old(received) <= received && old(next) <= next <= |arrivals|
      ensures match r
              case Whole(f) =>
                && AccountedWith([f]) && Readable(arrivals, old(next), next)
                && (old(next) < next || |readBuffer| < |old(readBuffer)|)
              case Malformed =>
                AccountedWith([]) && Parse(true, received).error.Some? && Readable(arrivals, old(next), next)
              case Nothing => Decoded() && Paused(arrivals, old(next), next)
              case Aborted => Decoded() && HungUp(arrivals, old(next), next)
              case Failed => Decoded() && EndsIn(arrivals, old(next), next, Failure)
    {
      hide Brought, EncodeAll, Parse, Fits;
      assert taken + [] == taken;
      while true
        invariant AccountedWith([]) && old(received) <= received
        invariant old(next) <= next && Readable(arrivals, old(next), next)
        invariant old(next) < next || received == old(received)
        decreases |arrivals| - next
      {
        if |readBuffer| >= 4 {
          var len := FromU32(readBuffer[..4]);
          if !(2 <= len <= MAX_FRAME_BODY_SIZE) {
            LengthDecides(taken, readBuffer);
            return Malformed;
          }
          if |readBuffer| >= len + 4 {
            var slice := new Reader(readBuffer[..len + 4]);
            var read := ReadFields(slice);
            SliceDecides(taken, readBuffer, len);
            if !read.Read? {
              return Malformed;
            }
            readBuffer := readBuffer[len + 4..];
            return Whole(read.frame);
          }
        }
        StillMore(taken, readBuffer);
        if next == |arrivals| {
          return Nothing;
        }
        var arrival := arrivals[next];
        next := next + 1;
        BroughtNext(arrivals, next);
        match arrival
        case Expired => return Nothing;
        case NotYet => return Nothing;
        case Interrupted =>
        case Hangup => return Aborted;
        case Failure => return Failed;
        case Data(bytes) =>
          if bytes == [] {
            return Aborted;
          }
          assert EncodeAll(taken) + (readBuffer + bytes) == (EncodeAll(taken) + readBuffer) + bytes;
          received := received + bytes;
          readBuffer := readBuffer + bytes;
      }
    }

    /** What one frame does to the reader; a ResizeAck that does not decode is an error. */
    method Process(frame: Frame) returns (ok: bool, changed: bool)
      requires Processed()
      modifies `sent, `exited, `pongs, `observed, `taken
      ensures Processed() && taken == old(taken) + [frame]
      ensures sent == old(sent) + if frame.kind == PING then [Frame(PONG, [])] else []
      ensures exited == (old(exited) || frame.kind == EXIT) && pongs >= old(pongs)
      ensures ok <==> !(frame.kind == RESIZE_ACK && DecodeResizeAck(frame.payload).None?)
      ensures ok ==> (changed <==> frame.kind == OUTPUT || frame.kind == RESIZE_ACK)
    {
      hide OutputOf, PongFrames, DecodeResizeAck;
      FramesSnoc(taken, frame);
      taken := taken + [frame];
      ok, changed := true, false;
      if frame.kind == OUTPUT {
        observed := observed + frame.payload;
        changed := true;
      } else if frame.kind == RESIZE_ACK {
        ok := DecodeResizeAck(frame.payload).Some?;
        changed := ok;
      } else if frame.kind == PING {
        sent := sent + [Frame(PONG, [])];
      } else if frame.kind == PONG {
        pongs := pongs + 1;
      } else if frame.kind == EXIT {
        exited := true;
      }
    }

    /** Process what arrives until it stops coming or time runs out. Everything
        received has then been decoded, unless time ran out between two frames
        or at once. */
    method Poll() returns (r: PollResult)
      requires Valid()
      modifies this
      ensures Valid() && old(taken) <= taken && old(received) <= received && pongs >= old(pongs)
      ensures old(next) <= next <= |arrivals|
      ensures old(exited) ==> r == Exited && next == old(next) && taken == old(taken) && sent == old(sent)
      ensures Answered(old(sent), sent, old(taken), taken) && StopsAtExit(old(taken), taken)
      ensures match r
              case Polled(count) =>
                && count == Visible(taken) - Visible(old(taken)) && Paused(arrivals, old(next), next)
                && (InTime(arrivals, old(next), next) || (taken == old(taken) && next != old(next) + 1) ==> Decoded())
              case Exited =>
                && exited
                && (old(exited) || TookExit(old(taken), taken) || (HungUp(arrivals, old(next), next) && Decoded()))
              case PollFailed =>
                || Parse(true, received).error.Some?
                || EndsIn(arrivals, old(next), next, Failure)
                || TookBadAck(old(taken), taken)
    {
      hide Encode, EncodeAll, Take, OutputOf, PongFrames, Visible, Fits, Answers, Brought, Parse, DecodeResizeAck,
           AllFit, HoldsExit, Readable, EndsIn, StopsAtExit, TookExit, TookBadAck, Answered, Paused, HungUp, InTime;
      var count := 0;
      DealtNothing(sent, taken);
      ReadingStarts(arrivals, next);
      while true
        invariant Valid() && old(received) <= received && pongs >= old(pongs)
        invariant Dealt(old(sent), sent, old(taken), taken, count)
        invariant old(next) <= next && Readable(arrivals, old(next), next)
        invariant taken == old(taken) ==> next == old(next) && sent == old(sent)
        invariant old(exited) ==> taken == old(taken)
        invariant exited <==> old(exited) || TookExit(old(taken), taken)
        decreases |arrivals| - next, |readBuffer|
      {
        if exited {
          return Exited;
        }
        if next < |arrivals| && arrivals[next] == Expired {
          next := next + 1;
          BroughtNext(arrivals, next);
          TimeRanOut(arrivals, old(next), next);
          return Polled(count);
        }
        ghost var had := next;
        var result := ReadFrame();
        ReadsOn(arrivals, old(next), had, next);
        match result {
          case Nothing => return Polled(count);
          case Aborted =>
            exited := true;
            return Exited;
          case Malformed => return PollFailed;
          case Failed => return PollFailed;
          case Whole(frame) =>
            DealtNext(old(sent), sent, old(taken), taken, count, frame);
            var ok, changed := Process(frame);
            assert taken + [] == taken;
            if !ok {
              return PollFailed;
            }
            if changed {
              count := count + 1;
            }
        }
      }
    }

    /** Send a Ping and wait for one more Pong, whatever else arrives meanwhile.
        It succeeds exactly when it takes one, and unless time ran out it has
        decoded everything received before it gives up. */
    method Sync() returns (r: SyncResult)
      requires Valid()
      modifies this
      ensures Valid() && old(taken) <= taken && old(received) <= received
      ensures old(next) <= next <= |arrivals|
      ensures r == Synced <==> PongFrames(taken) > PongFrames(old(taken))
      ensures r == TimedOut && InTime(arrivals, old(next), next) ==> next == |arrivals| && Decoded()
      ensures r.SyncFailed? ==> r.error == PollFailed || (r.error == Exited && exited)
      ensures Answered(old(sent) + [Frame(PING, [])], sent, old(taken), taken)
    {
      hide PongFrames, Brought, Parse, EncodeAll, EndsIn, StopsAtExit, TookExit, TookBadAck,
           Answered, Visible, OutputOf, Fits;
      var before := pongs;
      sent := sent + [Frame(PING, [])];
      ghost var pinged := sent;
      AnsweredNothing(sent, taken);
      while true
        invariant Valid() && old(taken) <= taken && old(received) <= received && pongs == before == old(pongs)
        invariant old(next) <= next
        invariant Answered(pinged, sent, old(taken), taken)
        decreases |arrivals| - next
      {
        if next < |arrivals| && arrivals[next] == Expired {
          next := next + 1;
          BroughtNext(arrivals, next);
          return TimedOut;
        }
        var silent := next == |arrivals|;
        ghost var had, said, took := next, sent, taken;
        var result := Poll();
        AnsweredOn(pinged, said, sent, old(taken), took, taken);
        if pongs != before {
          return Synced;
        }
        if !result.Polled? {
          return SyncFailed(result);
        }
        if silent {
          return TimedOut;
        }
        PausedMoves(arrivals, had, next);
      }
    }
  }

  // ----- what the reader's records say -----

  lemma BroughtNext(arrivals: seq<Arrival>, n: nat)
    requires 0 < n <= |arrivals|
    ensures Brought(arrivals, n) ==
            Brought(arrivals, n - 1) + if arrivals[n - 1].Data? then arrivals[n - 1].bytes else []
    ensures !arrivals[n - 1].Data? ==> Brought(arrivals, n) == Brought(arrivals, n - 1)
  {
    assert Brought(arrivals, n - 1) + [] == Brought(arrivals, n - 1);
  }

  lemma ReadingStarts(arrivals: seq<Arrival>, a: nat)
    requires a <= |arrivals|
    ensures Readable(arrivals, a, a)
  {
  }

  lemma ReadsOn(arrivals: seq<Arrival>, a: nat, b: nat, c: nat)
    requires Readable(arrivals, a, b) && b <= c <= |arrivals|
    ensures Readable(arrivals, b, c) ==> Readable(arrivals, a, c)
    ensures forall last :: EndsIn(arrivals, b, c, last) ==> EndsIn(arrivals, a, c, last)
    ensures Paused(arrivals, b, c) ==> Paused(arrivals, a, c)
    ensures HungUp(arrivals, b, c) ==> HungUp(arrivals, a, c)
  {
  }

  lemma TimeRanOut(arrivals: seq<Arrival>, a: nat, b: nat)
    requires a < b <= |arrivals| && Readable(arrivals, a, b - 1) && arrivals[b - 1] == Expired
    ensures Paused(arrivals, a, b) && !InTime(arrivals, a, b)
  {
  }

  /** After a pause either something was looked at or nothing was left to look at. */
  lemma PausedMoves(arrivals: seq<Arrival>, a: nat, b: nat)
    requires Paused(arrivals, a, b)
    ensures a < b || b == |arrivals|
  {
  }

  /** Each Ping taken was answered, in order, and nothing else was said. */
  ghost predicate Answered(sent: seq<Frame>, sent': seq<Frame>, taken: seq<Frame>, taken': seq<Frame>) {
    taken <= taken' && sent' == sent + Answers(taken'[|taken|..])
  }

  lemma AnsweredNothing(sent: seq<Frame>, taken: seq<Frame>)
    ensures Answered(sent, sent, taken, taken)
  {
    assert taken[|taken|..] == [];
    assert sent + [] == sent;
  }

  lemma AnsweredNext(sent: seq<Frame>, sent': seq<Frame>, taken: seq<Frame>, taken': seq<Frame>, f: Frame)
    requires Answered(sent, sent', taken, taken')
    ensures Answered(sent, sent' + (if f.kind == PING then [Frame(PONG, [])] else []), taken, taken' + [f])
  {
    hide Answers;
    var more := taken'[|taken|..];
    AnswersAppend(more, [f]);
    JustOne(f);
    assert (taken' + [f])[|taken|..] == more + [f];
    var pong := if f.kind == PING then [Frame(PONG, [])] else [];
    assert (sent + Answers(more)) + pong == sent + (Answers(more) + pong);
  }

  lemma AnsweredOn(sent: seq<Frame>, said: seq<Frame>, sent': seq<Frame>,
                   taken: seq<Frame>, took: seq<Frame>, taken': seq<Frame>)
    requires Answered(sent, said, taken, took) && Answered(said, sent', took, taken')
    ensures Answered(sent, sent', taken, taken')
  {
    hide Answers;
    var a, b := took[|taken|..], taken'[|took|..];
    AnswersAppend(a, b);
    assert taken'[|taken|..] == a + b;
    assert (sent + Answers(a)) + Answers(b) == sent + (Answers(a) + Answers(b));
  }

  lemma JustOne(f: Frame)
    ensures Answers([f]) == if f.kind == PING then [Frame(PONG, [])] else []
  {
    assert [f][1..] == [];
  }

  lemma {:induction false} AnswersAppend(a: seq<Frame>, b: seq<Frame>)
    ensures Answers(a + b) == Answers(a) + Answers(b)
  {
    if a == [] {
      assert a + b == b;
    } else {
      assert (a + b)[1..] == a[1..] + b;
      AnswersAppend(a[1..], b);
    }
  }

  /** Nothing is taken after an Exit. */
  ghost predicate StopsAtExit(taken: seq<Frame>, taken': seq<Frame>) {
    forall i :: |taken| <= i < |taken'| - 1 ==> taken'[i].kind != EXIT
  }

  ghost predicate TookExit(taken: seq<Frame>, taken': seq<Frame>) {
    |taken| < |taken'| && taken'[|taken'| - 1].kind == EXIT
  }

  ghost predicate TookBadAck(taken: seq<Frame>, taken': seq<Frame>) {
    && |taken| < |taken'| && taken'[|taken'| - 1].kind == RESIZE_ACK
    && DecodeResizeAck(taken'[|taken'| - 1].payload).None?
  }

  /** The frames taken in one go, and what was done about them. */
  ghost predicate Dealt(sent: seq<Frame>, sent': seq<Frame>, taken: seq<Frame>, taken': seq<Frame>, count: int) {
    && taken <= taken' && Answered(sent, sent', taken, taken') && StopsAtExit(taken, taken')
    && count == Visible(taken') - Visible(taken)
  }

  lemma DealtNext(sent: seq<Frame>, sent': seq<Frame>, taken: seq<Frame>, taken': seq<Frame>, count: int, f: Frame)
    requires Dealt(sent, sent', taken, taken', count) && !TookExit(taken, taken')
    ensures Dealt(sent, sent' + (if f.kind == PING then [Frame(PONG, [])] else []), taken, taken' + [f],
                  count + if f.kind == OUTPUT || f.kind == RESIZE_ACK then 1 else 0)
    ensures TookExit(taken, taken' + [f]) <==> f.kind == EXIT
    ensures f.kind == RESIZE_ACK && DecodeResizeAck(f.payload).None? ==> TookBadAck(taken, taken' + [f])
    ensures taken' + [f] != taken
  {
    AnsweredNext(sent, sent', taken, taken', f);
    FramesSnoc(taken', f);
    hide DecodeResizeAck, Answered, Visible;
  }

  lemma DealtNothing(sent: seq<Frame>, taken: seq<Frame>)
    ensures Dealt(sent, sent, taken, taken, 0) && !TookExit(taken, taken)
  {
    AnsweredNothing(sent, taken);
  }

  // ----- what the front of the buffer decides -----

  /** A length out of range, or too few bytes. */
  lemma LengthDecides(taken: seq<Frame>, readBuffer: seq<byte>)
    requires AllFit(true, taken) && Take(true, readBuffer).Bad?
    ensures Parse(true, EncodeAll(taken) + readBuffer).error.Some?
  {
    hide Take, EncodeAll;
    ParseOfEncodeAll(true, taken);
    ParseResumes(true, EncodeAll(taken), readBuffer);
    assert [] + readBuffer == readBuffer;
  }

  lemma SliceDecides(taken: seq<Frame>, buf: seq<byte>, len: nat)
    requires AllFit(true, taken) && |buf| >= len + 4 && len >= 2 && len == FromU32(buf[..4])
    ensures var t := Take(true, buf[..len + 4]);
            && (t.Bad? ==> Parse(true, EncodeAll(taken) + buf).error.Some?)
            && (!t.Bad? ==> t.Got? && Fits(true, t.frame) &&
                            EncodeAll(taken) + buf == EncodeAll(taken + [t.frame]) + buf[len + 4..])
  {
    hide EncodeAll, Parse, Encode, Take, Fits;
    var t, rest := Take(true, buf[..len + 4]), buf[len + 4..];
    SliceIsFront(buf, len);
    if t.Bad? {
      LengthDecides(taken, buf);
    } else {
      TakeIsEncode(true, buf);
      EncodeAllSnoc(taken, t.frame);
      assert EncodeAll(taken) + (Encode(t.frame) + rest) == (EncodeAll(taken) + Encode(t.frame)) + rest;
    }
  }

  lemma SliceIsFront(buf: seq<byte>, len: nat)
    requires |buf| >= len + 4 && len >= 2 && len == FromU32(buf[..4])
    ensures match Take(true, buf[..len + 4])
            case More => false
            case Bad(e) => Take(true, buf) == Bad(e)
            case Got(f, rest) => Take(true, buf) == Got(f, buf[len + 4..])
  {
    assert buf[..len + 4][..4] == buf[..4];
    assert buf == buf[..len + 4] + buf[len + 4..];
    TakeStable(true, buf[..len + 4], buf[len + 4..]);
    if Take(true, buf[..len + 4]).Got? {
      assert [] + buf[len + 4..] == buf[len + 4..];
    }
  }

  /** When the front is undecided, the frames taken are all there are. */
  lemma StillMore(taken: seq<Frame>, readBuffer: seq<byte>)
    requires AllFit(true, taken) && Take(true, readBuffer).More?
    ensures Parse(true, EncodeAll(taken) + readBuffer) == Parsed(taken, readBuffer, None)
  {
    hide Take, EncodeAll;
    ParseOfEncodeAll(true, taken);
    ParseResumes(true, EncodeAll(taken), readBuffer);
    assert [] + readBuffer == readBuffer && taken + [] == taken;
  }
}
