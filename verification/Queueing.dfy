/**
 The ordered, byte-bounded queue in front of every client. `Queue` is what the
 queue means: whole frames. `ClientQueue` is the queue as the broker keeps it:
 encoded frames, merged in place, with a running byte count.
 */
module Queueing {
  import opened Bytes
  import opened Wire

  const HEADER: nat := 6
  const CLIENT_QUEUE_BYTES: nat := 16 * 1024 * 1024
  const CONTROL_SLACK: nat := 64 * 1024
  const EXIT_FRAME_BYTES: nat := 10

  // ----- what a list of frames says: output bytes, and control frames between them -----

  datatype Event = Byte(b: byte) | Control(frame: Frame)

  function OutputEvents(bytes: seq<byte>): (s: seq<Event>)
    ensures |s| == |bytes|
    ensures forall i :: 0 <= i < |s| ==> s[i] == Byte(bytes[i])
  {
    seq(|bytes|, i requires 0 <= i < |bytes| => Byte(bytes[i]))
  }

  function Events(f: Frame): seq<Event> {
    if f.kind == OUTPUT then OutputEvents(f.payload) else [Control(f)]
  }

  /** The flattened stream: frame boundaries between outputs are gone. */
  function Flat(fs: seq<Frame>): seq<Event> {
    if fs == [] then [] else Events(fs[0]) + Flat(fs[1..])
  }

  lemma {:induction false} FlatAppend(a: seq<Frame>, b: seq<Frame>)
    ensures Flat(a + b) == Flat(a) + Flat(b)
  {
    if a == [] {
      assert a + b == b;
    } else {
      assert (a + b)[1..] == a[1..] + b;
      FlatAppend(a[1..], b);
    }
  }

  lemma FlatSnoc(a: seq<Frame>, f: Frame)
    ensures Flat(a + [f]) == Flat(a) + Events(f)
  {
    FlatAppend(a, [f]);
    assert [f][1..] == [];
  }

  function Size(fs: seq<Frame>): nat {
    if fs == [] then 0 else HEADER + |fs[0].payload| + Size(fs[1..])
  }

  lemma {:induction false} SizeAppend(a: seq<Frame>, b: seq<Frame>)
    ensures Size(a + b) == Size(a) + Size(b)
  {
    if a == [] {
      assert a + b == b;
    } else {
      assert (a + b)[1..] == a[1..] + b;
      SizeAppend(a[1..], b);
    }
  }

  lemma SizeSnoc(a: seq<Frame>, f: Frame)
    ensures Size(a + [f]) == Size(a) + HEADER + |f.payload|
  {
    SizeAppend(a, [f]);
    assert [f][1..] == [];
  }

  // ----- joining a frame to the end -----

  predicate TailTakes(fs: seq<Frame>, f: Frame) {
    f.kind == OUTPUT && fs != [] && fs[|fs| - 1].kind == OUTPUT
  }

  /** Output first fills up an output frame at the tail; the excess, if any, starts a new frame. */
  function Join(fs: seq<Frame>, f: Frame): seq<Frame> {
    if TailTakes(fs, f) then
      var tail := fs[|fs| - 1].payload;
      var count := Min(|f.payload|, if |tail| <= MAX_PAYLOAD_SIZE then MAX_PAYLOAD_SIZE - |tail| else 0);
      var filled := fs[..|fs| - 1] + [Frame(OUTPUT, tail + f.payload[..count])];
      if count == |f.payload| then filled else filled + [Frame(OUTPUT, f.payload[count..])]
    else fs + [f]
  }

  /** Every frame can be decoded by a client, and of two adjacent outputs the earlier is full. */
  ghost predicate Tidy(fs: seq<Frame>) {
    && (forall i :: 0 <= i < |fs| ==> |fs[i].payload| <= MAX_PAYLOAD_SIZE)
    && (forall i :: 0 <= i < |fs| - 1 && fs[i].kind == OUTPUT && fs[i + 1].kind == OUTPUT ==>
          |fs[i].payload| == MAX_PAYLOAD_SIZE)
  }

  /** Joining appends exactly the frame's own events: nothing is lost,
      duplicated or moved across a control frame. */
  lemma JoinAppendsEvents(fs: seq<Frame>, f: Frame)
    ensures Flat(Join(fs, f)) == Flat(fs) + Events(f)
  {
    hide Flat, OutputEvents;
    if TailTakes(fs, f) {
      var front, tail := fs[..|fs| - 1], fs[|fs| - 1];
      var room := if |tail.payload| <= MAX_PAYLOAD_SIZE then MAX_PAYLOAD_SIZE - |tail.payload| else 0;
      assert fs == front + [tail];
      FillAppends(front, tail, f, Min(|f.payload|, room));
    } else {
      FlatSnoc(fs, f);
    }
  }

  lemma FillAppends(front: seq<Frame>, tail: Frame, f: Frame, count: nat)
    requires tail.kind == f.kind == OUTPUT && count <= |f.payload|
    ensures var filled := front + [Frame(OUTPUT, tail.payload + f.payload[..count])];
            && (count == |f.payload| ==> Flat(filled) == Flat(front + [tail]) + Events(f))
            && Flat(filled + [Frame(OUTPUT, f.payload[count..])]) == Flat(front + [tail]) + Events(f)
  {
    hide Flat, OutputEvents;
    var filled := Frame(OUTPUT, tail.payload + f.payload[..count]);
    FlatSnoc(front, tail);
    FlatSnoc(front, filled);
    FlatSnoc(front + [filled], Frame(OUTPUT, f.payload[count..]));
    SplitOutput(tail.payload, f.payload, count);
    var x, y := Flat(front), OutputEvents(tail.payload);
    var z, w := OutputEvents(f.payload[..count]), OutputEvents(f.payload[count..]);
    assert x + (y + z) == (x + y) + z;
    assert ((x + y) + z) + w == (x + y) + (z + w);
    if count == |f.payload| {
      assert z + [] == z;
    }
  }

  lemma SplitOutput(a: seq<byte>, b: seq<byte>, count: nat)
    requires count <= |b|
    ensures OutputEvents(a + b[..count]) == OutputEvents(a) + OutputEvents(b[..count])
    ensures OutputEvents(b) == OutputEvents(b[..count]) + OutputEvents(b[count..])
    ensures count == |b| ==> OutputEvents(b[count..]) == []
  {
  }

  lemma JoinStaysTidy(fs: seq<Frame>, f: Frame)
    requires Tidy(fs) && |f.payload| <= MAX_PAYLOAD_SIZE
    ensures Tidy(Join(fs, f))
  {
  }

  /** A frame costs its own length, less one header when the tail absorbs it whole. */
  lemma JoinSize(fs: seq<Frame>, f: Frame)
    requires Tidy(fs)
    ensures var absorbed := TailTakes(fs, f) && |fs[|fs| - 1].payload| + |f.payload| <= MAX_PAYLOAD_SIZE;
            Size(Join(fs, f)) == Size(fs) + |f.payload| + if absorbed then 0 else HEADER
  {
    if TailTakes(fs, f) {
      var front, tail := fs[..|fs| - 1], fs[|fs| - 1];
      assert fs == front + [tail];
      SizeSnoc(front, tail);
      var count := Min(|f.payload|, MAX_PAYLOAD_SIZE - |tail.payload|);
      var filled := Frame(OUTPUT, tail.payload + f.payload[..count]);
      SizeSnoc(front, filled);
      SizeSnoc(front + [filled], Frame(OUTPUT, f.payload[count..]));
    } else {
      SizeSnoc(fs, f);
    }
  }

  // ----- the queue -----

  datatype Queue = Queue(frames: seq<Frame>, closed: bool, exitQueued: bool)

  const EMPTY := Queue([], false, false)

  /** What the broker puts on client queues. */
  predicate Sendable(f: Frame) {
    Fits(true, f) && (f.kind == EXIT ==> HEADER + |f.payload| == EXIT_FRAME_BYTES)
  }

  function Limit(kind: byte): nat {
    CLIENT_QUEUE_BYTES + if kind == PONG || kind == RESIZE_ACK then CONTROL_SLACK else 0
  }

  /** Exit is admitted once, whatever the load; any other frame exactly when the
      queue stays within the limit for its kind after merging. */
  predicate Admits(q: Queue, f: Frame) {
    && !q.closed
    && if f.kind == EXIT then !q.exitQueued else Size(Join(q.frames, f)) <= Limit(f.kind)
  }

  function Send(q: Queue, f: Frame): Queue {
    if Admits(q, f) then q.(frames := Join(q.frames, f), exitQueued := q.exitQueued || f.kind == EXIT) else q
  }

  function OnlyExit(fs: seq<Frame>): (r: seq<Frame>)
    ensures |r| <= |fs|
    ensures forall i :: 0 <= i < |r| ==> r[i].kind == EXIT && r[i] in fs
  {
    if fs == [] then []
    else (if fs[0].kind == EXIT then [fs[0]] else []) + OnlyExit(fs[1..])
  }

  /** After the shutdown deadline only Exit is still worth sending. */
  function Due(q: Queue, expired: bool): seq<Frame> {
    if expired then OnlyExit(q.frames) else q.frames
  }

  function AfterRecv(q: Queue, expired: bool): Queue {
    var due := Due(q, expired);
    q.(frames := if due == [] then [] else due[1..])
  }

  ghost predicate Ok(q: Queue) {
    && Tidy(q.frames)
    && Size(q.frames) <= CLIENT_QUEUE_BYTES + CONTROL_SLACK + (if q.exitQueued then EXIT_FRAME_BYTES else 0)
    && forall i :: 0 <= i < |q.frames| ==>
         Sendable(q.frames[i]) && (q.frames[i].kind == EXIT ==> q.exitQueued)
  }

  /** Nothing that can be done to a queue breaks the memory bound, an accepted
      output always leaves it within the plain cap, and a refusal changes nothing. */
  lemma SendKeepsOk(q: Queue, f: Frame)
    requires Ok(q) && Sendable(f)
    ensures Ok(Send(q, f))
    ensures Admits(q, f) ==> Flat(Send(q, f).frames) == Flat(q.frames) + Events(f)
    ensures Admits(q, f) && f.kind == OUTPUT ==> Size(Send(q, f).frames) <= CLIENT_QUEUE_BYTES
    ensures !Admits(q, f) ==> Send(q, f) == q
  {
    JoinAppendsEvents(q.frames, f);
    hide Flat, Events;
    if Admits(q, f) {
      AdmittedKeepsOk(q, f);
    }
  }

  lemma AdmittedKeepsOk(q: Queue, f: Frame)
    requires Ok(q) && Sendable(f) && Admits(q, f)
    ensures Ok(Send(q, f))
    ensures f.kind == OUTPUT ==> Size(Send(q, f).frames) <= CLIENT_QUEUE_BYTES
  {
    JoinStaysTidy(q.frames, f);
    JoinSize(q.frames, f);
    JoinedSendable(q, f);
    hide Join, Tidy, Sendable;
  }

  lemma JoinedSendable(q: Queue, f: Frame)
    requires Ok(q) && Sendable(f) && (f.kind == EXIT ==> q.exitQueued || Admits(q, f))
    ensures var r := Join(q.frames, f);
            forall i :: 0 <= i < |r| ==> Sendable(r[i]) && (r[i].kind == EXIT ==> q.exitQueued || f.kind == EXIT)
  {
    hide Size;
  }

  /** What a frame costs an encoded queue: its payload, and a header unless an output at the tail takes it whole. */
  function Cost(fs: seq<Frame>, f: Frame): nat {
    |f.payload| +
    if f.kind == OUTPUT && fs != [] && fs[|fs| - 1].kind == OUTPUT &&
       |fs[|fs| - 1].payload| + |f.payload| <= 1_048_576 then 0 else 6
  }

  /** Who is admitted, in bytes. On an open queue Exit is taken once, whatever the
      load, and any other frame exactly when the queue stays within 16 MiB, to which
      Pongs and ResizeAcks may add 64 KiB; a closed queue takes nothing. */
  lemma AdmittedIff(q: Queue, f: Frame)
    requires Ok(q) && Sendable(f)
    ensures Admits(q, f) <==>
            !q.closed &&
            if f.kind == EXIT then !q.exitQueued
            else Size(q.frames) + Cost(q.frames, f) <=
                 16_777_216 + if f.kind == PONG || f.kind == RESIZE_ACK then 65_536 else 0
  {
    JoinSize(q.frames, f);
    hide Size, Tidy;
  }

  /** A queue within the plain cap always has room for a Pong or a ResizeAck. */
  lemma ControlAlwaysFits(q: Queue, f: Frame)
    requires Ok(q) && Sendable(f) && !q.closed && Size(q.frames) <= 16_777_216
    requires (f.kind == PONG && f.payload == []) || (f.kind == RESIZE_ACK && |f.payload| == 8)
    ensures Send(q, f).frames == q.frames + [f]
  {
    AdmittedIff(q, f);
    hide Size, Tidy;
  }

  lemma {:induction false} OnlyExitSmaller(fs: seq<Frame>)
    ensures Size(OnlyExit(fs)) <= Size(fs)
  {
    if fs != [] {
      OnlyExitSmaller(fs[1..]);
      if fs[0].kind == EXIT {
        assert OnlyExit(fs)[1..] == OnlyExit(fs[1..]);
      } else {
        assert OnlyExit(fs) == OnlyExit(fs[1..]);
      }
    }
  }

  lemma OnlyExitKeepsOk(q: Queue)
    requires Ok(q)
    ensures Ok(q.(frames := OnlyExit(q.frames)))
  {
    OnlyExitSmaller(q.frames);
    var r := OnlyExit(q.frames);
    forall i | 0 <= i < |r|
      ensures Sendable(r[i]) && q.exitQueued
    {
      assert r[i] in q.frames;
    }
  }

  lemma RecvKeepsOk(q: Queue, expired: bool)
    requires Ok(q)
    ensures Ok(AfterRecv(q, expired))
  {
    if expired {
      OnlyExitKeepsOk(q);
      hide OnlyExit;
      assert Ok(q.(frames := Due(q, expired)));
    }
  }

  // ----- Exit is terminal -----

  /** What is taken from a closed queue when `late[i]` says whether the deadline has passed at take `i`. */
  function Takes(q: Queue, late: seq<bool>): seq<Frame>
    decreases |late|
  {
    if late == [] || Due(q, late[0]) == [] then []
    else [Due(q, late[0])[0]] + Takes(AfterRecv(q, late[0]), late[1..])
  }

  lemma {:induction false} OnlyExitOfTail(before: seq<Frame>, exit: Frame)
    requires forall f :: f in before ==> f.kind != EXIT
    requires exit.kind == EXIT
    ensures OnlyExit(before + [exit]) == [exit]
  {
    if before == [] {
      assert [exit][1..] == [];
    } else {
      assert (before + [exit])[1..] == before[1..] + [exit];
      OnlyExitOfTail(before[1..], exit);
    }
  }

  /** `got` is a run of whole frames of `before` in order, possibly with Exit
      behind it; frames are skipped only once the deadline has passed, and
      takes beyond Exit yield nothing. */
  ghost predicate EndsInExit(before: seq<Frame>, exit: Frame, late: seq<bool>, got: seq<Frame>) {
    || (got <= before && |got| == |late|)
    || (&& 0 < |got| <= |late| && got[..|got| - 1] <= before && got[|got| - 1] == exit
        && (|got| <= |before| ==> exists i :: 0 <= i < |got| && late[i]))
  }

  /** Behind a closed queue that ends in Exit, the drain gets whole pending frames
      in order, then Exit once, then nothing; it gets all of them unless the
      deadline passes. */
  lemma {:induction false} ExitIsTerminal(before: seq<Frame>, exit: Frame, late: seq<bool>)
    requires forall f :: f in before ==> f.kind != EXIT
    requires exit.kind == EXIT
    ensures EndsInExit(before, exit, late, Takes(Queue(before + [exit], true, true), late))
    decreases |late|
  {
    var q := Queue(before + [exit], true, true);
    if late == [] {
    } else if late[0] || before == [] {
      OnlyExitOfTail(before, exit);
      assert Due(q, late[0]) == [exit];
      assert Takes(AfterRecv(q, late[0]), late[1..]) == [];
      assert Takes(q, late) == [exit];
    } else {
      assert AfterRecv(q, false).frames == before[1..] + [exit];
      ExitIsTerminal(before[1..], exit, late[1..]);
      hide Due, OnlyExit;
      TakeOneMore(before, exit, late, Takes(AfterRecv(q, false), late[1..]));
    }
  }

  lemma TakeOneMore(before: seq<Frame>, exit: Frame, late: seq<bool>, rest: seq<Frame>)
    requires before != [] && late != [] && EndsInExit(before[1..], exit, late[1..], rest)
    ensures EndsInExit(before, exit, late, [before[0]] + rest)
  {
    var got := [before[0]] + rest;
    if rest <= before[1..] && |rest| == |late| - 1 {
      assert got <= before;
    } else {
      assert got[..|got| - 1] == [before[0]] + rest[..|rest| - 1];
      if |got| <= |before| {
        var i :| 0 <= i < |rest| && late[1..][i];
        assert late[i + 1];
      }
    }
  }

  // ----- replay of a byte string through an empty queue -----

  /** `replay_frames`: full-size chunks and a shorter last one. */
  function ReplayFrames(data: seq<byte>): (fs: seq<Frame>)
    decreases |data|
  {
    if data == [] then []
    else if |data| <= MAX_PAYLOAD_SIZE then [Frame(OUTPUT, data)]
    else [Frame(OUTPUT, data[..MAX_PAYLOAD_SIZE])] + ReplayFrames(data[MAX_PAYLOAD_SIZE..])
  }

  /** The chunks are sendable, none is empty, and together they are the data. */
  lemma {:induction false} ReplayRejoins(data: seq<byte>)
    ensures var fs := ReplayFrames(data);
            Flat(fs) == OutputEvents(data) &&
            forall i :: 0 <= i < |fs| ==> Sendable(fs[i]) && fs[i].kind == OUTPUT && fs[i].payload != []
    decreases |data|
  {
    hide OutputEvents;
    if |data| > MAX_PAYLOAD_SIZE {
      var rest := data[MAX_PAYLOAD_SIZE..];
      ReplayRejoins(rest);
      var fs := ReplayFrames(data);
      assert fs[1..] == ReplayFrames(rest);
      SplitOutput([], data, MAX_PAYLOAD_SIZE);
      assert OutputEvents(data) == OutputEvents(data[..MAX_PAYLOAD_SIZE]) + OutputEvents(rest);
    } else if data != [] {
      assert ReplayFrames(data)[1..] == [];
    }
  }

  /** Every chunk but the last is as long as a frame may be. */
  lemma {:induction false} ReplayChunksAreFull(data: seq<byte>, i: nat)
    requires i < |ReplayFrames(data)|
    ensures i < |ReplayFrames(data)| - 1 ==> |ReplayFrames(data)[i].payload| == 1_048_576
    ensures |ReplayFrames(data)[i].payload| <= 1_048_576
    decreases |data|
  {
    if |data| > MAX_PAYLOAD_SIZE {
      var rest := data[MAX_PAYLOAD_SIZE..];
      assert ReplayFrames(data)[1..] == ReplayFrames(rest);
      if i > 0 {
        ReplayChunksAreFull(rest, i - 1);
      }
    }
  }

  /** Sending without looking at the outcome, as the replay does. */
  function SendAll(q: Queue, fs: seq<Frame>): Queue
    decreases |fs|
  {
    if fs == [] then q else SendAll(Send(q, fs[0]), fs[1..])
  }

  ghost predicate AllFull(fs: seq<Frame>) {
    forall i :: 0 <= i < |fs| ==> fs[i].kind == OUTPUT && |fs[i].payload| == MAX_PAYLOAD_SIZE
  }

  lemma JoinBehindFull(fs: seq<Frame>, f: Frame)
    requires AllFull(fs) && f.payload != []
    ensures Join(fs, f) == fs + [f]
  {
    if TailTakes(fs, f) {
      var tail := fs[|fs| - 1];
      assert tail.payload + f.payload[..0] == tail.payload;
      assert fs[..|fs| - 1] + [tail] == fs;
    }
  }

  /** One step of a replay: `f` goes out and `rest` remains. */
  lemma ReplayStep(q: Queue, data: seq<byte>) returns (f: Frame, rest: seq<byte>)
    requires data != []
    ensures ReplayFrames(data) == [f] + ReplayFrames(rest) && |f.payload| <= |data| && rest == data[|f.payload|..]
    ensures SendAll(q, ReplayFrames(data)) == SendAll(Send(q, f), ReplayFrames(rest))
    ensures Size(ReplayFrames(data)) == HEADER + |f.payload| + Size(ReplayFrames(rest))
    ensures f.kind == OUTPUT && f.payload != [] && |data| == |f.payload| + |rest|
    ensures rest != [] ==> |f.payload| == MAX_PAYLOAD_SIZE
  {
    f := ReplayFrames(data)[0];
    rest := data[|f.payload|..];
    assert ReplayFrames(data)[1..] == ReplayFrames(rest);
  }

  /** Behind full frames only, a replay arrives whole exactly when it fits the cap. */
  lemma {:induction false} ReplayInto(q: Queue, data: seq<byte>)
    requires !q.closed && AllFull(q.frames)
    ensures var sent := SendAll(q, ReplayFrames(data)).frames;
            if data == [] || Size(q.frames) + Size(ReplayFrames(data)) <= CLIENT_QUEUE_BYTES
            then sent == q.frames + ReplayFrames(data)
            else |Flat(sent)| < |Flat(q.frames)| + |data|
    decreases |data|
  {
    hide SendAll, Join, Flat, Size, ReplayFrames;
    SendNothing(q);
    if data == [] {
      return;
    }
    var f, rest := ReplayStep(q, data);
    JoinBehindFull(q.frames, f);
    SizeSnoc(q.frames, f);
    FlatSnoc(q.frames, f);
    ReplayLoses(q, rest);
    if Admits(q, f) {
      if rest == [] {
        SendNothing(Send(q, f));
      } else {
        ReplayInto(Send(q, f), rest);
      }
      assert q.frames + ([f] + ReplayFrames(rest)) == (q.frames + [f]) + ReplayFrames(rest);
    }
  }

  lemma SendNothing(q: Queue)
    ensures SendAll(q, []) == q && Size([]) == 0 && ReplayFrames([]) == []
  {
  }

  lemma {:induction false} ReplayLoses(q: Queue, data: seq<byte>)
    ensures |Flat(SendAll(q, ReplayFrames(data)).frames)| <= |Flat(q.frames)| + |data|
    decreases |data|
  {
    if data != [] {
      var f := ReplayFrames(data)[0];
      var rest := data[|f.payload|..];
      assert ReplayFrames(data)[1..] == ReplayFrames(rest);
      JoinAppendsEvents(q.frames, f);
      hide Join;
      ReplayLoses(Send(q, f), rest);
    }
  }

  /** The broker ignores refusals while it replays. A client that has taken
      nothing yet gets the whole replay if and only if its encoded size is
      within the cap; otherwise some of it is missing. */
  lemma ReplayArrivesIffItFits(data: seq<byte>)
    ensures Flat(SendAll(EMPTY, ReplayFrames(data)).frames) == OutputEvents(data) <==>
            Size(ReplayFrames(data)) <= CLIENT_QUEUE_BYTES
  {
    ReplayRejoins(data);
    if data != [] {
      ReplayInto(EMPTY, data);
      assert [] + ReplayFrames(data) == ReplayFrames(data);
    }
  }

  /** The broker's history is small enough to fit, with room for the modes of a writer. */
  lemma HistoryFits(data: seq<byte>, modes: seq<byte>)
    requires |data| <= MAX_PAYLOAD_SIZE && |modes| <= MAX_PAYLOAD_SIZE
    ensures Size(ReplayFrames(data)) + HEADER + |modes| <= CLIENT_QUEUE_BYTES
  {
    if data != [] {
      assert ReplayFrames(data)[1..] == [];
    }
  }
}
