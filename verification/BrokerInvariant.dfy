/** What every step of the broker keeps. */
module BrokerInvariant {
  import opened Bytes
  import opened Wire
  import opened Queueing
  import opened Broker

  // ----- one client -----

  ghost predicate AllBytes(es: seq<Event>) {
    forall i :: 0 <= i < |es| ==> es[i].Byte?
  }

  /** Apart from Pongs and Exit, a client is given its replay and then one
      contiguous piece of the global log. */
  ghost predicate StreamOk(log: seq<Event>, from: nat, upto: nat, replay: seq<Event>, stream: seq<Event>) {
    from <= upto <= |log| && AllBytes(replay) && Shared(stream) == replay + log[from..upto]
  }

  /** What has been taken and what still waits is the stream, in order; when the
      deadline has cut it short, an initial piece of it and then Exit. */
  ghost predicate TransitOk(stream: seq<Event>, dequeued: seq<Frame>, waiting: seq<Frame>, kept: nat, lost: bool) {
    if lost then
      && waiting == [] && kept < |stream| && dequeued != []
      && stream[|stream| - 1] == Control(dequeued[|dequeued| - 1])
      && dequeued[|dequeued| - 1].kind == EXIT
      && Flat(dequeued) == stream[..kept] + [stream[|stream| - 1]]
    else Flat(dequeued) + Flat(waiting) == stream
  }

  ghost predicate WireOk(dequeued: seq<Frame>, drain: Drain, wire: seq<byte>) {
    && (forall i :: 0 <= i < |dequeued| ==> Sendable(dequeued[i]))
    && match drain
       case Draining => wire == EncodeAll(dequeued)
       case Writing(rest) => rest != [] && wire + rest == EncodeAll(dequeued)
       case _ => wire <= EncodeAll(dequeued)
  }

  ghost predicate NoExit(fs: seq<Frame>) {
    forall i :: 0 <= i < |fs| ==> fs[i].kind != EXIT
  }

  /** Exit is only ever the last thing in a queue, and the queue is closed behind it. */
  ghost predicate QueueOk(q: Queue, deadline: bool, drain: Drain) {
    && Ok(q)
    && (q.exitQueued ==> q.closed)
    && (if q.exitQueued && q.frames != []
        then NoExit(q.frames[..|q.frames| - 1]) && q.frames[|q.frames| - 1].kind == EXIT
        else NoExit(q.frames))
    && (deadline && (drain.Draining? || drain.Writing?) ==> q.exitQueued)
  }

  /** A replay within the queue's budget arrives whole, unless the client's own
      failure has closed the queue; then it is cut short and nothing follows. */
  ghost predicate ReplayOk(plan: seq<Frame>, toReplay: seq<Frame>, replay: seq<Event>, q: Queue, from: nat, upto: nat) {
    && (forall i :: 0 <= i < |plan| ==> Sendable(plan[i]) && plan[i].kind == OUTPUT)
    && |toReplay| <= |plan| && toReplay == plan[|plan| - |toReplay|..]
    && (Size(plan) <= CLIENT_QUEUE_BYTES ==>
          var offered := Flat(plan[..|plan| - |toReplay|]);
          if replay == offered
          then (toReplay != [] ==> Size(q.frames) + Size(toReplay) <= CLIENT_QUEUE_BYTES)
          else q.closed && replay <= offered && upto == from)
  }

  /** Where the plan came from: the last bytes of the history up to the moment of attaching. */
  ghost predicate PlanOk(log: seq<Event>, role: Role, origin: Origin, plan: seq<Frame>, from: nat) {
    from <= |log| &&
    match origin
    case Pending => plan == []
    case FirstWriter => role == Writer && plan == [] && HistoryOf(log[..from]) == []
    case History(modes) =>
      |modes| < MAX_PAYLOAD_SIZE &&
      plan == HistoryPlan(role, LastN(RING_CAPACITY, HistoryOf(log[..from])), modes)
    case Snapshot(data) => role != Writer && plan == ReplayFrames(ENTER_ALTERNATE + data)
  }

  /** The broker has processed the client's messages in order; the approved
      inputs, and no others, have reached the PTY or are about to. */
  ghost predicate InputOk(outbox: seq<Message>, handled: nat, verdicts: seq<bool>, handler: Handler,
                          typed: seq<seq<byte>>, role: Role)
  {
    && handled == |verdicts| <= |outbox|
    && typed + (if handler.Typing? then [handler.payload] else []) == Approved(outbox[..handled], verdicts)
    && (forall i :: 0 <= i < handled && verdicts[i] ==> role == Writer)
    && (handler.Typing? ==> handled > 0 && outbox[handled - 1] == Input(handler.payload) && verdicts[handled - 1])
    && (handler.Typing? || handler.Resizing? ==> role == Writer)
  }

  /** At most one Pong per Ping handled, and exactly one while the queue is open. */
  ghost predicate PongOk(stream: seq<Event>, outbox: seq<Message>, handled: nat, closed: bool) {
    && handled <= |outbox| && Pongs(stream) <= Pings(outbox[..handled])
    && (!closed ==> Pongs(stream) == Pings(outbox[..handled]))
  }

  /** Whoever had Exit queued had its whole replay queued before. */
  ghost predicate WholeOk(plan: seq<Frame>, replay: seq<Event>, mark: Option<ExitMark>) {
    mark.Some? && Size(plan) <= CLIENT_QUEUE_BYTES ==> replay == Flat(plan)
  }

  /** Since Exit was queued, the frames taken are pending ones in order, then Exit;
      all of them unless the deadline has cut some. Before, there was no Exit. */
  ghost predicate ExitOk(mark: Option<ExitMark>, dequeued: seq<Frame>, q: Queue, lost: bool) {
    match mark
    case None => !q.exitQueued && !lost && NoExit(dequeued)
    case Some(ExitMark(pending, taken, exit, _)) =>
      && q.exitQueued && taken <= |dequeued| && NoExit(dequeued[..taken]) && NoExit(pending) && exit.kind == EXIT
      && var since := dequeued[taken..];
         || (!lost && since <= pending && q.frames == pending[|since|..] + [exit])
         || (&& since != [] && since[|since| - 1] == exit && q.frames == []
             && since[..|since| - 1] <= pending && (!lost <==> since == pending + [exit]))
  }

  ghost predicate PhaseOk(c: Session, registered: bool) {
    && (Fresh(c.handler) <==> c.origin == Pending)
    && (Fresh(c.handler) ==> c.stream == [] && c.queue == EMPTY && c.toReplay == [] && c.drain == Draining)
    && (Unclaimed(c.handler) || IsFirst(c.handler) ==> c.role == Writer)
    && (registered ==> !Fresh(c.handler) && c.handler != Replaying)
    && (c.toReplay != [] ==> c.handler == Replaying)
    && (c.deadline ==> !registered)
    && (c.exitMark.Some? ==> c.deadline && c.upto == c.exitMark.value.at)
    && (!Fresh(c.handler) && c.handler != Replaying && !c.queue.closed ==> registered)
    && (Fresh(c.handler) || c.handler == Replaying ==> c.handled == 0)
    && ((registered || c.handler == Replaying) && (c.drain.Draining? || c.drain.Writing?) ==> !c.queue.closed)
    && (Fresh(c.handler) || c.handler == Replaying ==> !c.deadline)
    && (Fresh(c.handler) || c.handler == Replaying ==> c.from == c.upto)
  }

  ghost predicate Healthy(c: Session, log: seq<Event>, registered: bool, typed: seq<seq<byte>>) {
    && StreamOk(log, c.from, c.upto, c.replay, c.stream)
    && (registered || c.handler == Replaying ==> c.upto == |log|)
    && TransitOk(c.stream, c.dequeued, c.queue.frames, c.kept, c.lost)
    && WireOk(c.dequeued, c.drain, c.wire)
    && QueueOk(c.queue, c.deadline, c.drain)
    && ReplayOk(c.plan, c.toReplay, c.replay, c.queue, c.from, c.upto)
    && PlanOk(log, c.role, c.origin, c.plan, c.from)
    && InputOk(c.outbox, c.handled, c.verdicts, c.handler, typed, c.role)
    && PongOk(c.stream, c.outbox, c.handled, c.queue.closed)
    && WholeOk(c.plan, c.replay, c.exitMark)
    && ExitOk(c.exitMark, c.dequeued, c.queue, c.lost)
    && PhaseOk(c, registered)
  }

  // ----- the whole broker -----

  ghost predicate IsWriter(s: State, id: nat) {
    id in s.sessions && s.sessions[id].role == Writer
  }

  /** A writer that has swapped itself into `writer_id` once. */
  ghost predicate HasClaimed(s: State, id: nat) {
    IsWriter(s, id) && !Unclaimed(s.sessions[id].handler)
  }

  /** A ResizeAck of the given generation. */
  ghost predicate IsAck(f: Frame, gen: nat) {
    f.kind == RESIZE_ACK && DecodeResizeAck(f.payload).Some? && DecodeResizeAck(f.payload).value.0 == gen
  }

  ghost predicate AcksNumbered(log: seq<Event>, gen: nat) {
    && gen < U32_SIZE && |Controls(log)| == gen
    && forall i :: 0 <= i < gen ==>
         IsAck(Controls(log)[i], i + 1)
  }

  ghost predicate SharedOk(s: State) {
    && s.recent == LastN(RING_CAPACITY, HistoryOf(s.log))
    && AcksNumbered(s.log, s.gen)
    && (!s.ptyReading ==> HistoryOf(s.log) == [])
    && (s.lock.Some? ==> s.lock.value in s.sessions && s.sessions[s.lock.value].handler == Replaying)
    && (forall id :: id in s.sessions ==>
          0 < id < s.nextId && (s.sessions[id].handler == Replaying ==> s.lock == Some(id)))
    && s.registered <= s.sessions.Keys
    && 0 < s.nextId
  }

  /** Only clients that handshook as Writer ever hold, inherit or use the right to type. */
  ghost predicate AuthorityOk(s: State) {
    && (s.writerId != 0 ==> HasClaimed(s, s.writerId))
    && (forall id :: id in s.sessions ==>
          var p := s.sessions[id].previous; p != 0 ==> p != id && HasClaimed(s, p) && HasClaimed(s, id))
    && (forall i :: 0 <= i < |s.typed| ==> IsWriter(s, s.typed[i].0))
  }

  /** There is one first writer, and the PTY is not read before it is registered. */
  ghost predicate FirstOk(s: State) {
    && s.spawner < s.nextId
    && (s.ptyReading ==> s.spawner != 0)
    && (forall id :: id in s.sessions && IsFirst(s.sessions[id].handler) ==> s.spawner == id && !s.ptyReading)
  }

  ghost predicate Inv(s: State) {
    && SharedOk(s)
    && AuthorityOk(s)
    && FirstOk(s)
    && forall id :: id in s.sessions ==>
         Healthy(s.sessions[id], s.log, id in s.registered, TypedBy(s.typed, id))
  }

  // ----- streams of events -----

  lemma {:induction false} HistoryAppend(a: seq<Event>, b: seq<Event>)
    ensures HistoryOf(a + b) == HistoryOf(a) + HistoryOf(b)
  {
    if a == [] {
      assert a + b == b;
    } else {
      assert (a + b)[1..] == a[1..] + b && (a + b)[0] == a[0];
      HistoryAppend(a[1..], b);
      var h := if a[0].Byte? then [a[0].b] else [];
      assert h + (HistoryOf(a[1..]) + HistoryOf(b)) == (h + HistoryOf(a[1..])) + HistoryOf(b);
    }
  }

  lemma {:induction false} ControlsAppend(a: seq<Event>, b: seq<Event>)
    ensures Controls(a + b) == Controls(a) + Controls(b)
  {
    if a == [] {
      assert a + b == b;
    } else {
      assert (a + b)[1..] == a[1..] + b && (a + b)[0] == a[0];
      ControlsAppend(a[1..], b);
      var h := if a[0].Control? then [a[0].frame] else [];
      assert h + (Controls(a[1..]) + Controls(b)) == (h + Controls(a[1..])) + Controls(b);
    }
  }

  lemma {:induction false} SharedAppend(a: seq<Event>, b: seq<Event>)
    ensures Shared(a + b) == Shared(a) + Shared(b)
  {
    if a == [] {
      assert a + b == b;
    } else {
      assert (a + b)[1..] == a[1..] + b && (a + b)[0] == a[0];
      SharedAppend(a[1..], b);
      var h := if IsShared(a[0]) then [a[0]] else [];
      assert h + (Shared(a[1..]) + Shared(b)) == (h + Shared(a[1..])) + Shared(b);
    }
  }

  lemma {:induction false} PongsAppend(a: seq<Event>, b: seq<Event>)
    ensures Pongs(a + b) == Pongs(a) + Pongs(b)
  {
    if a == [] {
      assert a + b == b;
    } else {
      assert (a + b)[1..] == a[1..] + b;
      PongsAppend(a[1..], b);
    }
  }

  lemma {:induction false} PingsSnoc(ms: seq<Message>, m: Message)
    ensures Pings(ms + [m]) == Pings(ms) + if m == Ping then 1 else 0
  {
    if ms == [] {
      assert [m][1..] == [];
    } else {
      assert (ms + [m])[1..] == ms[1..] + [m];
      PingsSnoc(ms[1..], m);
    }
  }

  lemma {:induction false} TypedBySnoc(typed: seq<(nat, seq<byte>)>, id: nat, payload: seq<byte>, who: nat)
    ensures TypedBy(typed + [(id, payload)], who) == TypedBy(typed, who) + if who == id then [payload] else []
  {
    if typed == [] {
      assert [(id, payload)][1..] == [];
    } else {
      assert (typed + [(id, payload)])[1..] == typed[1..] + [(id, payload)];
      TypedBySnoc(typed[1..], id, payload, who);
    }
  }

  lemma {:induction false} ApprovedSnoc(ms: seq<Message>, verdicts: seq<bool>, m: Message, v: bool)
    requires |ms| == |verdicts|
    ensures Approved(ms + [m], verdicts + [v]) == Approved(ms, verdicts) + if m.Input? && v then [m.payload] else []
  {
    if ms == [] {
      assert [m][1..] == [] && [v][1..] == [];
    } else {
      assert (ms + [m])[1..] == ms[1..] + [m] && (verdicts + [v])[1..] == verdicts[1..] + [v];
      ApprovedSnoc(ms[1..], verdicts[1..], m, v);
    }
  }

  /** Output bytes are all history, all shared, and neither Pong nor ResizeAck. */
  lemma {:induction false} OutputIsShared(bytes: seq<byte>)
    ensures Shared(OutputEvents(bytes)) == OutputEvents(bytes)
    ensures HistoryOf(OutputEvents(bytes)) == bytes
    ensures Controls(OutputEvents(bytes)) == [] && Pongs(OutputEvents(bytes)) == 0
  {
    hide OutputEvents;
    var es := OutputEvents(bytes);
    if bytes == [] {
      assert es == [];
    } else {
      OutputIsShared(bytes[1..]);
      assert es[1..] == OutputEvents(bytes[1..]) && es == [es[0]] + es[1..] && es[0] == Byte(bytes[0]);
      assert bytes == [bytes[0]] + bytes[1..];
    }
  }

  /** How one more frame changes each reading of a stream. */
  lemma EventsOf(f: Frame)
    ensures f.kind == OUTPUT || f.kind == RESIZE_ACK ==> Shared(Events(f)) == Events(f)
    ensures f.kind == OUTPUT ==> AllBytes(Events(f)) && HistoryOf(Events(f)) == f.payload && Controls(Events(f)) == []
    ensures f.kind != OUTPUT ==> HistoryOf(Events(f)) == [] && Controls(Events(f)) == [f]
    ensures f.kind == PONG || f.kind == EXIT ==> Shared(Events(f)) == []
    ensures Pongs(Events(f)) == if f.kind == PONG then 1 else 0
  {
    OutputIsShared(f.payload);
    assert [Control(f)][1..] == [];
  }

  // ----- one client: what each operation on it keeps -----

  lemma LogGrows(c: Session, log: seq<Event>, more: seq<Event>, typed: seq<seq<byte>>)
    requires Healthy(c, log, false, typed) && c.handler != Replaying
    ensures Healthy(c, log + more, false, typed)
  {
    hide TransitOk, WireOk, QueueOk, ReplayOk, InputOk, PongOk, WholeOk, ExitOk, PhaseOk;
    assert (log + more)[c.from..c.upto] == log[c.from..c.upto];
    assert (log + more)[..c.from] == log[..c.from];
  }

  lemma AcceptedKeepsTransit(c: Session, f: Frame)
    requires TransitOk(c.stream, c.dequeued, c.queue.frames, c.kept, c.lost)
    requires !c.lost
    ensures TransitOk(c.stream + Events(f), c.dequeued, Join(c.queue.frames, f), c.kept, c.lost)
  {
    JoinAppendsEvents(c.queue.frames, f);
    hide Join, Events, Flat;
  }

  lemma JoinKeepsNoExit(fs: seq<Frame>, f: Frame)
    requires NoExit(fs) && f.kind != EXIT
    ensures NoExit(Join(fs, f))
  {
  }

  lemma AcceptedKeepsQueue(q: Queue, deadline: bool, drain: Drain, f: Frame)
    requires QueueOk(q, deadline, drain) && Sendable(f) && f.kind != EXIT && Admits(q, f)
    ensures QueueOk(Send(q, f), deadline, drain)
  {
    SendKeepsOk(q, f);
    JoinKeepsNoExit(q.frames, f);
    hide Ok, Join;
  }

  /** An open queue has not been cut short, and Exit is not in it. */
  lemma OpenIsWhole(c: Session, log: seq<Event>, registered: bool, typed: seq<seq<byte>>)
    requires Healthy(c, log, registered, typed) && !c.queue.closed
    ensures !c.lost && !c.queue.exitQueued && c.exitMark == None
  {
  }
}
