/** Every step of the broker keeps its invariant. */
module BrokerSteps {
  import opened Bytes
  import opened Wire
  import opened Queueing
  import opened Broker
  import opened BrokerInvariant

  // ----- one part of a client's health at a time -----

  lemma StreamTakes(log: seq<Event>, from: nat, replay: seq<Event>, stream: seq<Event>, f: Frame)
    requires StreamOk(log, from, |log|, replay, stream)
    requires f.kind == OUTPUT || f.kind == RESIZE_ACK
    ensures StreamOk(log + Events(f), from, |log + Events(f)|, replay, stream + Events(f))
  {
    EventsOf(f);
    SharedAppend(stream, Events(f));
    hide Events, Shared;
    var log' := log + Events(f);
    assert log'[from..|log'|] == log[from..|log|] + Events(f);
    assert replay + (log[from..|log|] + Events(f)) == replay + log[from..|log|] + Events(f);
  }

  lemma StreamIgnores(log: seq<Event>, from: nat, upto: nat, replay: seq<Event>, stream: seq<Event>, f: Frame)
    requires StreamOk(log, from, upto, replay, stream)
    requires f.kind == PONG || f.kind == EXIT
    ensures StreamOk(log, from, upto, replay, stream + Events(f))
  {
    EventsOf(f);
    SharedAppend(stream, Events(f));
  }

  lemma StreamReplays(log: seq<Event>, from: nat, replay: seq<Event>, stream: seq<Event>, f: Frame)
    requires StreamOk(log, from, from, replay, stream) && f.kind == OUTPUT
    ensures StreamOk(log, from, from, replay + Events(f), stream + Events(f))
  {
    hide Shared, Events;
    EventsOf(f);
    SharedAppend(stream, Events(f));
    assert log[from..from] == [];
    assert replay + [] == replay && (replay + Events(f)) + [] == replay + Events(f);
  }

  lemma ClosedKeepsReplay(plan: seq<Frame>, toReplay: seq<Frame>, replay: seq<Event>, q: Queue, from: nat, upto: nat)
    requires ReplayOk(plan, toReplay, replay, q, from, upto)
    ensures ReplayOk(plan, toReplay, replay, q.(closed := true), from, upto)
  {
  }

  /** Once the replay is through, an open queue has had all of it, whatever it is sent next. */
  lemma OpenKeepsReplay(plan: seq<Frame>, replay: seq<Event>, q: Queue, from: nat, upto: nat, q': Queue, upto': nat)
    requires ReplayOk(plan, [], replay, q, from, upto) && !q.closed
    ensures ReplayOk(plan, [], replay, q', from, upto')
  {
  }

  lemma ShrinkKeepsReplay(plan: seq<Frame>, toReplay: seq<Frame>, replay: seq<Event>, q: Queue, from: nat, upto: nat,
                          waiting: seq<Frame>)
    requires ReplayOk(plan, toReplay, replay, q, from, upto) && Size(waiting) <= Size(q.frames)
    ensures ReplayOk(plan, toReplay, replay, q.(frames := waiting), from, upto)
  {
  }

  lemma PongKept(stream: seq<Event>, outbox: seq<Message>, handled: nat, closed: bool, f: Frame)
    requires PongOk(stream, outbox, handled, closed) && f.kind != PONG
    ensures PongOk(stream + Events(f), outbox, handled, closed)
  {
    EventsOf(f);
    PongsAppend(stream, Events(f));
  }

  lemma ClosedKeepsPong(stream: seq<Event>, outbox: seq<Message>, handled: nat, closed: bool)
    requires PongOk(stream, outbox, handled, closed)
    ensures PongOk(stream, outbox, handled, true)
  {
  }

  lemma OpenIsReplayed(plan: seq<Frame>, replay: seq<Event>, q: Queue, from: nat, upto: nat, mark: Option<ExitMark>)
    requires ReplayOk(plan, [], replay, q, from, upto) && !q.closed
    ensures WholeOk(plan, replay, mark)
  {
    assert plan[..|plan|] == plan;
  }

  // ----- operations on one client -----

  lemma Delivered(c: Session, log: seq<Event>, f: Frame, typed: seq<seq<byte>>)
    requires Healthy(c, log, true, typed) && Sendable(f) && Admits(c.queue, f)
    requires f.kind == OUTPUT || f.kind == RESIZE_ACK
    ensures Healthy(Offer(c, f).(upto := |log + Events(f)|), log + Events(f), true, typed)
  {
    OpenIsWhole(c, log, true, typed);
    PlanGrows(log, Events(f), c.role, c.origin, c.plan, c.from);
    assert c.toReplay == [];
    hide StreamOk, TransitOk, WireOk, QueueOk, ReplayOk, PlanOk, InputOk, PongOk, WholeOk, Ok, Join, Events;
    StreamTakes(log, c.from, c.replay, c.stream, f);
    AcceptedKeepsTransit(c, f);
    AcceptedKeepsQueue(c.queue, c.deadline, c.drain, f);
    OpenKeepsReplay(c.plan, c.replay, c.queue, c.from, c.upto, Send(c.queue, f), |log + Events(f)|);
    PongKept(c.stream, c.outbox, c.handled, c.queue.closed, f);
  }

  lemma PlanGrows(log: seq<Event>, more: seq<Event>, role: Role, origin: Origin, plan: seq<Frame>, from: nat)
    requires PlanOk(log, role, origin, plan, from)
    ensures PlanOk(log + more, role, origin, plan, from)
  {
    assert (log + more)[..from] == log[..from];
  }

  lemma ClosedKeeps(c: Session, log: seq<Event>, registered: bool, typed: seq<seq<byte>>)
    requires Healthy(c, log, registered, typed) && (registered || c.drain == Stopped)
    ensures registered ==> Healthy(Closing(c), log, false, typed)
    ensures c.drain == Stopped ==> Healthy(Closing(c).(drain := Shut), log, registered, typed)
  {
    hide StreamOk, TransitOk, ReplayOk, PlanOk, InputOk, PongOk, WholeOk, Tidy, Size;
    ClosedKeepsPong(c.stream, c.outbox, c.handled, c.queue.closed);
    ClosedKeepsReplay(c.plan, c.toReplay, c.replay, c.queue, c.from, c.upto);
  }

  /** Eviction or removal, then the log goes on without this client. */
  lemma Evicted(c: Session, log: seq<Event>, more: seq<Event>, typed: seq<seq<byte>>)
    requires Healthy(c, log, true, typed)
    ensures Healthy(Closing(c), log + more, false, typed)
  {
    ClosedKeeps(c, log, true, typed);
    LogGrows(Closing(c), log, more, typed);
  }

  /** A Ping is handled and its Pong queued in one step. */
  lemma Ponged(c: Session, log: seq<Event>, typed: seq<seq<byte>>, v: bool)
    requires Healthy(c, log, true, typed) && Admits(c.queue, PONG_FRAME)
    requires c.handler == Reading && c.handled < |c.outbox| && c.outbox[c.handled] == Ping && (v ==> c.role == Writer)
    ensures Healthy(Offer(c.(handled := c.handled + 1, verdicts := c.verdicts + [v]), PONG_FRAME), log, true, typed)
  {
    OpenIsWhole(c, log, true, typed);
    assert c.toReplay == [];
    hide StreamOk, TransitOk, WireOk, QueueOk, ReplayOk, PlanOk, InputOk, PongOk, WholeOk, Ok, Join, Events;
    PongCounts(c.stream, c.outbox, c.handled);
    InputHandled(c.outbox, c.handled, c.verdicts, typed, c.role, v, Reading);
    StreamIgnores(log, c.from, c.upto, c.replay, c.stream, PONG_FRAME);
    AcceptedKeepsTransit(c, PONG_FRAME);
    AcceptedKeepsQueue(c.queue, c.deadline, c.drain, PONG_FRAME);
    OpenKeepsReplay(c.plan, c.replay, c.queue, c.from, c.upto, Send(c.queue, PONG_FRAME), c.upto);
  }

  lemma PongCounts(stream: seq<Event>, outbox: seq<Message>, handled: nat)
    requires PongOk(stream, outbox, handled, false) && handled < |outbox| && outbox[handled] == Ping
    ensures PongOk(stream + Events(PONG_FRAME), outbox, handled + 1, false)
  {
    EventsOf(PONG_FRAME);
    PongsAppend(stream, Events(PONG_FRAME));
    assert outbox[..handled + 1] == outbox[..handled] + [outbox[handled]];
    PingsSnoc(outbox[..handled], outbox[handled]);
  }

  lemma Exited(c: Session, log: seq<Event>, exit: Frame, typed: seq<seq<byte>>)
    requires Healthy(c, log, true, typed) && Sendable(exit) && exit.kind == EXIT
    ensures Healthy(Exiting(c, exit), log, false, typed)
  {
    if Admits(c.queue, exit) {
      ExitAdmitted(c, log, exit, typed);
    } else {
      ClosedKeeps(c, log, true, typed);
    }
  }

  lemma ExitAdmitted(c: Session, log: seq<Event>, exit: Frame, typed: seq<seq<byte>>)
    requires Healthy(c, log, true, typed) && Sendable(exit) && exit.kind == EXIT && Admits(c.queue, exit)
    ensures Healthy(Exiting(c, exit), log, false, typed)
  {
    OpenIsWhole(c, log, true, typed);
    assert c.toReplay == [];
    hide StreamOk, TransitOk, WireOk, QueueOk, ReplayOk, PlanOk, InputOk, PongOk, WholeOk, ExitOk, Ok, Join, Events;
    var q' := Send(c.queue, exit).(closed := true);
    NoExitBefore(c.exitMark, c.dequeued, c.queue, c.lost);
    ExitInQueue(c.queue, c.drain, exit, |c.dequeued|, c.dequeued, c.upto);
    AcceptedKeepsTransit(c, exit);
    PongKept(c.stream, c.outbox, c.handled, false, exit);
    ClosedKeepsPong(c.stream + Events(exit), c.outbox, c.handled, false);
    StreamIgnores(log, c.from, c.upto, c.replay, c.stream, exit);
    OpenKeepsReplay(c.plan, c.replay, c.queue, c.from, c.upto, q', c.upto);
    OpenIsReplayed(c.plan, c.replay, c.queue, c.from, c.upto, Exiting(c, exit).exitMark);
  }

  /** Exit behind what waits in an open queue. */
  lemma ExitInQueue(q: Queue, drain: Drain, exit: Frame, taken: nat, dequeued: seq<Frame>, at: nat)
    requires QueueOk(q, false, drain) && Sendable(exit) && exit.kind == EXIT && Admits(q, exit) && taken == |dequeued|
    requires NoExit(dequeued)
    ensures var q' := Send(q, exit).(closed := true);
            && QueueOk(q', true, drain)
            && ExitOk(Some(ExitMark(q.frames, taken, exit, at)), dequeued, q', false)
  {
    SendKeepsOk(q, exit);
    assert Join(q.frames, exit) == q.frames + [exit];
    hide Ok;
    assert dequeued[taken..] == [] && dequeued[..taken] == dequeued;
  }

  lemma NoExitBefore(mark: Option<ExitMark>, dequeued: seq<Frame>, q: Queue, lost: bool)
    requires ExitOk(mark, dequeued, q, lost) && mark.None?
    ensures NoExit(dequeued)
  {
  }

  // ----- the drain thread -----

  /** Taking the front frame, in time. */
  lemma TakesFront(c: Session, log: seq<Event>, registered: bool, typed: seq<seq<byte>>)
    requires Healthy(c, log, registered, typed) && c.drain == Draining && c.queue.frames != []
    ensures var f, q := c.queue.frames[0], c.queue.(frames := c.queue.frames[1..]);
            Healthy(c.(queue := q, drain := Writing(Encode(f)), dequeued := c.dequeued + [f]), log, registered, typed)
  {
    hide StreamOk, TransitOk, WireOk, ReplayOk, PlanOk, InputOk, PongOk, WholeOk, ExitOk, Ok, Sendable, Encode, Size;
    var f, q := c.queue.frames[0], c.queue.(frames := c.queue.frames[1..]);
    SizeOfRest(c.queue.frames);
    TakenFrontKeepsTransit(c.stream, c.dequeued, c.queue.frames, c.kept, c.lost);
    TakenKeepsWire(c.dequeued, c.wire, f) by { FramesSendable(c.queue); }
    TakenFrontKeepsQueue(c.queue, c.deadline, f);
    ShrinkKeepsReplay(c.plan, c.toReplay, c.replay, c.queue, c.from, c.upto, q.frames);
    TakenFrontKeepsExit(c.exitMark, c.dequeued, c.queue, c.lost);
  }

  lemma SizeOfRest(fs: seq<Frame>)
    requires fs != []
    ensures Size(fs[1..]) <= Size(fs) && Size([]) == 0
  {
  }

  lemma FramesSendable(q: Queue)
    requires Ok(q)
    ensures forall i :: 0 <= i < |q.frames| ==> Sendable(q.frames[i])
  {
  }

  lemma TakenFrontKeepsTransit(stream: seq<Event>, dequeued: seq<Frame>, waiting: seq<Frame>, kept: nat, lost: bool)
    requires TransitOk(stream, dequeued, waiting, kept, lost) && waiting != []
    ensures TransitOk(stream, dequeued + [waiting[0]], waiting[1..], kept, lost)
  {
    hide Events;
    var f := waiting[0];
    FlatSnoc(dequeued, f);
    assert Flat(dequeued) + (Events(f) + Flat(waiting[1..])) == (Flat(dequeued) + Events(f)) + Flat(waiting[1..]);
  }

  lemma TakenKeepsWire(dequeued: seq<Frame>, wire: seq<byte>, f: Frame)
    requires WireOk(dequeued, Draining, wire) && Sendable(f)
    ensures WireOk(dequeued + [f], Writing(Encode(f)), wire)
  {
    hide Encode, EncodeAll, Sendable;
    EncodeAllSnoc(dequeued, f);
  }

  lemma TakenFrontKeepsQueue(q: Queue, deadline: bool, f: Frame)
    requires QueueOk(q, deadline, Draining) && q.frames != []
    ensures QueueOk(q.(frames := q.frames[1..]), deadline, Writing(Encode(f)))
  {
    hide Encode;
    RecvKeepsOk(q, false);
    assert AfterRecv(q, false) == q.(frames := q.frames[1..]);
    hide Ok;
  }

  lemma TakenFrontKeepsExit(mark: Option<ExitMark>, dequeued: seq<Frame>, q: Queue, lost: bool)
    requires ExitOk(mark, dequeued, q, lost) && q.frames != []
    requires !q.exitQueued ==> NoExit(q.frames)
    ensures ExitOk(mark, dequeued + [q.frames[0]], q.(frames := q.frames[1..]), lost)
  {
    if mark.Some? {
      var m := mark.value;
      var since := dequeued[m.taken..];
      assert (dequeued + [q.frames[0]])[m.taken..] == since + [q.frames[0]];
      assert (dequeued + [q.frames[0]])[..m.taken] == dequeued[..m.taken];
      var left := m.pending[|since|..];
      if left == [] {
        assert since == m.pending;
        assert (since + [m.exit])[..|since|] == since;
      } else {
        assert q.frames[1..] == left[1..] + [m.exit] && q.frames[0] == left[0];
        assert left[1..] == m.pending[|since| + 1..];
      }
    }
  }

  /** At the deadline only Exit is left of what waits; there is one. */
  lemma LateIsExit(c: Session, log: seq<Event>, registered: bool, typed: seq<seq<byte>>)
    requires Healthy(c, log, registered, typed) && c.drain == Draining && c.deadline
    ensures c.queue.frames == [] ==> OnlyExit(c.queue.frames) == []
    ensures c.queue.frames != [] ==>
              c.queue.exitQueued && c.queue.closed && !c.lost && c.exitMark.Some?
              && OnlyExit(c.queue.frames) == [c.queue.frames[|c.queue.frames| - 1]]
  {
    var fs := c.queue.frames;
    if fs != [] {
      OnlyExitOfTail(fs[..|fs| - 1], fs[|fs| - 1]);
      assert fs == fs[..|fs| - 1] + [fs[|fs| - 1]];
    }
  }

  lemma TakesLate(c: Session, log: seq<Event>, registered: bool, typed: seq<seq<byte>>)
    requires Healthy(c, log, registered, typed) && c.drain == Draining && c.deadline && c.queue.frames != []
    ensures Healthy(Taking(c, true), log, registered, typed)
  {
    hide StreamOk, TransitOk, WireOk, ReplayOk, PlanOk, InputOk, PongOk, WholeOk, ExitOk, Ok, Sendable,
         Encode, Size, OnlyExit, Flat;
    LateIsExit(c, log, registered, typed);
    var fs := c.queue.frames;
    var exit := fs[|fs| - 1];
    SizeOfRest(fs);
    if fs == [exit] {
      TakesFront(c, log, registered, typed);
      return;
    }
    TakenLateKeepsTransit(c.stream, c.dequeued, fs, c.kept);
    TakenKeepsWire(c.dequeued, c.wire, exit) by { FramesSendable(c.queue); }
    TakenLateKeepsQueue(c.queue);
    ShrinkKeepsReplay(c.plan, c.toReplay, c.replay, c.queue, c.from, c.upto, []);
    TakenLateKeepsExit(c.exitMark, c.dequeued, c.queue);
  }

  lemma TakenLateKeepsQueue(q: Queue)
    requires QueueOk(q, true, Draining)
    ensures Ok(q.(frames := []))
  {
  }

  lemma TakenLateKeepsTransit(stream: seq<Event>, dequeued: seq<Frame>, waiting: seq<Frame>, kept: nat)
    requires TransitOk(stream, dequeued, waiting, kept, false)
    requires waiting != [] && waiting[|waiting| - 1].kind == EXIT
    ensures TransitOk(stream, dequeued + [waiting[|waiting| - 1]], [], |Flat(dequeued)|, true)
  {
    hide Flat;
    var front, exit := waiting[..|waiting| - 1], waiting[|waiting| - 1];
    assert waiting == front + [exit];
    FlatSnoc(front, exit);
    FlatSnoc(dequeued, exit);
    CutStream(stream, Flat(dequeued), Flat(front), Control(exit));
  }

  lemma CutStream(stream: seq<Event>, a: seq<Event>, b: seq<Event>, e: Event)
    requires stream == a + (b + [e])
    ensures |a| < |stream| && stream[..|a|] == a && stream[|stream| - 1] == e
  {
  }

  lemma TakenLateKeepsExit(mark: Option<ExitMark>, dequeued: seq<Frame>, q: Queue)
    requires ExitOk(mark, dequeued, q, false) && mark.Some? && |q.frames| > 1
    ensures ExitOk(mark, dequeued + [q.frames[|q.frames| - 1]], q.(frames := []), true)
  {
    var m := mark.value;
    var since := dequeued[m.taken..];
    assert (dequeued + [m.exit])[m.taken..] == since + [m.exit];
    assert (since + [m.exit])[..|since|] == since;
    assert (dequeued + [m.exit])[..m.taken] == dequeued[..m.taken];
  }

  lemma DrainTakesKeeps(c: Session, log: seq<Event>, registered: bool, typed: seq<seq<byte>>, now: bool)
    requires Healthy(c, log, registered, typed) && c.drain == Draining
    requires c.queue.closed || Due(c.queue, c.deadline && now) != []
    ensures Healthy(Taking(c, now), log, registered, typed)
  {
    hide Healthy;
    if c.queue.frames == [] {
      TakesNothing(c, log, registered, typed, now);
    } else if c.deadline && now {
      TakesLate(c, log, registered, typed);
    } else {
      TakesFront(c, log, registered, typed);
    }
  }

  lemma TakesNothing(c: Session, log: seq<Event>, registered: bool, typed: seq<seq<byte>>, now: bool)
    requires Healthy(c, log, registered, typed) && c.drain == Draining && c.queue.frames == [] && c.queue.closed
    ensures Healthy(Taking(c, now), log, registered, typed)
  {
    hide StreamOk, TransitOk, ReplayOk, PlanOk, InputOk, PongOk, WholeOk, ExitOk, Ok, Sendable;
    assert AfterRecv(c.queue, c.deadline && now) == c.queue;
  }

  lemma DrainWritesKeeps(c: Session, log: seq<Event>, registered: bool, typed: seq<seq<byte>>, count: nat)
    requires Healthy(c, log, registered, typed) && c.drain.Writing? && count <= |c.drain.rest|
    ensures var rest := c.drain.rest[count..];
            Healthy(c.(wire := c.wire + c.drain.rest[..count],
                       drain := if rest == [] then Draining else Writing(rest)), log, registered, typed)
  {
    hide StreamOk, TransitOk, ReplayOk, PlanOk, InputOk, PongOk, WholeOk, ExitOk, Ok, Sendable, EncodeAll;
    var rest := c.drain.rest;
    assert rest == rest[..count] + rest[count..];
    assert c.wire + rest == (c.wire + rest[..count]) + rest[count..];
    assert count == |rest| ==> rest[count..] == [] && (c.wire + rest[..count]) + [] == c.wire + rest[..count];
  }

  lemma DrainFailsKeeps(c: Session, log: seq<Event>, registered: bool, typed: seq<seq<byte>>)
    requires Healthy(c, log, registered, typed)
    ensures c.drain.Writing? ==> Healthy(c.(drain := Stopped), log, registered, typed)
    ensures c.drain.Shut? ==> Healthy(c.(drain := Removed), log, registered, typed)
    ensures c.drain.Removed? ==> Healthy(c.(drain := Ended), log, registered, typed)
  {
    hide StreamOk, TransitOk, ReplayOk, PlanOk, InputOk, PongOk, WholeOk, ExitOk, Ok, Sendable, EncodeAll;
  }

  // ----- the handler thread -----

  /** Moving between phases that hold nothing back. */
  lemma HandlerMoves(c: Session, log: seq<Event>, registered: bool, typed: seq<seq<byte>>, h: Handler)
    requires Healthy(c, log, registered, typed)
    requires !Fresh(c.handler) && c.handler != Replaying && !c.handler.Typing?
    requires !Fresh(h) && h != Replaying && !h.Typing? && !h.Resizing?
    ensures Healthy(c.(handler := h), log, registered, typed)
  {
    hide StreamOk, TransitOk, WireOk, QueueOk, ReplayOk, PlanOk, InputOk, PongOk, WholeOk, ExitOk;
    InputIdle(c.outbox, c.handled, c.verdicts, c.handler, h, typed, c.role);
  }

  lemma SendsKeeps(c: Session, log: seq<Event>, registered: bool, typed: seq<seq<byte>>, msg: Message)
    requires Healthy(c, log, registered, typed)
    ensures Healthy(c.(outbox := c.outbox + [msg]), log, registered, typed)
  {
    hide StreamOk, TransitOk, WireOk, QueueOk, ReplayOk, PlanOk, ExitOk, Approved, Pings, Pongs;
    assert (c.outbox + [msg])[..c.handled] == c.outbox[..c.handled];
  }

  /** Processing the next message: a verdict is recorded, and only an approved
      input or resize goes on to act. */
  lemma HandledKeeps(c: Session, log: seq<Event>, registered: bool, typed: seq<seq<byte>>, v: bool, h: Handler)
    requires Healthy(c, log, registered, typed) && c.handler == Reading && c.handled < |c.outbox|
    requires v ==> c.role == Writer
    requires var m := c.outbox[c.handled];
             if m.Input? && v then h == Typing(m.payload)
             else !Fresh(h) && h != Replaying && !h.Typing? && (h.Resizing? ==> v)
    requires c.outbox[c.handled] == Ping ==> c.queue.closed
    ensures Healthy(c.(handled := c.handled + 1, verdicts := c.verdicts + [v], handler := h), log, registered, typed)
  {
    hide StreamOk, TransitOk, WireOk, QueueOk, ReplayOk, PlanOk, InputOk, PongOk, WholeOk, ExitOk,
         Approved, Pings, Pongs;
    InputHandled(c.outbox, c.handled, c.verdicts, typed, c.role, v, h);
    PingHandled(c.stream, c.outbox, c.handled, c.queue.closed);
  }

  lemma InputHandled(outbox: seq<Message>, handled: nat, verdicts: seq<bool>, typed: seq<seq<byte>>, role: Role,
                     v: bool, h: Handler)
    requires InputOk(outbox, handled, verdicts, Reading, typed, role) && handled < |outbox|
    requires v ==> role == Writer
    requires var m := outbox[handled];
             if m.Input? && v then h == Typing(m.payload) else !h.Typing? && (h.Resizing? ==> v)
    ensures InputOk(outbox, handled + 1, verdicts + [v], h, typed, role)
  {
    assert outbox[..handled + 1] == outbox[..handled] + [outbox[handled]];
    ApprovedSnoc(outbox[..handled], verdicts, outbox[handled], v);
    hide Approved;
    assert typed + [] == typed;
  }

  lemma PingHandled(stream: seq<Event>, outbox: seq<Message>, handled: nat, closed: bool)
    requires PongOk(stream, outbox, handled, closed) && handled < |outbox| && (outbox[handled] == Ping ==> closed)
    ensures PongOk(stream, outbox, handled + 1, closed)
  {
    assert outbox[..handled + 1] == outbox[..handled] + [outbox[handled]];
    PingsSnoc(outbox[..handled], outbox[handled]);
  }

  lemma TypesKeeps(c: Session, log: seq<Event>, registered: bool, typed: seq<seq<byte>>)
    requires Healthy(c, log, registered, typed) && c.handler.Typing?
    ensures Healthy(c.(handler := Reading), log, registered, typed + [c.handler.payload])
  {
    hide StreamOk, TransitOk, WireOk, QueueOk, ReplayOk, PlanOk, PongOk, WholeOk, ExitOk, Approved;
  }

  /** Withdrawing the approval of an input that could not be written. */
  lemma DropsKeeps(c: Session, log: seq<Event>, registered: bool, typed: seq<seq<byte>>)
    requires Healthy(c, log, registered, typed) && c.handler.Typing?
    ensures Healthy(Dropping(c), log, registered, typed)
  {
    hide StreamOk, TransitOk, WireOk, QueueOk, ReplayOk, PlanOk, InputOk, PongOk, WholeOk, ExitOk;
    InputDropped(c.outbox, c.handled, c.verdicts, c.handler, typed, c.role);
  }

  lemma InputDropped(outbox: seq<Message>, handled: nat, verdicts: seq<bool>, h: Handler,
                     typed: seq<seq<byte>>, role: Role)
    requires InputOk(outbox, handled, verdicts, h, typed, role) && h.Typing?
    ensures verdicts != []
    ensures InputOk(outbox, handled, verdicts[..|verdicts| - 1] + [false], Reading, typed, role)
  {
    var n := handled - 1;
    assert outbox[..handled] == outbox[..n] + [outbox[n]] && verdicts == verdicts[..n] + [true];
    ApprovedSnoc(outbox[..n], verdicts[..n], outbox[n], true);
    ApprovedSnoc(outbox[..n], verdicts[..n], outbox[n], false);
    hide Approved;
    assert typed == (typed + [h.payload])[..|typed|];
    assert Approved(outbox[..n], verdicts[..n]) == Approved(outbox[..handled], verdicts)[..|typed|];
    assert typed + [] == typed;
  }

  // ----- attaching -----

  /** Claiming, and asking for the spawn, leave a client that has not attached as it was. */
  lemma FreshMoves(c: Session, log: seq<Event>, registered: bool, typed: seq<seq<byte>>, h: Handler, previous: nat)
    requires Healthy(c, log, registered, typed)
    requires Unclaimed(c.handler) && Fresh(h)
    ensures !registered && c.role == Writer
    ensures Healthy(c.(handler := h, previous := previous), log, registered, typed)
  {
    hide StreamOk, TransitOk, WireOk, QueueOk, ReplayOk, PlanOk, InputOk, PongOk, WholeOk, ExitOk;
    InputIdle(c.outbox, c.handled, c.verdicts, c.handler, h, typed, c.role);
  }

  lemma AttachFirstKeeps(c: Session, log: seq<Event>, typed: seq<seq<byte>>)
    requires Healthy(c, log, false, typed) && c.handler == Greeted(true) && HistoryOf(log) == []
    ensures Healthy(c.(handler := Reading, origin := FirstWriter, from := |log|, upto := |log|), log, true, typed)
  {
    hide StreamOk, TransitOk, WireOk, QueueOk, ReplayOk, PlanOk, InputOk, PongOk, WholeOk, ExitOk, HistoryOf;
    StreamStarts(log, c.from, c.upto, c.replay);
    NoPlan(log, c.role, c.plan, c.from);
    ReplayStarts(c.plan, c.replay, c.queue, c.from, c.upto, |log|);
    InputIdle(c.outbox, c.handled, c.verdicts, c.handler, Reading, typed, c.role);
  }

  lemma InputIdle(outbox: seq<Message>, handled: nat, verdicts: seq<bool>, h: Handler, h': Handler,
                  typed: seq<seq<byte>>, role: Role)
    requires InputOk(outbox, handled, verdicts, h, typed, role)
    requires !h.Typing? && !h'.Typing? && !h'.Resizing?
    ensures InputOk(outbox, handled, verdicts, h', typed, role)
  {
    hide Approved;
  }

  /** A client with no plan yet, attached at the end of the log. */
  lemma StreamStarts(log: seq<Event>, from: nat, upto: nat, replay: seq<Event>)
    requires StreamOk(log, from, upto, replay, [])
    ensures replay == [] && StreamOk(log, |log|, |log|, replay, [])
  {
  }

  lemma NoPlan(log: seq<Event>, role: Role, plan: seq<Frame>, from: nat)
    requires PlanOk(log, role, Pending, plan, from) && HistoryOf(log) == []
    ensures plan == [] && (role == Writer ==> PlanOk(log, role, FirstWriter, plan, |log|))
  {
    assert log[..|log|] == log;
  }

  lemma ReplayStarts(plan: seq<Frame>, replay: seq<Event>, q: Queue, from: nat, upto: nat, at: nat)
    requires ReplayOk(plan, [], replay, q, from, upto) && plan == [] && replay == []
    ensures ReplayOk(plan, [], replay, q, at, at)
  {
  }

  lemma PlanIsSendable(role: Role, recent: seq<byte>, modes: seq<byte>)
    requires |modes| < MAX_PAYLOAD_SIZE
    ensures forall f :: f in HistoryPlan(role, recent, modes) ==> Sendable(f) && f.kind == OUTPUT
  {
    ReplayRejoins(recent);
  }

  lemma AttachBeginKeeps(c: Session, log: seq<Event>, typed: seq<seq<byte>>, origin: Origin, plan: seq<Frame>)
    requires Healthy(c, log, false, typed) && c.handler == Greeted(false)
    requires origin != Pending && PlanOk(log, c.role, origin, plan, |log|)
    requires forall f :: f in plan ==> Sendable(f) && f.kind == OUTPUT
    ensures Healthy(c.(handler := Replaying, origin := origin, plan := plan, toReplay := plan,
                       from := |log|, upto := |log|), log, false, typed)
  {
    hide TransitOk, StreamOk, ReplayOk, WireOk, QueueOk, InputOk, PongOk, ExitOk, PlanOk, Sendable;
    InputIdle(c.outbox, c.handled, c.verdicts, c.handler, Replaying, typed, c.role);
    StreamStarts(log, c.from, c.upto, c.replay);
    ReplayBegins(plan, |log|);
  }

  lemma ReplayBegins(plan: seq<Frame>, at: nat)
    requires forall f :: f in plan ==> Sendable(f) && f.kind == OUTPUT
    ensures ReplayOk(plan, plan, [], EMPTY, at, at)
  {
    assert plan == plan[|plan| - |plan|..] && plan[..0] == [];
    hide Sendable;
  }

  /** One more frame of a replay that fits is accepted, unless the queue was closed. */
  lemma ReplayAdvances(plan: seq<Frame>, toReplay: seq<Frame>, replay: seq<Event>, q: Queue, from: nat)
    requires ReplayOk(plan, toReplay, replay, q, from, from) && toReplay != [] && Tidy(q.frames)
    ensures var f := toReplay[0];
            ReplayOk(plan, toReplay[1..], replay + (if Admits(q, f) then Events(f) else []), Send(q, f), from, from)
  {
    var f := toReplay[0];
    var done := |plan| - |toReplay|;
    assert toReplay[1..] == plan[done + 1..];
    assert plan[..done + 1] == plan[..done] + [f];
    FlatSnoc(plan[..done], f);
    JoinSize(q.frames, f);
    hide Join, Flat, Events;
    if Size(plan) <= CLIENT_QUEUE_BYTES && replay == Flat(plan[..done]) && !q.closed {
      assert Size(toReplay) == HEADER + |f.payload| + Size(toReplay[1..]);
      assert Admits(q, f);
    }
  }

  lemma AttachSendKeeps(c: Session, log: seq<Event>, typed: seq<seq<byte>>)
    requires Healthy(c, log, false, typed) && c.handler == Replaying && c.toReplay != []
    ensures var f := c.toReplay[0];
            Healthy(Offer(c, f).(toReplay := c.toReplay[1..],
                                 replay := c.replay + (if Admits(c.queue, f) then Events(f) else [])),
                    log, false, typed)
  {
    var f := c.toReplay[0];
    assert Sendable(f) && f.kind == OUTPUT;
    assert Tidy(c.queue.frames);
    hide StreamOk, TransitOk, WireOk, QueueOk, ReplayOk, PlanOk, InputOk, PongOk, WholeOk, Ok, Join, Events;
    ReplayAdvances(c.plan, c.toReplay, c.replay, c.queue, c.from);
    if Admits(c.queue, f) {
      OpenIsWhole(c, log, false, typed);
      StreamReplays(log, c.from, c.replay, c.stream, f);
      AcceptedKeepsTransit(c, f);
      AcceptedKeepsQueue(c.queue, c.deadline, c.drain, f);
      PongKept(c.stream, c.outbox, c.handled, c.queue.closed, f);
    } else {
      assert c.replay + [] == c.replay;
    }
  }

  lemma AttachEndKeeps(c: Session, log: seq<Event>, typed: seq<seq<byte>>)
    requires Healthy(c, log, false, typed) && c.handler == Replaying && c.toReplay == []
    ensures Healthy(c.(handler := Reading), log, true, typed)
  {
    hide StreamOk, TransitOk, WireOk, QueueOk, ReplayOk, PlanOk, InputOk, PongOk, WholeOk, ExitOk;
    InputIdle(c.outbox, c.handled, c.verdicts, c.handler, Reading, typed, c.role);
  }

  // ----- the whole broker -----

  ghost predicate KeepsPlace(c: Session, c': Session) {
    && c'.role == c.role && c'.previous == c.previous
    && (c'.handler == Replaying <==> c.handler == Replaying)
    && (IsFirst(c'.handler) ==> IsFirst(c.handler))
    && (Unclaimed(c'.handler) ==> Unclaimed(c.handler))
  }

  ghost predicate SamePlaces(s: State, t: State) {
    && t.sessions.Keys == s.sessions.Keys
    && (forall id :: id in s.sessions ==> KeepsPlace(s.sessions[id], t.sessions[id]))
    && t.registered <= t.sessions.Keys
    && t.nextId == s.nextId && t.lock == s.lock && t.spawner == s.spawner && t.ptyReading == s.ptyReading
    && t.typed == s.typed && (t.writerId == s.writerId || t.writerId == 0)
  }

  ghost predicate LogOk(s: State) {
    && s.recent == LastN(RING_CAPACITY, HistoryOf(s.log))
    && AcksNumbered(s.log, s.gen)
    && (!s.ptyReading ==> HistoryOf(s.log) == [])
  }

  lemma AuthorityKeeps(s: State, t: State)
    requires AuthorityOk(s) && t.sessions.Keys == s.sessions.Keys
    requires forall id :: id in s.sessions ==>
               && t.sessions[id].role == s.sessions[id].role && t.sessions[id].previous == s.sessions[id].previous
               && (Unclaimed(t.sessions[id].handler) ==> Unclaimed(s.sessions[id].handler))
    requires t.typed == s.typed && (t.writerId == s.writerId || t.writerId == 0)
    ensures AuthorityOk(t)
  {
    assert forall k: nat :: HasClaimed(s, k) ==> HasClaimed(t, k);
    assert forall k: nat :: IsWriter(s, k) ==> IsWriter(t, k);
  }

  lemma FirstKeeps(s: State, t: State)
    requires FirstOk(s) && t.sessions.Keys == s.sessions.Keys
    requires forall id :: id in s.sessions && IsFirst(t.sessions[id].handler) ==> IsFirst(s.sessions[id].handler)
    requires t.nextId == s.nextId && t.spawner == s.spawner && t.ptyReading == s.ptyReading
    ensures FirstOk(t)
  {
  }

  lemma SharedKeeps(s: State, t: State)
    requires SharedOk(s) && SamePlaces(s, t) && LogOk(t)
    ensures SharedOk(t)
  {
    hide HistoryOf, AcksNumbered, LastN;
  }

  /** What the clients' places say about the broker does not depend on the rest of them. */
  lemma PlacesKeep(s: State, t: State)
    requires SharedOk(s) && AuthorityOk(s) && FirstOk(s) && SamePlaces(s, t) && LogOk(t)
    ensures SharedOk(t) && AuthorityOk(t) && FirstOk(t)
  {
    hide SharedOk, AuthorityOk, FirstOk, LogOk;
    SharedKeeps(s, t);
    AuthorityKeeps(s, t);
    FirstKeeps(s, t);
  }

  /** One client changes, in its place. */
  lemma PutKeeps(s: State, id: nat, c: Session)
    requires Inv(s) && id in s.sessions && KeepsPlace(s.sessions[id], c)
    requires Healthy(c, s.log, id in s.registered, TypedBy(s.typed, id))
    ensures Inv(Put(s, id, c))
  {
    hide Healthy, SharedOk, AuthorityOk, FirstOk, TypedBy;
    PutInPlace(s, id, c);
  }

  lemma PutInPlace(s: State, id: nat, c: Session)
    requires SharedOk(s) && AuthorityOk(s) && FirstOk(s) && id in s.sessions && KeepsPlace(s.sessions[id], c)
    ensures var t := Put(s, id, c); SharedOk(t) && AuthorityOk(t) && FirstOk(t)
  {
    hide AuthorityOk, FirstOk, AcksNumbered, HistoryOf, LastN;
    PlacesKeep(s, Put(s, id, c));
  }

  lemma UnlinkKeeps(s: State, id: nat)
    requires Inv(s) && id in s.sessions
    ensures Inv(Unlink(s, id))
    ensures Unlink(s, id).log == s.log && Unlink(s, id).typed == s.typed && Unlink(s, id).lock == s.lock
    ensures id in Unlink(s, id).sessions && id !in Unlink(s, id).registered
    ensures var c, c' := s.sessions[id], Unlink(s, id).sessions[id];
            c'.handler == c.handler && c'.drain == c.drain
  {
    hide Healthy, TypedBy, AcksNumbered, HistoryOf, LastN, IsWriter;
    if id in s.registered {
      ClosedKeeps(s.sessions[id], s.log, true, TypedBy(s.typed, id));
      UnlinkInPlace(s, id);
    }
  }

  lemma UnlinkInPlace(s: State, id: nat)
    requires SharedOk(s) && AuthorityOk(s) && FirstOk(s) && id in s.sessions
    ensures SharedOk(Unlink(s, id)) && AuthorityOk(Unlink(s, id)) && FirstOk(Unlink(s, id))
  {
    hide SharedOk, AuthorityOk, FirstOk;
    UnlinkPlaces(s, id);
    PlacesKeep(s, Unlink(s, id));
  }

  lemma UnlinkPlaces(s: State, id: nat)
    requires SharedOk(s) && id in s.sessions
    ensures SamePlaces(s, Unlink(s, id)) && LogOk(Unlink(s, id))
  {
    hide AcksNumbered, HistoryOf, LastN, Unclaimed, IsFirst;
  }

  lemma RestoreKeeps(s: State, id: nat)
    requires Inv(s) && id in s.sessions
    ensures Inv(Restore(s, id))
  {
    hide Healthy, AcksNumbered, HistoryOf, TypedBy;
  }

  /** One frame of the global log reaches every registered client or evicts it. */
  lemma BroadcastKeeps(s: State, f: Frame, recent: seq<byte>, gen: nat)
    requires Inv(s) && s.lock == None && Sendable(f) && (f.kind == OUTPUT || f.kind == RESIZE_ACK)
    requires recent == LastN(RING_CAPACITY, HistoryOf(s.log + Events(f)))
    requires AcksNumbered(s.log + Events(f), gen)
    requires !s.ptyReading ==> HistoryOf(s.log + Events(f)) == []
    ensures Inv(Broadcast(s.(recent := recent, gen := gen), f))
  {
    hide Healthy, AcksNumbered, HistoryOf, TypedBy, Events, Admits, LastN;
    var t := Broadcast(s.(recent := recent, gen := gen), f);
    assert Refusing(s.(recent := recent, gen := gen), f) == Refusing(s, f);
    forall id | id in t.sessions
      ensures Healthy(t.sessions[id], t.log, id in t.registered, TypedBy(t.typed, id))
      ensures KeepsPlace(s.sessions[id], t.sessions[id])
    {
      BroadcastToOne(s, f, id);
    }
    hide SharedOk, AuthorityOk, FirstOk;
    PlacesKeep(s, t);
  }

  lemma BroadcastToOne(s: State, f: Frame, id: nat)
    requires Inv(s) && s.lock == None && Sendable(f) && (f.kind == OUTPUT || f.kind == RESIZE_ACK)
    requires id in s.sessions
    ensures var t := Broadcast(s, f);
            && Healthy(t.sessions[id], t.log, id in t.registered, TypedBy(t.typed, id))
            && KeepsPlace(s.sessions[id], t.sessions[id])
  {
    hide Healthy, TypedBy, Events, Send, Admits, Broadcast, KeepsPlace;
    BroadcastSession(s, f, id);
    BroadcastInPlace(s.sessions[id], f, |s.log + Events(f)|);
    var c := s.sessions[id];
    var typed := TypedBy(s.typed, id);
    if id !in s.registered {
      LogGrows(c, s.log, Events(f), typed);
    } else if Admits(c.queue, f) {
      Delivered(c, s.log, f, typed);
    } else {
      Evicted(c, s.log, Events(f), typed);
    }
  }

  lemma BroadcastSession(s: State, f: Frame, id: nat)
    requires id in s.sessions
    ensures var c, t := s.sessions[id], Broadcast(s, f);
            && t.log == s.log + Events(f) && t.typed == s.typed && id in t.sessions
            && (id in t.registered <==> id in s.registered && Admits(c.queue, f))
            && t.sessions[id] == if id !in s.registered then c
                                 else if Admits(c.queue, f) then Offer(c, f).(upto := |t.log|)
                                 else Closing(c)
  {
    hide Events, Send, Admits;
  }

  lemma BroadcastInPlace(c: Session, f: Frame, upto: nat)
    ensures KeepsPlace(c, c) && KeepsPlace(c, Offer(c, f).(upto := upto)) && KeepsPlace(c, Closing(c))
  {
  }

  lemma PtyReadKeeps(s: State, data: seq<byte>)
    requires Inv(s) && Enabled(s, PtyRead(data))
    ensures Inv(Apply(s, PtyRead(data)))
  {
    hide Healthy, AcksNumbered, HistoryOf, Controls, Events, Broadcast, LastN, AuthorityOk;
    var f := Frame(OUTPUT, data);
    OutputExtendsLog(s.log, s.gen, data);
    LastNAppend(RING_CAPACITY, HistoryOf(s.log), data);
    BroadcastKeeps(s, f, LastN(RING_CAPACITY, s.recent + data), s.gen);
    assert s.(recent := LastN(RING_CAPACITY, s.recent + data), gen := s.gen)
           == s.(recent := LastN(RING_CAPACITY, s.recent + data));
  }

  lemma OutputExtendsLog(log: seq<Event>, gen: nat, data: seq<byte>)
    requires AcksNumbered(log, gen)
    ensures var log' := log + Events(Frame(OUTPUT, data));
            AcksNumbered(log', gen) && HistoryOf(log') == HistoryOf(log) + data
  {
    hide Events, HistoryOf, Controls, DecodeResizeAck;
    var f := Frame(OUTPUT, data);
    EventsOf(f);
    HistoryAppend(log, Events(f));
    ControlsAppend(log, Events(f));
    assert Controls(log) + [] == Controls(log);
  }

  lemma CommitResizeKeeps(s: State, id: nat)
    requires Inv(s) && Enabled(s, CommitResize(id))
    ensures Inv(Apply(s, CommitResize(id)))
  {
    hide Healthy, AcksNumbered, HistoryOf, TypedBy, Controls, Events, Broadcast, LastN,
         AuthorityOk, FirstOk, EncodeResizeAck, Put;
    var h := s.sessions[id].handler;
    var f := ResizeAckFrame(s.gen + 1, h.cols, h.rows);
    AckExtendsLog(s.log, s.gen, h.cols, h.rows);
    ResizeReturns(s, id);
    BroadcastKeeps(Put(s, id, s.sessions[id].(handler := Reading)), f, s.recent, s.gen + 1);
  }

  /** The handler goes back to reading, whether before or after the generation is counted. */
  lemma ResizeReturns(s: State, id: nat)
    requires Inv(s) && id in s.sessions && s.sessions[id].handler.Resizing?
    ensures var t := Put(s, id, s.sessions[id].(handler := Reading));
            && Inv(t) && t.lock == s.lock && t.log == s.log && t.recent == s.recent && t.ptyReading == s.ptyReading
            && t.(recent := s.recent, gen := s.gen + 1) ==
               Put(s.(gen := s.gen + 1), id, s.sessions[id].(handler := Reading))
  {
    hide Healthy, SharedOk, AuthorityOk, FirstOk, TypedBy;
    HandlerMoves(s.sessions[id], s.log, id in s.registered, TypedBy(s.typed, id), Reading);
    PutKeeps(s, id, s.sessions[id].(handler := Reading));
  }

  lemma AckExtendsLog(log: seq<Event>, gen: nat, cols: u16, rows: u16)
    requires AcksNumbered(log, gen) && gen + 1 < U32_SIZE
    ensures var log' := log + Events(ResizeAckFrame(gen + 1, cols, rows));
            AcksNumbered(log', gen + 1) && HistoryOf(log') == HistoryOf(log)
  {
    hide Events, HistoryOf, Controls, EncodeResizeAck, DecodeResizeAck;
    var f := ResizeAckFrame(gen + 1, cols, rows);
    EventsOf(f);
    HistoryAppend(log, Events(f));
    ControlsAppend(log, Events(f));
    ResizeAckRoundTrip(gen + 1, cols, rows);
  }

  lemma BroadcastExitKeeps(s: State, code: seq<byte>)
    requires Inv(s) && Enabled(s, BroadcastExit(code))
    ensures Inv(Apply(s, BroadcastExit(code)))
  {
    hide Healthy, AuthorityOk, FirstOk, TypedBy, AcksNumbered, HistoryOf, LastN, Exiting;
    var exit := Frame(EXIT, code);
    var t := DoBroadcastExit(s, exit);
    forall id | id in t.sessions
      ensures Healthy(t.sessions[id], t.log, false, TypedBy(t.typed, id))
      ensures KeepsPlace(s.sessions[id], t.sessions[id])
    {
      if id in s.registered {
        Exited(s.sessions[id], s.log, exit, TypedBy(s.typed, id));
        ExitingInPlace(s.sessions[id], exit);
      }
    }
    PlacesKeep(s, t);
  }

  lemma ExitingInPlace(c: Session, exit: Frame)
    ensures KeepsPlace(c, Exiting(c, exit))
  {
  }

  lemma ConnectKeeps(s: State, role: Role)
    requires Inv(s)
    ensures Inv(Apply(s, Connect(role)))
  {
    hide Healthy, SharedOk, AuthorityOk, FirstOk, TypedBy;
    var t := DoConnect(s, role);
    FreshId(s);
    FreshIsHealthy(role, s.log);
    ConnectInPlace(s, role);
  }

  lemma FreshId(s: State)
    requires SharedOk(s) && AuthorityOk(s)
    ensures s.nextId !in s.sessions && s.nextId !in s.registered && TypedBy(s.typed, s.nextId) == []
  {
    NothingTyped(s.typed, s.nextId);
  }

  lemma ConnectInPlace(s: State, role: Role)
    requires SharedOk(s) && AuthorityOk(s) && FirstOk(s)
    ensures var t := DoConnect(s, role); SharedOk(t) && AuthorityOk(t) && FirstOk(t)
  {
    ConnectShared(s, role);
    ConnectAuthority(s, role);
    ConnectFirst(s, role);
  }

  lemma ConnectShared(s: State, role: Role)
    requires SharedOk(s)
    ensures SharedOk(DoConnect(s, role))
  {
    hide AcksNumbered, HistoryOf, LastN;
    var t := DoConnect(s, role);
    assert t.sessions.Keys == s.sessions.Keys + {s.nextId};
    assert forall k :: k in s.sessions ==> t.sessions[k] == s.sessions[k];
  }

  lemma ConnectAuthority(s: State, role: Role)
    requires AuthorityOk(s) && s.nextId !in s.sessions
    ensures AuthorityOk(DoConnect(s, role))
  {
    var t := DoConnect(s, role);
    assert forall k :: k in s.sessions ==> t.sessions[k] == s.sessions[k];
    assert forall k: nat :: HasClaimed(s, k) ==> HasClaimed(t, k);
    assert forall k: nat :: IsWriter(s, k) ==> IsWriter(t, k);
  }

  lemma ConnectFirst(s: State, role: Role)
    requires FirstOk(s) && SharedOk(s)
    ensures FirstOk(DoConnect(s, role))
  {
    hide AcksNumbered, HistoryOf, LastN;
  }

  lemma {:induction false} NothingTyped(typed: seq<(nat, seq<byte>)>, id: nat)
    requires forall i :: 0 <= i < |typed| ==> typed[i].0 != id
    ensures TypedBy(typed, id) == []
  {
    if typed != [] {
      NothingTyped(typed[1..], id);
    }
  }

  lemma FreshIsHealthy(role: Role, log: seq<Event>)
    ensures Healthy(Newcomer(role), log, false, [])
  {
    FreshPlans(log, role);
    hide StreamOk, ReplayOk, PlanOk, HistoryOf, LastN;
    assert Approved([], []) == [] && Pings([]) == 0;
  }

  lemma FreshPlans(log: seq<Event>, role: Role)
    ensures StreamOk(log, 0, 0, [], []) && ReplayOk([], [], [], EMPTY, 0, 0) && PlanOk(log, role, Pending, [], 0)
  {
    assert log[0..0] == [];
  }

  lemma SpawnStep(s: State, id: nat)
    requires Enabled(s, Spawn(id)) && Inv(s)
    ensures Inv(Apply(s, Spawn(id)))
  {
    hide Healthy, SharedOk, AuthorityOk, FirstOk, TypedBy;
    var c := s.sessions[id];
    FreshMoves(c, s.log, id in s.registered, TypedBy(s.typed, id), Checked(s.spawner == 0), c.previous);
    SpawnInPlace(s, id);
  }

  lemma SpawnInPlace(s: State, id: nat)
    requires id in s.sessions && s.sessions[id].handler.Arrived?
    requires SharedOk(s) && AuthorityOk(s) && FirstOk(s)
    ensures var t := DoSpawn(s, id); SharedOk(t) && AuthorityOk(t) && FirstOk(t)
  {
    hide AuthorityOk, AcksNumbered, HistoryOf, LastN;
    AuthorityKeeps(s, DoSpawn(s, id));
  }

  lemma OpenPtyStep(s: State)
    requires Inv(s)
    ensures Inv(s.(ptyOpen := true))
  {
    hide Healthy, AcksNumbered, HistoryOf, TypedBy, LastN;
  }

  lemma ClaimStep(s: State, id: nat)
    requires Enabled(s, Claim(id)) && Inv(s)
    ensures Inv(Apply(s, Claim(id)))
  {
    hide Healthy, SharedOk, AuthorityOk, FirstOk, TypedBy;
    var c := s.sessions[id];
    FreshMoves(c, s.log, id in s.registered, TypedBy(s.typed, id), Greeted(c.handler.first), s.writerId);
    ClaimInPlace(s, id);
  }

  lemma ClaimInPlace(s: State, id: nat)
    requires id in s.sessions && s.sessions[id].handler.Checked? && s.sessions[id].role == Writer
    requires SharedOk(s) && AuthorityOk(s) && FirstOk(s)
    ensures var t := DoClaim(s, id); SharedOk(t) && AuthorityOk(t) && FirstOk(t)
  {
    ClaimAuthority(s, id);
    hide AuthorityOk, AcksNumbered, HistoryOf, LastN;
  }

  lemma ClaimAuthority(s: State, id: nat)
    requires id in s.sessions && s.sessions[id].handler.Checked? && s.sessions[id].role == Writer
    requires AuthorityOk(s)
    ensures AuthorityOk(DoClaim(s, id))
  {
    var t := DoClaim(s, id);
    assert forall k: nat :: HasClaimed(s, k) || k == id ==> HasClaimed(t, k);
    assert forall k: nat :: IsWriter(s, k) ==> IsWriter(t, k);
  }

  lemma AttachFirstStep(s: State, id: nat)
    requires Enabled(s, AttachFirst(id)) && Inv(s)
    ensures Inv(Apply(s, AttachFirst(id)))
  {
    hide Healthy, SharedOk, AuthorityOk, FirstOk, TypedBy, HistoryOf;
    var c := s.sessions[id];
    GreetedIsUnregistered(c, s.log, id in s.registered, TypedBy(s.typed, id));
    AttachFirstInPlace(s, id);
    AttachFirstKeeps(c, s.log, TypedBy(s.typed, id));
  }

  lemma AttachFirstInPlace(s: State, id: nat)
    requires id in s.sessions && s.sessions[id].handler == Greeted(true)
    requires SharedOk(s) && AuthorityOk(s) && FirstOk(s)
    ensures var t := DoAttachFirst(s, id); SharedOk(t) && AuthorityOk(t) && FirstOk(t)
    ensures HistoryOf(s.log) == []
  {
    hide AuthorityOk, AcksNumbered, HistoryOf, LastN;
    AuthorityKeeps(s, DoAttachFirst(s, id));
  }

  lemma AttachBeginStep(s: State, id: nat, snapshot: Option<seq<byte>>, modes: seq<byte>)
    requires Enabled(s, AttachBegin(id, snapshot, modes)) && Inv(s)
    ensures Inv(Apply(s, AttachBegin(id, snapshot, modes)))
  {
    hide Healthy, SharedOk, AuthorityOk, FirstOk, TypedBy, PlanOk, HistoryPlan, ReplayFrames, Sendable;
    var c := s.sessions[id];
    var t := DoAttachBegin(s, id, snapshot, modes);
    GreetedIsUnregistered(c, s.log, id in s.registered, TypedBy(s.typed, id));
    BeginPlan(s, c.role, snapshot, modes);
    AttachBeginInPlace(s, id, snapshot, modes);
    AttachBeginKeeps(c, s.log, TypedBy(s.typed, id), t.sessions[id].origin, t.sessions[id].plan);
  }

  lemma AttachBeginInPlace(s: State, id: nat, snapshot: Option<seq<byte>>, modes: seq<byte>)
    requires id in s.sessions && s.lock.None? && SharedOk(s) && AuthorityOk(s) && FirstOk(s)
    ensures var t := DoAttachBegin(s, id, snapshot, modes); SharedOk(t) && AuthorityOk(t) && FirstOk(t)
  {
    hide AuthorityOk, FirstOk, AcksNumbered, HistoryOf, LastN, HistoryPlan, ReplayFrames;
    AuthorityKeeps(s, DoAttachBegin(s, id, snapshot, modes));
    FirstKeeps(s, DoAttachBegin(s, id, snapshot, modes));
  }

  lemma BeginPlan(s: State, role: Role, snapshot: Option<seq<byte>>, modes: seq<byte>)
    requires SharedOk(s) && |modes| < MAX_PAYLOAD_SIZE && (snapshot.Some? ==> role != Writer)
    ensures var plan := if snapshot.Some? then ReplayFrames(ENTER_ALTERNATE + snapshot.value)
                        else HistoryPlan(role, s.recent, modes);
            var origin := if snapshot.Some? then Snapshot(snapshot.value) else History(modes);
            && PlanOk(s.log, role, origin, plan, |s.log|)
            && forall f :: f in plan ==> Sendable(f) && f.kind == OUTPUT
  {
    assert s.log[..|s.log|] == s.log;
    PlanIsSendable(role, s.recent, modes);
    if snapshot.Some? {
      ReplayRejoins(ENTER_ALTERNATE + snapshot.value);
    }
    hide ReplayFrames, HistoryOf, Sendable;
  }

  lemma GreetedIsUnregistered(c: Session, log: seq<Event>, registered: bool, typed: seq<seq<byte>>)
    requires Healthy(c, log, registered, typed) && (Fresh(c.handler) || c.handler == Replaying)
    ensures !registered
  {
  }

  lemma AttachSendStep(s: State, id: nat)
    requires Enabled(s, AttachSend(id)) && Inv(s)
    ensures Inv(Apply(s, AttachSend(id)))
  {
    hide Healthy, AuthorityOk, FirstOk, AcksNumbered, HistoryOf, TypedBy, LastN, Events, Admits, Send;
    var c := s.sessions[id];
    GreetedIsUnregistered(c, s.log, id in s.registered, TypedBy(s.typed, id));
    AttachSendKeeps(c, s.log, TypedBy(s.typed, id));
    PutKeeps(s, id, DoAttachSend(s, id).sessions[id]);
  }

  lemma AttachEndStep(s: State, id: nat)
    requires Enabled(s, AttachEnd(id)) && Inv(s)
    ensures Inv(Apply(s, AttachEnd(id)))
  {
    hide Healthy, SharedOk, AuthorityOk, FirstOk, TypedBy;
    ReplayingHoldsLock(s, id);
    var c := s.sessions[id];
    GreetedIsUnregistered(c, s.log, id in s.registered, TypedBy(s.typed, id));
    AttachEndKeeps(c, s.log, TypedBy(s.typed, id));
    AttachEndInPlace(s, id);
  }

  lemma ReplayingHoldsLock(s: State, id: nat)
    requires SharedOk(s) && s.lock == Some(id)
    ensures id in s.sessions && s.sessions[id].handler == Replaying
  {
  }

  /** Releasing the lock, and clients that are no longer replaying, are consistent with each other. */
  lemma AttachEndInPlace(s: State, id: nat)
    requires id in s.sessions && s.lock == Some(id) && SharedOk(s) && AuthorityOk(s) && FirstOk(s)
    ensures var t := Put(s.(lock := None, registered := s.registered + {id}), id, s.sessions[id].(handler := Reading));
            SharedOk(t) && AuthorityOk(t) && FirstOk(t)
  {
    hide AuthorityOk, FirstOk, AcksNumbered, HistoryOf, LastN;
    var t := Put(s.(lock := None, registered := s.registered + {id}), id, s.sessions[id].(handler := Reading));
    AuthorityKeeps(s, t);
    FirstKeeps(s, t);
  }

  lemma NotedKeeps(s: State, id: nat, h: Handler)
    requires id in s.sessions && s.sessions[id].handler == Reading && s.sessions[id].handled < |s.sessions[id].outbox|
    requires Inv(s)
    requires var c := s.sessions[id];
             var m := c.outbox[c.handled];
             && (m == Ping ==> c.queue.closed)
             && if m.Input? && MayType(s, id) then h == Typing(m.payload)
                else h == Reading || h == Leaving || h == Finished || (h.Resizing? && MayType(s, id))
    ensures Inv(Put(s, id, Noted(s, id).(handler := h)))
    ensures Noted(s, id).handler == Reading
  {
    hide Healthy, SharedOk, AuthorityOk, FirstOk, TypedBy, Pongs, Pings;
    WriterHasRole(s, id);
    HandledKeeps(s.sessions[id], s.log, id in s.registered, TypedBy(s.typed, id), MayType(s, id), h);
    PutKeeps(s, id, Noted(s, id).(handler := h));
  }

  lemma WriterHasRole(s: State, id: nat)
    requires AuthorityOk(s) && SharedOk(s) && id in s.sessions
    ensures s.writerId == id ==> s.sessions[id].role == Writer
  {
  }

  lemma AnswerStep(s: State, id: nat)
    requires id in s.sessions && s.sessions[id].handler == Reading && s.sessions[id].handled < |s.sessions[id].outbox|
    requires s.sessions[id].outbox[s.sessions[id].handled] == Ping
    requires Inv(s)
    ensures Inv(Answer(s, id, Noted(s, id)))
  {
    hide Healthy, SharedOk, AuthorityOk, FirstOk, TypedBy, Admits, Unlink, Send, Events, Noted, MayType;
    var noted, typed := Noted(s, id), TypedBy(s.typed, id);
    NotedQueue(s, id);
    if id !in s.registered {
      UnregisteredIsClosed(s.sessions[id], s.log, false, typed);
      NotedKeeps(s, id, Reading);
      assert noted.(handler := Reading) == noted;
    } else if Admits(s.sessions[id].queue, PONG_FRAME) {
      WriterHasRole(s, id);
      NotedPong(s, id, typed);
      PutKeeps(s, id, Offer(noted, PONG_FRAME));
    } else {
      UnlinkKeeps(s, id);
      NotedAfterUnlink(s, id);
      NotedKeeps(Unlink(s, id), id, Leaving);
    }
  }

  lemma UnregisteredIsClosed(c: Session, log: seq<Event>, registered: bool, typed: seq<seq<byte>>)
    requires Healthy(c, log, registered, typed) && c.handler == Reading
    ensures !registered ==> c.queue.closed
  {
  }

  lemma NotedPong(s: State, id: nat, typed: seq<seq<byte>>)
    requires id in s.sessions && s.sessions[id].handler == Reading && s.sessions[id].handled < |s.sessions[id].outbox|
    requires s.sessions[id].outbox[s.sessions[id].handled] == Ping && Admits(s.sessions[id].queue, PONG_FRAME)
    requires Healthy(s.sessions[id], s.log, true, typed) && (s.writerId == id ==> s.sessions[id].role == Writer)
    ensures Healthy(Offer(Noted(s, id), PONG_FRAME), s.log, true, typed)
  {
    hide Healthy, Admits, Send, Events;
    Ponged(s.sessions[id], s.log, typed, MayType(s, id));
  }

  /** Refusing a Pong: removing the sender and noting the message can be taken in either order. */
  lemma NotedAfterUnlink(s: State, id: nat)
    requires id in s.sessions && id in s.registered
    ensures var t := Unlink(s, id);
            && id in t.sessions && t.sessions[id].queue.closed && t.sessions[id].outbox == s.sessions[id].outbox
            && t.sessions[id].handled == s.sessions[id].handled && t.sessions[id].handler == s.sessions[id].handler
            && Put(t, id, Noted(t, id).(handler := Leaving)) ==
               Unlink(Put(s, id, Noted(s, id).(handler := Leaving)), id)
  {
    var t := Unlink(s, id);
    var a := Put(t, id, Noted(t, id).(handler := Leaving));
    var b := Unlink(Put(s, id, Noted(s, id).(handler := Leaving)), id);
    assert a.sessions == b.sessions;
  }

  lemma NotedQueue(s: State, id: nat)
    requires id in s.sessions
    ensures Noted(s, id).queue == s.sessions[id].queue && KeepsPlace(s.sessions[id], Offer(Noted(s, id), PONG_FRAME))
    ensures Noted(s, id).handler == s.sessions[id].handler
  {
  }

  lemma HandleKeeps(s: State, id: nat)
    requires Enabled(s, Handle(id)) && Inv(s)
    ensures Inv(Apply(s, Handle(id)))
  {
    hide Inv, Healthy, TypedBy, Answer, MayType, Noted, Pongs, Pings, Put;
    var c, noted := s.sessions[id], Noted(s, id);
    match c.outbox[c.handled]
    case Ping => AnswerStep(s, id);
    case Shutdown =>
      NotedKeeps(s, id, Finished);
      StopKeeps(Put(s, id, noted.(handler := Finished)));
      PutStops(s, id, noted.(handler := Finished));
      NotedKeeps(s, id, Reading);
      assert noted.(handler := Reading) == noted;
    case _ => NotedKeeps(s, id, Acting(c.outbox[c.handled], MayType(s, id)));
  }

  lemma PutStops(s: State, id: nat, c: Session)
    ensures Put(s.(running := false), id, c) == Put(s, id, c).(running := false)
  {
  }

  lemma StopKeeps(s: State)
    requires Inv(s)
    ensures Inv(s.(running := false))
  {
    hide Healthy, AcksNumbered, HistoryOf, TypedBy, LastN;
  }

  lemma HandlerKeeps(s: State, a: Action)
    requires Inv(s) && Enabled(s, a)
    requires a.ClientSends? || a.HandlerLeaves?
    ensures Inv(Apply(s, a))
  {
    hide Healthy, SharedOk, AuthorityOk, FirstOk, TypedBy;
    var id := a.id;
    var c, registered, typed := s.sessions[id], id in s.registered, TypedBy(s.typed, id);
    match a {
      case ClientSends(_, msg) =>
        SendsKeeps(c, s.log, registered, typed, msg);
        PutKeeps(s, id, c.(outbox := c.outbox + [msg]));
      case HandlerLeaves(_) =>
        HandlerMoves(c, s.log, registered, typed, Leaving);
        PutKeeps(s, id, c.(handler := Leaving));
    }
  }

  lemma HandlerUnlinksKeeps(s: State, id: nat)
    requires Inv(s) && Enabled(s, HandlerUnlinks(id))
    ensures Inv(Apply(s, HandlerUnlinks(id)))
  {
    hide Healthy, SharedOk, AuthorityOk, FirstOk, TypedBy, Unlink;
    UnlinkKeeps(s, id);
    var t := Unlink(s, id);
    HandlerMoves(t.sessions[id], t.log, false, TypedBy(s.typed, id), Unlinked);
    PutKeeps(t, id, t.sessions[id].(handler := Unlinked));
  }

  lemma HandlerRestoresKeeps(s: State, id: nat)
    requires Inv(s) && Enabled(s, HandlerRestores(id))
    ensures Inv(Apply(s, HandlerRestores(id)))
  {
    hide Healthy, SharedOk, AuthorityOk, FirstOk, TypedBy, Restore;
    RestoreKeeps(s, id);
    RestoreOnlyWriter(s, id);
    HandlerMoves(s.sessions[id], s.log, id in s.registered, TypedBy(s.typed, id), Finished);
    PutKeeps(Restore(s, id), id, s.sessions[id].(handler := Finished));
  }

  lemma RestoreOnlyWriter(s: State, id: nat)
    requires id in s.sessions
    ensures Restore(s, id) == s.(writerId := Restore(s, id).writerId)
  {
  }

  lemma TypeInputKeeps(s: State, id: nat)
    requires Enabled(s, TypeInput(id)) && Inv(s)
    ensures Inv(Apply(s, TypeInput(id)))
  {
    hide Healthy, SharedOk, AuthorityOk, FirstOk, TypedBy;
    var c := s.sessions[id];
    var payload := c.handler.payload;
    var t := Apply(s, TypeInput(id));
    TypesKeeps(c, s.log, id in s.registered, TypedBy(s.typed, id));
    TyperIsWriter(c, s.log, id in s.registered, TypedBy(s.typed, id));
    forall k | k in t.sessions
      ensures Healthy(t.sessions[k], t.log, k in t.registered, TypedBy(t.typed, k))
    {
      TypedBySnoc(s.typed, id, payload, k);
      assert k != id ==> TypedBy(s.typed, k) + [] == TypedBy(s.typed, k);
    }
    TypeInputInPlace(s, id, payload);
  }

  lemma DropInputKeeps(s: State, id: nat)
    requires Enabled(s, DropInput(id)) && Inv(s)
    ensures Inv(Apply(s, DropInput(id)))
  {
    hide Healthy, SharedOk, AuthorityOk, FirstOk, TypedBy;
    DropsKeeps(s.sessions[id], s.log, id in s.registered, TypedBy(s.typed, id));
    PutKeeps(s, id, Dropping(s.sessions[id]));
  }

  lemma TypeInputInPlace(s: State, id: nat, payload: seq<byte>)
    requires SharedOk(s) && AuthorityOk(s) && FirstOk(s) && IsWriter(s, id)
    requires s.sessions[id].handler.Typing?
    ensures var t := Put(s.(typed := s.typed + [(id, payload)]), id, s.sessions[id].(handler := Reading));
            SharedOk(t) && AuthorityOk(t) && FirstOk(t)
  {
    hide SharedOk, AuthorityOk, FirstOk;
    PutInPlace(s, id, s.sessions[id].(handler := Reading));
    TypedInPlace(Put(s, id, s.sessions[id].(handler := Reading)), id, payload);
  }

  lemma TypedInPlace(s: State, id: nat, payload: seq<byte>)
    requires SharedOk(s) && AuthorityOk(s) && FirstOk(s) && IsWriter(s, id)
    ensures var t := s.(typed := s.typed + [(id, payload)]); SharedOk(t) && AuthorityOk(t) && FirstOk(t)
  {
    hide AcksNumbered, HistoryOf, LastN;
  }

  lemma TyperIsWriter(c: Session, log: seq<Event>, registered: bool, typed: seq<seq<byte>>)
    requires Healthy(c, log, registered, typed) && c.handler.Typing?
    ensures c.role == Writer
  {
  }

  lemma TakingInPlace(c: Session, now: bool)
    ensures KeepsPlace(c, Taking(c, now))
  {
  }

  lemma DrainKeeps(s: State, a: Action)
    requires Inv(s) && Enabled(s, a)
    requires a.DrainTakes? || a.DrainFails? || a.DrainShuts?
    ensures Inv(Apply(s, a))
  {
    hide Healthy, SharedOk, AuthorityOk, FirstOk, TypedBy, Due, Taking, Put, Unclaimed, IsFirst;
    var id := a.id;
    var c, registered, typed := s.sessions[id], id in s.registered, TypedBy(s.typed, id);
    match a {
      case DrainTakes(_, now) =>
        DrainTakesKeeps(c, s.log, registered, typed, now);
        TakingInPlace(c, now);
        PutKeeps(s, id, Taking(c, now));
      case DrainFails(_) =>
        DrainFailsKeeps(c, s.log, registered, typed);
        PutKeeps(s, id, c.(drain := Stopped));
      case DrainShuts(_) =>
        ClosedKeeps(c, s.log, registered, typed);
        PutKeeps(s, id, Closing(c).(drain := Shut));
    }
  }

  lemma WriteKeeps(s: State, id: nat, count: nat)
    requires Inv(s) && Enabled(s, DrainWrites(id, count))
    ensures Inv(Apply(s, DrainWrites(id, count)))
  {
    hide Healthy, SharedOk, AuthorityOk, FirstOk, TypedBy, Put, Unclaimed, IsFirst;
    var c := s.sessions[id];
    var rest := c.drain.rest[count..];
    DrainWritesKeeps(c, s.log, id in s.registered, TypedBy(s.typed, id), count);
    PutKeeps(s, id, c.(wire := c.wire + c.drain.rest[..count],
                       drain := if rest == [] then Draining else Writing(rest)));
  }

  lemma DrainUnlinksKeeps(s: State, id: nat)
    requires Inv(s) && Enabled(s, DrainUnlinks(id))
    ensures Inv(Apply(s, DrainUnlinks(id)))
  {
    hide Healthy, SharedOk, AuthorityOk, FirstOk, TypedBy, Unlink, Unclaimed, IsFirst;
    UnlinkKeeps(s, id);
    var t := Unlink(s, id);
    DrainFailsKeeps(t.sessions[id], t.log, false, TypedBy(s.typed, id));
    PutKeeps(t, id, t.sessions[id].(drain := Removed));
  }

  lemma DrainRestoresKeeps(s: State, id: nat)
    requires Inv(s) && Enabled(s, DrainRestores(id))
    ensures Inv(Apply(s, DrainRestores(id)))
  {
    hide Healthy, SharedOk, AuthorityOk, FirstOk, TypedBy, Restore, Unclaimed, IsFirst;
    RestoreKeeps(s, id);
    RestoreOnlyWriter(s, id);
    DrainFailsKeeps(s.sessions[id], s.log, id in s.registered, TypedBy(s.typed, id));
    PutKeeps(Restore(s, id), id, s.sessions[id].(drain := Ended));
  }

  lemma StepKeeps(s: State, a: Action)
    requires Inv(s) && Enabled(s, a)
    ensures Inv(Apply(s, a))
  {
    hide Inv;
    match a
    case Connect(role) => ConnectKeeps(s, role);
    case Spawn(id) => SpawnStep(s, id);
    case OpenPty(_) => OpenPtyStep(s);
    case Claim(id) => ClaimStep(s, id);
    case AttachFirst(id) => AttachFirstStep(s, id);
    case AttachBegin(id, snapshot, modes) => AttachBeginStep(s, id, snapshot, modes);
    case AttachSend(id) => AttachSendStep(s, id);
    case AttachEnd(id) => AttachEndStep(s, id);
    case Handle(id) => HandleKeeps(s, id);
    case TypeInput(id) => TypeInputKeeps(s, id);
    case DropInput(id) => DropInputKeeps(s, id);
    case CommitResize(id) => CommitResizeKeeps(s, id);
    case PtyRead(data) => PtyReadKeeps(s, data);
    case BroadcastExit(code) => BroadcastExitKeeps(s, code);
    case Stop => StopKeeps(s);
    case ClientSends(_, _) => HandlerKeeps(s, a);
    case HandlerLeaves(_) => HandlerKeeps(s, a);
    case HandlerUnlinks(id) => HandlerUnlinksKeeps(s, id);
    case HandlerRestores(id) => HandlerRestoresKeeps(s, id);
    case DrainTakes(_, _) => DrainKeeps(s, a);
    case DrainWrites(id, count) => WriteKeeps(s, id, count);
    case DrainFails(_) => DrainKeeps(s, a);
    case DrainShuts(_) => DrainKeeps(s, a);
    case DrainUnlinks(id) => DrainUnlinksKeeps(s, id);
    case DrainRestores(id) => DrainRestoresKeeps(s, id);
  }

  /** The invariant holds after every run, whatever the interleaving. */
  lemma {:induction false} EveryRunKeeps(run: seq<Action>)
    requires After(run).Some?
    ensures Inv(After(run).value)
    decreases |run|
  {
    if run != [] {
      EveryRunKeeps(run[..|run| - 1]);
      hide Inv, Enabled, Apply;
      StepKeeps(After(run[..|run| - 1]).value, run[|run| - 1]);
    }
  }

  lemma ReachableKeeps(s: State)
    requires Reachable(s)
    ensures Inv(s)
  {
    var run :| After(run) == Some(s);
    EveryRunKeeps(run);
  }
}
