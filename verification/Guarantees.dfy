/** Ordering, shutdown, authority and synchronisation guarantees of the broker. */
module Guarantees {
  import opened Bytes
  import opened Wire
  import opened Queueing
  import opened Broker
  import opened BrokerInvariant
  import opened BrokerSteps
  import opened Delivery

  // ----- one order for everybody -----

  lemma {:induction false} ControlIsNumbered(log: seq<Event>, i: nat)
    requires i < |log| && log[i].Control?
    ensures |Controls(log[..i])| < |Controls(log)| && Controls(log)[|Controls(log[..i])|] == log[i].frame
  {
    hide Controls;
    assert log == log[..i] + ([log[i]] + log[i + 1..]);
    ControlsAppend(log[..i], [log[i]] + log[i + 1..]);
    ControlsAppend([log[i]], log[i + 1..]);
    OneControl(log[i]);
  }

  lemma OneControl(e: Event)
    requires e.Control?
    ensures Controls([e]) == [e.frame]
  {
    assert [e][1..] == [];
  }

  lemma {:induction false} FewerControls(log: seq<Event>, i: nat, j: nat)
    requires i < j <= |log| && log[i].Control?
    ensures |Controls(log[..i])| < |Controls(log[..j])|
  {
    ControlIsNumbered(log[..j], i);
    assert log[..j][..i] == log[..i];
  }

  /** A generation number names one position of the global log. */
  lemma GenerationsAreUnique(log: seq<Event>, gen: nat, i: nat, j: nat)
    requires AcksNumbered(log, gen) && i < |log| && j < |log| && log[i].Control? && log[j].Control?
    requires exists n :: IsAck(log[i].frame, n) && IsAck(log[j].frame, n)
    ensures i == j
  {
    ControlIsNumbered(log, i);
    ControlIsNumbered(log, j);
    if i < j {
      FewerControls(log, i, j);
    } else if j < i {
      FewerControls(log, j, i);
    }
  }

  /** Where in the global log an event of a client's shared stream comes from. */
  lemma LogIndex(s: State, id: nat, p: nat) returns (i: nat)
    requires Inv(s) && id in s.sessions
    requires p < |Shared(s.sessions[id].stream)| && Shared(s.sessions[id].stream)[p].Control?
    ensures var c := s.sessions[id];
            && i < |s.log| && s.log[i] == Shared(c.stream)[p]
            && |c.replay| <= p && i == c.from + p - |c.replay|
            && HistAt(s, i) == HistAt(s, c.from) + |HistoryOf(Shared(c.stream)[|c.replay|..p])|
  {
    hide SharedOk, AuthorityOk, FirstOk, TransitOk, WireOk, QueueOk, ReplayOk, PlanOk, InputOk, PongOk, WholeOk,
         ExitOk, PhaseOk,
         Shared, HistoryOf;
    var c := s.sessions[id];
    var live := s.log[c.from..c.upto];
    assert Shared(c.stream) == c.replay + live;
    assert forall k :: 0 <= k < |c.replay| ==> Shared(c.stream)[k] == c.replay[k];
    i := c.from + p - |c.replay|;
    assert |c.replay| <= p;
    assert Shared(c.stream)[|c.replay|..p] == live[..p - |c.replay|] == s.log[c.from..i];
    assert s.log[..i] == s.log[..c.from] + s.log[c.from..i];
    HistoryAppend(s.log[..c.from], s.log[c.from..i]);
  }

  /** The resize fence. If two clients see a ResizeAck of the same generation, it
      is the same frame, and it sits at the same offset of the PTY history for
      both, counted from the offset at which each attached. */
  lemma ResizeFence(s: State, a: nat, p: nat, b: nat, q: nat, gen: nat)
    requires Reachable(s) && a in s.sessions && b in s.sessions
    requires p < |Shared(s.sessions[a].stream)| && q < |Shared(s.sessions[b].stream)|
    requires var e, f := Shared(s.sessions[a].stream)[p], Shared(s.sessions[b].stream)[q];
             e.Control? && f.Control? && IsAck(e.frame, gen) && IsAck(f.frame, gen)
    ensures var c, d := s.sessions[a], s.sessions[b];
            && |c.replay| <= p && |d.replay| <= q
            && Shared(c.stream)[p] == Shared(d.stream)[q]
            && HistAt(s, c.from) + |HistoryOf(Shared(c.stream)[|c.replay|..p])|
               == HistAt(s, d.from) + |HistoryOf(Shared(d.stream)[|d.replay|..q])|
  {
    hide Healthy, AuthorityOk, FirstOk, Reachable, Shared, HistoryOf, IsAck, HistAt;
    ReachableKeeps(s);
    var i := LogIndex(s, a, p);
    var j := LogIndex(s, b, q);
    GenerationsAreUnique(s.log, s.gen, i, j);
  }

  /** In every client's stream the ResizeAck generations go up by exactly one. */
  lemma GenerationsGoUpByOne(s: State, id: nat) returns (first: nat)
    requires Reachable(s) && id in s.sessions
    ensures var acks := Controls(Shared(s.sessions[id].stream));
            forall k :: 0 <= k < |acks| ==> IsAck(acks[k], first + k)
  {
    hide Healthy, AuthorityOk, FirstOk, Reachable, Shared, Controls, IsAck, HistoryOf, TypedBy, LastN;
    ReachableKeeps(s);
    var c := s.sessions[id];
    ReplayThenLog(c, s.log, id in s.registered, TypedBy(s.typed, id));
    ReplayHasNoControls(c, s.log, id in s.registered, TypedBy(s.typed, id));
    ControlsAppend(c.replay, s.log[c.from..c.upto]);
    first := |Controls(s.log[..c.from])| + 1;
    SegmentNumbered(s.log, s.gen, c.from, c.upto);
    assert Controls(Shared(c.stream)) == Controls(s.log[c.from..c.upto]);
  }

  lemma SegmentNumbered(log: seq<Event>, gen: nat, from: nat, upto: nat)
    requires AcksNumbered(log, gen) && from <= upto <= |log|
    ensures var acks := Controls(log[from..upto]);
            forall k :: 0 <= k < |acks| ==> IsAck(acks[k], |Controls(log[..from])| + 1 + k)
  {
    hide Controls, IsAck;
    var before, live, after := log[..from], log[from..upto], log[upto..];
    assert log == before + (live + after);
    ControlsAppend(before, live + after);
    ControlsAppend(live, after);
    var acks := Controls(live);
    forall k | 0 <= k < |acks|
      ensures IsAck(acks[k], |Controls(before)| + 1 + k)
    {
      assert Controls(log)[|Controls(before)| + k] == acks[k];
    }
  }

  lemma {:induction false} BytesHaveNoControls(es: seq<Event>)
    requires AllBytes(es)
    ensures Controls(es) == []
  {
    if es != [] {
      BytesHaveNoControls(es[1..]);
    }
  }

  lemma ReplayHasNoControls(c: Session, log: seq<Event>, registered: bool, typed: seq<seq<byte>>)
    requires Healthy(c, log, registered, typed)
    ensures Controls(c.replay) == []
  {
    BytesHaveNoControls(c.replay);
  }

  // ----- bounded memory -----

  /** Every queue stays within its budget in every reachable state. */
  lemma QueuesAreBounded(s: State, id: nat)
    requires Reachable(s) && id in s.sessions
    ensures var q := s.sessions[id].queue;
            && Size(q.frames) <= CLIENT_QUEUE_BYTES + CONTROL_SLACK + (if q.exitQueued then EXIT_FRAME_BYTES else 0)
            && Tidy(q.frames)
  {
    ReachableKeeps(s);
    HealthyIsOk(s.sessions[id], s.log, id in s.registered, TypedBy(s.typed, id));
  }

  /** Who a broadcast drops: a registered client keeps its place exactly if its queue is
      open and has room for the frame, in bytes; ResizeAcks have 64 KiB more of it. */
  lemma DroppedIffFull(s: State, f: Frame, id: nat)
    requires Reachable(s) && id in s.registered && id in s.sessions
    requires Sendable(f) && (f.kind == OUTPUT || f.kind == RESIZE_ACK)
    ensures var q := s.sessions[id].queue;
            id in Broadcast(s, f).registered <==>
            !q.closed && Size(q.frames) + Cost(q.frames, f) <= 16_777_216 + if f.kind == RESIZE_ACK then 65_536 else 0
  {
    ReachableKeeps(s);
    HealthyIsOk(s.sessions[id], s.log, true, TypedBy(s.typed, id));
    hide Inv, Reachable, Ok, Size, Cost, Send, Events, Admits, Sendable;
    AdmittedIff(s.sessions[id].queue, f);
    BroadcastSession(s, f, id);
  }

  lemma HealthyIsOk(c: Session, log: seq<Event>, registered: bool, typed: seq<seq<byte>>)
    requires Healthy(c, log, registered, typed)
    ensures Ok(c.queue)
  {
  }

  // ----- Exit -----

  /** A take that finds the deadline passed sweeps the queue: it takes Exit, leaves
      nothing, and cuts something exactly if anything else was waiting. */
  lemma LateTakeIsExit(s: State, id: nat)
    requires Reachable(s) && id in s.sessions && s.sessions[id].deadline && s.sessions[id].queue.frames != []
    requires s.sessions[id].drain == Draining
    ensures Enabled(s, DrainTakes(id, true))
    ensures var c, t := s.sessions[id], Apply(s, DrainTakes(id, true));
            var exit := c.queue.frames[|c.queue.frames| - 1];
            && exit.kind == 10 && id in t.sessions && !c.lost
            && t.sessions[id].dequeued == c.dequeued + [exit] && t.sessions[id].queue.frames == []
            && t.sessions[id].drain == Writing(Encode(exit))
            && (t.sessions[id].lost <==> |c.queue.frames| > 1)
  {
    hide Inv, Reachable, Enabled, Apply, Healthy, Encode, OnlyExit;
    ReachableKeeps(s);
    HealthyOf(s, id);
    LateIsExit(s.sessions[id], s.log, id in s.registered, TypedBy(s.typed, id));
    LastIsExit(s.sessions[id], s.log, id in s.registered, TypedBy(s.typed, id));
    LateStep(s, id);
  }

  lemma LateStep(s: State, id: nat)
    requires id in s.sessions && s.sessions[id].deadline && s.sessions[id].queue.frames != []
    requires s.sessions[id].drain == Draining && !s.sessions[id].lost
    requires OnlyExit(s.sessions[id].queue.frames) == [s.sessions[id].queue.frames[|s.sessions[id].queue.frames| - 1]]
    ensures Enabled(s, DrainTakes(id, true))
    ensures var c, t := s.sessions[id], Apply(s, DrainTakes(id, true));
            var exit := c.queue.frames[|c.queue.frames| - 1];
            && id in t.sessions && t.sessions[id].dequeued == c.dequeued + [exit] && t.sessions[id].queue.frames == []
            && t.sessions[id].drain == Writing(Encode(exit))
            && (t.sessions[id].lost <==> |c.queue.frames| > 1)
  {
    hide Encode, Flat, OnlyExit;
  }

  lemma LastIsExit(c: Session, log: seq<Event>, registered: bool, typed: seq<seq<byte>>)
    requires Healthy(c, log, registered, typed) && c.drain == Draining && c.deadline && c.queue.frames != []
    ensures c.queue.frames[|c.queue.frames| - 1].kind == 10
  {
    hide StreamOk, TransitOk, WireOk, ReplayOk, PlanOk, InputOk, PongOk, WholeOk, ExitOk, PhaseOk, Ok;
  }

  /** What no step but the Exit broadcast changes. */
  ghost predicate SameRecord(s: State, t: State, id: nat) {
    && id in s.sessions && id in t.sessions && t.exitSent == s.exitSent
    && t.sessions[id].exitMark == s.sessions[id].exitMark
  }

  ghost predicate SameLog(s: State, t: State) {
    t.log == s.log && t.gen == s.gen
  }

  lemma BroadcastRecord(s: State, f: Frame, id: nat)
    requires id in s.sessions
    ensures SameRecord(s, Broadcast(s, f), id)
  {
    hide Events, Admits, Send;
  }

  lemma UnlinkRecord(s: State, who: nat, id: nat)
    requires id in s.sessions && who in s.sessions
    ensures SameRecord(s, Unlink(s, who), id) && who in Unlink(s, who).sessions
    ensures SameRecord(s, Restore(s, who), id)
    ensures SameLog(s, Unlink(s, who)) && SameLog(s, Restore(s, who))
  {
  }

  lemma OfferRecord(c: Session, f: Frame, now: bool)
    ensures Offer(c, f).exitMark == c.exitMark && Taking(c, now).exitMark == c.exitMark
  {
  }

  lemma DrainRecord(s: State, a: Action, id: nat)
    requires Enabled(s, a) && id in s.sessions
    requires ByDrain(a)
    ensures SameRecord(s, Apply(s, a), id) && SameLog(s, Apply(s, a))
  {
    hide Enabled, Apply, SameRecord, SameLog;
    if a.DrainUnlinks? || a.DrainRestores? {
      DrainEndRecord(s, a, id);
    } else {
      DrainMoveRecord(s, a, id);
    }
  }

  lemma DrainMoveRecord(s: State, a: Action, id: nat)
    requires Enabled(s, a) && id in s.sessions
    requires a.DrainTakes? || a.DrainWrites? || a.DrainFails? || a.DrainShuts?
    ensures SameRecord(s, Apply(s, a), id) && SameLog(s, Apply(s, a))
  {
    hide Taking, Due;
    OfferRecord(s.sessions[a.id], PONG_FRAME, if a.DrainTakes? then a.now else false);
  }

  lemma DrainEndRecord(s: State, a: Action, id: nat)
    requires Enabled(s, a) && id in s.sessions
    requires a.DrainUnlinks? || a.DrainRestores?
    ensures SameRecord(s, Apply(s, a), id) && SameLog(s, Apply(s, a))
  {
    hide Unlink, Restore, Put, SameRecord;
    UnlinkRecord(s, a.id, id);
    if a.DrainUnlinks? {
      var t := Unlink(s, a.id);
      UnlinkRecord(s, a.id, a.id);
      PutSameRecord(s, t, a.id, t.sessions[a.id].(drain := Removed), id);
    } else {
      RestoredSessions(s, a.id);
      PutSameRecord(s, Restore(s, a.id), a.id, s.sessions[a.id].(drain := Ended), id);
    }
  }

  lemma RestoredSessions(s: State, who: nat)
    requires who in s.sessions
    ensures Restore(s, who).sessions == s.sessions
  {
  }

  /** ... and then a change of the drain thread's place. */
  lemma PutSameRecord(s: State, t: State, who: nat, c: Session, id: nat)
    requires SameRecord(s, t, id) && SameLog(s, t) && who in t.sessions && c == t.sessions[who].(drain := c.drain)
    ensures SameRecord(s, Put(t, who, c), id) && SameLog(s, Put(t, who, c))
  {
  }

  lemma HandlerRecord(s: State, a: Action, id: nat)
    requires Enabled(s, a) && id in s.sessions
    requires a.ClientSends? || a.TypeInput? || a.HandlerLeaves? || a.HandlerUnlinks? || a.HandlerRestores? || a.Stop?
    ensures SameRecord(s, Apply(s, a), id) && SameLog(s, Apply(s, a))
  {
    hide Enabled, Apply, SameRecord, SameLog;
    if a.HandlerUnlinks? || a.HandlerRestores? {
      HandlerEndRecord(s, a, id);
    } else {
      HandlerMoveRecord(s, a, id);
    }
  }

  lemma HandlerMoveRecord(s: State, a: Action, id: nat)
    requires Enabled(s, a) && id in s.sessions
    requires a.ClientSends? || a.TypeInput? || a.HandlerLeaves? || a.Stop?
    ensures SameRecord(s, Apply(s, a), id) && SameLog(s, Apply(s, a))
  {
  }

  lemma HandlerEndRecord(s: State, a: Action, id: nat)
    requires Enabled(s, a) && id in s.sessions
    requires a.HandlerUnlinks? || a.HandlerRestores?
    ensures SameRecord(s, Apply(s, a), id) && SameLog(s, Apply(s, a))
  {
    hide Unlink, Restore;
    UnlinkRecord(s, a.id, id);
    UnlinkRecord(s, a.id, a.id);
  }

  lemma AttachRecord(s: State, a: Action, id: nat)
    requires Enabled(s, a) && id in s.sessions && id < s.nextId
    requires OnArrival(a)
    ensures SameRecord(s, Apply(s, a), id) && SameLog(s, Apply(s, a))
  {
    hide Offer, Admits, Events, HistoryPlan, ReplayFrames;
    if a.AttachSend? {
      OfferRecord(s.sessions[a.id], s.sessions[a.id].toReplay[0], false);
    }
  }

  lemma StepRecord(s: State, a: Action, id: nat)
    requires Enabled(s, a) && id in s.sessions && id < s.nextId && !a.BroadcastExit?
    ensures SameRecord(s, Apply(s, a), id)
  {
    if a.PtyRead? {
      hide Broadcast, LastN;
      BroadcastRecord(s.(recent := LastN(RING_CAPACITY, s.recent + a.data)), Frame(OUTPUT, a.data), id);
    } else if a.CommitResize? {
      ResizeRecord(s, a.id, id);
    } else {
      hide Enabled, Apply, SameRecord;
      if ByDrain(a) {
        DrainRecord(s, a, id);
      } else if OnArrival(a) {
        AttachRecord(s, a, id);
      } else if a.Handle? {
        HandleRecord(s, a.id, id);
      } else if a.DropInput? {
        DropRecord(s, a.id, id);
      } else {
        HandlerRecord(s, a, id);
      }
    }
  }

  lemma ResizeRecord(s: State, who: nat, id: nat)
    requires Enabled(s, CommitResize(who)) && id in s.sessions
    ensures SameRecord(s, Apply(s, CommitResize(who)), id)
  {
    hide Broadcast, EncodeResizeAck;
    var h := s.sessions[who].handler;
    var t := Put(s.(gen := s.gen + 1), who, s.sessions[who].(handler := Reading));
    BroadcastRecord(t, ResizeAckFrame(s.gen + 1, h.cols, h.rows), id);
  }

  lemma HandleRecord(s: State, who: nat, id: nat)
    requires Enabled(s, Handle(who)) && id in s.sessions
    ensures SameRecord(s, Apply(s, Handle(who)), id)
  {
    hide Answer, MayType, Acting, Put;
    var c, noted := s.sessions[who], Noted(s, who);
    AnswerRecord(s, who, noted, id);
    PutRecord(s, who, noted, id);
    PutRecord(s.(running := false), who, noted.(handler := Finished), id);
    PutRecord(s, who, noted.(handler := Acting(c.outbox[c.handled], MayType(s, who))), id);
  }

  lemma AnswerRecord(s: State, who: nat, c: Session, id: nat)
    requires id in s.sessions && who in s.sessions && c.exitMark == s.sessions[who].exitMark
    ensures SameRecord(s, Answer(s, who, c), id)
  {
    hide Offer, Admits, Unlink, Put;
    OfferRecord(c, PONG_FRAME, false);
    PutRecord(s, who, c, id);
    PutRecord(s, who, Offer(c, PONG_FRAME), id);
    PutRecord(s, who, c.(handler := Leaving), id);
    UnlinkRecord(Put(s, who, c.(handler := Leaving)), who, id);
  }

  lemma PutRecord(s: State, who: nat, c: Session, id: nat)
    requires id in s.sessions && who in s.sessions
    ensures var t := Put(s, who, c);
            && id in t.sessions && who in t.sessions && t.exitSent == s.exitSent
            && t.sessions[id] == if who == id then c else s.sessions[id]
  {
  }

  lemma DropRecord(s: State, who: nat, id: nat)
    requires Enabled(s, DropInput(who)) && id in s.sessions
    ensures SameRecord(s, Apply(s, DropInput(who)), id) && SameLog(s, Apply(s, DropInput(who)))
  {
  }

  lemma DropEnabled(s: State, id: nat)
    requires Enabled(s, DropInput(id))
    ensures id in s.sessions && s.sessions[id].handler.Typing? && !s.ptyOpen
  {
  }

  lemma MarkStays(s: State, a: Action, id: nat)
    requires Enabled(s, a) && id in s.sessions && s.exitSent && id < s.nextId
    ensures var t := Apply(s, a);
            t.exitSent && id in t.sessions && t.sessions[id].exitMark == s.sessions[id].exitMark
  {
    assert !a.BroadcastExit?;
    hide Enabled, Apply;
    StepRecord(s, a, id);
  }

  /** The Exit broadcast. Whatever happens after it, for every client that was
      registered and whose queue was open: Exit was queued whatever the load; the
      frames taken since are pending ones in order, then Exit once; Exit is then
      the end of the queue; and something pending is skipped if and only if the
      deadline has cut it, which is what `lost` records. */
  lemma ExitIsLastAndCertain(run: seq<Action>, code: seq<byte>, later: seq<Action>, id: nat)
    requires After(run).Some? && After(run + [BroadcastExit(code)] + later).Some?
    requires var s := After(run).value;
             id in s.registered && id in s.sessions && !s.sessions[id].queue.closed
    ensures var before := After(run).value.sessions[id];
            var t := After(run + [BroadcastExit(code)] + later).value;
            && id in t.sessions
            && t.sessions[id].exitMark ==
               Some(ExitMark(before.queue.frames, |before.dequeued|, Frame(EXIT, code), |After(run).value.log|))
            && t.sessions[id].upto == |After(run).value.log|
            && ExitOk(t.sessions[id].exitMark, t.sessions[id].dequeued, t.sessions[id].queue, t.sessions[id].lost)
  {
    var whole := run + [BroadcastExit(code)] + later;
    EveryRunKeeps(whole);
    MarkOfExit(run, code, later, id);
    HealthyIsExitOk(After(whole).value, id);
    MarkSaysUpto(After(whole).value, id);
  }

  lemma MarkSaysUpto(s: State, id: nat)
    requires Inv(s) && id in s.sessions
    ensures s.sessions[id].exitMark.Some? ==> s.sessions[id].upto == s.sessions[id].exitMark.value.at
  {
    hide StreamOk, TransitOk, WireOk, QueueOk, ReplayOk, PlanOk, InputOk, PongOk, WholeOk, ExitOk,
         SharedOk, AuthorityOk, FirstOk;
  }

  lemma HealthyIsExitOk(s: State, id: nat)
    requires Inv(s) && id in s.sessions
    ensures var c := s.sessions[id]; id < s.nextId && ExitOk(c.exitMark, c.dequeued, c.queue, c.lost)
  {
    hide StreamOk, TransitOk, WireOk, QueueOk, ReplayOk, PlanOk, InputOk, PongOk, WholeOk, ExitOk,
         AcksNumbered, LastN, HistoryOf,
         AuthorityOk, FirstOk;
  }

  lemma {:induction false} MarkOfExit(run: seq<Action>, code: seq<byte>, later: seq<Action>, id: nat)
    requires After(run).Some? && After(run + [BroadcastExit(code)] + later).Some?
    requires var s := After(run).value;
             id in s.registered && id in s.sessions && !s.sessions[id].queue.closed
    ensures var before := After(run).value.sessions[id];
            var t := After(run + [BroadcastExit(code)] + later).value;
            && id in t.sessions && t.exitSent
            && t.sessions[id].exitMark ==
               Some(ExitMark(before.queue.frames, |before.dequeued|, Frame(EXIT, code), |After(run).value.log|))
    decreases |later|
  {
    hide Inv, Apply, Enabled;
    var whole := run + [BroadcastExit(code)] + later;
    if later == [] {
      assert whole == run + [BroadcastExit(code)];
      assert whole[..|whole| - 1] == run;
      EveryRunKeeps(run);
      MarkAtExit(After(run).value, code, id);
    } else {
      var shorter := later[..|later| - 1];
      assert whole[..|whole| - 1] == run + [BroadcastExit(code)] + shorter;
      MarkOfExit(run, code, shorter, id);
      var s := After(whole[..|whole| - 1]).value;
      EveryRunKeeps(whole[..|whole| - 1]);
      HealthyIsExitOk(s, id);
      MarkStays(s, whole[|whole| - 1], id);
    }
  }

  lemma MarkAtExit(s: State, code: seq<byte>, id: nat)
    requires Inv(s) && Enabled(s, BroadcastExit(code)) && id in s.registered && id in s.sessions
    requires !s.sessions[id].queue.closed
    ensures var c, t := s.sessions[id], Apply(s, BroadcastExit(code));
            && id in t.sessions && t.exitSent
            && t.sessions[id].exitMark == Some(ExitMark(c.queue.frames, |c.dequeued|, Frame(EXIT, code), |s.log|))
  {
    hide StreamOk, TransitOk, WireOk, QueueOk, ReplayOk, PlanOk, InputOk, PongOk, WholeOk, ExitOk,
         AcksNumbered, LastN, HistoryOf,
         AuthorityOk, FirstOk, SharedOk;
    OpenIsWhole(s.sessions[id], s.log, true, TypedBy(s.typed, id));
  }

  // ----- the log is the record of the run -----

  /** Everything the run read from the PTY. */
  function ReadBy(run: seq<Action>): seq<byte> {
    if run == [] then []
    else ReadBy(run[..|run| - 1]) + if run[|run| - 1].PtyRead? then run[|run| - 1].data else []
  }

  function ResizesIn(run: seq<Action>): nat {
    if run == [] then 0
    else ResizesIn(run[..|run| - 1]) + if run[|run| - 1].CommitResize? then 1 else 0
  }

  lemma AnswerLog(s: State, who: nat, c: Session)
    requires who in s.sessions
    ensures SameLog(s, Answer(s, who, c))
  {
    hide Offer, Admits, Unlink;
    UnlinkRecord(Put(s, who, c.(handler := Leaving)), who, who);
  }

  lemma HandleLog(s: State, who: nat)
    requires Enabled(s, Handle(who))
    ensures SameLog(s, Apply(s, Handle(who)))
  {
    hide Answer, Acting, Noted;
    AnswerLog(s, who, Noted(s, who));
  }

  lemma ReadLog(s: State, data: seq<byte>)
    requires Enabled(s, PtyRead(data))
    ensures var t := Apply(s, PtyRead(data)); t.log == s.log + OutputEvents(data) && t.gen == s.gen
  {
    hide Admits, Send, LastN;
  }

  lemma ResizeLog(s: State, who: nat)
    requires Enabled(s, CommitResize(who))
    ensures var t := Apply(s, CommitResize(who));
            var h := s.sessions[who].handler;
            t.log == s.log + Events(ResizeAckFrame(s.gen + 1, h.cols, h.rows)) && t.gen == s.gen + 1
  {
    hide Admits, Send, Events, EncodeResizeAck;
  }

  lemma StepLog(s: State, a: Action)
    requires Enabled(s, a) && Inv(s)
    ensures var t := Apply(s, a);
            && HistoryOf(t.log) == HistoryOf(s.log) + (if a.PtyRead? then a.data else [])
            && t.gen == s.gen + if a.CommitResize? then 1 else 0
  {
    hide Enabled, Apply, Inv, HistoryOf;
    assert HistoryOf(s.log) + [] == HistoryOf(s.log);
    match a {
      case PtyRead(data) =>
        ReadLog(s, data);
        OutputIsShared(data);
        HistoryAppend(s.log, OutputEvents(data));
      case CommitResize(who) =>
        ResizeEvents(s, who);
      case Handle(who) => HandleLog(s, who);
      case DropInput(who) => DropRecord(s, who, who) by { DropEnabled(s, who); }
      case BroadcastExit(code) => ExitLog(s, code);
      case _ => OtherLog(s, a);
    }
  }

  lemma ResizeEvents(s: State, who: nat)
    requires Enabled(s, CommitResize(who))
    ensures var t := Apply(s, CommitResize(who)); HistoryOf(t.log) == HistoryOf(s.log) && t.gen == s.gen + 1
  {
    hide Apply, HistoryOf, Events, EncodeResizeAck;
    var h := s.sessions[who].handler;
    var f := ResizeAckFrame(s.gen + 1, h.cols, h.rows);
    ResizeLog(s, who);
    EventsOf(f);
    HistoryAppend(s.log, Events(f));
  }

  lemma ExitLog(s: State, code: seq<byte>)
    requires Enabled(s, BroadcastExit(code))
    ensures SameLog(s, Apply(s, BroadcastExit(code)))
  {
    hide Exiting;
  }

  lemma OtherLog(s: State, a: Action)
    requires Enabled(s, a) && Inv(s)
    requires !a.PtyRead? && !a.CommitResize? && !a.Handle? && !a.DropInput? && !a.BroadcastExit?
    ensures SameLog(s, Apply(s, a))
  {
    hide Inv, SameRecord, SameLog;
    if s.sessions == map[] {
      EmptyLog(s, a);
    } else {
      var id :| id in s.sessions;
      HealthyIsExitOk(s, id);
      hide Enabled, Apply;
      if ByDrain(a) {
        DrainRecord(s, a, id);
      } else if OnArrival(a) {
        AttachRecord(s, a, id);
      } else {
        HandlerRecord(s, a, id);
      }
    }
  }

  /** With no client, only a connection or the stop flag can come. */
  lemma EmptyLog(s: State, a: Action)
    requires Enabled(s, a) && s.sessions == map[]
    requires !a.PtyRead? && !a.CommitResize? && !a.Handle? && !a.DropInput? && !a.BroadcastExit?
    ensures SameLog(s, Apply(s, a))
  {
    assert a.Connect? || a.Stop?;
  }

  /** The history that clients are given is exactly what the run read from the
      PTY, and there is one ResizeAck per resize committed, numbered in order. */
  lemma {:induction false} LogRecordsRun(run: seq<Action>)
    requires After(run).Some?
    ensures var s := After(run).value;
            && Hist(s) == ReadBy(run) && s.gen == ResizesIn(run)
            && AcksNumbered(s.log, s.gen)
    decreases |run|
  {
    hide Enabled, Apply, Inv, HistoryOf, AcksNumbered;
    EveryRunKeeps(run);
    InvAcks(After(run).value);
    if run == [] {
      NothingFlat();
    } else {
      var before := run[..|run| - 1];
      LogRecordsRun(before);
      EveryRunKeeps(before);
      StepLog(After(before).value, run[|run| - 1]);
    }
  }

  lemma InvAcks(s: State)
    requires Inv(s)
    ensures AcksNumbered(s.log, s.gen)
  {
  }

  // ----- one stream per client -----

  /** Total order. Everything accepted for a client, apart from its Pongs and
      Exit, is its own replay and then one contiguous segment of the global log;
      what was taken and what waits are that stream, unless the deadline cut it. */
  lemma OneOrderForAll(s: State, id: nat)
    requires Reachable(s) && id in s.sessions
    ensures var c := s.sessions[id];
            && AllBytes(c.replay) && c.from <= c.upto <= |s.log|
            && Shared(c.stream) == c.replay + s.log[c.from..c.upto]
            && (!c.lost ==> Flat(c.dequeued) + Flat(c.queue.frames) == c.stream)
            && (c.lost ==> c.kept < |c.stream| && c.queue.frames == [] &&
                           Flat(c.dequeued) == c.stream[..c.kept] + [c.stream[|c.stream| - 1]])
  {
    hide Healthy, SharedOk, AuthorityOk, FirstOk, Reachable, TypedBy;
    ReachableKeeps(s);
    StreamAndTransit(s.sessions[id], s.log, id in s.registered, TypedBy(s.typed, id));
  }

  lemma StreamAndTransit(c: Session, log: seq<Event>, registered: bool, typed: seq<seq<byte>>)
    requires Healthy(c, log, registered, typed)
    ensures StreamOk(log, c.from, c.upto, c.replay, c.stream)
    ensures TransitOk(c.stream, c.dequeued, c.queue.frames, c.kept, c.lost)
  {
  }
}
