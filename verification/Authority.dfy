/** Who may act on the PTY and on the broker: input, resize and shutdown over whole runs. */
module Authority {
  import opened Bytes
  import opened Wire
  import opened Queueing
  import opened Broker
  import opened BrokerInvariant
  import opened BrokerSteps
  import opened Locality
  import opened Guarantees

  // ----- which step moves which register -----

  ghost predicate SameRegisters(s: State, t: State) {
    && t.typed == s.typed && t.running == s.running && t.sessions.Keys == s.sessions.Keys
    && t.exitSent == s.exitSent && t.ptyReading == s.ptyReading
  }

  lemma BroadcastRegisters(s: State, f: Frame)
    ensures SameRegisters(s, Broadcast(s, f))
  {
    hide Events, Admits, Send;
  }

  lemma PutRegisters(s: State, id: nat, c: Session)
    requires id in s.sessions
    ensures SameRegisters(s, Put(s, id, c))
  {
  }

  lemma UnlinkRegisters(s: State, id: nat)
    requires id in s.sessions
    ensures SameRegisters(s, Unlink(s, id))
  {
  }

  /** The request that stops the broker, from someone entitled to it. */
  ghost predicate Stops(s: State, a: Action) {
    || a.Stop?
    || (&& a.Handle? && a.id in s.sessions && s.sessions[a.id].handled < |s.sessions[a.id].outbox|
        && s.sessions[a.id].outbox[s.sessions[a.id].handled] == Shutdown
        && (s.writerId == a.id || s.sessions[a.id].role == Monitor || s.writerId == 0))
  }

  ghost predicate RegistersAfter(s: State, a: Action, t: State) {
    && t.typed == s.typed + (if a.TypeInput? && a.id in s.sessions && s.sessions[a.id].handler.Typing?
                             then [(a.id, s.sessions[a.id].handler.payload)] else [])
    && t.running == (s.running && !Stops(s, a))
    && (!a.Connect? ==> t.sessions.Keys == s.sessions.Keys)
    && t.exitSent == (s.exitSent || a.BroadcastExit?)
    && t.ptyReading == (s.ptyReading || a.AttachFirst?)
  }

  lemma StillRegisters(s: State, a: Action, t: State)
    requires SameRegisters(s, t) && !a.TypeInput? && !a.Stop? && !a.Handle? && !a.BroadcastExit?
    requires !a.AttachFirst?
    ensures RegistersAfter(s, a, t)
  {
    assert s.typed + [] == s.typed;
  }

  lemma HandleRegisters(s: State, id: nat)
    requires Enabled(s, Handle(id))
    ensures RegistersAfter(s, Handle(id), Apply(s, Handle(id)))
  {
    hide Answer, Acting, Noted, Put, MayType;
    assert s.typed + [] == s.typed;
    var c, noted := s.sessions[id], Noted(s, id);
    AnswerRegisters(s, id, noted);
    PutRegisters(s, id, noted);
    PutRegisters(s, id, noted.(handler := Acting(c.outbox[c.handled], MayType(s, id))));
    PutRegisters(s.(running := false), id, noted.(handler := Finished));
  }

  lemma AnswerRegisters(s: State, id: nat, c: Session)
    requires id in s.sessions
    ensures SameRegisters(s, Answer(s, id, c))
  {
    hide Offer, Admits, Unlink, Put;
    PutRegisters(s, id, c);
    PutRegisters(s, id, Offer(c, PONG_FRAME));
    PutRegisters(s, id, c.(handler := Leaving));
    UnlinkRegisters(Put(s, id, c.(handler := Leaving)), id);
  }

  lemma DrainRegisters(s: State, a: Action)
    requires Enabled(s, a)
    requires ByDrain(a)
    ensures SameRegisters(s, Apply(s, a))
  {
    hide Enabled, Apply, SameRegisters;
    if a.DrainUnlinks? || a.DrainRestores? {
      DrainEndRegisters(s, a);
    } else {
      DrainMoveRegisters(s, a);
    }
  }

  lemma DrainMoveRegisters(s: State, a: Action)
    requires Enabled(s, a) && (a.DrainTakes? || a.DrainWrites? || a.DrainFails? || a.DrainShuts?)
    ensures SameRegisters(s, Apply(s, a))
  {
    hide Taking, Due, Put, Closing, SameRegisters;
    match a
    case DrainTakes(id, now) => PutRegisters(s, id, Taking(s.sessions[id], now));
    case DrainWrites(id, count) =>
      var c := s.sessions[id];
      var rest := c.drain.rest[count..];
      PutRegisters(s, id, c.(wire := c.wire + c.drain.rest[..count],
                             drain := if rest == [] then Draining else Writing(rest)));
    case DrainFails(id) => PutRegisters(s, id, s.sessions[id].(drain := Stopped));
    case DrainShuts(id) => PutRegisters(s, id, Closing(s.sessions[id]).(drain := Shut));
  }

  lemma DrainEndRegisters(s: State, a: Action)
    requires Enabled(s, a) && (a.DrainUnlinks? || a.DrainRestores?)
    ensures SameRegisters(s, Apply(s, a))
  {
    hide Unlink, Put, Restore;
    match a
    case DrainUnlinks(id) =>
      UnlinkRegisters(s, id);
      PutRegisters(Unlink(s, id), id, Unlink(s, id).sessions[id].(drain := Removed));
    case DrainRestores(id) =>
      RestoreRegisters(s, id);
      PutRegisters(Restore(s, id), id, s.sessions[id].(drain := Ended));
  }

  lemma RestoreRegisters(s: State, id: nat)
    requires id in s.sessions
    ensures SameRegisters(s, Restore(s, id))
  {
  }

  lemma HandlerRegisters(s: State, a: Action)
    requires Enabled(s, a)
    requires a.ClientSends? || a.DropInput? || a.HandlerLeaves? || a.HandlerUnlinks? || a.HandlerRestores?
    ensures SameRegisters(s, Apply(s, a))
  {
    hide Unlink;
    UnlinkRegisters(s, a.id);
  }

  lemma AttachRegisters(s: State, a: Action)
    requires Enabled(s, a)
    requires a.Spawn? || a.OpenPty? || a.Claim? || a.AttachBegin? || a.AttachSend? || a.AttachEnd?
    ensures SameRegisters(s, Apply(s, a))
  {
    hide Offer, Admits, Events, HistoryPlan, ReplayFrames;
  }

  lemma SharedRegisters(s: State, a: Action)
    requires Enabled(s, a) && (a.PtyRead? || a.CommitResize?)
    ensures SameRegisters(s, Apply(s, a))
  {
    hide Broadcast, LastN, EncodeResizeAck;
    match a
    case PtyRead(data) =>
      BroadcastRegisters(s.(recent := LastN(RING_CAPACITY, s.recent + data)), Frame(OUTPUT, data));
    case CommitResize(id) =>
      var h := s.sessions[id].handler;
      var t := Put(s.(gen := s.gen + 1), id, s.sessions[id].(handler := Reading));
      BroadcastRegisters(t, ResizeAckFrame(s.gen + 1, h.cols, h.rows));
  }

  lemma PlainRegisters(s: State, a: Action)
    requires Enabled(s, a) && (a.TypeInput? || a.Stop? || a.Connect? || a.AttachFirst? || a.BroadcastExit?)
    ensures RegistersAfter(s, a, Apply(s, a))
  {
    hide Exiting;
    assert s.typed + [] == s.typed;
  }

  lemma StepRegisters(s: State, a: Action)
    requires Enabled(s, a)
    ensures RegistersAfter(s, a, Apply(s, a))
  {
    hide Enabled, Apply, RegistersAfter;
    if a.Handle? {
      HandleRegisters(s, a.id);
    } else if a.TypeInput? || a.Stop? || a.Connect? || a.AttachFirst? || a.BroadcastExit? {
      PlainRegisters(s, a);
    } else {
      if ByDrain(a) {
        DrainRegisters(s, a);
      } else if a.PtyRead? || a.CommitResize? {
        SharedRegisters(s, a);
      } else if a.ClientSends? || a.DropInput? || a.HandlerLeaves? || a.HandlerUnlinks? || a.HandlerRestores? {
        HandlerRegisters(s, a);
      } else {
        AttachRegisters(s, a);
      }
      StillRegisters(s, a, Apply(s, a));
    }
  }

  // ----- what has been typed, and by whom -----

  /** Everything written to the PTY came from a client that handshook as Writer;
      what each client typed is, in order, the inputs it sent that passed the
      writer check when they were handled, except at most the one being written. */
  lemma InputAuthority(s: State, id: nat)
    requires Reachable(s) && id in s.sessions
    ensures forall i :: 0 <= i < |s.typed| ==> IsWriter(s, s.typed[i].0)
    ensures s.writerId != 0 ==> HasClaimed(s, s.writerId)
    ensures var p := s.sessions[id].previous; p != 0 ==> HasClaimed(s, p) && HasClaimed(s, id) && p != id
    ensures var c := s.sessions[id];
            && c.handled == |c.verdicts| <= |c.outbox|
            && TypedBy(s.typed, id) + (if c.handler.Typing? then [c.handler.payload] else [])
               == Approved(c.outbox[..c.handled], c.verdicts)
            && (forall i :: 0 <= i < c.handled && c.verdicts[i] ==> c.role == Writer)
  {
    ReachableKeeps(s);
    hide StreamOk, TransitOk, WireOk, QueueOk, ReplayOk, PlanOk, PongOk, WholeOk, ExitOk,
         AcksNumbered, LastN, HistoryOf, FirstOk, SharedOk, TypedBy, Approved, PhaseOk;
  }

  /** A verdict says whether, at the step that handles the message, the sender held
      `writer_id` and the spawn was under way; handling is the only step that issues
      one. It is taken back at one step only: when the message is an input, still
      unwritten, and there is no PTY. */
  lemma VerdictIsWriterCheck(s: State, a: Action, id: nat)
    requires Reachable(s) && Enabled(s, a) && id in s.sessions
    ensures var c, t := s.sessions[id], Apply(s, a);
            && id in t.sessions
            && (a != DropInput(id) ==>
                  t.sessions[id].verdicts ==
                  c.verdicts + if a == Handle(id) then [s.writerId == id && s.spawner != 0] else [])
            && (a == DropInput(id) ==>
                  && !s.ptyOpen && 0 < c.handled == |c.verdicts| <= |c.outbox|
                  && c.outbox[c.handled - 1] == Input(c.handler.payload) && c.verdicts[c.handled - 1]
                  && t.sessions[id].verdicts == c.verdicts[..c.handled - 1] + [false])
  {
    ReachableKeeps(s);
    hide Enabled, Apply, Inv, Reachable;
    if a == DropInput(id) {
      DropsDesk(s, id);
      DropEnabled(s, id);
      DroppedVerdicts(s, id);
      hide Dropping;
    } else {
      VerdictIssued(s, a, id);
    }
  }

  lemma VerdictIssued(s: State, a: Action, id: nat)
    requires Inv(s) && Enabled(s, a) && id in s.sessions && a != DropInput(id)
    ensures id in Apply(s, a).sessions
    ensures Apply(s, a).sessions[id].verdicts ==
            s.sessions[id].verdicts + if a == Handle(id) then [s.writerId == id && s.spawner != 0] else []
  {
    hide Enabled, Apply, Inv;
    assert s.sessions[id].verdicts + [] == s.sessions[id].verdicts;
    if !OnMessage(a) || Actor(a) != Some(id) {
      DeskStays(s, a, id);
    } else {
      match a
      case Handle(_) => HandlesDesk(s, id);
      case ClientSends(_, msg) => SendsDesk(s, id, msg);
      case TypeInput(_) => TypesDesk(s, id);
      case CommitResize(_) => CommitsDesk(s, id);
    }
  }

  lemma DroppedVerdicts(s: State, id: nat)
    requires Inv(s) && id in s.sessions && s.sessions[id].handler.Typing?
    ensures var c := s.sessions[id];
            && 0 < c.handled == |c.verdicts| <= |c.outbox|
            && c.outbox[c.handled - 1] == Input(c.handler.payload) && c.verdicts[c.handled - 1]
            && Dropping(c).verdicts == c.verdicts[..c.handled - 1] + [false]
  {
    hide StreamOk, TransitOk, WireOk, QueueOk, ReplayOk, PlanOk, PongOk, WholeOk, ExitOk,
         AcksNumbered, LastN, HistoryOf, FirstOk, SharedOk, AuthorityOk, TypedBy, Approved, PhaseOk;
  }

  // ----- acting only while holding the right to type -----

  /** At step `n` the broker handled this message of a client that handshook as
      Writer and held `writer_id` at that moment, with the spawn under way. */
  ghost predicate ApprovedAt(run: seq<Action>, n: nat, id: nat, msg: Message) {
    && n < |run| && run[n] == Handle(id) && After(run[..n]).Some?
    && var s := After(run[..n]).value;
       && id in s.sessions && s.sessions[id].role == Writer && s.writerId == id && s.spawner != 0
       && s.sessions[id].handled < |s.sessions[id].outbox| && s.sessions[id].outbox[s.sessions[id].handled] == msg
  }

  /** What a busy handler is about to do. */
  function Doing(h: Handler): Message
    requires Busy(h)
  {
    if h.Typing? then Input(h.payload) else Resize(h.cols, h.rows)
  }

  lemma ApprovedEarlier(run: seq<Action>, a: Action, n: nat, id: nat, msg: Message)
    requires ApprovedAt(run, n, id, msg)
    ensures ApprovedAt(run + [a], n, id, msg)
  {
    assert (run + [a])[..n] == run[..n];
  }

  lemma BeforeLast(run: seq<Action>)
    requires run != [] && After(run).Some?
    ensures var before, a := run[..|run| - 1], run[|run| - 1];
            && run == before + [a] && After(before).Some?
            && Enabled(After(before).value, a) && After(run).value == Apply(After(before).value, a)
  {
  }

  /** Handling is the only way to become busy, and only with what was asked. */
  lemma StepBusy(s: State, a: Action, id: nat)
    requires Inv(s) && Enabled(s, a) && id in Apply(s, a).sessions && Busy(Apply(s, a).sessions[id].handler)
    ensures id in s.sessions
    ensures if a == Handle(id) then
              && s.writerId == id && s.spawner != 0 && s.sessions[id].handled < |s.sessions[id].outbox|
              && s.sessions[id].outbox[s.sessions[id].handled] == Doing(Apply(s, a).sessions[id].handler)
            else s.sessions[id].handler == Apply(s, a).sessions[id].handler
  {
    hide Enabled, Apply, Inv, Given;
    StepRegisters(s, a);
    if a.Connect? {
      ConnectBusy(s, a.role, id);
    }
    if !OnMessage(a) || Actor(a) != Some(id) {
      DeskStays(s, a, id);
    } else {
      match a
      case Handle(_) => HandlesDesk(s, id);
      case ClientSends(_, msg) => SendsDesk(s, id, msg);
      case TypeInput(_) => TypesDesk(s, id);
      case DropInput(_) => DropsDesk(s, id);
      case CommitResize(_) =>
        CommitsDesk(s, id);
        GivenKeepsDesk(s.sessions[id].(handler := Reading), Apply(s, a).sessions[id]);
    }
  }

  lemma ConnectBusy(s: State, role: Role, id: nat)
    requires id in Apply(s, Connect(role)).sessions && Busy(Apply(s, Connect(role)).sessions[id].handler)
    ensures id in s.sessions
  {
  }

  /** Whatever a handler is about to type or resize, its client asked for it, and
      held `writer_id` when the broker handled that request. */
  lemma {:induction false} PendingWasApproved(run: seq<Action>, id: nat) returns (n: nat)
    requires After(run).Some? && id in After(run).value.sessions && Busy(After(run).value.sessions[id].handler)
    ensures ApprovedAt(run, n, id, Doing(After(run).value.sessions[id].handler))
    decreases |run|
  {
    hide Enabled, Apply, Inv;
    BeforeLast(run);
    var before, a := run[..|run| - 1], run[|run| - 1];
    var s := After(before).value;
    EveryRunKeeps(before);
    StepBusy(s, a, id);
    if a == Handle(id) {
      n := |before|;
      HolderIsWriter(s, id);
    } else {
      n := PendingWasApproved(before, id);
      ApprovedEarlier(before, a, n, id, Doing(s.sessions[id].handler));
    }
  }

  lemma HolderIsWriter(s: State, id: nat)
    requires Inv(s) && id in s.sessions && s.writerId == id
    ensures s.sessions[id].role == Writer
  {
    hide Healthy, FirstOk, AcksNumbered, LastN, HistoryOf;
  }

  /** Input authority over every run. Each thing written to the PTY is an input that
      its sender, a Writer, had asked for, and at the step that handled it the
      sender held `writer_id`. */
  lemma {:induction false} TypedWhileHolding(run: seq<Action>, i: nat) returns (n: nat)
    requires After(run).Some? && i < |After(run).value.typed|
    ensures var (id, payload) := After(run).value.typed[i]; ApprovedAt(run, n, id, Input(payload))
    decreases |run|
  {
    hide Enabled, Apply, Inv;
    BeforeLast(run) by { assert After([]) == Some(INITIAL); }
    var before, a := run[..|run| - 1], run[|run| - 1];
    var s := After(before).value;
    StepRegisters(s, a);
    if i < |s.typed| {
      n := TypedWhileHolding(before, i);
      ApprovedEarlier(before, a, n, s.typed[i].0, Input(s.typed[i].1));
    } else {
      n := PendingWasApproved(before, a.id);
      ApprovedEarlier(before, a, n, a.id, Doing(s.sessions[a.id].handler));
    }
  }

  /** Resize authority over every run. Every resize that clients are told of has the
      size that a Writer asked for, and at the step that handled the request that
      Writer held `writer_id`. */
  lemma {:induction false} ResizedWhileHolding(run: seq<Action>, k: nat) returns (n: nat, id: nat, cols: u16, rows: u16)
    requires After(run).Some? && k < |Controls(After(run).value.log)|
    ensures k + 1 < U32_SIZE && Controls(After(run).value.log)[k] == ResizeAckFrame(k + 1, cols, rows)
    ensures ApprovedAt(run, n, id, Resize(cols, rows))
    decreases |run|
  {
    hide Enabled, Apply, Inv, Controls, ResizeAckFrame;
    NothingLogged();
    BeforeLast(run);
    var before, a := run[..|run| - 1], run[|run| - 1];
    var s := After(before).value;
    EveryRunKeeps(before);
    InvAcks(s);
    StepControls(s, a);
    if k < |Controls(s.log)| {
      n, id, cols, rows := ResizedWhileHolding(before, k);
      ApprovedEarlier(before, a, n, id, Resize(cols, rows));
    } else {
      ResizeEnabled(s, a.id);
      n := PendingWasApproved(before, a.id);
      ApprovedEarlier(before, a, n, a.id, Doing(s.sessions[a.id].handler));
      id, cols, rows := a.id, s.sessions[a.id].handler.cols, s.sessions[a.id].handler.rows;
    }
  }

  lemma NothingLogged()
    ensures After([]) == Some(INITIAL) && Controls(INITIAL.log) == []
  {
  }

  lemma ResizeEnabled(s: State, id: nat)
    requires Enabled(s, CommitResize(id))
    ensures id in s.sessions && s.sessions[id].handler.Resizing? && s.gen + 1 < U32_SIZE
  {
  }

  /** The control frames of the log grow by one acknowledgement per committed resize. */
  lemma StepControls(s: State, a: Action)
    requires Enabled(s, a) && Inv(s)
    ensures !a.CommitResize? ==> Controls(Apply(s, a).log) == Controls(s.log)
    ensures a.CommitResize? ==>
              && a.id in s.sessions && s.sessions[a.id].handler.Resizing? && s.gen + 1 < U32_SIZE
              && var h := s.sessions[a.id].handler;
                 Controls(Apply(s, a).log) == Controls(s.log) + [ResizeAckFrame(s.gen + 1, h.cols, h.rows)]
  {
    hide Enabled, Apply, Inv, Controls, ResizeAckFrame, Events, OutputEvents;
    assert Controls(s.log) + [] == Controls(s.log);
    match a {
      case PtyRead(data) =>
        ReadLog(s, data);
        OutputIsShared(data);
        ControlsAppend(s.log, OutputEvents(data));
      case CommitResize(who) =>
        ResizeEnabled(s, who);
        ResizeLog(s, who);
        var h := s.sessions[who].handler;
        var f := ResizeAckFrame(s.gen + 1, h.cols, h.rows);
        AckIsControl(s.gen + 1, h.cols, h.rows);
        EventsOf(f);
        ControlsAppend(s.log, Events(f));
      case Handle(who) => HandleLog(s, who);
      case DropInput(who) => DropRecord(s, who, who) by { DropEnabled(s, who); }
      case BroadcastExit(code) => ExitLog(s, code);
      case _ => OtherLog(s, a);
    }
  }

  lemma AckIsControl(gen: nat, cols: u16, rows: u16)
    requires gen < U32_SIZE
    ensures ResizeAckFrame(gen, cols, rows).kind != OUTPUT
  {
  }

  // ----- shutdown -----

  /** A step of the run that stops the broker. */
  ghost predicate StopsAt(run: seq<Action>, n: nat) {
    n < |run| && After(run[..n]).Some? && Stops(After(run[..n]).value, run[n])
  }

  /** Shutdown authority over every run. The broker has been stopped if and only if
      it stopped of itself or handled a Shutdown whose sender, at that moment,
      held `writer_id`, or was a Monitor, or found no writer. */
  lemma {:induction false} StoppedIffEntitled(run: seq<Action>)
    requires After(run).Some?
    ensures !After(run).value.running <==> exists n :: StopsAt(run, n)
    decreases |run|
  {
    hide Enabled, Apply, Stops;
    if run != [] {
      BeforeLast(run);
      var before, a := run[..|run| - 1], run[|run| - 1];
      StoppedIffEntitled(before);
      StepRegisters(After(before).value, a);
      if Stops(After(before).value, a) {
        assert StopsAt(run, |before|);
      }
      forall n: nat | StopsAt(before, n)
        ensures StopsAt(run, n)
      {
        assert run[..n] == before[..n];
      }
      forall n: nat | StopsAt(run, n)
        ensures StopsAt(before, n) || (n == |before| && Stops(After(before).value, a))
      {
        if n < |before| {
          assert run[..n] == before[..n];
        }
      }
    }
  }

  /** Exit is broadcast only after the broker has been stopped. */
  lemma ExitFollowsStop(run: seq<Action>, n: nat) returns (m: nat)
    requires After(run).Some? && n < |run| && run[n].BroadcastExit?
    ensures m < n && StopsAt(run, m)
  {
    RunsHavePrefixes(run, n + 1);
    var upto := run[..n + 1];
    assert upto[..n] == run[..n] && upto[n] == run[n];
    NotRunningAtExit(upto);
    StoppedIffEntitled(run[..n]);
    m :| StopsAt(run[..n], m);
    assert run[..n][..m] == run[..m];
  }

  lemma NotRunningAtExit(run: seq<Action>)
    requires After(run).Some? && run != [] && run[|run| - 1].BroadcastExit?
    ensures After(run[..|run| - 1]).Some? && !After(run[..|run| - 1]).value.running
  {
    hide Apply, Enabled;
    BeforeLast(run);
    ExitGuard(After(run[..|run| - 1]).value, run[|run| - 1]);
  }

  lemma ExitGuard(s: State, a: Action)
    requires Enabled(s, a) && a.BroadcastExit?
    ensures !s.running
  {
  }

  lemma {:induction false} RunsHavePrefixes(run: seq<Action>, n: nat)
    requires After(run).Some? && n <= |run|
    ensures After(run[..n]).Some?
    decreases |run|
  {
    if n < |run| {
      RunsHavePrefixes(run[..|run| - 1], n);
      assert run[..|run| - 1][..n] == run[..n];
    } else {
      assert run[..n] == run;
    }
  }

  /** In every state, whoever has Exit queued, or had it queued, was sent it by a broker that has been stopped. */
  lemma {:induction false} ExitMeansStopped(run: seq<Action>)
    requires After(run).Some?
    ensures var s := After(run).value;
            && (s.exitSent ==> !s.running)
            && (forall id :: id in s.sessions && (s.sessions[id].exitMark.Some? || s.sessions[id].queue.exitQueued) ==>
                  s.exitSent && !s.running)
    decreases |run|
  {
    hide Enabled, Apply, Inv, Stops;
    EveryRunKeeps(run);
    var t := After(run).value;
    if run != [] {
      BeforeLast(run);
      var before, a := run[..|run| - 1], run[|run| - 1];
      var s := After(before).value;
      ExitMeansStopped(before);
      EveryRunKeeps(before);
      StepRegisters(s, a);
      if a.BroadcastExit? {
        NotRunningAtExit(run);
      }
      forall id | id in t.sessions && (t.sessions[id].exitMark.Some? || t.sessions[id].queue.exitQueued)
        ensures t.exitSent && !t.running
      {
        HealthyIsExitOk(t, id);
        if !a.BroadcastExit? {
          MarkBefore(s, a, id);
        }
      }
    }
  }

  /** A mark comes only with the broadcast. */
  lemma MarkBefore(s: State, a: Action, id: nat)
    requires Inv(s) && Enabled(s, a) && id in Apply(s, a).sessions && !a.BroadcastExit?
    ensures Apply(s, a).sessions[id].exitMark.Some? ==> id in s.sessions && s.sessions[id].exitMark.Some?
  {
    hide Enabled, Apply, Inv;
    StepRegisters(s, a);
    if id in s.sessions {
      HealthyIsExitOk(s, id);
      StepRecord(s, a, id);
    } else {
      ConnectMark(s, a.role, id);
    }
  }

  lemma ConnectMark(s: State, role: Role, id: nat)
    requires id in Apply(s, Connect(role)).sessions && id !in s.sessions
    ensures Apply(s, Connect(role)).sessions[id].exitMark.None?
  {
  }

  /** While there is a writer, nobody but that writer and Monitors can stop the
      broker; in particular, no Watcher can. */
  lemma WatchersCannotStop(run: seq<Action>, n: nat)
    requires StopsAt(run, n) && !run[n].Stop? && After(run[..n]).value.writerId != 0
    ensures var s, id := After(run[..n]).value, run[n].id;
            id in s.sessions &&
            (s.sessions[id].role == Monitor || (s.sessions[id].role == Writer && s.writerId == id))
  {
    EveryRunKeeps(run[..n]);
    WriterIdIsWriter(After(run[..n]).value);
  }

  lemma WriterIdIsWriter(s: State)
    requires Inv(s) && s.writerId != 0
    ensures IsWriter(s, s.writerId)
  {
    hide Healthy, SharedOk, FirstOk;
  }
}
