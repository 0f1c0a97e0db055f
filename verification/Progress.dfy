/** What can always happen next: no client, and not the broker, is ever stuck. */
module Progress {
  import opened Bytes
  import opened Wire
  import opened Queueing
  import opened Broker
  import opened BrokerInvariant
  import opened BrokerSteps
  import opened Locality
  import opened Delivery
  import opened Authority
  import EndToEnd
  import ScreenReaders

  lemma Continues(run: seq<Action>, s: State, a: Action)
    requires After(run) == Some(s) && Enabled(s, a)
    ensures After(run + [a]) == Some(Apply(s, a))
  {
    hide Enabled, Apply;
    assert (run + [a])[..|run|] == run;
  }

  // ----- one thread at a time -----

  /** The next step of the thread that reads from a client; with no message waiting, it can only leave. */
  function HandlerNext(s: State, id: nat): Action
    requires id in s.sessions
  {
    var c := s.sessions[id];
    match c.handler
    case Arrived => Spawn(id)
    case Checked(first) => if first && !s.ptyOpen then OpenPty(id) else Claim(id)
    case Greeted(first) => if first then AttachFirst(id) else AttachBegin(id, None, [])
    case Replaying => if c.toReplay != [] then AttachSend(id) else AttachEnd(id)
    case Reading => if c.handled < |c.outbox| then Handle(id) else HandlerLeaves(id)
    case Typing(_) => if s.ptyOpen then TypeInput(id) else DropInput(id)
    case Resizing(_, _) => CommitResize(id)
    case Leaving => HandlerUnlinks(id)
    case Unlinked => HandlerRestores(id)
    case Finished => Stop
  }

  /** Whenever the output lock is free, or its own, the thread that reads from a client can
      go on until it has finished. */
  lemma HandlerIsNeverStuck(s: State, id: nat)
    requires Reachable(s) && id in s.sessions && s.sessions[id].handler != Finished
    requires s.lock.None? || s.lock == Some(id)
    requires s.gen + 1 < U32_SIZE
    ensures s.lock == Some(id) <==> s.sessions[id].handler == Replaying
    ensures Actor(HandlerNext(s, id)) == Some(id) && Enabled(s, HandlerNext(s, id))
  {
    ReachableKeeps(s);
    hide Inv, Enabled, Reachable, HandlerNext;
    ReplayerHasLock(s, id);
    HandlerGoesOn(s, id);
  }

  lemma ReplayerHasLock(s: State, id: nat)
    requires Inv(s) && id in s.sessions
    ensures s.lock == Some(id) <==> s.sessions[id].handler == Replaying
  {
    hide Healthy, AuthorityOk, FirstOk, AcksNumbered, LastN, HistoryOf;
  }

  lemma HandlerGoesOn(s: State, id: nat)
    requires id in s.sessions && s.sessions[id].handler != Finished && s.gen + 1 < U32_SIZE
    requires s.lock.None? || s.lock == Some(id)
    requires s.lock == Some(id) <==> s.sessions[id].handler == Replaying
    ensures Actor(HandlerNext(s, id)) == Some(id) && Enabled(s, HandlerNext(s, id))
  {
  }

  /** The next step of the thread that writes to a client. */
  function DrainNext(c: Session, id: nat): Action {
    match c.drain
    case Draining => DrainTakes(id, false)
    case Writing(rest) => DrainWrites(id, |rest|)
    case Stopped => DrainShuts(id)
    case Shut => DrainUnlinks(id)
    case Removed => DrainRestores(id)
    case Ended => Stop
  }

  /** The thread that writes to a client waits only for the output lock, or for something
      to write on an open queue. */
  lemma DrainIsNeverStuck(s: State, id: nat)
    requires Reachable(s) && id in s.sessions && s.sessions[id].drain != Ended
    requires s.lock.None?
    ensures var c := s.sessions[id];
            || (c.drain == Draining && !c.queue.closed && c.queue.frames == [])
            || (Actor(DrainNext(c, id)) == Some(id) && Enabled(s, DrainNext(c, id)))
  {
    ReachableKeeps(s);
    hide Inv, Reachable, Enabled, DrainNext;
    StillWrites(s, id);
    DrainGoesOn(s, id);
  }

  lemma DrainGoesOn(s: State, id: nat)
    requires id in s.sessions && s.sessions[id].drain != Ended && s.lock.None?
    requires s.sessions[id].drain.Writing? ==> s.sessions[id].drain.rest != []
    ensures var c := s.sessions[id];
            || (c.drain == Draining && !c.queue.closed && c.queue.frames == [])
            || (Actor(DrainNext(c, id)) == Some(id) && Enabled(s, DrainNext(c, id)))
  {
  }

  lemma WritesSomething(c: Session, log: seq<Event>, registered: bool, typed: seq<seq<byte>>)
    requires Healthy(c, log, registered, typed)
    ensures c.drain.Writing? ==> c.drain.rest != []
  {
    hide StreamOk, TransitOk, QueueOk, ReplayOk, PlanOk, InputOk, PongOk, WholeOk, ExitOk, PhaseOk;
  }

  // ----- the output lock -----

  /** Nothing happens but one client's attaching. */
  ghost predicate OnlyAttaches(s: State, t: State, id: nat) {
    && t.sessions.Keys == s.sessions.Keys && (forall k :: k in s.sessions && k != id ==> t.sessions[k] == s.sessions[k])
    && t == s.(sessions := t.sessions, registered := t.registered, lock := None)
    && t.registered == s.registered + {id}
    && id in t.sessions && t.sessions[id].handler == Reading && t.sessions[id].role == s.sessions[id].role
  }

  lemma EndAttaches(s: State, id: nat)
    requires s.lock == Some(id) && id in s.sessions && s.sessions[id].toReplay == []
    ensures Enabled(s, AttachEnd(id)) && OnlyAttaches(s, Apply(s, AttachEnd(id)), id)
  {
  }

  lemma SendAttaches(s: State, id: nat)
    requires s.lock == Some(id) && id in s.sessions && s.sessions[id].toReplay != []
    ensures Enabled(s, AttachSend(id))
    ensures var t := Apply(s, AttachSend(id));
            && t.lock == Some(id) && id in t.sessions && |t.sessions[id].toReplay| == |s.sessions[id].toReplay| - 1
            && forall u :: OnlyAttaches(t, u, id) ==> OnlyAttaches(s, u, id)
  {
    hide Admits, Send, Events;
  }

  /** Whoever holds the output lock can finish its replay and give the lock back. */
  lemma {:induction false} ReplayFinishes(run: seq<Action>, id: nat) returns (more: seq<Action>, t: State)
    requires After(run).Some? && After(run).value.lock == Some(id) && id in After(run).value.sessions
    ensures After(run + more) == Some(t) && OnlyAttaches(After(run).value, t, id)
    decreases |After(run).value.sessions[id].toReplay|
  {
    hide Enabled, Apply, OnlyAttaches;
    var s := After(run).value;
    if s.sessions[id].toReplay == [] {
      EndAttaches(s, id);
      Continues(run, s, AttachEnd(id));
      more, t := [AttachEnd(id)], Apply(s, AttachEnd(id));
    } else {
      SendAttaches(s, id);
      Continues(run, s, AttachSend(id));
      more, t := ReplayFinishes(run + [AttachSend(id)], id);
      assert run + [AttachSend(id)] + more == run + ([AttachSend(id)] + more);
      more := [AttachSend(id)] + more;
    }
  }

  /** The lock can always become free, with everything else as it was. */
  lemma LockCanBeFree(run: seq<Action>) returns (more: seq<Action>, t: State)
    requires After(run).Some?
    ensures After(run + more) == Some(t) && t.lock.None?
    ensures var s := After(run).value; s.lock.None? ==> t == s
    ensures var s := After(run).value; s.lock.Some? ==> OnlyAttaches(s, t, s.lock.value)
  {
    hide Inv, OnlyAttaches;
    var s := After(run).value;
    EveryRunKeeps(run);
    LockIsHeld(s);
    if s.lock.None? {
      more, t := [], s;
      assert run + [] == run;
    } else {
      more, t := ReplayFinishes(run, s.lock.value);
      AttachedIsFree(s, t, s.lock.value);
    }
  }

  lemma AttachedIsFree(s: State, t: State, id: nat)
    requires OnlyAttaches(s, t, id)
    ensures t.lock.None? && t.running == s.running && t.exitSent == s.exitSent
  {
  }

  // ----- Exit -----

  /** A broker that has been stopped can send Exit, with any code, as soon as the output lock is free. */
  lemma StoppedCanExit(run: seq<Action>, code: seq<byte>)
    requires After(run).Some? && !After(run).value.running && !After(run).value.exitSent
    requires After(run).value.lock.None? && |code| == 4
    ensures After(run + [BroadcastExit(code)]).Some?
    ensures var t := After(run + [BroadcastExit(code)]).value; t.exitSent && t.registered == {}
  {
    Continues(run, After(run).value, BroadcastExit(code));
    hide Exiting;
  }

  /** ... and the lock can become free. */
  lemma StoppedWillExit(run: seq<Action>, code: seq<byte>) returns (more: seq<Action>)
    requires After(run).Some? && !After(run).value.running && !After(run).value.exitSent && |code| == 4
    ensures After(run + more + [BroadcastExit(code)]).Some?
  {
    hide Enabled, Apply, OnlyAttaches;
    var t: State;
    more, t := LockCanBeFree(run);
    if After(run).value.lock.Some? {
      AttachedIsFree(After(run).value, t, After(run).value.lock.value);
    }
    StoppedCanExit(run + more, code);
  }

  // ----- reading from the PTY -----

  /** Once the first writer has been attached, the PTY can be read whenever the lock is free. */
  lemma {:induction false} AttachedCanRead(run: seq<Action>, n: nat, data: seq<byte>)
    requires After(run).Some? && n < |run| && run[n].AttachFirst? && After(run).value.lock.None?
    requires 1 <= |data| <= 16_384
    ensures After(run + [PtyRead(data)]).Some?
  {
    ReadingSince(run, n);
    Continues(run, After(run).value, PtyRead(data));
  }

  lemma {:induction false} ReadingSince(run: seq<Action>, n: nat)
    requires After(run).Some? && n < |run| && run[n].AttachFirst?
    ensures After(run).value.ptyReading
    decreases |run|
  {
    hide Enabled, Apply;
    BeforeLast(run);
    var before, a := run[..|run| - 1], run[|run| - 1];
    StepRegisters(After(before).value, a);
    if n < |before| {
      ReadingSince(before, n);
    }
  }

  // ----- catching up -----

  /** Nothing happens but one client's queue being written to its socket. */
  ghost predicate OnlyDrains(s: State, t: State, id: nat) {
    id in s.sessions && id in t.sessions &&
    var c, d := s.sessions[id], t.sessions[id];
    && t == Put(s, id, d)
    && d == c.(queue := c.queue.(frames := []), drain := Draining, wire := d.wire, dequeued := d.dequeued)
  }

  lemma TakeDrains(s: State, id: nat)
    requires id in s.sessions && s.sessions[id].drain == Draining && s.sessions[id].queue.frames != []
    ensures Enabled(s, DrainTakes(id, false))
    ensures var t := Apply(s, DrainTakes(id, false));
            && id in t.sessions && t.sessions[id].drain.Writing? && t.sessions[id].drain.rest != []
            && |t.sessions[id].queue.frames| == |s.sessions[id].queue.frames| - 1
            && forall u :: OnlyDrains(t, u, id) ==> OnlyDrains(s, u, id)
  {
    hide Encode, Flat;
  }

  lemma WriteDrains(s: State, id: nat)
    requires id in s.sessions && s.sessions[id].drain.Writing? && s.sessions[id].drain.rest != []
    ensures var a := DrainWrites(id, |s.sessions[id].drain.rest|);
            && Enabled(s, a)
            && var t := Apply(s, a);
               && id in t.sessions && t.sessions[id].drain == Draining
               && t.sessions[id].queue.frames == s.sessions[id].queue.frames
               && forall u :: OnlyDrains(t, u, id) ==> OnlyDrains(s, u, id)
  {
  }

  lemma {:induction false} QueueEmpties(run: seq<Action>, id: nat) returns (more: seq<Action>, t: State)
    requires After(run).Some? && id in After(run).value.sessions
    requires var d := After(run).value.sessions[id].drain; d == Draining || (d.Writing? && d.rest != [])
    ensures After(run + more) == Some(t) && OnlyDrains(After(run).value, t, id)
    decreases |After(run).value.sessions[id].queue.frames|, After(run).value.sessions[id].drain.Writing?
  {
    hide Enabled, Apply, OnlyDrains;
    var s := After(run).value;
    if s.sessions[id].drain.Writing? {
      WriteDrains(s, id);
      var a := DrainWrites(id, |s.sessions[id].drain.rest|);
      Continues(run, s, a);
      more, t := QueueEmpties(run + [a], id);
      assert run + [a] + more == run + ([a] + more);
      more := [a] + more;
    } else if s.sessions[id].queue.frames != [] {
      TakeDrains(s, id);
      Continues(run, s, DrainTakes(id, false));
      more, t := QueueEmpties(run + [DrainTakes(id, false)], id);
      assert run + [DrainTakes(id, false)] + more == run + ([DrainTakes(id, false)] + more);
      more := [DrainTakes(id, false)] + more;
    } else {
      more, t := [], s;
      assert run + [] == run;
      AlreadyDrained(s, id);
    }
  }

  lemma AlreadyDrained(s: State, id: nat)
    requires id in s.sessions && s.sessions[id].drain == Draining && s.sessions[id].queue.frames == []
    ensures OnlyDrains(s, s, id)
  {
    assert s.sessions[id := s.sessions[id]] == s.sessions;
  }

  /** Every registered client whose socket takes what is written can catch up: with
      nobody else moving, it comes to have been written all of its replay and the
      history, up to the newest byte. */
  lemma ClientCanCatchUp(run: seq<Action>, id: nat) returns (more: seq<Action>, t: State)
    requires After(run).Some? && id in After(run).value.registered && id in After(run).value.sessions
    requires ReplayFits(After(run).value.sessions[id])
    requires var d := After(run).value.sessions[id].drain; d == Draining || d.Writing?
    ensures After(run + more) == Some(t) && id in t.sessions && t.log == After(run).value.log
    ensures ScreenReaders.OutputOf(Parse(true, t.sessions[id].wire).frames) == Expected(t, t.sessions[id])
    ensures HistAt(t, t.sessions[id].upto) == |Hist(t)|
  {
    hide OnlyDrains, Reachable, Expected, Parse, HistoryOf, ReplayFits, Inv;
    EveryRunKeeps(run);
    StillWrites(After(run).value, id);
    more, t := QueueEmpties(run, id);
    DrainedIsCaughtUp(After(run).value, t, id);
    RunIsReachable(run + more, t);
    EndToEnd.CaughtUpClientSeesAll(t, id);
  }

  lemma RunIsReachable(run: seq<Action>, s: State)
    requires After(run) == Some(s)
    ensures Reachable(s)
  {
  }

  lemma StillWrites(s: State, id: nat)
    requires Inv(s) && id in s.sessions
    ensures s.sessions[id].drain.Writing? ==> s.sessions[id].drain.rest != []
  {
    hide Healthy, SharedOk, AuthorityOk, FirstOk;
    WritesSomething(s.sessions[id], s.log, id in s.registered, TypedBy(s.typed, id));
  }

  lemma DrainedIsCaughtUp(s: State, t: State, id: nat)
    requires OnlyDrains(s, t, id) && id in s.registered && ReplayFits(s.sessions[id])
    ensures id in t.registered && id in t.sessions && t.log == s.log && t.sessions[id].drain == Draining
    ensures t.sessions[id].queue.frames == [] && ReplayFits(t.sessions[id])
  {
  }

  // ----- attaching -----

  lemma Arrives(s: State, role: Role)
    requires Inv(s)
    ensures Enabled(s, Connect(role))
    ensures var t, id := Apply(s, Connect(role)), s.nextId;
            && id in t.sessions && t.sessions[id].role == role && t.lock == s.lock && id !in t.registered
            && t.sessions[id].handler == if role == Writer then Arrived else Greeted(false)
  {
    hide Healthy, AcksNumbered, LastN, HistoryOf, AuthorityOk, FirstOk;
  }

  lemma Claims(s: State, id: nat)
    requires id in s.sessions && s.sessions[id].handler.Checked? && (s.sessions[id].handler.first ==> s.ptyOpen)
    ensures Enabled(s, Claim(id))
    ensures var t := Apply(s, Claim(id));
            && id in t.sessions && t.sessions[id].role == s.sessions[id].role && t.lock == s.lock
            && t.sessions[id].handler == Greeted(s.sessions[id].handler.first) && t.writerId == id
  {
  }

  /** A writer that has just arrived can come to hold the right to type. */
  lemma WriterCanClaim(run: seq<Action>, id: nat) returns (more: seq<Action>, t: State)
    requires After(run).Some? && id in After(run).value.sessions && After(run).value.sessions[id].handler == Arrived
    ensures After(run + more) == Some(t) && id in t.sessions && t.lock == After(run).value.lock
    ensures t.sessions[id].role == After(run).value.sessions[id].role && t.sessions[id].handler.Greeted?
    ensures t.writerId == id
  {
    var s := After(run).value;
    Continues(run, s, Spawn(id));
    t := Apply(s, Spawn(id));
    var so := run + [Spawn(id)];
    if t.sessions[id].handler.first && !t.ptyOpen {
      Continues(so, t, OpenPty(id));
      t := Apply(t, OpenPty(id));
      so := so + [OpenPty(id)];
    }
    Claims(t, id);
    Continues(so, t, Claim(id));
    t := Apply(t, Claim(id));
    more := (so + [Claim(id)])[|run|..];
    assert run + more == so + [Claim(id)];
  }

  lemma FirstAttach(s: State, id: nat)
    requires id in s.sessions && s.sessions[id].handler == Greeted(true) && s.lock.None?
    ensures Enabled(s, AttachFirst(id))
    ensures var t := Apply(s, AttachFirst(id));
            && id in t.registered && id in t.sessions && t.sessions[id].handler == Reading
            && t.sessions[id].role == s.sessions[id].role && t.ptyReading
  {
  }

  lemma BeginAttach(s: State, id: nat)
    requires id in s.sessions && s.sessions[id].handler == Greeted(false) && s.lock.None?
    ensures Enabled(s, AttachBegin(id, None, []))
    ensures var t := Apply(s, AttachBegin(id, None, []));
            t.lock == Some(id) && id in t.sessions && t.sessions[id].role == s.sessions[id].role
  {
    hide HistoryPlan;
  }

  /** A greeted client can be attached whenever the lock is free. */
  lemma GreetedCanAttach(run: seq<Action>, id: nat) returns (more: seq<Action>, t: State)
    requires After(run).Some? && id in After(run).value.sessions && After(run).value.sessions[id].handler.Greeted?
    requires After(run).value.lock.None?
    ensures After(run + more) == Some(t) && id in t.sessions && id in t.registered
    ensures t.sessions[id].handler == Reading && t.sessions[id].role == After(run).value.sessions[id].role
  {
    hide Enabled, Apply;
    var s := After(run).value;
    if s.sessions[id].handler.first {
      FirstAttach(s, id);
      Continues(run, s, AttachFirst(id));
      more, t := [AttachFirst(id)], Apply(s, AttachFirst(id));
    } else {
      BeginAttach(s, id);
      var a := AttachBegin(id, None, []);
      Continues(run, s, a);
      more, t := ReplayFinishes(run + [a], id);
      assert run + [a] + more == run + ([a] + more);
      more := [a] + more;
    }
  }

  /** At any moment a client of any role can connect and come to be registered. */
  lemma AnyoneCanAttach(run: seq<Action>, role: Role) returns (more: seq<Action>, t: State, id: nat)
    requires After(run).Some?
    ensures After(run + more) == Some(t) && id !in After(run).value.sessions
    ensures id in t.sessions && id in t.registered && t.sessions[id].role == role && t.sessions[id].handler == Reading
  {
    hide Enabled, Apply, Inv, OnlyAttaches;
    var one: seq<Action>, two: seq<Action>, three: seq<Action>;
    one, t := LockCanBeFree(run);
    EveryRunKeeps(run);
    EveryRunKeeps(run + one);
    NewIdIsNew(run, t);
    id := t.nextId;
    Arrives(t, role);
    Continues(run + one, t, Connect(role));
    t := Apply(t, Connect(role));
    var so := run + one + [Connect(role)];
    two := [];
    assert so + [] == so;
    if role == Writer {
      two, t := WriterCanClaim(so, id);
    }
    three, t := GreetedCanAttach(so + two, id);
    more := one + [Connect(role)] + two + three;
    assert run + more == so + two + three;
  }

  lemma NewIdIsNew(run: seq<Action>, t: State)
    requires After(run).Some? && Inv(After(run).value) && Inv(t)
    requires var s := After(run).value; t == s || (s.lock.Some? && OnlyAttaches(s, t, s.lock.value))
    ensures t.nextId !in After(run).value.sessions
  {
    hide Healthy, AcksNumbered, LastN, HistoryOf, AuthorityOk, FirstOk;
  }
}
