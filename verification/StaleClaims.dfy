/**
 Claims that outlive their writers. When writers do not hand back in order,
 `writer_id` can end at a client that has left for good, and stays there.
 */
module StaleClaims {
  import opened Bytes
  import opened Wire
  import opened Queueing
  import opened Broker
  import opened BrokerInvariant
  import opened BrokerSteps
  import opened HandBack

  /** Both threads of the client have ended; it has no compare-exchange left. */
  ghost predicate Over(s: State, id: nat) {
    && id in s.sessions && id !in s.registered
    && s.sessions[id].handler == Finished && s.sessions[id].drain == Ended
  }

  // ----- a client that is over stays so, whatever the others do -----

  lemma PutOver(s: State, who: nat, c: Session, id: nat)
    requires Over(s, id) && who != id
    ensures Over(Put(s, who, c), id)
  {
  }

  lemma UnlinkOver(s: State, who: nat, id: nat)
    requires Over(s, id) && who in s.sessions
    ensures Over(Unlink(s, who), id) && Over(Restore(s, who), id)
  {
  }

  lemma BroadcastOver(s: State, f: Frame, id: nat)
    requires Over(s, id)
    ensures Over(Broadcast(s, f), id)
  {
    hide Admits, Events, Send;
  }

  /** The client whose threads a step moves, if there is one. */
  function Mover(a: Action): Option<nat> {
    match a
    case Connect(_) => None
    case PtyRead(_) => None
    case Stop => None
    case BroadcastExit(_) => None
    case ClientSends(_, _) => None
    case OpenPty(_) => None
    case _ => Some(a.id)
  }

  lemma OverNeverMoves(s: State, a: Action, id: nat)
    requires Inv(s) && Enabled(s, a) && Over(s, id)
    ensures Mover(a) != Some(id)
  {
    hide Healthy, AuthorityOk, FirstOk, AcksNumbered, LastN, HistoryOf, Due, Admits;
  }

  lemma DrainOver(s: State, a: Action, id: nat)
    requires Enabled(s, a) && Over(s, id) && ByDrain(a) && Mover(a) != Some(id)
    ensures Over(Apply(s, a), id)
  {
    hide Enabled, Apply, Over;
    if a.DrainUnlinks? || a.DrainRestores? {
      DrainEndOver(s, a, id);
    } else {
      DrainMoveOver(s, a, id);
    }
  }

  lemma DrainMoveOver(s: State, a: Action, id: nat)
    requires Enabled(s, a) && Over(s, id)
    requires (a.DrainTakes? || a.DrainWrites? || a.DrainFails? || a.DrainShuts?) && a.id != id
    ensures Over(Apply(s, a), id)
  {
    hide Taking, Due, Put, Over, Closing;
    match a
    case DrainTakes(who, now) => PutOver(s, who, Taking(s.sessions[who], now), id);
    case DrainWrites(who, count) =>
      var c := s.sessions[who];
      var rest := c.drain.rest[count..];
      PutOver(s, who, c.(wire := c.wire + c.drain.rest[..count],
                         drain := if rest == [] then Draining else Writing(rest)), id);
    case DrainFails(who) => PutOver(s, who, s.sessions[who].(drain := Stopped), id);
    case DrainShuts(who) => PutOver(s, who, Closing(s.sessions[who]).(drain := Shut), id);
  }

  lemma DrainEndOver(s: State, a: Action, id: nat)
    requires Enabled(s, a) && Over(s, id) && (a.DrainUnlinks? || a.DrainRestores?) && a.id != id
    ensures Over(Apply(s, a), id)
  {
    hide Unlink, Restore;
    UnlinkOver(s, a.id, id);
  }

  lemma HandlerOver(s: State, a: Action, id: nat)
    requires Enabled(s, a) && Over(s, id) && Mover(a) != Some(id)
    requires || a.ClientSends? || a.TypeInput? || a.DropInput? || a.Stop?
             || a.HandlerLeaves? || a.HandlerUnlinks? || a.HandlerRestores?
    ensures Over(Apply(s, a), id)
  {
    hide Unlink, Restore;
    if a.HandlerUnlinks? || a.HandlerRestores? {
      UnlinkOver(s, a.id, id);
    }
  }

  lemma ArrivalOver(s: State, a: Action, id: nat)
    requires Enabled(s, a) && Over(s, id) && OnArrival(a) && Mover(a) != Some(id) && s.nextId !in s.sessions
    ensures Over(Apply(s, a), id)
  {
    hide Offer, Admits, Events, HistoryPlan, ReplayFrames;
  }

  lemma SharedOver(s: State, a: Action, id: nat)
    requires Enabled(s, a) && Over(s, id) && (a.PtyRead? || a.CommitResize? || a.BroadcastExit?) && Mover(a) != Some(id)
    ensures Over(Apply(s, a), id)
  {
    hide Broadcast, LastN, Exiting, EncodeResizeAck;
    match a
    case PtyRead(data) =>
      BroadcastOver(s.(recent := LastN(RING_CAPACITY, s.recent + data)), Frame(OUTPUT, data), id);
    case CommitResize(who) =>
      var h := s.sessions[who].handler;
      var t := Put(s.(gen := s.gen + 1), who, s.sessions[who].(handler := Reading));
      BroadcastOver(t, ResizeAckFrame(s.gen + 1, h.cols, h.rows), id);
    case BroadcastExit(_) =>
  }

  lemma HandleOver(s: State, who: nat, id: nat)
    requires Enabled(s, Handle(who)) && Over(s, id) && who != id
    ensures Over(Apply(s, Handle(who)), id)
  {
    hide Answer, Acting, Put, MayType, Noted;
    var c, noted := s.sessions[who], Noted(s, who);
    AnswerOver(s, who, noted, id);
    PutOver(s, who, noted, id);
    PutOver(s, who, noted.(handler := Acting(c.outbox[c.handled], MayType(s, who))), id);
    PutOver(s.(running := false), who, noted.(handler := Finished), id);
  }

  lemma AnswerOver(s: State, who: nat, c: Session, id: nat)
    requires Over(s, id) && who in s.sessions && who != id
    ensures Over(Answer(s, who, c), id)
  {
    hide Offer, Admits, Unlink, Over;
    PutOver(s, who, c, id);
    PutOver(s, who, Offer(c, PONG_FRAME), id);
    PutOver(s, who, c.(handler := Leaving), id);
    UnlinkOver(Put(s, who, c.(handler := Leaving)), who, id);
  }

  lemma OverStays(s: State, a: Action, id: nat)
    requires Inv(s) && Enabled(s, a) && Over(s, id)
    ensures Over(Apply(s, a), id)
  {
    OverNeverMoves(s, a, id);
    IdsAreFresh(s, a);
    hide Inv, Enabled, Apply, Over;
    if ByDrain(a) {
      DrainOver(s, a, id);
    } else if OnArrival(a) {
      ArrivalOver(s, a, id);
    } else if a.PtyRead? || a.CommitResize? || a.BroadcastExit? {
      SharedOver(s, a, id);
    } else if a.Handle? {
      HandleOver(s, a.id, id);
    } else {
      HandlerOver(s, a, id);
    }
  }

  /** A step that does not claim leaves `writer_id` at a client that is over. */
  lemma StaleStep(s: State, a: Action, id: nat)
    requires Inv(s) && Enabled(s, a) && Over(s, id) && s.writerId == id && !a.Claim?
    ensures Apply(s, a).writerId == id
  {
    OverNeverMoves(s, a, id);
    IdsAreFresh(s, a);
    OverIsNotEvicted(s, a, id);
    ClaimsMove(s, a);
    hide Inv, Enabled, Apply, Evicts, Over;
  }

  lemma OverIsNotEvicted(s: State, a: Action, id: nat)
    requires Over(s, id)
    ensures id !in Evicts(s, a)
  {
    hide Admits, EncodeResizeAck;
  }

  /** Once `writer_id` names a client that is over, it does so until another writer
      takes it: nobody may type meanwhile. */
  lemma {:induction false} StaleClaimLasts(run: seq<Action>, later: seq<Action>, id: nat)
    requires After(run).Some? && After(run + later).Some?
    requires Over(After(run).value, id) && After(run).value.writerId == id
    requires forall a :: a in later ==> !a.Claim?
    ensures Over(After(run + later).value, id) && After(run + later).value.writerId == id
    decreases |later|
  {
    hide Inv, Enabled, Apply, Over;
    if later == [] {
      assert run + later == run;
    } else {
      var before, a := later[..|later| - 1], later[|later| - 1];
      assert (run + later)[..|run + later| - 1] == run + before;
      assert a in later;
      StaleClaimLasts(run, before, id);
      EveryRunKeeps(run + before);
      OverStays(After(run + before).value, a, id);
      StaleStep(After(run + before).value, a, id);
    }
  }

  // ----- two writers attach -----

  lemma Then(run: seq<Action>, s: State, a: Action)
    requires After(run) == Some(s) && Enabled(s, a)
    ensures After(run + [a]) == Some(Apply(s, a))
    ensures Connected(run + [a]) == Moved(Connected(run), a)
  {
    hide Enabled, Apply, Moved;
    assert (run + [a])[..|run|] == run;
  }

  const ONE_WRITER: seq<Action> :=
    [] + [Connect(Writer)] + [Spawn(1)] + [OpenPty(1)] + [Claim(1)] + [AttachFirst(1)]
  const TWO_WRITERS: seq<Action> :=
    ONE_WRITER + [Connect(Writer)] + [Spawn(2)] + [Claim(2)] + [AttachBegin(2, None, [])]
  const TWO_ATTACHED: seq<Action> :=
    TWO_WRITERS + [AttachSend(2)] + [AttachEnd(2)] + [DrainTakes(2, false)] + [DrainWrites(2, 7)]

  /** Where the two threads of a client are, and whom it saved. */
  datatype Seat = Seat(handler: Handler, drain: Drain, previous: nat)

  predicate Live(seat: Seat) {
    seat.handler == Reading || seat.handler == Leaving
  }

  /** A client with nothing waiting for it. */
  ghost predicate At(s: State, id: nat, seat: Seat) {
    && id in s.sessions
    && var c := s.sessions[id];
       && c.handler == seat.handler && c.drain == seat.drain && c.previous == seat.previous
       && c.queue.frames == [] && (c.queue.closed <==> !Live(seat)) && (id in s.registered <==> Live(seat))
  }

  ghost predicate Two(s: State, a: Seat, b: Seat, holder: nat) {
    At(s, 1, a) && At(s, 2, b) && s.writerId == holder && s.lock.None?
  }

  /** The first writer is about to claim. */
  ghost predicate FirstChecked(s: State) {
    && s.sessions == map[1 := Newcomer(Writer).(handler := Checked(true))] && s.registered == {}
    && s.nextId == 2 && s.writerId == 0 && s.spawner == 1 && s.ptyOpen && s.lock == None && s.recent == []
  }

  lemma FirstArrives()
    ensures Enabled(INITIAL, Connect(Writer))
    ensures var t := Apply(INITIAL, Connect(Writer));
            && Enabled(t, Spawn(1)) && Enabled(Apply(t, Spawn(1)), OpenPty(1))
            && FirstChecked(Apply(Apply(t, Spawn(1)), OpenPty(1)))
  {
  }

  lemma FirstAttaches(s: State)
    requires FirstChecked(s)
    ensures Enabled(s, Claim(1)) && Enabled(Apply(s, Claim(1)), AttachFirst(1))
    ensures FirstAttached(Apply(Apply(s, Claim(1)), AttachFirst(1)))
  {
  }

  ghost predicate FirstAttached(s: State) {
    && s.sessions.Keys == {1} == s.registered && At(s, 1, Seat(Reading, Draining, 0))
    && s.nextId == 2 && s.writerId == 1 && s.spawner == 1 && s.lock == None && s.recent == []
  }

  lemma OneWriter() returns (s: State)
    ensures After(ONE_WRITER) == Some(s) && Connected(ONE_WRITER) == [1] && FirstAttached(s)
  {
    assert After([]) == Some(INITIAL) && Connected([]) == [];
    FirstArrives();
    QuietMoved([]);
    QuietMoved([1]);
    hide Enabled, Apply, FirstChecked, FirstAttached;
    Then([], INITIAL, Connect(Writer));
    s := Apply(INITIAL, Connect(Writer));
    var run := [] + [Connect(Writer)];
    Then(run, s, Spawn(1));
    s := Apply(s, Spawn(1));
    Then(run + [Spawn(1)], s, OpenPty(1));
    s := Apply(s, OpenPty(1));
    FirstAttaches(s);
    Then(run + [Spawn(1)] + [OpenPty(1)], s, Claim(1));
    s := Apply(s, Claim(1));
    Then(run + [Spawn(1)] + [OpenPty(1)] + [Claim(1)], s, AttachFirst(1));
    s := Apply(s, AttachFirst(1));
  }

  const CANCEL_FRAME := Frame(OUTPUT, [CANCEL])

  /** The second writer is about to be sent its replay, of nothing but a cancel. */
  ghost predicate SecondReplays(s: State) {
    && At(s, 1, Seat(Reading, Draining, 0)) && 2 in s.sessions && 2 !in s.registered
    && s.writerId == 2 && s.lock == Some(2)
    && var c := s.sessions[2];
       && c.handler == Replaying && c.drain == Draining && c.previous == 1 && c.queue == EMPTY
       && c.toReplay == [CANCEL_FRAME] && !c.deadline
  }

  /** The second writer has claimed. */
  ghost predicate SecondGreeted(s: State) {
    && At(s, 1, Seat(Reading, Draining, 0)) && 2 in s.sessions && 2 !in s.registered
    && s.writerId == 2 && s.lock.None? && s.recent == []
    && s.sessions[2] == Newcomer(Writer).(handler := Greeted(false), previous := 1)
  }

  lemma SecondArrives(s: State)
    requires FirstAttached(s)
    ensures var t := Apply(s, Connect(Writer));
            && Enabled(t, Spawn(2)) && Enabled(Apply(t, Spawn(2)), Claim(2))
            && SecondGreeted(Apply(Apply(t, Spawn(2)), Claim(2)))
  {
  }

  lemma SecondBegins(s: State)
    requires SecondGreeted(s)
    ensures Enabled(s, AttachBegin(2, None, [])) && SecondReplays(Apply(s, AttachBegin(2, None, [])))
  {
    assert ReplayFrames([]) == [] && [CANCEL] + [] == [CANCEL] && HistoryPlan(Writer, [], []) == [CANCEL_FRAME];
    hide HistoryPlan, ReplayFrames;
  }

  lemma TwoWriters() returns (s: State)
    ensures After(TWO_WRITERS) == Some(s) && Connected(TWO_WRITERS) == [1, 2] && SecondReplays(s)
  {
    s := OneWriter();
    SecondArrives(s);
    QuietMoved([1]);
    QuietMoved([1, 2]);
    ConnectEnabled(s);
    hide Enabled, Apply, SecondGreeted, SecondReplays;
    Then(ONE_WRITER, s, Connect(Writer));
    s := Apply(s, Connect(Writer));
    var run := ONE_WRITER + [Connect(Writer)];
    Then(run, s, Spawn(2));
    s := Apply(s, Spawn(2));
    Then(run + [Spawn(2)], s, Claim(2));
    s := Apply(s, Claim(2));
    SecondBegins(s);
    Then(run + [Spawn(2)] + [Claim(2)], s, AttachBegin(2, None, []));
    s := Apply(s, AttachBegin(2, None, []));
  }

  lemma ConnectEnabled(s: State)
    ensures Enabled(s, Connect(Writer))
  {
  }

  lemma CancelIsSmall()
    ensures Admits(EMPTY, CANCEL_FRAME) && Send(EMPTY, CANCEL_FRAME) == EMPTY.(frames := [CANCEL_FRAME])
    ensures |Encode(CANCEL_FRAME)| == 7
  {
  }

  /** The second writer is attached, with the cancel still waiting for it. */
  ghost predicate SecondWaits(s: State, d: Drain, waiting: seq<Frame>) {
    && At(s, 1, Seat(Reading, Draining, 0)) && 2 in s.sessions && 2 in s.registered
    && s.writerId == 2 && s.lock.None?
    && var c := s.sessions[2];
       && c.handler == Reading && c.drain == d && c.previous == 1 && !c.deadline
       && c.queue.frames == waiting && !c.queue.closed
  }

  lemma SecondAttaches(s: State)
    requires SecondReplays(s)
    ensures Enabled(s, AttachSend(2))
    ensures var t := Apply(s, AttachSend(2));
            Enabled(t, AttachEnd(2)) && SecondWaits(Apply(t, AttachEnd(2)), Draining, [CANCEL_FRAME])
  {
    CancelIsSmall();
    hide Admits, Send, Encode, Events;
  }

  lemma SecondTakes(s: State)
    requires SecondWaits(s, Draining, [CANCEL_FRAME])
    ensures Enabled(s, DrainTakes(2, false))
    ensures SecondWaits(Apply(s, DrainTakes(2, false)), Writing(Encode(CANCEL_FRAME)), [])
  {
    hide Encode;
  }

  lemma SecondWrites(s: State)
    requires SecondWaits(s, Writing(Encode(CANCEL_FRAME)), [])
    ensures Enabled(s, DrainWrites(2, 7))
    ensures Two(Apply(s, DrainWrites(2, 7)), Seat(Reading, Draining, 0), Seat(Reading, Draining, 1), 2)
  {
    CancelIsSmall();
    hide Encode;
  }

  lemma TwoAttached() returns (s: State)
    ensures After(TWO_ATTACHED) == Some(s) && Connected(TWO_ATTACHED) == [1, 2]
    ensures Two(s, Seat(Reading, Draining, 0), Seat(Reading, Draining, 1), 2)
  {
    s := TwoWriters();
    hide Enabled, Apply, SecondReplays, SecondWaits, Two, Moved;
    QuietMoved([1, 2]);
    var run := TWO_WRITERS;
    SecondAttaches(s);
    Then(run, s, AttachSend(2));
    s := Apply(s, AttachSend(2));
    Then(run + [AttachSend(2)], s, AttachEnd(2));
    s := Apply(s, AttachEnd(2));
    run := run + [AttachSend(2)] + [AttachEnd(2)];
    SecondTakes(s);
    Then(run, s, DrainTakes(2, false));
    s := Apply(s, DrainTakes(2, false));
    SecondWrites(s);
    Then(run + [DrainTakes(2, false)], s, DrainWrites(2, 7));
    s := Apply(s, DrainWrites(2, 7));
  }

  lemma QuietMoved(stack: seq<nat>)
    ensures forall a: Action :: !a.Claim? && HandsBack(a).None? ==> Moved(stack, a) == stack
  {
  }

  // ----- how a writer goes -----

  /** Two clients, of which `id` is about to move. */
  ghost predicate Seated(s: State, a: Seat, b: Seat, holder: nat, id: nat) {
    Two(s, a, b, holder) && (id == 1 || id == 2)
  }

  function Sits(id: nat, a: Seat, b: Seat): Seat {
    if id == 1 then a else b
  }

  /** ... and has. */
  ghost predicate Reseated(t: State, a: Seat, b: Seat, holder: nat, id: nat, c: Seat) {
    Two(t, if id == 1 then c else a, if id == 1 then b else c, holder)
  }

  lemma Leaves(s: State, a: Seat, b: Seat, holder: nat, id: nat)
    requires Seated(s, a, b, holder, id) && Sits(id, a, b).handler == Reading
    ensures Enabled(s, HandlerLeaves(id))
    ensures Reseated(Apply(s, HandlerLeaves(id)), a, b, holder, id, Sits(id, a, b).(handler := Leaving))
  {
  }

  lemma Unlinks(s: State, a: Seat, b: Seat, holder: nat, id: nat)
    requires Seated(s, a, b, holder, id) && Sits(id, a, b).handler == Leaving
    ensures Enabled(s, HandlerUnlinks(id))
    ensures Reseated(Apply(s, HandlerUnlinks(id)), a, b, holder, id, Sits(id, a, b).(handler := Unlinked))
  {
  }

  lemma Restores(s: State, a: Seat, b: Seat, holder: nat, id: nat)
    requires Seated(s, a, b, holder, id) && Sits(id, a, b).handler == Unlinked
    ensures Enabled(s, HandlerRestores(id))
    ensures Reseated(Apply(s, HandlerRestores(id)), a, b,
                   if holder == id then Sits(id, a, b).previous else holder, id, Sits(id, a, b).(handler := Finished))
  {
  }

  lemma Empties(s: State, a: Seat, b: Seat, holder: nat, id: nat)
    requires Seated(s, a, b, holder, id) && Sits(id, a, b).drain == Draining && !Live(Sits(id, a, b))
    ensures Enabled(s, DrainTakes(id, false))
    ensures Reseated(Apply(s, DrainTakes(id, false)), a, b, holder, id, Sits(id, a, b).(drain := Stopped))
  {
  }

  lemma Shuts(s: State, a: Seat, b: Seat, holder: nat, id: nat)
    requires Seated(s, a, b, holder, id) && Sits(id, a, b).drain == Stopped && !Live(Sits(id, a, b))
    ensures Enabled(s, DrainShuts(id))
    ensures Reseated(Apply(s, DrainShuts(id)), a, b, holder, id, Sits(id, a, b).(drain := Shut))
  {
  }

  lemma Removes(s: State, a: Seat, b: Seat, holder: nat, id: nat)
    requires Seated(s, a, b, holder, id) && Sits(id, a, b).drain == Shut && !Live(Sits(id, a, b))
    ensures Enabled(s, DrainUnlinks(id))
    ensures Reseated(Apply(s, DrainUnlinks(id)), a, b, holder, id, Sits(id, a, b).(drain := Removed))
  {
  }

  lemma Ends(s: State, a: Seat, b: Seat, holder: nat, id: nat)
    requires Seated(s, a, b, holder, id) && Sits(id, a, b).drain == Removed && !Live(Sits(id, a, b))
    ensures Enabled(s, DrainRestores(id))
    ensures Reseated(Apply(s, DrainRestores(id)), a, b,
                   if holder == id then Sits(id, a, b).previous else holder, id, Sits(id, a, b).(drain := Ended))
  {
  }

  /** The handler stops reading and removes the sender. */
  lemma HandlerGoes(run: seq<Action>, s: State, a: Seat, b: Seat, holder: nat, id: nat) returns (t: State)
    requires After(run) == Some(s) && Seated(s, a, b, holder, id) && Sits(id, a, b).handler == Reading
    ensures After(run + [HandlerLeaves(id)] + [HandlerUnlinks(id)]) == Some(t)
    ensures Connected(run + [HandlerLeaves(id)] + [HandlerUnlinks(id)]) == Connected(run)
    ensures Reseated(t, a, b, holder, id, Sits(id, a, b).(handler := Unlinked))
  {
    hide Enabled, Apply, At;
    var c := Sits(id, a, b).(handler := Leaving);
    Leaves(s, a, b, holder, id);
    Then(run, s, HandlerLeaves(id));
    t := Apply(s, HandlerLeaves(id));
    Unlinks(t, if id == 1 then c else a, if id == 1 then b else c, holder, id);
    Then(run + [HandlerLeaves(id)], t, HandlerUnlinks(id));
    t := Apply(t, HandlerUnlinks(id));
  }

  /** ... and runs its compare-exchange. */
  lemma HandlerHandsBack(run: seq<Action>, s: State, a: Seat, b: Seat, holder: nat, id: nat) returns (t: State)
    requires After(run) == Some(s) && Seated(s, a, b, holder, id) && Sits(id, a, b).handler == Unlinked
    ensures After(run + [HandlerRestores(id)]) == Some(t)
    ensures Connected(run + [HandlerRestores(id)]) == Without(Connected(run), id)
    ensures Reseated(t, a, b, if holder == id then Sits(id, a, b).previous else holder, id,
                   Sits(id, a, b).(handler := Finished))
  {
    hide Enabled, Apply, At, Without;
    Restores(s, a, b, holder, id);
    Then(run, s, HandlerRestores(id));
    t := Apply(s, HandlerRestores(id));
  }

  /** The drain thread finds the queue closed and empty, cleans up and runs its own compare-exchange. */
  lemma DrainGoes(run: seq<Action>, s: State, a: Seat, b: Seat, holder: nat, id: nat) returns (t: State)
    requires After(run) == Some(s) && Seated(s, a, b, holder, id)
    requires Sits(id, a, b).drain == Draining && !Live(Sits(id, a, b))
    ensures var whole := run + [DrainTakes(id, false)] + [DrainShuts(id)] + [DrainUnlinks(id)] + [DrainRestores(id)];
            After(whole) == Some(t) && Connected(whole) == Without(Connected(run), id)
    ensures Reseated(t, a, b, if holder == id then Sits(id, a, b).previous else holder, id,
                   Sits(id, a, b).(drain := Ended))
  {
    hide Enabled, Apply, At, Without;
    var c := Sits(id, a, b);
    Empties(s, a, b, holder, id);
    Then(run, s, DrainTakes(id, false));
    t := Apply(s, DrainTakes(id, false));
    c := c.(drain := Stopped);
    Shuts(t, if id == 1 then c else a, if id == 1 then b else c, holder, id);
    var so := run + [DrainTakes(id, false)];
    Then(so, t, DrainShuts(id));
    t := Apply(t, DrainShuts(id));
    c := c.(drain := Shut);
    Removes(t, if id == 1 then c else a, if id == 1 then b else c, holder, id);
    Then(so + [DrainShuts(id)], t, DrainUnlinks(id));
    t := Apply(t, DrainUnlinks(id));
    c := c.(drain := Removed);
    Ends(t, if id == 1 then c else a, if id == 1 then b else c, holder, id);
    Then(so + [DrainShuts(id)] + [DrainUnlinks(id)], t, DrainRestores(id));
    t := Apply(t, DrainRestores(id));
  }

  lemma NobodyLeft(run: seq<Action>, s: State, stack: seq<nat>, a: Seat, b: Seat)
    requires After(run) == Some(s) && Two(s, a, b, 1) && Connected(run) == stack
    requires a.handler == b.handler == Finished && a.drain == b.drain == Ended && stack == []
    ensures Over(s, 1) && Over(s, 2) && !NewestHeld(run)
  {
  }

  lemma BothWithout()
    ensures Without([1, 2], 1) == [2] && Without([2], 1) == [2] && Without([2], 2) == [] && Without([], 2) == []
  {
    assert [1, 2][1..] == [2] && [2][1..] == [];
  }

  // ----- lasting disorder -----

  const OLDER_LEAVES_FIRST: seq<Action> :=
    TWO_ATTACHED + [HandlerLeaves(1)] + [HandlerUnlinks(1)] + [HandlerRestores(1)]
    + [DrainTakes(1, false)] + [DrainShuts(1)] + [DrainUnlinks(1)] + [DrainRestores(1)]
    + [HandlerLeaves(2)] + [HandlerUnlinks(2)] + [HandlerRestores(2)]
    + [DrainTakes(2, false)] + [DrainShuts(2)] + [DrainUnlinks(2)] + [DrainRestores(2)]
  const NEWER_LEAVES_FIRST: seq<Action> :=
    TWO_ATTACHED + [HandlerLeaves(2)] + [HandlerUnlinks(2)]
    + [HandlerLeaves(1)] + [HandlerUnlinks(1)] + [HandlerRestores(1)]
    + [DrainTakes(1, false)] + [DrainShuts(1)] + [DrainUnlinks(1)] + [DrainRestores(1)]
    + [HandlerRestores(2)]
    + [DrainTakes(2, false)] + [DrainShuts(2)] + [DrainUnlinks(2)] + [DrainRestores(2)]

  /** When the older of two writers leaves first, and entirely, the newer one hands
      the right to type to it. Both are gone for good, and nobody can type. */
  lemma OutOfOrderClaimIsStale() returns (s: State)
    ensures After(OLDER_LEAVES_FIRST) == Some(s) && s.writerId == 1 && Over(s, 1) && Over(s, 2)
    ensures Connected(OLDER_LEAVES_FIRST) == [] && !NewestHeld(OLDER_LEAVES_FIRST)
  {
    hide At, Connected, Without, Over, NewestHeld;
    BothWithout();
    s := TwoAttached();
    var run := TWO_ATTACHED;
    var a, b := Seat(Reading, Draining, 0), Seat(Reading, Draining, 1);
    s := HandlerGoes(run, s, a, b, 2, 1);
    run, a := run + [HandlerLeaves(1)] + [HandlerUnlinks(1)], a.(handler := Unlinked);
    s := HandlerHandsBack(run, s, a, b, 2, 1);
    run, a := run + [HandlerRestores(1)], a.(handler := Finished);
    s := DrainGoes(run, s, a, b, 2, 1);
    run := run + [DrainTakes(1, false)] + [DrainShuts(1)] + [DrainUnlinks(1)] + [DrainRestores(1)];
    a := a.(drain := Ended);
    s := HandlerGoes(run, s, a, b, 2, 2);
    run, b := run + [HandlerLeaves(2)] + [HandlerUnlinks(2)], b.(handler := Unlinked);
    s := HandlerHandsBack(run, s, a, b, 2, 2);
    run, b := run + [HandlerRestores(2)], b.(handler := Finished);
    s := DrainGoes(run, s, a, b, 1, 2);
    run := run + [DrainTakes(2, false)] + [DrainShuts(2)] + [DrainUnlinks(2)] + [DrainRestores(2)];
    NobodyLeft(run, s, [], a, b.(drain := Ended));
  }

  /** Leaving in the reverse order is not enough. The newer writer leaves first, but
      the older one goes, entirely, between the newer one's removal and its
      compare-exchange; the end is the same. */
  lemma OvertakenClaimIsStale() returns (s: State)
    ensures After(NEWER_LEAVES_FIRST) == Some(s) && s.writerId == 1 && Over(s, 1) && Over(s, 2)
    ensures Connected(NEWER_LEAVES_FIRST) == [] && !NewestHeld(NEWER_LEAVES_FIRST)
  {
    hide At, Connected, Without, Over, NewestHeld;
    BothWithout();
    s := TwoAttached();
    var run := TWO_ATTACHED;
    var a, b := Seat(Reading, Draining, 0), Seat(Reading, Draining, 1);
    s := HandlerGoes(run, s, a, b, 2, 2);
    run, b := run + [HandlerLeaves(2)] + [HandlerUnlinks(2)], b.(handler := Unlinked);
    s := HandlerGoes(run, s, a, b, 2, 1);
    run, a := run + [HandlerLeaves(1)] + [HandlerUnlinks(1)], a.(handler := Unlinked);
    s := HandlerHandsBack(run, s, a, b, 2, 1);
    run, a := run + [HandlerRestores(1)], a.(handler := Finished);
    s := DrainGoes(run, s, a, b, 2, 1);
    run := run + [DrainTakes(1, false)] + [DrainShuts(1)] + [DrainUnlinks(1)] + [DrainRestores(1)];
    a := a.(drain := Ended);
    s := HandlerHandsBack(run, s, a, b, 2, 2);
    run, b := run + [HandlerRestores(2)], b.(handler := Finished);
    s := DrainGoes(run, s, a, b, 1, 2);
    run := run + [DrainTakes(2, false)] + [DrainShuts(2)] + [DrainUnlinks(2)] + [DrainRestores(2)];
    NobodyLeft(run, s, [], a, b.(drain := Ended));
  }
}
