/** What a step leaves alone: clients other than the one it moves, and most of that one. */
module Locality {
  import opened Bytes
  import opened Wire
  import opened Queueing
  import opened Broker
  import opened BrokerInvariant

  /** The client a step belongs to, if there is one. */
  function Actor(a: Action): Option<nat> {
    match a
    case Connect(_) => None
    case PtyRead(_) => None
    case Stop => None
    case BroadcastExit(_) => None
    case _ => Some(a.id)
  }

  /** A client may be given a frame or have its queue closed; nothing else of it changes. */
  ghost predicate Given(c: Session, c': Session) {
    c' == c.(queue := c'.queue, stream := c'.stream, upto := c'.upto, deadline := c'.deadline, exitMark := c'.exitMark)
  }

  ghost predicate OnlyGiven(s: State, t: State, id: nat) {
    id in s.sessions && id in t.sessions && Given(s.sessions[id], t.sessions[id])
  }

  lemma BroadcastGives(s: State, f: Frame, id: nat)
    requires id in s.sessions
    ensures OnlyGiven(s, Broadcast(s, f), id)
  {
    hide Admits, Send, Events;
  }

  lemma ExitGives(s: State, exit: Frame, id: nat)
    requires id in s.sessions
    ensures OnlyGiven(s, DoBroadcastExit(s, exit), id)
  {
    hide Admits, Send, Events;
  }

  lemma PutElsewhere(s: State, who: nat, c: Session, id: nat)
    requires id in s.sessions && who != id
    ensures OnlyGiven(s, Put(s, who, c), id)
  {
  }

  lemma UnlinkElsewhere(s: State, who: nat, id: nat)
    requires id in s.sessions && who in s.sessions
    ensures OnlyGiven(s, Unlink(s, who), id) && OnlyGiven(s, Restore(s, who), id) && who in Unlink(s, who).sessions
  {
    hide Unlink, Restore, OnlyGiven;
    UnlinkGives(s, who, id);
    RestoreGives(s, who, id);
  }

  lemma UnlinkGives(s: State, who: nat, id: nat)
    requires id in s.sessions && who in s.sessions
    ensures OnlyGiven(s, Unlink(s, who), id) && who in Unlink(s, who).sessions
  {
  }

  lemma RestoreGives(s: State, who: nat, id: nat)
    requires id in s.sessions && who in s.sessions
    ensures OnlyGiven(s, Restore(s, who), id)
  {
  }

  lemma DrainElsewhere(s: State, a: Action, id: nat)
    requires Enabled(s, a) && id in s.sessions && ByDrain(a) && a.id != id
    ensures OnlyGiven(s, Apply(s, a), id)
  {
    hide Enabled, Apply, OnlyGiven;
    if a.DrainUnlinks? || a.DrainRestores? {
      DrainEndElsewhere(s, a, id);
    } else {
      DrainMoveElsewhere(s, a, id);
    }
  }

  lemma DrainMoveElsewhere(s: State, a: Action, id: nat)
    requires Enabled(s, a) && id in s.sessions && (a.DrainTakes? || a.DrainWrites? || a.DrainFails? || a.DrainShuts?)
    requires a.id != id
    ensures OnlyGiven(s, Apply(s, a), id)
  {
    hide Taking, Due, Put, OnlyGiven, Closing;
    match a
    case DrainTakes(who, now) => PutElsewhere(s, who, Taking(s.sessions[who], now), id);
    case DrainWrites(who, count) =>
      var c := s.sessions[who];
      var rest := c.drain.rest[count..];
      PutElsewhere(s, who, c.(wire := c.wire + c.drain.rest[..count],
                              drain := if rest == [] then Draining else Writing(rest)), id);
    case DrainFails(who) => PutElsewhere(s, who, s.sessions[who].(drain := Stopped), id);
    case DrainShuts(who) => PutElsewhere(s, who, Closing(s.sessions[who]).(drain := Shut), id);
  }

  lemma DrainEndElsewhere(s: State, a: Action, id: nat)
    requires Enabled(s, a) && id in s.sessions && (a.DrainUnlinks? || a.DrainRestores?) && a.id != id
    ensures OnlyGiven(s, Apply(s, a), id)
  {
    hide Unlink, Restore;
    UnlinkElsewhere(s, a.id, id);
  }

  lemma HandlerElsewhere(s: State, a: Action, id: nat)
    requires Enabled(s, a) && id in s.sessions
    requires || a.ClientSends? || a.TypeInput? || a.DropInput? || a.Stop?
             || a.HandlerLeaves? || a.HandlerUnlinks? || a.HandlerRestores?
    requires a.Stop? || a.id != id
    ensures OnlyGiven(s, Apply(s, a), id)
  {
    hide Unlink, Restore;
    if a.HandlerUnlinks? || a.HandlerRestores? {
      UnlinkElsewhere(s, a.id, id);
    }
  }

  lemma ArrivalElsewhere(s: State, a: Action, id: nat)
    requires Enabled(s, a) && id in s.sessions && OnArrival(a) && (a.Connect? || a.id != id) && id < s.nextId
    ensures OnlyGiven(s, Apply(s, a), id)
  {
    hide Offer, Admits, Events, HistoryPlan, ReplayFrames;
  }

  lemma ReadElsewhere(s: State, data: seq<byte>, id: nat)
    requires Enabled(s, PtyRead(data)) && id in s.sessions
    ensures OnlyGiven(s, Apply(s, PtyRead(data)), id)
  {
    hide Broadcast, LastN;
    BroadcastGives(s.(recent := LastN(RING_CAPACITY, s.recent + data)), Frame(OUTPUT, data), id);
  }

  lemma ResizeElsewhere(s: State, who: nat, id: nat)
    requires Enabled(s, CommitResize(who)) && id in s.sessions
    ensures var c := if who == id then s.sessions[id].(handler := Reading) else s.sessions[id];
            var t := Apply(s, CommitResize(who));
            id in t.sessions && Given(c, t.sessions[id])
  {
    hide Broadcast, EncodeResizeAck, Given;
    var h := s.sessions[who].handler;
    var t := Put(s.(gen := s.gen + 1), who, s.sessions[who].(handler := Reading));
    BroadcastGives(t, ResizeAckFrame(s.gen + 1, h.cols, h.rows), id);
  }

  lemma HandleElsewhere(s: State, who: nat, id: nat)
    requires Enabled(s, Handle(who)) && id in s.sessions && who != id
    ensures OnlyGiven(s, Apply(s, Handle(who)), id)
  {
    hide Answer, Acting, Put, MayType, Noted, OnlyGiven;
    var c, noted := s.sessions[who], Noted(s, who);
    AnswerElsewhere(s, who, noted, id);
    PutElsewhere(s, who, noted, id);
    PutElsewhere(s, who, noted.(handler := Acting(c.outbox[c.handled], MayType(s, who))), id);
    StoppedElsewhere(s, who, noted.(handler := Finished), id);
  }

  lemma StoppedElsewhere(s: State, who: nat, c: Session, id: nat)
    requires id in s.sessions && who != id
    ensures OnlyGiven(s, Put(s.(running := false), who, c), id)
  {
  }

  lemma AnswerElsewhere(s: State, who: nat, c: Session, id: nat)
    requires id in s.sessions && who in s.sessions && who != id
    ensures OnlyGiven(s, Answer(s, who, c), id)
  {
    hide Offer, Admits, Put, Unlink, OnlyGiven;
    var left := Put(s, who, c.(handler := Leaving));
    PutElsewhere(s, who, c, id);
    PutElsewhere(s, who, Offer(c, PONG_FRAME), id);
    PutElsewhere(s, who, c.(handler := Leaving), id);
    PutSelf(s, who, c.(handler := Leaving));
    GivenIsThere(s, left, id);
    UnlinkElsewhere(left, who, id);
    GivenTwice(s, left, Unlink(left, who), id);
  }

  lemma GivenIsThere(s: State, t: State, id: nat)
    requires OnlyGiven(s, t, id)
    ensures id in t.sessions
  {
  }

  lemma GivenTwice(s: State, t: State, u: State, id: nat)
    requires OnlyGiven(s, t, id) && OnlyGiven(t, u, id)
    ensures OnlyGiven(s, u, id)
  {
  }

  /** A step of somebody else. */
  lemma OthersKept(s: State, a: Action, id: nat)
    requires Enabled(s, a) && id in s.sessions && id < s.nextId && Actor(a) != Some(id)
    ensures OnlyGiven(s, Apply(s, a), id)
  {
    hide Enabled, Apply, OnlyGiven;
    if ByDrain(a) {
      DrainElsewhere(s, a, id);
    } else if OnArrival(a) {
      ArrivalElsewhere(s, a, id);
    } else if a.PtyRead? {
      ReadElsewhere(s, a.data, id);
    } else if a.CommitResize? {
      CommitElsewhere(s, a.id, id);
    } else if a.BroadcastExit? {
      BroadcastElsewhere(s, a.code, id);
    } else if a.Handle? {
      HandleElsewhere(s, a.id, id);
    } else {
      HandlerElsewhere(s, a, id);
    }
  }

  lemma CommitElsewhere(s: State, who: nat, id: nat)
    requires Enabled(s, CommitResize(who)) && id in s.sessions && who != id
    ensures OnlyGiven(s, Apply(s, CommitResize(who)), id)
  {
    ResizeElsewhere(s, who, id);
    hide Enabled, Apply, Given;
  }

  lemma BroadcastElsewhere(s: State, code: seq<byte>, id: nat)
    requires Enabled(s, BroadcastExit(code)) && id in s.sessions
    ensures OnlyGiven(s, Apply(s, BroadcastExit(code)), id)
  {
    hide DoBroadcastExit;
    ExitGives(s, Frame(EXIT, code), id);
  }

  // ----- what a client has asked, and what is being done about it -----

  /** About to act on a message that passed the writer check. */
  predicate Busy(h: Handler) {
    h.Typing? || h.Resizing?
  }

  ghost predicate DeskKept(c: Session, c': Session) {
    && c'.outbox == c.outbox && c'.handled == c.handled && c'.verdicts == c.verdicts
    && (c'.handler == c.handler || (!Busy(c.handler) && !Busy(c'.handler)))
  }

  /** Steps that send, read or act on a client's messages. */
  predicate OnMessage(a: Action) {
    a.ClientSends? || a.Handle? || a.TypeInput? || a.DropInput? || a.CommitResize?
  }

  lemma DrainDesk(s: State, a: Action)
    requires Enabled(s, a) && ByDrain(a)
    ensures a.id in s.sessions && a.id in Apply(s, a).sessions
    ensures DeskKept(s.sessions[a.id], Apply(s, a).sessions[a.id])
  {
    hide Enabled, Apply, DeskKept;
    if a.DrainUnlinks? || a.DrainRestores? {
      DrainEndDesk(s, a);
    } else {
      DrainMoveDesk(s, a);
    }
  }

  lemma DrainMoveDesk(s: State, a: Action)
    requires Enabled(s, a) && (a.DrainTakes? || a.DrainWrites? || a.DrainFails? || a.DrainShuts?)
    ensures a.id in s.sessions && a.id in Apply(s, a).sessions
    ensures DeskKept(s.sessions[a.id], Apply(s, a).sessions[a.id])
  {
    hide Due, Busy, AfterRecv;
  }

  lemma DrainEndDesk(s: State, a: Action)
    requires Enabled(s, a) && (a.DrainUnlinks? || a.DrainRestores?)
    ensures a.id in s.sessions && a.id in Apply(s, a).sessions
    ensures DeskKept(s.sessions[a.id], Apply(s, a).sessions[a.id])
  {
    hide Restore, Unlink, Busy;
    RestoreSessions(s, a.id);
    UnlinkElsewhere(s, a.id, a.id);
  }

  lemma RestoreSessions(s: State, id: nat)
    requires id in s.sessions
    ensures Restore(s, id).sessions == s.sessions
  {
  }

  lemma ArrivalDesk(s: State, a: Action)
    requires Enabled(s, a) && OnArrival(a) && !a.Connect?
    requires s.lock.Some? ==> s.lock.value in s.sessions && s.sessions[s.lock.value].handler == Replaying
    ensures a.id in s.sessions && a.id in Apply(s, a).sessions
    ensures DeskKept(s.sessions[a.id], Apply(s, a).sessions[a.id])
  {
    hide Admits, Events, Send, HistoryPlan, ReplayFrames, Put;
    match a
    case Spawn(id) => PutSelf(s.(spawner := if s.spawner == 0 then id else s.spawner), id,
                              s.sessions[id].(handler := Checked(s.spawner == 0)));
    case OpenPty(_) =>
    case Claim(id) =>
      var c := s.sessions[id];
      PutSelf(s.(writerId := id), id, c.(previous := s.writerId, handler := Greeted(c.handler.first)));
    case AttachFirst(id) =>
      PutSelf(s.(registered := s.registered + {id}, ptyReading := true), id,
              s.sessions[id].(handler := Reading, origin := FirstWriter, from := |s.log|, upto := |s.log|));
    case AttachBegin(id, snapshot, modes) => BeginDesk(s, id, snapshot, modes);
    case AttachSend(id) => SendDesk(s, id);
    case AttachEnd(id) =>
      PutSelf(s.(lock := None, registered := s.registered + {id}), id, s.sessions[id].(handler := Reading));
  }

  lemma BeginDesk(s: State, id: nat, snapshot: Option<seq<byte>>, modes: seq<byte>)
    requires id in s.sessions && s.sessions[id].handler == Greeted(false)
    ensures id in DoAttachBegin(s, id, snapshot, modes).sessions
    ensures DeskKept(s.sessions[id], DoAttachBegin(s, id, snapshot, modes).sessions[id])
  {
    hide HistoryPlan, ReplayFrames;
  }

  lemma SendDesk(s: State, id: nat)
    requires id in s.sessions && s.sessions[id].toReplay != []
    ensures id in DoAttachSend(s, id).sessions
    ensures DeskKept(s.sessions[id], DoAttachSend(s, id).sessions[id])
  {
    hide Admits, Events, Send;
  }

  lemma HandlerDesk(s: State, a: Action)
    requires Enabled(s, a) && (a.HandlerLeaves? || a.HandlerUnlinks? || a.HandlerRestores?)
    ensures a.id in s.sessions && a.id in Apply(s, a).sessions
    ensures DeskKept(s.sessions[a.id], Apply(s, a).sessions[a.id])
  {
    hide Restore;
    RestoreSessions(s, a.id);
  }

  lemma LockIsHeld(s: State)
    requires Inv(s)
    ensures s.lock.Some? ==> s.lock.value in s.sessions && s.sessions[s.lock.value].handler == Replaying
    ensures forall id :: id in s.sessions ==> 0 < id < s.nextId
  {
    hide Healthy, AuthorityOk, FirstOk, AcksNumbered, LastN, HistoryOf;
  }

  /** Any step but those on its own messages. */
  lemma DeskStays(s: State, a: Action, id: nat)
    requires Inv(s) && Enabled(s, a) && id in s.sessions
    requires !(OnMessage(a) && Actor(a) == Some(id))
    ensures id in Apply(s, a).sessions && DeskKept(s.sessions[id], Apply(s, a).sessions[id])
  {
    LockIsHeld(s);
    hide Inv, Enabled, Apply, DeskKept;
    if Actor(a) != Some(id) {
      OthersKept(s, a, id);
      GivenKeepsDesk(s.sessions[id], Apply(s, a).sessions[id]);
    } else if ByDrain(a) {
      DrainDesk(s, a);
    } else if OnArrival(a) {
      ArrivalDesk(s, a);
    } else {
      HandlerDesk(s, a);
    }
  }

  lemma GivenKeepsDesk(c: Session, c': Session)
    requires Given(c, c')
    ensures DeskKept(c, c')
  {
  }

  lemma SendsDesk(s: State, id: nat, msg: Message)
    requires Enabled(s, ClientSends(id, msg))
    ensures id in s.sessions && id in Apply(s, ClientSends(id, msg)).sessions
    ensures Apply(s, ClientSends(id, msg)).sessions[id] == s.sessions[id].(outbox := s.sessions[id].outbox + [msg])
  {
  }

  lemma TypesDesk(s: State, id: nat)
    requires Enabled(s, TypeInput(id))
    ensures id in s.sessions && s.sessions[id].handler.Typing? && id in Apply(s, TypeInput(id)).sessions
    ensures Apply(s, TypeInput(id)).sessions[id] == s.sessions[id].(handler := Reading)
  {
  }

  lemma DropsDesk(s: State, id: nat)
    requires Enabled(s, DropInput(id))
    ensures id in s.sessions && s.sessions[id].handler.Typing? && id in Apply(s, DropInput(id)).sessions
    ensures Apply(s, DropInput(id)).sessions[id] == Dropping(s.sessions[id])
  {
  }

  lemma CommitsDesk(s: State, id: nat)
    requires Enabled(s, CommitResize(id))
    ensures id in s.sessions && s.sessions[id].handler.Resizing? && id in Apply(s, CommitResize(id)).sessions
    ensures Given(s.sessions[id].(handler := Reading), Apply(s, CommitResize(id)).sessions[id])
  {
    ResizeElsewhere(s, id, id);
    hide Given, Broadcast;
  }

  /** What handling a message does. An Input or a Resize goes on to act exactly if, at
      this very step, the sender holds `writer_id` and the spawn is under way. */
  ghost predicate HandledAs(s: State, id: nat, t: State) {
    && id in s.sessions && id in t.sessions
    && var c, c' := s.sessions[id], t.sessions[id];
       && c.handler == Reading && c.handled < |c.outbox|
       && c'.outbox == c.outbox && c'.handled == c.handled + 1
       && c'.verdicts == c.verdicts + [s.writerId == id && s.spawner != 0]
       && var m := c.outbox[c.handled];
          if m.Input? && s.writerId == id && s.spawner != 0 then c'.handler == Typing(m.payload)
          else if m.Resize? && s.writerId == id && s.spawner != 0 then c'.handler == Resizing(m.cols, m.rows)
          else !Busy(c'.handler)
  }

  lemma HandlesDesk(s: State, id: nat)
    requires Enabled(s, Handle(id))
    ensures HandledAs(s, id, Apply(s, Handle(id)))
  {
    hide HandledAs, DoHandle;
    if s.sessions[id].outbox[s.sessions[id].handled] == Ping {
      PingsDesk(s, id);
    } else {
      ActsDesk(s, id);
    }
  }

  lemma PingsDesk(s: State, id: nat)
    requires Enabled(s, Handle(id)) && s.sessions[id].outbox[s.sessions[id].handled] == Ping
    ensures HandledAs(s, id, DoHandle(s, id))
  {
    hide Answer;
    AnswerDesk(s, id, Noted(s, id));
  }

  lemma AnswerDesk(s: State, id: nat, c: Session)
    requires id in s.sessions
    ensures id in Answer(s, id, c).sessions
    ensures var c' := Answer(s, id, c).sessions[id];
            && c'.outbox == c.outbox && c'.handled == c.handled && c'.verdicts == c.verdicts
            && (c'.handler == c.handler || c'.handler == Leaving)
  {
    hide Admits, Send, Events, Put, Unlink;
    PutSelf(s, id, c);
    PutSelf(s, id, Offer(c, PONG_FRAME));
    PutSelf(s, id, c.(handler := Leaving));
    UnlinkElsewhere(Put(s, id, c.(handler := Leaving)), id, id);
  }

  lemma PutSelf(s: State, id: nat, c: Session)
    ensures id in Put(s, id, c).sessions && Put(s, id, c).sessions[id] == c
  {
  }

  lemma ActsDesk(s: State, id: nat)
    requires Enabled(s, Handle(id)) && s.sessions[id].outbox[s.sessions[id].handled] != Ping
    ensures HandledAs(s, id, DoHandle(s, id))
  {
    hide Answer, Put;
    var c, noted := s.sessions[id], Noted(s, id);
    PutSelf(s, id, noted);
    PutSelf(s.(running := false), id, noted.(handler := Finished));
    PutSelf(s, id, noted.(handler := Acting(c.outbox[c.handled], MayType(s, id))));
  }
}
