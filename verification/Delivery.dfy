/** What clients can rely on, in every reachable state of the broker. */
module Delivery {
  import opened Bytes
  import opened Wire
  import opened Queueing
  import opened Broker
  import opened BrokerInvariant
  import opened BrokerSteps

  // ----- exactly-once delivery -----

  /** The PTY history, and its length when the client attached and when it last received some. */
  function Hist(s: State): seq<byte> {
    HistoryOf(s.log)
  }

  function HistAt(s: State, at: nat): nat {
    if at <= |s.log| then |HistoryOf(s.log[..at])| else 0
  }

  /** What a client must be shown before live output. */
  function ReplayBytes(s: State, c: Session): seq<byte> {
    match c.origin
    case Pending => []
    case FirstWriter => []
    case History(modes) =>
      LastN(RING_CAPACITY, Hist(s)[..Min(HistAt(s, c.from), |Hist(s)|)]) +
      if c.role == Writer then [CANCEL] + modes else []
    case Snapshot(data) => ENTER_ALTERNATE + data
  }

  /** The replay is within the queue's budget; always so unless it is a snapshot. */
  predicate ReplayFits(c: Session) {
    c.origin.Snapshot? ==> Size(ReplayFrames(ENTER_ALTERNATE + c.origin.data)) <= CLIENT_QUEUE_BYTES
  }

  /** Replay and then one contiguous piece of the history. */
  function Expected(s: State, c: Session): seq<byte> {
    var from, upto := HistAt(s, c.from), HistAt(s, c.upto);
    ReplayBytes(s, c) + if from <= upto <= |Hist(s)| then Hist(s)[from..upto] else []
  }

  lemma LogPieces(log: seq<Event>, from: nat, upto: nat)
    requires from <= upto <= |log|
    ensures var a, b := |HistoryOf(log[..from])|, |HistoryOf(log[..upto])|;
            && a <= b <= |HistoryOf(log)|
            && HistoryOf(log)[..a] == HistoryOf(log[..from])
            && HistoryOf(log)[a..b] == HistoryOf(log[from..upto])
  {
    hide HistoryOf;
    assert log == log[..upto] + log[upto..] && log[..upto] == log[..from] + log[from..upto];
    HistoryAppend(log[..upto], log[upto..]);
    HistoryAppend(log[..from], log[from..upto]);
  }

  /** Pongs, Exit and ResizeAcks carry no output, so the shared part of a stream has all of it. */
  lemma {:induction false} SharedHasAllOutput(es: seq<Event>)
    ensures HistoryOf(Shared(es)) == HistoryOf(es)
  {
    if es != [] {
      SharedHasAllOutput(es[1..]);
      HistoryAppend(if IsShared(es[0]) then [es[0]] else [], Shared(es[1..]));
      assert [es[0]][1..] == [];
    }
  }

  lemma HistoryOfPlan(role: Role, recent: seq<byte>, modes: seq<byte>)
    requires |recent| <= RING_CAPACITY && |modes| < MAX_PAYLOAD_SIZE
    ensures var plan := HistoryPlan(role, recent, modes);
            && Flat(plan) == OutputEvents(recent + if role == Writer then [CANCEL] + modes else [])
            && Size(plan) <= CLIENT_QUEUE_BYTES
  {
    hide ReplayFrames, Flat, Size;
    ReplayRejoins(recent);
    HistoryFits(recent, [CANCEL] + modes);
    if role == Writer {
      var f := Frame(OUTPUT, [CANCEL] + modes);
      FlatSnoc(ReplayFrames(recent), f);
      SizeSnoc(ReplayFrames(recent), f);
      assert OutputEvents(recent + ([CANCEL] + modes)) == OutputEvents(recent) + OutputEvents([CANCEL] + modes);
    } else {
      assert ReplayFrames(recent) + [] == ReplayFrames(recent);
      assert recent + [] == recent;
    }
  }

  /** The planned replay says exactly the bytes the client must be shown first, and fits. */
  /** What a client is shown before live output, in bytes. The first writer is shown
      nothing; a client attached by its history, the last mebibyte of it at most, and
      then, if it is a writer, CAN and the mode bytes; a client attached by a snapshot,
      which is never a writer, ESC [ ? 1 0 4 9 h and the snapshot. */
  lemma ReplayInBytes(s: State, id: nat)
    requires Reachable(s) && id in s.sessions && !Fresh(s.sessions[id].handler)
    ensures var c := s.sessions[id];
            var before := HistoryOf(s.log)[..Min(HistAt(s, c.from), |HistoryOf(s.log)|)];
            && c.from <= |s.log| && before == HistoryOf(s.log[..c.from])
            && match c.origin
               case Pending => false
               case FirstWriter => c.role == Writer && before == [] && ReplayBytes(s, c) == []
               case History(modes) =>
                 ReplayBytes(s, c) ==
                 before[if |before| <= 1_048_576 then 0 else |before| - 1_048_576..] +
                 if c.role == Writer then [0x18] + modes else []
               case Snapshot(data) =>
                 c.role != Writer
                 && ReplayBytes(s, c) == [0x1b, 0x5b, 0x3f, 0x31, 0x30, 0x34, 0x39, 0x68] + data
  {
    hide HistoryOf, Reachable, Inv, Healthy, ReplayBytes;
    ReachableKeeps(s);
    var c := s.sessions[id];
    HealthyOf(s, id);
    OriginIs(c, s.log, id in s.registered, TypedBy(s.typed, id));
    LogPieces(s.log, c.from, |s.log|);
    assert s.log[..|s.log|] == s.log;
    ReplayIs(s, c, HistoryOf(s.log[..c.from]));
  }

  lemma ReplayIs(s: State, c: Session, before: seq<byte>)
    requires before == Hist(s)[..Min(HistAt(s, c.from), |Hist(s)|)]
    ensures c.origin.FirstWriter? ==> ReplayBytes(s, c) == []
    ensures c.origin.History? ==>
              ReplayBytes(s, c) ==
              before[if |before| <= 1_048_576 then 0 else |before| - 1_048_576..] +
              if c.role == Writer then [0x18] + c.origin.modes else []
    ensures c.origin.Snapshot? ==>
              ReplayBytes(s, c) == [0x1b, 0x5b, 0x3f, 0x31, 0x30, 0x34, 0x39, 0x68] + c.origin.data
  {
    hide Hist, HistAt;
    assert before[0..] == before;
  }

  lemma HealthyOf(s: State, id: nat)
    requires Inv(s) && id in s.sessions
    ensures Healthy(s.sessions[id], s.log, id in s.registered, TypedBy(s.typed, id))
  {
    hide Healthy, SharedOk, AuthorityOk, FirstOk;
  }

  lemma OriginIs(c: Session, log: seq<Event>, registered: bool, typed: seq<seq<byte>>)
    requires Healthy(c, log, registered, typed) && !Fresh(c.handler)
    ensures c.from <= |log| && c.origin != Pending
    ensures c.origin == FirstWriter ==> c.role == Writer && HistoryOf(log[..c.from]) == []
    ensures c.origin.Snapshot? ==> c.role != Writer
  {
    hide StreamOk, TransitOk, WireOk, QueueOk, ReplayOk, InputOk, PongOk, WholeOk, ExitOk, HistoryOf, LastN;
  }

  lemma PlanSays(s: State, id: nat)
    requires Inv(s) && id in s.sessions
    ensures var c := s.sessions[id];
            && c.from <= c.upto <= |s.log|
            && HistoryOf(Flat(c.plan)) == ReplayBytes(s, c)
            && (ReplayFits(c) ==> Size(c.plan) <= CLIENT_QUEUE_BYTES)
  {
    hide AcksNumbered, TransitOk, WireOk, QueueOk, ReplayOk, InputOk, PongOk, WholeOk, ExitOk, PhaseOk,
         Flat, HistoryOf, Size,
         SharedOk, AuthorityOk, FirstOk, Shared, HistoryPlan;
    var c := s.sessions[id];
    NothingFlat();
    LogPieces(s.log, c.from, c.upto);
    match c.origin
    case Pending =>
    case FirstWriter =>
    case History(modes) =>
      var recent := LastN(RING_CAPACITY, HistoryOf(s.log[..c.from]));
      HistoryOfPlan(c.role, recent, modes);
      OutputIsShared(recent + if c.role == Writer then [CANCEL] + modes else []);
    case Snapshot(data) =>
      ReplayRejoins(ENTER_ALTERNATE + data);
      OutputIsShared(ENTER_ALTERNATE + data);
  }

  lemma NothingFlat()
    ensures Flat([]) == [] && Size([]) == 0 && HistoryOf([]) == []
  {
  }

  lemma HistoryPrefix(a: seq<Event>, b: seq<Event>)
    requires a <= b
    ensures HistoryOf(a) <= HistoryOf(b)
  {
    HistoryAppend(a, b[|a|..]);
    assert b == a + b[|a|..];
  }

  /** What the invariant says about one client's replay and stream. */
  lemma ReplayThenLog(c: Session, log: seq<Event>, registered: bool, typed: seq<seq<byte>>)
    requires Healthy(c, log, registered, typed)
    ensures c.from <= c.upto <= |log| && Shared(c.stream) == c.replay + log[c.from..c.upto]
    ensures registered ==> c.upto == |log|
    ensures !registered && !c.queue.closed ==> Fresh(c.handler) || c.handler == Replaying
    ensures Size(c.plan) <= CLIENT_QUEUE_BYTES ==>
              c.replay <= Flat(c.plan) &&
              (c.replay != Flat(c.plan) ==>
                 c.from == c.upto && c.exitMark.None? && (c.toReplay == [] ==> c.queue.closed))
  {
    hide TransitOk, WireOk, QueueOk, InputOk, PongOk, ExitOk, PlanOk, Size, Shared, Sendable, Flat;
    var done := c.plan[..|c.plan| - |c.toReplay|];
    FlatAppend(done, c.toReplay);
    assert c.plan == done + c.toReplay;
    if c.toReplay == [] {
      assert done == c.plan;
    }
  }

  /** The client has been through its replay and its queue has stayed open at least until Exit. */
  predicate Undisturbed(c: Session) {
    (!c.queue.closed && c.toReplay == []) || c.exitMark.Some?
  }

  /** Everything a client's queue ever accepted is an initial piece of what it
      was to get, and all of it while the queue is open. */
  lemma StreamIsExpected(s: State, id: nat)
    requires Inv(s) && id in s.sessions && ReplayFits(s.sessions[id])
    ensures var c := s.sessions[id];
            && HistoryOf(c.stream) <= Expected(s, c)
            && (Undisturbed(c) ==> HistoryOf(c.stream) == Expected(s, c))
  {
    hide Healthy, SharedOk, AuthorityOk, FirstOk, Flat, HistoryOf, Size, Shared, ReplayBytes, ReplayFits, TypedBy;
    var c := s.sessions[id];
    PlanSays(s, id);
    LogPieces(s.log, c.from, c.upto);
    ReplayThenLog(c, s.log, id in s.registered, TypedBy(s.typed, id));
    SharedHasAllOutput(c.stream);
    HistoryAppend(c.replay, s.log[c.from..c.upto]);
    HistoryPrefix(c.replay, Flat(c.plan));
    if c.from == c.upto {
      assert s.log[c.from..c.upto] == [];
      NothingFlat();
    }
  }

  /** Exactly-once delivery. The output a client's drain thread has taken, with
      what still waits behind it, is an initial piece of the replay followed by
      the history from the moment of attaching. It is all of that while the queue
      is open, and after Exit unless the deadline has cut it; and an attached
      client with an open queue is registered and given the newest byte. */
  lemma ExactlyOnce(s: State, id: nat)
    requires Reachable(s) && id in s.sessions && ReplayFits(s.sessions[id])
    ensures var c := s.sessions[id];
            var taken := HistoryOf(Flat(c.dequeued));
            var queued := HistoryOf(Flat(c.queue.frames));
            && taken + queued <= Expected(s, c)
            && (Undisturbed(c) && !c.lost ==> taken + queued == Expected(s, c))
            && (!c.queue.closed && !Fresh(c.handler) && c.handler != Replaying ==> id in s.registered)
            && (id in s.registered ==> HistAt(s, c.upto) == |Hist(s)|)
  {
    hide Healthy, SharedOk, AuthorityOk, FirstOk, Flat, HistoryOf, Expected, ReplayFits, TypedBy, Reachable;
    ReachableKeeps(s);
    var c := s.sessions[id];
    StreamIsExpected(s, id);
    TakenIsStream(s, id);
    HistoryAppend(Flat(c.dequeued), Flat(c.queue.frames));
    ReplayThenLog(c, s.log, id in s.registered, TypedBy(s.typed, id));
    assert s.log[..|s.log|] == s.log;
  }

  lemma TakenIsStream(s: State, id: nat)
    requires Inv(s) && id in s.sessions
    ensures var c := s.sessions[id];
            var all := Flat(c.dequeued) + Flat(c.queue.frames);
            HistoryOf(all) <= HistoryOf(c.stream) && (!c.lost ==> all == c.stream) && (!c.queue.closed ==> !c.lost)
  {
    hide AcksNumbered, StreamOk, WireOk, QueueOk, ReplayOk, InputOk, PongOk, WholeOk, ExitOk, PlanOk, PhaseOk,
         HistoryOf,
         SharedOk, AuthorityOk, FirstOk;
    var c := s.sessions[id];
    if !c.queue.closed {
      OpenIsWhole(c, s.log, id in s.registered, TypedBy(s.typed, id));
    }
    if c.lost {
      var exit := c.stream[|c.stream| - 1];
      HistoryAppend(c.stream[..c.kept], [exit]);
      HistoryOfControl(exit);
      assert Flat(c.dequeued) + Flat([]) == Flat(c.dequeued);
      HistoryPrefix(c.stream[..c.kept], c.stream);
    }
  }

  lemma HistoryOfControl(e: Event)
    requires e.Control?
    ensures HistoryOf([e]) == []
  {
    assert [e][1..] == [];
  }
}
