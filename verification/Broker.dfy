/**
 The broker as a step system: one step per critical section of its locks, per
 atomic operation on `writer_id` and `spawned`, and per socket read or write. Threads
 interleave in any order the guards allow.
 */
module Broker {
  import opened Bytes
  import opened Wire
  import opened Queueing

  const RING_CAPACITY: nat := 1024 * 1024
  const PTY_READ_SIZE: nat := 16384
  const CANCEL: byte := 0x18
  /** Enter the alternate screen: ESC [ ? 1 0 4 9 h. */
  const ENTER_ALTERNATE: seq<byte> := [0x1b, 0x5b, 0x3f, 0x31, 0x30, 0x34, 0x39, 0x68]

  datatype Role = Writer | Watcher | Monitor

  /** Frames from a client that the read loop distinguishes. */
  datatype Message = Input(payload: seq<byte>) | Resize(cols: u16, rows: u16) | Ping | Shutdown | Other

  /** Where the thread that reads from a client is. */
  datatype Handler =
    | Arrived                             // a writer with an id, before it asks for the spawn
    | Checked(first: bool)                // has asked; has not swapped itself into `writer_id`
    | Greeted(first: bool)                // HelloAck is out, the client is not registered
    | Replaying                           // holds the output lock
    | Reading
    | Typing(payload: seq<byte>)          // input passed the writer check
    | Resizing(cols: u16, rows: u16)      // resize passed the writer check
    | Leaving                             // out of the read loop
    | Unlinked                            // sender removed, `writer_id` not yet handed back
    | Finished

  /** A writer that has not claimed the right to type yet. */
  predicate Unclaimed(h: Handler) {
    h.Arrived? || h.Checked?
  }

  /** Before attaching. */
  predicate Fresh(h: Handler) {
    Unclaimed(h) || h.Greeted?
  }

  /** The handler that starts the PTY reader. */
  predicate IsFirst(h: Handler) {
    h == Checked(true) || h == Greeted(true)
  }

  /** Where the thread that writes to a client is. */
  datatype Drain =
    | Draining
    | Writing(rest: seq<byte>)            // inside `write_all`
    | Stopped                             // out of its loop
    | Shut                                // has closed the queue
    | Removed                             // has removed the sender
    | Ended

  /** What a client is sent before it goes live. */
  datatype Origin = Pending | FirstWriter | History(modes: seq<byte>) | Snapshot(data: seq<byte>)

  /** Frames waiting in a queue when Exit was added, how many had been taken before,
      and up to where in the global log the client had been given. */
  datatype ExitMark = ExitMark(pending: seq<Frame>, taken: nat, exit: Frame, at: nat)

  /** One client. The fields after `deadline` only record what has happened. */
  datatype Session = Session(
    role: Role,
    previous: nat,
    handler: Handler,
    drain: Drain,
    queue: Queue,
    toReplay: seq<Frame>,
    outbox: seq<Message>,      // everything the client has sent after Hello
    handled: nat,              // how much of it the broker has processed
    wire: seq<byte>,           // everything written to the client's socket after HelloAck
    deadline: bool,
    origin: Origin,
    plan: seq<Frame>,          // the replay that was meant
    replay: seq<Event>,        // the replay that was accepted
    stream: seq<Event>,        // everything accepted by the queue
    from: nat,                 // the part of the global log this client
    upto: nat,                 //   has been given
    dequeued: seq<Frame>,
    kept: nat,                 // events of the stream taken before the rest
    lost: bool,                //   was discarded at the deadline
    verdicts: seq<bool>,       // per handled message: did it pass the writer check,
                               //   and was the PTY there for it
    exitMark: Option<ExitMark>)

  datatype State = State(
    log: seq<Event>,           // every byte read from the PTY and every ResizeAck, in order
    recent: seq<byte>,         // the ring's contents
    sessions: map<nat, Session>,
    registered: set<nat>,      // keys of the client map
    writerId: nat,
    nextId: nat,
    gen: nat,
    spawner: nat,              // the writer that won the right to spawn, 0 while there is none
    ptyOpen: bool,
    ptyReading: bool,
    running: bool,
    exitSent: bool,
    lock: Option<nat>,         // who holds the output lock between steps
    typed: seq<(nat, seq<byte>)>)   // what was written to the PTY, by whom

  const INITIAL := State([], [], map[], {}, 0, 1, 0, 0, false, false, true, false, None, [])

  datatype Action =
    | Connect(role: Role)
    | Spawn(id: nat)
    | OpenPty(id: nat)
    | Claim(id: nat)
    | AttachFirst(id: nat)
    | AttachBegin(id: nat, snapshot: Option<seq<byte>>, modes: seq<byte>)
    | AttachSend(id: nat)
    | AttachEnd(id: nat)
    | ClientSends(id: nat, msg: Message)
    | Handle(id: nat)
    | TypeInput(id: nat)
    | DropInput(id: nat)
    | CommitResize(id: nat)
    | HandlerLeaves(id: nat)
    | HandlerUnlinks(id: nat)
    | HandlerRestores(id: nat)
    | DrainTakes(id: nat, now: bool)
    | DrainWrites(id: nat, count: nat)
    | DrainFails(id: nat)
    | DrainShuts(id: nat)
    | DrainUnlinks(id: nat)
    | DrainRestores(id: nat)
    | PtyRead(data: seq<byte>)
    | Stop
    | BroadcastExit(code: seq<byte>)

  /** Steps of the thread that writes to a client. */
  predicate ByDrain(a: Action) {
    || a.DrainTakes? || a.DrainWrites? || a.DrainFails? || a.DrainShuts? || a.DrainUnlinks? || a.DrainRestores?
  }

  /** Steps of a client that is not registered yet. */
  predicate OnArrival(a: Action) {
    || a.Connect? || a.Spawn? || a.OpenPty? || a.Claim?
    || a.AttachFirst? || a.AttachBegin? || a.AttachSend? || a.AttachEnd?
  }

  function Put(s: State, id: nat, c: Session): State {
    s.(sessions := s.sessions[id := c])
  }

  /** Dropping the sender closes the queue. */
  function Unlink(s: State, id: nat): State
    requires id in s.sessions
  {
    if id in s.registered then
      Put(s.(registered := s.registered - {id}), id, Closing(s.sessions[id]))
    else s
  }

  function Closing(c: Session): Session {
    c.(queue := c.queue.(closed := true))
  }

  /** The compare-exchange by which a departing writer hands back its claim. */
  function Restore(s: State, id: nat): State
    requires id in s.sessions
  {
    if s.writerId == id then s.(writerId := s.sessions[id].previous) else s
  }

  function Offer(c: Session, f: Frame): Session {
    if Admits(c.queue, f) then c.(queue := Send(c.queue, f), stream := c.stream + Events(f)) else c
  }

  /** Give one frame of the global log to every registered client; whoever
      refuses it is evicted and, if it was the writer, nobody is. */
  function Broadcast(s: State, f: Frame): State {
    var log := s.log + Events(f);
    var refused := Refusing(s, f);
    s.(log := log,
       sessions := map id | id in s.sessions ::
         var c := s.sessions[id];
         if id !in s.registered then c
         else if id in refused then Closing(c)
         else Offer(c, f).(upto := |log|),
       registered := s.registered - refused,
       writerId := if s.writerId in refused then 0 else s.writerId)
  }

  function Refusing(s: State, f: Frame): set<nat> {
    set id | id in s.registered && id in s.sessions && !Admits(s.sessions[id].queue, f)
  }

  const PONG_FRAME := Frame(PONG, [])

  function ResizeAckFrame(gen: nat, cols: u16, rows: u16): Frame
    requires gen < U32_SIZE
  {
    Frame(RESIZE_ACK, EncodeResizeAck(gen, cols, rows))
  }

  function HistoryPlan(role: Role, recent: seq<byte>, modes: seq<byte>): seq<Frame> {
    ReplayFrames(recent) + if role == Writer then [Frame(OUTPUT, [CANCEL] + modes)] else []
  }

  predicate Enabled(s: State, a: Action) {
    match a
    case Connect(_) => true
    case Spawn(id) => id in s.sessions && s.sessions[id].handler.Arrived?
    case OpenPty(id) => id in s.sessions && s.sessions[id].handler == Checked(true) && !s.ptyOpen
    case Claim(id) =>
      id in s.sessions && s.sessions[id].handler.Checked? && (s.sessions[id].handler.first ==> s.ptyOpen)
    case AttachFirst(id) => id in s.sessions && s.sessions[id].handler == Greeted(true) && s.lock.None?
    case AttachBegin(id, snapshot, modes) =>
      && id in s.sessions && s.sessions[id].handler == Greeted(false) && s.lock.None?
      && (snapshot.Some? ==> s.sessions[id].role != Writer)
      && |modes| < MAX_PAYLOAD_SIZE
    case AttachSend(id) => s.lock == Some(id) && id in s.sessions && s.sessions[id].toReplay != []
    case AttachEnd(id) => s.lock == Some(id) && id in s.sessions && s.sessions[id].toReplay == []
    case ClientSends(id, _) => id in s.sessions
    case Handle(id) =>
      && id in s.sessions && s.sessions[id].handler == Reading
      && s.sessions[id].handled < |s.sessions[id].outbox|
      && (s.sessions[id].outbox[s.sessions[id].handled] == Ping ==> s.lock.None?)
    case TypeInput(id) => id in s.sessions && s.sessions[id].handler.Typing? && s.ptyOpen
    case DropInput(id) => id in s.sessions && s.sessions[id].handler.Typing? && !s.ptyOpen
    case CommitResize(id) =>
      id in s.sessions && s.sessions[id].handler.Resizing? && s.lock.None? && s.gen + 1 < U32_SIZE
    case HandlerLeaves(id) => id in s.sessions && s.sessions[id].handler == Reading
    case HandlerUnlinks(id) => id in s.sessions && s.sessions[id].handler == Leaving && s.lock.None?
    case HandlerRestores(id) => id in s.sessions && s.sessions[id].handler == Unlinked
    case DrainTakes(id, now) =>
      && id in s.sessions && s.sessions[id].drain == Draining
      && (s.sessions[id].queue.closed || Due(s.sessions[id].queue, s.sessions[id].deadline && now) != [])
    case DrainWrites(id, count) =>
      id in s.sessions && s.sessions[id].drain.Writing? && 0 < count <= |s.sessions[id].drain.rest|
    case DrainFails(id) => id in s.sessions && s.sessions[id].drain.Writing?
    case DrainShuts(id) => id in s.sessions && s.sessions[id].drain == Stopped
    case DrainUnlinks(id) => id in s.sessions && s.sessions[id].drain == Shut && s.lock.None?
    case DrainRestores(id) => id in s.sessions && s.sessions[id].drain == Removed
    case PtyRead(data) =>
      s.ptyReading && s.lock.None? && 0 < |data| <= PTY_READ_SIZE
    case Stop => true
    case BroadcastExit(code) => !s.running && !s.exitSent && s.lock.None? && |code| == 4
  }

  function Apply(s: State, a: Action): State
    requires Enabled(s, a)
  {
    match a
    case Connect(role) => DoConnect(s, role)
    case Spawn(id) => DoSpawn(s, id)
    case OpenPty(_) => s.(ptyOpen := true)
    case Claim(id) => DoClaim(s, id)
    case AttachFirst(id) => DoAttachFirst(s, id)
    case AttachBegin(id, snapshot, modes) => DoAttachBegin(s, id, snapshot, modes)
    case AttachSend(id) => DoAttachSend(s, id)
    case AttachEnd(id) =>
      Put(s.(lock := None, registered := s.registered + {id}), id, s.sessions[id].(handler := Reading))
    case ClientSends(id, msg) =>
      Put(s, id, s.sessions[id].(outbox := s.sessions[id].outbox + [msg]))
    case Handle(id) => DoHandle(s, id)
    case TypeInput(id) =>
      Put(s.(typed := s.typed + [(id, s.sessions[id].handler.payload)]), id,
          s.sessions[id].(handler := Reading))
    case DropInput(id) => Put(s, id, Dropping(s.sessions[id]))
    case CommitResize(id) => DoCommitResize(s, id)
    case HandlerLeaves(id) => Put(s, id, s.sessions[id].(handler := Leaving))
    case HandlerUnlinks(id) =>
      var t := Unlink(s, id);
      Put(t, id, t.sessions[id].(handler := Unlinked))
    case HandlerRestores(id) => Put(Restore(s, id), id, s.sessions[id].(handler := Finished))
    case DrainTakes(id, now) => Put(s, id, Taking(s.sessions[id], now))
    case DrainWrites(id, count) =>
      var c := s.sessions[id];
      var rest := c.drain.rest[count..];
      Put(s, id, c.(wire := c.wire + c.drain.rest[..count],
                    drain := if rest == [] then Draining else Writing(rest)))
    case DrainFails(id) => Put(s, id, s.sessions[id].(drain := Stopped))
    case DrainShuts(id) => Put(s, id, Closing(s.sessions[id]).(drain := Shut))
    case DrainUnlinks(id) =>
      var t := Unlink(s, id);
      Put(t, id, t.sessions[id].(drain := Removed))
    case DrainRestores(id) => Put(Restore(s, id), id, s.sessions[id].(drain := Ended))
    case PtyRead(data) =>
      Broadcast(s.(recent := LastN(RING_CAPACITY, s.recent + data)), Frame(OUTPUT, data))
    case Stop => s.(running := false)
    case BroadcastExit(code) => DoBroadcastExit(s, Frame(EXIT, code))
  }

  /** Hello: a new id and an empty queue. */
  function DoConnect(s: State, role: Role): State {
    s.(sessions := s.sessions[s.nextId := Newcomer(role)], nextId := s.nextId + 1)
  }

  function Newcomer(role: Role): Session {
    Session(role, 0, if role == Writer then Arrived else Greeted(false), Draining, EMPTY,
            [], [], 0, [], false, Pending, [], [], [], 0, 0, [], 0, false, [], None)
  }

  /** The compare-exchange on `spawned`: the first writer to come by opens the PTY. */
  function DoSpawn(s: State, id: nat): State
    requires id in s.sessions
  {
    var first := s.spawner == 0;
    Put(s.(spawner := if first then id else s.spawner), id, s.sessions[id].(handler := Checked(first)))
  }

  /** The swap of `writer_id`: the newcomer may type, and remembers who could before. */
  function DoClaim(s: State, id: nat): State
    requires id in s.sessions && s.sessions[id].handler.Checked?
  {
    var c := s.sessions[id];
    Put(s.(writerId := id), id, c.(previous := s.writerId, handler := Greeted(c.handler.first)))
  }

  /** Input that passed the writer check before there was a PTY to write to. */
  function Dropping(c: Session): Session {
    c.(handler := Reading,
       verdicts := if c.verdicts == [] then [] else c.verdicts[..|c.verdicts| - 1] + [false])
  }

  /** The first writer is registered before the PTY is read at all. */
  function DoAttachFirst(s: State, id: nat): State
    requires id in s.sessions
  {
    var c := s.sessions[id].(handler := Reading, origin := FirstWriter, from := |s.log|, upto := |s.log|);
    Put(s.(registered := s.registered + {id}, ptyReading := true), id, c)
  }

  /** Take the output lock and decide what to replay. */
  function DoAttachBegin(s: State, id: nat, snapshot: Option<seq<byte>>, modes: seq<byte>): State
    requires id in s.sessions
  {
    var c := s.sessions[id];
    var plan := if snapshot.Some? then ReplayFrames(ENTER_ALTERNATE + snapshot.value)
                else HistoryPlan(c.role, s.recent, modes);
    var origin := if snapshot.Some? then Snapshot(snapshot.value) else History(modes);
    Put(s.(lock := Some(id)), id,
        c.(handler := Replaying, origin := origin, plan := plan, toReplay := plan,
           from := |s.log|, upto := |s.log|))
  }

  /** Enqueue one replay frame; a refusal is ignored. */
  function DoAttachSend(s: State, id: nat): State
    requires id in s.sessions && s.sessions[id].toReplay != []
  {
    var c := s.sessions[id];
    var f := c.toReplay[0];
    var accepted := if Admits(c.queue, f) then Events(f) else [];
    Put(s, id, Offer(c, f).(toReplay := c.toReplay[1..], replay := c.replay + accepted))
  }

  function DoHandle(s: State, id: nat): State
    requires id in s.sessions && s.sessions[id].handled < |s.sessions[id].outbox|
  {
    var c := s.sessions[id];
    var msg := c.outbox[c.handled];
    var noted := Noted(s, id);
    match msg
    case Ping => Answer(s, id, noted)
    case Shutdown =>
      if s.writerId == id || c.role == Monitor || s.writerId == 0
      then Put(s.(running := false), id, noted.(handler := Finished))
      else Put(s, id, noted)
    case _ => Put(s, id, noted.(handler := Acting(msg, MayType(s, id))))
  }

  /** The writer check. */
  predicate MayType(s: State, id: nat) {
    s.spawner != 0 && s.writerId == id
  }

  /** A client whose next message has been read, with the outcome of the writer check. */
  function Noted(s: State, id: nat): Session
    requires id in s.sessions
  {
    var c := s.sessions[id];
    c.(handled := c.handled + 1, verdicts := c.verdicts + [MayType(s, id)])
  }

  /** Input and Resize are acted on only if the writer check passed. */
  function Acting(msg: Message, holder: bool): Handler {
    match msg
    case Input(payload) => if holder then Typing(payload) else Reading
    case Resize(cols, rows) => if holder then Resizing(cols, rows) else Reading
    case _ => Reading
  }

  /** Answer a Ping in order with the client's output; a client that cannot take the Pong is dropped. */
  function Answer(s: State, id: nat, c: Session): State {
    if id !in s.registered then Put(s, id, c)
    else if Admits(c.queue, PONG_FRAME) then Put(s, id, Offer(c, PONG_FRAME))
    else Unlink(Put(s, id, c.(handler := Leaving)), id)
  }

  function DoCommitResize(s: State, id: nat): State
    requires id in s.sessions && s.sessions[id].handler.Resizing? && s.gen + 1 < U32_SIZE
  {
    var h := s.sessions[id].handler;
    var t := Put(s.(gen := s.gen + 1), id, s.sessions[id].(handler := Reading));
    Broadcast(t, ResizeAckFrame(s.gen + 1, h.cols, h.rows))
  }

  /** One `recv` by the drain thread, which starts to write what it got. */
  function Taking(c: Session, now: bool): Session {
    var late := c.deadline && now;
    var due := Due(c.queue, late);
    var cut := late && due != c.queue.frames;
    if due == [] then c.(queue := AfterRecv(c.queue, late), drain := Stopped)
    else
      c.(queue := AfterRecv(c.queue, late),
         drain := Writing(Encode(due[0])),
         dequeued := c.dequeued + [due[0]],
         kept := if cut then |Flat(c.dequeued)| else c.kept,
         lost := c.lost || cut)
  }

  /** Exit behind everything pending for every registered client, then drop all senders. */
  function DoBroadcastExit(s: State, exit: Frame): State {
    s.(sessions := map id | id in s.sessions ::
         if id in s.registered then Exiting(s.sessions[id], exit) else s.sessions[id],
       registered := {},
       exitSent := true)
  }

  function Exiting(c: Session, exit: Frame): Session {
    var mark := if Admits(c.queue, exit) then Some(ExitMark(c.queue.frames, |c.dequeued|, exit, c.upto))
                else c.exitMark;
    Closing(Offer(c, exit)).(deadline := true, exitMark := mark)
  }

  // ----- runs -----

  /** The state after a run, if every action was possible when it was taken. */
  function After(run: seq<Action>): Option<State> {
    if run == [] then Some(INITIAL)
    else
      var before := After(run[..|run| - 1]);
      var a := run[|run| - 1];
      if before.Some? && Enabled(before.value, a) then Some(Apply(before.value, a)) else None
  }

  ghost predicate Reachable(s: State) {
    exists run :: After(run) == Some(s)
  }

  // ----- reading a stream of events -----

  function HistoryOf(es: seq<Event>): seq<byte> {
    if es == [] then [] else (if es[0].Byte? then [es[0].b] else []) + HistoryOf(es[1..])
  }

  /** Control frames in order. */
  function Controls(es: seq<Event>): seq<Frame> {
    if es == [] then [] else (if es[0].Control? then [es[0].frame] else []) + Controls(es[1..])
  }

  predicate IsShared(e: Event) {
    e.Byte? || e.frame.kind == RESIZE_ACK
  }

  /** The events a client shares with others: everything but its Pongs and Exit. */
  function Shared(es: seq<Event>): seq<Event> {
    if es == [] then [] else (if IsShared(es[0]) then [es[0]] else []) + Shared(es[1..])
  }

  function Pongs(es: seq<Event>): nat {
    if es == [] then 0 else (if es[0].Control? && es[0].frame.kind == PONG then 1 else 0) + Pongs(es[1..])
  }

  function Pings(ms: seq<Message>): nat {
    if ms == [] then 0 else (if ms[0] == Ping then 1 else 0) + Pings(ms[1..])
  }

  function TypedBy(typed: seq<(nat, seq<byte>)>, id: nat): seq<seq<byte>> {
    if typed == [] then []
    else (if typed[0].0 == id then [typed[0].1] else []) + TypedBy(typed[1..], id)
  }

  /** Input payloads that passed the writer check when they were handled. */
  function Approved(ms: seq<Message>, verdicts: seq<bool>): seq<seq<byte>>
    requires |ms| == |verdicts|
  {
    if ms == [] then []
    else (if ms[0].Input? && verdicts[0] then [ms[0].payload] else []) + Approved(ms[1..], verdicts[1..])
  }
}
