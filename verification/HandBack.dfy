/** Nested writers: who may type after writers come and go. */
module HandBack {
  import opened Bytes
  import opened Wire
  import opened Queueing
  import opened Broker
  import opened BrokerInvariant
  import opened BrokerSteps

  /** The id whose claim a step hands back, if it is one of the two restoring compare-exchanges. */
  function HandsBack(a: Action): Option<nat> {
    match a
    case HandlerRestores(id) => Some(id)
    case DrainRestores(id) => Some(id)
    case _ => None
  }

  /** Writers in the order of their swaps of `writer_id`, each until the first
      restoring compare-exchange that one of its two threads runs. */
  function Connected(run: seq<Action>): seq<nat>
    requires After(run).Some?
  {
    if run == [] then []
    else
      var before := run[..|run| - 1];
      Moved(Connected(before), run[|run| - 1])
  }

  function Moved(stack: seq<nat>, a: Action): seq<nat> {
    if a.Claim? then stack + [a.id]
    else if HandsBack(a).Some? then Without(stack, HandsBack(a).value)
    else stack
  }

  function Without(stack: seq<nat>, id: nat): seq<nat> {
    if stack == [] then [] else (if stack[0] == id then [] else [stack[0]]) + Without(stack[1..], id)
  }

  /** Clients that the step evicts for refusing a broadcast. */
  function Evicts(s: State, a: Action): set<nat> {
    match a
    case PtyRead(data) => Refusing(s, Frame(OUTPUT, data))
    case CommitResize(id) =>
      if id in s.sessions && s.sessions[id].handler.Resizing? && s.gen + 1 < U32_SIZE then
        var h := s.sessions[id].handler;
        Refusing(Put(s, id, s.sessions[id].(handler := Reading)), ResizeAckFrame(s.gen + 1, h.cols, h.rows))
      else {}
    case _ => {}
  }

  function Top(stack: seq<nat>): nat {
    if stack == [] then 0 else stack[|stack| - 1]
  }

  function Below(stack: seq<nat>, i: int): nat {
    if 0 < i <= |stack| then stack[i - 1] else 0
  }

  /** At every moment of the run the right to type was the newest connected writer's, or nobody's. */
  ghost predicate NewestHeld(run: seq<Action>)
    requires After(run).Some?
  {
    && After(run).value.writerId == Top(Connected(run))
    && (run == [] || NewestHeld(run[..|run| - 1]))
  }

  /** A step that keeps the newest writer in its place: it does not evict that
      writer, and if that writer hands back, the one it took over from is still
      connected, or there was none. */
  ghost predicate Orderly(s: State, stack: seq<nat>, a: Action) {
    stack != [] ==>
      && Top(stack) !in Evicts(s, a)
      && (HandsBack(a) == Some(Top(stack)) && Top(stack) in s.sessions ==>
            var p := s.sessions[Top(stack)].previous; p == 0 || p in stack)
  }

  ghost predicate AlwaysOrderly(run: seq<Action>)
    requires After(run).Some?
  {
    run == [] ||
    var before := run[..|run| - 1];
    AlwaysOrderly(before) && Orderly(After(before).value, Connected(before), run[|run| - 1])
  }

  /** Writers hand back in the reverse order of their swaps, and none is evicted. */
  ghost predicate Nested(run: seq<Action>)
    requires After(run).Some?
  {
    run == [] ||
    var before := run[..|run| - 1];
    var stack, a := Connected(before), run[|run| - 1];
    && Nested(before)
    && (HandsBack(a).Some? && HandsBack(a).value in stack ==> HandsBack(a).value == Top(stack))
    && (forall id :: id in stack ==> id !in Evicts(After(before).value, a))
  }

  /** Each connected writer saved the one below it, or one that has handed back. */
  ghost predicate Linked(s: State, stack: seq<nat>) {
    && (forall i :: 0 <= i < |stack| ==> Settled(s, stack[i]) && 0 < stack[i] && LinkOk(s, stack, i))
    && Distinct(stack)
  }

  ghost predicate Distinct(stack: seq<nat>) {
    forall i, j :: 0 <= i < j < |stack| ==> Differ(stack, i, j)
  }

  ghost predicate Differ(stack: seq<nat>, i: nat, j: nat)
    requires i < |stack| && j < |stack|
  {
    stack[i] != stack[j]
  }

  lemma DistinctGrows(stack: seq<nat>, id: nat)
    requires Distinct(stack) && id !in stack
    ensures Distinct(stack + [id])
  {
    var more := stack + [id];
    forall i, j | 0 <= i < j < |more|
      ensures Differ(more, i, j)
    {
      assert j < |stack| ==> Differ(stack, i, j);
    }
  }

  lemma DistinctShrinks(stack: seq<nat>, k: nat)
    requires Distinct(stack) && k < |stack|
    ensures Distinct(stack[..k] + stack[k + 1..])
    ensures stack[k] !in stack[..k] && stack[k] !in stack[k + 1..]
  {
    var less := stack[..k] + stack[k + 1..];
    forall i, j | 0 <= i < j < |less|
      ensures Differ(less, i, j)
    {
      assert Differ(stack, if i < k then i else i + 1, if j < k then j else j + 1);
    }
    forall i | 0 <= i < |stack| && i != k
      ensures stack[i] != stack[k]
    {
      assert if i < k then Differ(stack, i, k) else Differ(stack, k, i);
    }
  }

  ghost predicate LinkOk(s: State, stack: seq<nat>, i: nat)
    requires i < |stack|
  {
    stack[i] in s.sessions &&
    var p := s.sessions[stack[i]].previous;
    p == Below(stack, i) || (p != 0 && Settled(s, p) && p !in stack)
  }

  /** ... and no link is broken. */
  ghost predicate Unbroken(s: State, stack: seq<nat>) {
    forall i :: 0 <= i < |stack| ==>
      stack[i] in s.sessions && s.sessions[stack[i]].previous == Below(stack, i)
  }

  /** A client that is not, or no longer, about to claim. */
  ghost predicate Settled(s: State, id: nat) {
    id in s.sessions && !Unclaimed(s.sessions[id].handler)
  }

  lemma {:induction false} WithoutAbsent(stack: seq<nat>, id: nat)
    requires id !in stack
    ensures Without(stack, id) == stack
  {
    if stack != [] {
      WithoutAbsent(stack[1..], id);
    }
  }

  lemma {:induction false} WithoutAppend(a: seq<nat>, b: seq<nat>, id: nat)
    ensures Without(a + b, id) == Without(a, id) + Without(b, id)
  {
    if a == [] {
      assert a + b == b;
    } else {
      assert (a + b)[1..] == a[1..] + b;
      WithoutAppend(a[1..], b, id);
    }
  }

  lemma WithoutOne(stack: seq<nat>, k: nat)
    requires k < |stack| && Distinct(stack)
    ensures Without(stack, stack[k]) == stack[..k] + stack[k + 1..]
  {
    DistinctShrinks(stack, k);
    hide Distinct, Without;
    SplitAt(stack, k);
    WithoutMiddle(stack[..k], stack[k], stack[k + 1..]);
  }

  lemma WithoutMiddle(a: seq<nat>, id: nat, b: seq<nat>)
    requires id !in a && id !in b
    ensures Without(a + ([id] + b), id) == a + b
  {
    hide Without;
    WithoutAppend(a, [id] + b, id);
    WithoutAppend([id], b, id);
    WithoutAbsent(a, id);
    WithoutAbsent(b, id);
    WithoutItself(id);
    assert [] + b == b;
  }

  lemma WithoutItself(id: nat)
    ensures Without([id], id) == []
  {
    assert [id][1..] == [];
  }

  /** What a step does to the claims. */
  ghost predicate ClaimsAfter(s: State, a: Action, t: State) {
    && ClaimsKept(s, t, if a.Claim? then Some(a.id) else None)
    && match a
       case Claim(id) =>
         && id in s.sessions && !Settled(s, id) && Settled(t, id)
         && t.writerId == id && t.sessions[id].previous == s.writerId
       case HandlerRestores(id) =>
         id in s.sessions && t.writerId == if s.writerId == id then s.sessions[id].previous else s.writerId
       case DrainRestores(id) =>
         id in s.sessions && t.writerId == if s.writerId == id then s.sessions[id].previous else s.writerId
       case _ => t.writerId == if s.writerId in Evicts(s, a) then 0 else s.writerId
  }

  /** Nobody's saved holder changes, but for one client; and who has claimed has claimed. */
  ghost predicate ClaimsKept(s: State, t: State, but: Option<nat>) {
    && s.sessions.Keys <= t.sessions.Keys
    && (forall id :: id in s.sessions && Some(id) != but ==> t.sessions[id].previous == s.sessions[id].previous)
    && (forall id :: Settled(s, id) ==> Settled(t, id))
  }

  ghost predicate SameClaims(s: State, t: State) {
    && s.sessions.Keys == t.sessions.Keys
    && forall id :: id in s.sessions ==> KeepsClaim(s.sessions[id], t.sessions[id])
  }

  ghost predicate KeepsClaim(c: Session, c': Session) {
    c'.previous == c.previous && (Unclaimed(c'.handler) ==> Unclaimed(c.handler))
  }

  ghost predicate Untouched(s: State, t: State) {
    SameClaims(s, t) && t.writerId == s.writerId
  }

  lemma BroadcastClaims(s: State, f: Frame)
    ensures SameClaims(s, Broadcast(s, f))
    ensures Broadcast(s, f).writerId == if s.writerId in Refusing(s, f) then 0 else s.writerId
  {
    hide Events, Admits, Send;
  }

  lemma UnlinkClaims(s: State, id: nat)
    requires id in s.sessions
    ensures Untouched(s, Unlink(s, id))
  {
  }

  lemma OfferClaims(c: Session, f: Frame, now: bool)
    ensures KeepsClaim(c, Offer(c, f)) && KeepsClaim(c, Taking(c, now)) && KeepsClaim(c, Exiting(c, f))
    ensures Offer(c, f).handler == c.handler
  {
  }

  lemma PutClaims(s: State, id: nat, c: Session)
    requires id in s.sessions && KeepsClaim(s.sessions[id], c)
    ensures Untouched(s, Put(s, id, c))
  {
  }

  /** Removing a sender and moving on, by either thread. */
  lemma UnlinkAndMove(s: State, id: nat, h: Handler, d: Drain)
    requires id in s.sessions && !Unclaimed(h)
    ensures var t := Unlink(s, id);
            && id in t.sessions
            && Untouched(s, Put(t, id, t.sessions[id].(handler := h)))
            && Untouched(s, Put(t, id, t.sessions[id].(drain := d)))
  {
    hide Unlink, Put;
    UnlinkClaims(s, id);
    var t := Unlink(s, id);
    PutClaims(t, id, t.sessions[id].(handler := h));
    PutClaims(t, id, t.sessions[id].(drain := d));
  }

  lemma DrainClaims(s: State, a: Action)
    requires Enabled(s, a)
    requires ByDrain(a)
    ensures ClaimsAfter(s, a, Apply(s, a))
  {
    hide Enabled, Apply, ClaimsAfter, Untouched;
    if a.DrainRestores? {
      RestoreClaims(s, a.id);
    } else {
      match a {
        case DrainTakes(id, now) => TakeClaims(s, id, now);
        case DrainWrites(id, count) => WriteClaims(s, id, count);
        case DrainFails(id) => FailClaims(s, id);
        case DrainShuts(id) => ShutClaims(s, id);
        case DrainUnlinks(id) => UnlinksClaims(s, id);
      }
      QuietClaims(s, a, Apply(s, a));
    }
  }

  lemma HandlerClaims(s: State, a: Action)
    requires Enabled(s, a)
    requires || a.ClientSends? || a.TypeInput? || a.DropInput? || a.Stop?
             || a.HandlerLeaves? || a.HandlerUnlinks? || a.HandlerRestores?
    ensures ClaimsAfter(s, a, Apply(s, a))
  {
    hide Enabled, Apply, ClaimsAfter, Untouched;
    if a.HandlerRestores? {
      RestoreClaims(s, a.id);
    } else {
      match a {
        case ClientSends(id, msg) => SendsClaims(s, id, msg);
        case TypeInput(id) => TypeInputClaims(s, id);
        case DropInput(id) => DropClaims(s, id);
        case HandlerLeaves(id) => LeaveClaims(s, id);
        case HandlerUnlinks(id) => HandlerUnlinksClaims(s, id);
        case Stop => StopClaims(s);
      }
      QuietClaims(s, a, Apply(s, a));
    }
  }

  lemma TakeClaims(s: State, id: nat, now: bool)
    requires Enabled(s, DrainTakes(id, now))
    ensures Untouched(s, Apply(s, DrainTakes(id, now)))
  {
    hide Taking, Due, Put, KeepsClaim;
    OfferClaims(s.sessions[id], PONG_FRAME, now);
    PutClaims(s, id, Taking(s.sessions[id], now));
  }

  lemma WriteClaims(s: State, id: nat, count: nat)
    requires Enabled(s, DrainWrites(id, count))
    ensures Untouched(s, Apply(s, DrainWrites(id, count)))
  {
    hide Put;
    var c := s.sessions[id];
    var rest := c.drain.rest[count..];
    PutClaims(s, id, c.(wire := c.wire + c.drain.rest[..count],
                        drain := if rest == [] then Draining else Writing(rest)));
  }

  lemma FailClaims(s: State, id: nat)
    requires Enabled(s, DrainFails(id))
    ensures Untouched(s, Apply(s, DrainFails(id)))
  {
    hide Put;
    PutClaims(s, id, s.sessions[id].(drain := Stopped));
  }

  lemma ShutClaims(s: State, id: nat)
    requires Enabled(s, DrainShuts(id))
    ensures Untouched(s, Apply(s, DrainShuts(id)))
  {
    hide Put;
    PutClaims(s, id, Closing(s.sessions[id]).(drain := Shut));
  }

  lemma UnlinksClaims(s: State, id: nat)
    requires Enabled(s, DrainUnlinks(id))
    ensures Untouched(s, Apply(s, DrainUnlinks(id)))
  {
    hide Unlink, Put, Untouched;
    UnlinkAndMove(s, id, Unlinked, Removed);
  }

  lemma HandlerUnlinksClaims(s: State, id: nat)
    requires Enabled(s, HandlerUnlinks(id))
    ensures Untouched(s, Apply(s, HandlerUnlinks(id)))
  {
    hide Unlink, Put, Untouched;
    UnlinkAndMove(s, id, Unlinked, Removed);
  }

  lemma RestoreClaims(s: State, id: nat)
    ensures Enabled(s, DrainRestores(id)) ==> ClaimsAfter(s, DrainRestores(id), Apply(s, DrainRestores(id)))
    ensures Enabled(s, HandlerRestores(id)) ==> ClaimsAfter(s, HandlerRestores(id), Apply(s, HandlerRestores(id)))
  {
    hide Put, Restore, Unclaimed, ClaimsKept;
    if id in s.sessions {
      HandlersSettled();
      RestoreAndMove(s, id, s.sessions[id].(drain := Ended));
      RestoreAndMove(s, id, s.sessions[id].(handler := Finished));
    }
  }

  lemma HandlersSettled()
    ensures !Unclaimed(Finished) && !Unclaimed(Reading) && !Unclaimed(Leaving) && !Unclaimed(Replaying)
  {
  }

  lemma RestoreAndMove(s: State, id: nat, c: Session)
    requires id in s.sessions && KeepsClaim(s.sessions[id], c)
    ensures var t := Put(Restore(s, id), id, c);
            ClaimsKept(s, t, None) && t.writerId == if s.writerId == id then s.sessions[id].previous else s.writerId
  {
    hide Unclaimed;
  }

  /** Steps that leave `writer_id` alone. */
  lemma QuietClaims(s: State, a: Action, t: State)
    requires Untouched(s, t)
    requires !a.Claim? && !a.HandlerRestores? && !a.DrainRestores? && !a.PtyRead? && !a.CommitResize?
    ensures ClaimsAfter(s, a, t)
  {
    hide Unclaimed;
  }

  lemma SendsClaims(s: State, id: nat, msg: Message)
    requires Enabled(s, ClientSends(id, msg))
    ensures Untouched(s, Apply(s, ClientSends(id, msg)))
  {
    hide Put;
    PutClaims(s, id, s.sessions[id].(outbox := s.sessions[id].outbox + [msg]));
  }

  lemma DropClaims(s: State, id: nat)
    requires Enabled(s, DropInput(id))
    ensures Untouched(s, Apply(s, DropInput(id)))
  {
    hide Put;
    PutClaims(s, id, Dropping(s.sessions[id]));
  }

  lemma LeaveClaims(s: State, id: nat)
    requires Enabled(s, HandlerLeaves(id))
    ensures Untouched(s, Apply(s, HandlerLeaves(id)))
  {
    hide Put;
    PutClaims(s, id, s.sessions[id].(handler := Leaving));
  }

  lemma TypeInputClaims(s: State, id: nat)
    requires Enabled(s, TypeInput(id))
    ensures Untouched(s, Apply(s, TypeInput(id)))
  {
    hide Put;
    var typed := s.typed + [(id, s.sessions[id].handler.payload)];
    PutClaims(s.(typed := typed), id, s.sessions[id].(handler := Reading));
  }

  lemma StopClaims(s: State)
    ensures Untouched(s, Apply(s, Stop))
  {
  }

  /** Nobody else is touched by an arrival, a claim or the opening of the PTY. */
  lemma ArrivalClaims(s: State, a: Action)
    requires Enabled(s, a) && s.nextId !in s.sessions
    requires a.Connect? || a.Spawn? || a.OpenPty? || a.Claim?
    ensures ClaimsAfter(s, a, Apply(s, a))
  {
  }

  lemma AttachClaims(s: State, a: Action)
    requires Enabled(s, a)
    requires a.AttachFirst? || a.AttachBegin? || a.AttachSend? || a.AttachEnd?
    ensures Untouched(s, Apply(s, a))
  {
    hide Offer, Admits, Events, HistoryPlan, ReplayFrames;
    if a.AttachSend? {
      OfferClaims(s.sessions[a.id], s.sessions[a.id].toReplay[0], false);
    }
  }

  lemma ResizeClaims(s: State, a: Action)
    requires Enabled(s, a) && a.CommitResize?
    ensures ClaimsAfter(s, a, Apply(s, a))
  {
    hide Broadcast, Refusing, EncodeResizeAck, Put, SameClaims, ClaimsKept, Unclaimed;
    var h, c := s.sessions[a.id].handler, s.sessions[a.id].(handler := Reading);
    var s' := s.(gen := s.gen + 1);
    var t := Put(s', a.id, c);
    var f := ResizeAckFrame(s.gen + 1, h.cols, h.rows);
    HandlersSettled();
    PutClaims(s', a.id, c);
    BroadcastClaims(t, f);
    SamePut(s, s', a.id, c);
    SameRefusing(t, Put(s, a.id, c), f);
    ClaimsChain(s, s', t, Broadcast(t, f));
  }

  lemma SamePut(s: State, t: State, id: nat, c: Session)
    requires s.sessions == t.sessions && s.registered == t.registered
    ensures Put(s, id, c).sessions == Put(t, id, c).sessions && Put(s, id, c).registered == Put(t, id, c).registered
  {
  }

  lemma ClaimsChain(s: State, s': State, t: State, u: State)
    requires s.sessions == s'.sessions && SameClaims(s', t) && SameClaims(t, u)
    ensures ClaimsKept(s, u, None)
  {
    hide Unclaimed;
  }

  lemma SameRefusing(s: State, t: State, f: Frame)
    requires s.sessions == t.sessions && s.registered == t.registered
    ensures Refusing(s, f) == Refusing(t, f)
  {
  }

  lemma ReadClaims(s: State, a: Action)
    requires Enabled(s, a) && a.PtyRead?
    ensures ClaimsAfter(s, a, Apply(s, a))
  {
    hide Broadcast, Refusing, LastN;
    var t := s.(recent := LastN(RING_CAPACITY, s.recent + a.data));
    BroadcastClaims(t, Frame(OUTPUT, a.data));
    SameRefusing(t, s, Frame(OUTPUT, a.data));
  }

  lemma AnswerClaims(s: State, id: nat, c: Session)
    requires id in s.sessions && KeepsClaim(s.sessions[id], c)
    ensures Untouched(s, Answer(s, id, c))
  {
    hide Offer, Unlink, Admits, Put;
    OfferClaims(c, PONG_FRAME, false);
    PutClaims(s, id, c);
    PutClaims(s, id, Offer(c, PONG_FRAME));
    PutClaims(s, id, c.(handler := Leaving));
    UnlinkClaims(Put(s, id, c.(handler := Leaving)), id);
  }

  lemma HandleClaims(s: State, id: nat)
    requires Enabled(s, Handle(id))
    ensures ClaimsAfter(s, Handle(id), Apply(s, Handle(id)))
  {
    hide DoHandle;
    DoHandleClaims(s, id);
  }

  lemma DoHandleClaims(s: State, id: nat)
    requires id in s.sessions && s.sessions[id].handled < |s.sessions[id].outbox|
    ensures Untouched(s, DoHandle(s, id))
  {
    hide Answer, Acting, Put, Untouched, Noted, MayType;
    var c, noted := s.sessions[id], Noted(s, id);
    NotedClaims(s, id, c.outbox[c.handled], MayType(s, id));
    AnswerClaims(s, id, noted);
    PutClaims(s, id, noted);
    PutClaims(s, id, noted.(handler := Acting(c.outbox[c.handled], MayType(s, id))));
    StopPutClaims(s, id, noted.(handler := Finished));
  }

  lemma NotedClaims(s: State, id: nat, m: Message, holder: bool)
    requires id in s.sessions
    ensures KeepsClaim(s.sessions[id], Noted(s, id)) && !Unclaimed(Acting(m, holder))
  {
  }

  lemma StopPutClaims(s: State, id: nat, c: Session)
    requires id in s.sessions && KeepsClaim(s.sessions[id], c)
    ensures Untouched(s, Put(s.(running := false), id, c))
  {
  }

  lemma ExitClaims(s: State, a: Action)
    requires Enabled(s, a) && a.BroadcastExit?
    ensures ClaimsAfter(s, a, Apply(s, a))
  {
    hide Exiting;
    forall id | id in s.sessions
      ensures KeepsClaim(s.sessions[id], Exiting(s.sessions[id], Frame(EXIT, a.code)))
    {
      OfferClaims(s.sessions[id], Frame(EXIT, a.code), false);
    }
  }

  lemma ClaimsMove(s: State, a: Action)
    requires Enabled(s, a) && s.nextId !in s.sessions
    ensures ClaimsAfter(s, a, Apply(s, a))
  {
    hide Enabled, Apply, ClaimsAfter;
    if a.PtyRead? {
      ReadClaims(s, a);
    } else if a.CommitResize? {
      ResizeClaims(s, a);
    } else if a.Handle? {
      HandleClaims(s, a.id);
    } else if a.BroadcastExit? {
      ExitClaims(s, a);
    } else if ByDrain(a) {
      DrainClaims(s, a);
    } else if a.Connect? || a.Spawn? || a.OpenPty? || a.Claim? {
      ArrivalClaims(s, a);
    } else if a.AttachFirst? || a.AttachBegin? || a.AttachSend? || a.AttachEnd? {
      AttachClaims(s, a);
      QuietClaims(s, a, Apply(s, a));
    } else {
      HandlerClaims(s, a);
    }
  }

  lemma LinksGrow(s: State, t: State, stack: seq<nat>, id: nat)
    requires Linked(s, stack) && ClaimsKept(s, t, Some(id)) && 0 < id
    requires id in s.sessions && !Settled(s, id) && Settled(t, id)
    requires s.writerId == Top(stack) && t.sessions[id].previous == s.writerId
    ensures Linked(t, stack + [id])
    ensures Unbroken(s, stack) ==> Unbroken(t, stack + [id])
  {
    hide Settled, LinkOk, Distinct;
    var more := stack + [id];
    assert id !in stack by {
      forall i | 0 <= i < |stack| ensures stack[i] != id {
        assert Settled(s, stack[i]);
      }
    }
    DistinctGrows(stack, id);
    forall i | 0 <= i < |more|
      ensures Settled(t, more[i]) && 0 < more[i] && LinkOk(t, more, i)
      ensures Unbroken(s, stack) ==> more[i] in t.sessions && t.sessions[more[i]].previous == Below(more, i)
    {
      if i < |stack| {
        LinkGrows(s, t, stack, id, i);
      } else {
        NewLink(s, t, stack, id);
      }
    }
  }

  lemma LinkGrows(s: State, t: State, stack: seq<nat>, id: nat, i: nat)
    requires ClaimsKept(s, t, Some(id)) && i < |stack| && LinkOk(s, stack, i)
    requires Settled(s, stack[i]) && !Settled(s, id)
    ensures Settled(t, stack[i]) && LinkOk(t, stack + [id], i)
    ensures t.sessions[stack[i]].previous == s.sessions[stack[i]].previous && Below(stack + [id], i) == Below(stack, i)
  {
    hide Unclaimed;
  }

  lemma NewLink(s: State, t: State, stack: seq<nat>, id: nat)
    requires id in t.sessions && t.sessions[id].previous == Top(stack)
    ensures LinkOk(t, stack + [id], |stack|) && Below(stack + [id], |stack|) == Top(stack)
  {
  }

  lemma LinksStay(s: State, t: State, stack: seq<nat>)
    requires Linked(s, stack) && ClaimsKept(s, t, None)
    ensures Linked(t, stack)
    ensures Unbroken(s, stack) ==> Unbroken(t, stack)
  {
    hide Unclaimed, Distinct;
    forall i | 0 <= i < |stack|
      ensures Settled(t, stack[i]) && 0 < stack[i] && LinkOk(t, stack, i)
      ensures Unbroken(s, stack) ==> t.sessions[stack[i]].previous == Below(stack, i)
    {
      assert LinkOk(s, stack, i) && Settled(s, stack[i]);
    }
  }

  /** Removing a writer breaks at most the link above it. */
  lemma LinksShrink(s: State, stack: seq<nat>, k: nat)
    requires Linked(s, stack) && k < |stack|
    ensures Linked(s, stack[..k] + stack[k + 1..])
    ensures Unbroken(s, stack) && k == |stack| - 1 ==> Unbroken(s, stack[..k] + stack[k + 1..])
  {
    hide Unclaimed, Distinct;
    DistinctShrinks(stack, k);
    var less := stack[..k] + stack[k + 1..];
    forall i | 0 <= i < |less|
      ensures Settled(s, less[i]) && 0 < less[i] && LinkOk(s, less, i)
      ensures Unbroken(s, stack) && k == |stack| - 1 ==> s.sessions[less[i]].previous == Below(less, i)
    {
      var j := if i < k then i else i + 1;
      assert less[i] == stack[j] && LinkOk(s, stack, j) && Settled(s, stack[j]);
      if i != k {
        assert Below(less, i) == Below(stack, j);
      } else if s.sessions[stack[j]].previous == stack[k] {
        assert Settled(s, stack[k]) && stack[k] !in less;
      }
    }
  }

  /** The links survive every step, as long as the newest writer is the holder; and
      that remains so exactly when the step is orderly. */
  lemma LinkedStep(s: State, a: Action, t: State, stack: seq<nat>)
    requires Linked(s, stack) && s.writerId == Top(stack) && ClaimsAfter(s, a, t)
    requires (a.Claim? ==> 0 < a.id) && (HandsBack(a).Some? ==> HandsBack(a).value > 0)
    requires 0 !in Evicts(s, a)
    ensures Linked(t, Moved(stack, a))
    ensures t.writerId == Top(Moved(stack, a)) <==> Orderly(s, stack, a)
  {
    hide Evicts, Without, Linked, Unclaimed, ClaimsKept, Distinct;
    NobodyEvicted(s, a);
    if a.Claim? {
      LinksGrow(s, t, stack, a.id);
    } else if HandsBack(a).Some? {
      HandBackStep(s, a, t, stack, HandsBack(a).value);
    } else {
      LinksStay(s, t, stack);
      if stack != [] {
        TopIsSettled(s, stack);
      }
    }
  }

  lemma NobodyEvicted(s: State, a: Action)
    ensures a.Claim? || HandsBack(a).Some? ==> Evicts(s, a) == {}
  {
  }

  lemma TopIsSettled(s: State, stack: seq<nat>)
    requires Linked(s, stack) && stack != []
    ensures Top(stack) > 0 && Top(stack) in s.sessions && Top(stack) in stack
    ensures LinkOk(s, stack, |stack| - 1)
  {
  }

  /** A hand-back by the newest writer, by another, or by one that has already handed back. */
  lemma HandBackStep(s: State, a: Action, t: State, stack: seq<nat>, id: nat)
    requires Linked(s, stack) && s.writerId == Top(stack) && ClaimsAfter(s, a, t) && HandsBack(a) == Some(id) && 0 < id
    ensures Linked(t, Without(stack, id))
    ensures t.writerId == Top(Without(stack, id)) <==> Orderly(s, stack, a)
  {
    hide Evicts, Without, Linked, Unclaimed, ClaimsKept, LinkOk, Distinct;
    NobodyEvicted(s, a);
    LinksStay(s, t, stack);
    if stack != [] {
      TopIsSettled(s, stack);
    }
    if id !in stack {
      WithoutAbsent(stack, id);
    } else {
      var k :| 0 <= k < |stack| && stack[k] == id;
      AllDistinct(s, stack);
      WithoutOne(stack, k);
      LinksShrink(t, stack, k);
      if k == |stack| - 1 {
        assert stack[..k] + stack[k + 1..] == stack[..k];
        TopHandsBack(s, stack);
      } else {
        DistinctShrinks(stack, k);
        assert Top(stack) == stack[k + 1..][|stack| - k - 2];
        assert Top(stack[..k] + stack[k + 1..]) == Top(stack) != id;
      }
    }
  }

  lemma AllDistinct(s: State, stack: seq<nat>)
    requires Linked(s, stack)
    ensures Distinct(stack)
  {
  }

  /** What the newest writer saved is the next below it exactly when that one is still connected. */
  lemma TopHandsBack(s: State, stack: seq<nat>)
    requires Linked(s, stack) && stack != []
    ensures Top(stack) in s.sessions
    ensures var p := s.sessions[Top(stack)].previous;
            p == Top(stack[..|stack| - 1]) <==> p == 0 || p in stack
  {
    var n := |stack| - 1;
    assert LinkOk(s, stack, n);
    assert Top(stack[..n]) == Below(stack, n);
    if n > 0 {
      assert stack[n - 1] in stack;
    }
  }

  /** The right to type is the newest connected writer's, or nobody's, all through a
      run if and only if every step is orderly: none evicts the newest writer, and
      whenever that writer hands back, the one it took over from is still connected
      or there was none. In such a run only the first of a writer's two restoring
      compare-exchanges can matter. */
  lemma {:induction false} NewestHoldsIffOrderly(run: seq<Action>)
    requires After(run).Some?
    ensures NewestHeld(run) <==> AlwaysOrderly(run)
    ensures NewestHeld(run) ==> Linked(After(run).value, Connected(run))
    decreases |run|
  {
    if run != [] {
      hide Apply, Evicts, Inv, Linked, ClaimsAfter, Orderly, Moved;
      var before, a := run[..|run| - 1], run[|run| - 1];
      NewestHoldsIffOrderly(before);
      if NewestHeld(before) {
        var s := After(before).value;
        EveryRunKeeps(before);
        IdsAreFresh(s, a);
        ClaimsMove(s, a);
        HeldNow(before);
        LinkedStep(s, a, Apply(s, a), Connected(before));
      }
    }
  }

  lemma HeldNow(run: seq<Action>)
    requires After(run).Some? && NewestHeld(run)
    ensures After(run).value.writerId == Top(Connected(run))
  {
  }

  /** In every run where writers hand back in the reverse order of their swaps and
      none is evicted, the newest connected writer holds the right to type, or
      nobody does when there is none. */
  lemma {:induction false} NestedWritersHandBack(run: seq<Action>)
    requires After(run).Some? && Nested(run)
    ensures NewestHeld(run)
    ensures After(run).value.writerId == Top(Connected(run))
    ensures Unbroken(After(run).value, Connected(run))
    decreases |run|
  {
    NewestHoldsIffOrderly(run);
    if run != [] {
      hide Apply, Evicts, Inv, Linked, ClaimsAfter, Orderly, Moved, NewestHeld, Unbroken;
      var before, a := run[..|run| - 1], run[|run| - 1];
      NestedWritersHandBack(before);
      NewestHoldsIffOrderly(before);
      EveryRunKeeps(before);
      var s := After(before).value;
      IdsAreFresh(s, a);
      ClaimsMove(s, a);
      NestedStep(s, a, Apply(s, a), Connected(before));
    }
    HeldNow(run);
  }

  lemma NestedStep(s: State, a: Action, t: State, stack: seq<nat>)
    requires Linked(s, stack) && Unbroken(s, stack) && s.writerId == Top(stack) && ClaimsAfter(s, a, t)
    requires (a.Claim? ==> 0 < a.id)
    requires HandsBack(a).Some? && HandsBack(a).value in stack ==> HandsBack(a).value == Top(stack)
    requires forall id :: id in stack ==> id !in Evicts(s, a)
    ensures Orderly(s, stack, a) && Unbroken(t, Moved(stack, a))
  {
    hide Evicts, Without, Linked, Unclaimed, Distinct;
    if stack != [] {
      TopIsSettled(s, stack);
      TopLink(stack);
    }
    if a.Claim? {
      LinksGrow(s, t, stack, a.id);
    } else {
      LinksStay(s, t, stack);
      if HandsBack(a).Some? {
        var id := HandsBack(a).value;
        if id in stack {
          AllDistinct(s, stack);
          WithoutOne(stack, |stack| - 1);
          LinksShrink(t, stack, |stack| - 1);
        } else {
          WithoutAbsent(stack, id);
        }
      }
    }
  }

  lemma TopLink(stack: seq<nat>)
    requires stack != []
    ensures var p := Below(stack, |stack| - 1); p == 0 || p in stack
  {
  }

  lemma IdsAreFresh(s: State, a: Action)
    requires Inv(s) && Enabled(s, a)
    ensures s.nextId !in s.sessions && 0 < s.nextId
    ensures HandsBack(a).Some? ==> HandsBack(a).value > 0
    ensures a.Claim? ==> a.id > 0
    ensures 0 !in Evicts(s, a)
  {
    hide Healthy, AcksNumbered, HistoryOf, LastN, Admits;
  }
}
