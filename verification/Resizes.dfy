/** Resizes from request to acknowledgement: every one that passed the writer check is committed, in order. */
module Resizes {
  import opened Bytes
  import opened Wire
  import opened Broker
  import opened BrokerInvariant
  import opened BrokerSteps
  import opened Locality
  import opened Guarantees
  import opened Authority

  type Dims = (u16, u16)

  /** The resizes committed in a run: by whom, and to what size. */
  function Committed(run: seq<Action>): seq<(nat, Dims)>
    requires After(run).Some?
  {
    if run == [] then []
    else
      var before, a := run[..|run| - 1], run[|run| - 1];
      Committed(before) + CommitOf(After(before).value, a)
  }

  function CommitOf(s: State, a: Action): seq<(nat, Dims)> {
    if a.CommitResize? && a.id in s.sessions && s.sessions[a.id].handler.Resizing? then
      [(a.id, (s.sessions[a.id].handler.cols, s.sessions[a.id].handler.rows))]
    else []
  }

  function By(list: seq<(nat, Dims)>, id: nat): seq<Dims> {
    if list == [] then [] else (if list[0].0 == id then [list[0].1] else []) + By(list[1..], id)
  }

  lemma {:induction false} ByAppend(a: seq<(nat, Dims)>, b: seq<(nat, Dims)>, id: nat)
    ensures By(a + b, id) == By(a, id) + By(b, id)
  {
    if a == [] {
      assert a + b == b;
    } else {
      assert (a + b)[1..] == a[1..] + b && (a + b)[0] == a[0];
      ByAppend(a[1..], b, id);
      var h := if a[0].0 == id then [a[0].1] else [];
      assert h + (By(a[1..], id) + By(b, id)) == (h + By(a[1..], id)) + By(b, id);
    }
  }

  /** Resizes among the messages whose verdict is true. */
  function Asked(ms: seq<Message>, verdicts: seq<bool>): seq<Dims>
    requires |ms| == |verdicts|
  {
    if ms == [] then []
    else (if ms[0].Resize? && verdicts[0] then [(ms[0].cols, ms[0].rows)] else []) + Asked(ms[1..], verdicts[1..])
  }

  lemma {:induction false} AskedSnoc(ms: seq<Message>, verdicts: seq<bool>, m: Message, v: bool)
    requires |ms| == |verdicts|
    ensures Asked(ms + [m], verdicts + [v]) == Asked(ms, verdicts) + if m.Resize? && v then [(m.cols, m.rows)] else []
  {
    if ms == [] {
      assert [m][1..] == [] && [v][1..] == [];
    } else {
      assert (ms + [m])[1..] == ms[1..] + [m] && (verdicts + [v])[1..] == verdicts[1..] + [v];
      AskedSnoc(ms[1..], verdicts[1..], m, v);
    }
  }

  function Pending(h: Handler): seq<Dims> {
    if h.Resizing? then [(h.cols, h.rows)] else []
  }

  /** Resizes that passed the check are those committed, then the one pending. */
  ghost predicate Accounted(c: Session, committed: seq<Dims>) {
    && c.handled == |c.verdicts| <= |c.outbox|
    && Asked(c.outbox[..c.handled], c.verdicts) == committed + Pending(c.handler)
  }

  lemma AccountedByDesk(c: Session, c': Session, committed: seq<Dims>)
    requires Accounted(c, committed) && DeskKept(c, c')
    ensures Accounted(c', committed)
  {
    hide Asked;
  }

  lemma AccountedSends(c: Session, msg: Message, committed: seq<Dims>)
    requires Accounted(c, committed)
    ensures Accounted(c.(outbox := c.outbox + [msg]), committed)
  {
    hide Asked;
    assert (c.outbox + [msg])[..c.handled] == c.outbox[..c.handled];
  }

  lemma AccountedHandles(s: State, id: nat, t: State, committed: seq<Dims>)
    requires HandledAs(s, id, t) && Accounted(s.sessions[id], committed)
    ensures Accounted(t.sessions[id], committed)
  {
    hide Asked;
    var c, c' := s.sessions[id], t.sessions[id];
    AskedSnoc(c.outbox[..c.handled], c.verdicts, c.outbox[c.handled], s.writerId == id && s.spawner != 0);
    assert c'.outbox[..c'.handled] == c.outbox[..c.handled] + [c.outbox[c.handled]];
    assert committed + [] == committed;
    assert Asked(c.outbox[..c.handled], c.verdicts) + [] == Asked(c.outbox[..c.handled], c.verdicts);
  }

  lemma AccountedDrops(c: Session, committed: seq<Dims>)
    requires Accounted(c, committed) && c.handler.Typing?
    requires 0 < c.handled && c.outbox[c.handled - 1].Input?
    ensures Accounted(Dropping(c), committed)
  {
    hide Asked;
    var n := c.handled - 1;
    assert c.outbox[..c.handled] == c.outbox[..n] + [c.outbox[n]] && c.verdicts == c.verdicts[..n] + [c.verdicts[n]];
    AskedSnoc(c.outbox[..n], c.verdicts[..n], c.outbox[n], c.verdicts[n]);
    AskedSnoc(c.outbox[..n], c.verdicts[..n], c.outbox[n], false);
  }

  lemma AccountedCommits(c: Session, c': Session, committed: seq<Dims>)
    requires Accounted(c, committed) && c.handler.Resizing? && Given(c.(handler := Reading), c')
    ensures Accounted(c', committed + Pending(c.handler))
  {
    hide Asked;
    assert (committed + Pending(c.handler)) + [] == committed + Pending(c.handler);
  }

  lemma AccountedStep(s: State, a: Action, id: nat, committed: seq<Dims>)
    requires Inv(s) && Enabled(s, a) && id in s.sessions && Accounted(s.sessions[id], committed)
    ensures id in Apply(s, a).sessions && Accounted(Apply(s, a).sessions[id], committed + By(CommitOf(s, a), id))
  {
    hide Inv, Enabled, Apply, Accounted, DeskKept, Given, HandledAs;
    CommitBy(s, a, id);
    assert committed + [] == committed;
    if !OnMessage(a) || Actor(a) != Some(id) {
      DeskStays(s, a, id);
      AccountedByDesk(s.sessions[id], Apply(s, a).sessions[id], committed);
    } else {
      match a
      case Handle(_) =>
        HandlesDesk(s, id);
        AccountedHandles(s, id, Apply(s, a), committed) by { HandledIs(s, id, Apply(s, a)); }
        HandledIs(s, id, Apply(s, a));
      case ClientSends(_, msg) =>
        SendsDesk(s, id, msg);
        AccountedSends(s.sessions[id], msg, committed);
      case TypeInput(_) =>
        TypesDesk(s, id);
        AccountedTypes(s.sessions[id], committed);
      case DropInput(_) =>
        DropsDesk(s, id);
        DroppedVerdicts(s, id);
        AccountedDrops(s.sessions[id], committed);
      case CommitResize(_) =>
        CommitsDesk(s, id);
        AccountedCommits(s.sessions[id], Apply(s, a).sessions[id], committed);
    }
  }

  lemma AccountedTypes(c: Session, committed: seq<Dims>)
    requires Accounted(c, committed) && c.handler.Typing?
    ensures Accounted(c.(handler := Reading), committed)
  {
    hide Asked;
  }

  lemma HandledIs(s: State, id: nat, t: State)
    requires HandledAs(s, id, t)
    ensures id in s.sessions && id in t.sessions
  {
  }

  lemma CommitBy(s: State, a: Action, id: nat)
    ensures By(CommitOf(s, a), id) ==
            if a == CommitResize(id) && id in s.sessions then Pending(s.sessions[id].handler) else []
  {
    var list := CommitOf(s, a);
    if list != [] {
      assert list[1..] == [];
    }
  }

  /** Per client, the Resizes whose verdict is true are, in order, the resizes it has
      committed and then the one pending, if any: none is skipped, none invented. */
  lemma {:induction false} ResizesAreCommitted(run: seq<Action>, id: nat)
    requires After(run).Some? && id in After(run).value.sessions
    ensures var c := After(run).value.sessions[id];
            && c.handled == |c.verdicts| <= |c.outbox|
            && Asked(c.outbox[..c.handled], c.verdicts) == By(Committed(run), id) + Pending(c.handler)
    decreases |run|
  {
    hide Inv, Enabled, Apply, Asked, By, CommitOf;
    NoneAtFirst(run);
    BeforeLast(run);
    var before, a := run[..|run| - 1], run[|run| - 1];
    var s := After(before).value;
    EveryRunKeeps(before);
    StepRegisters(s, a);
    ByAppend(Committed(before), CommitOf(s, a), id);
    if id in s.sessions {
      ResizesAreCommitted(before, id);
      AccountedStep(s, a, id, By(Committed(before), id));
    } else {
      NothingCommitted(before, id);
      ConnectAccounted(s, a.role, id);
      CommitBy(s, a, id);
    }
  }

  lemma NoneAtFirst(run: seq<Action>)
    ensures run == [] ==> After(run) == Some(INITIAL) && INITIAL.sessions == map[]
  {
  }

  lemma ConnectAccounted(s: State, role: Role, id: nat)
    requires id in Apply(s, Connect(role)).sessions && id !in s.sessions
    ensures Accounted(Apply(s, Connect(role)).sessions[id], [])
  {
  }

  /** A client that has not arrived has committed nothing. */
  lemma {:induction false} NothingCommitted(run: seq<Action>, id: nat)
    requires After(run).Some? && id !in After(run).value.sessions
    ensures By(Committed(run), id) == []
    decreases |run|
  {
    hide Inv, Enabled, Apply, By, CommitOf;
    if run == [] {
      NothingBy(id);
    } else {
      BeforeLast(run);
      var before, a := run[..|run| - 1], run[|run| - 1];
      var s := After(before).value;
      StepRegisters(s, a);
      ByAppend(Committed(before), CommitOf(s, a), id);
      ConnectKeepsKeys(s, a);
      NothingCommitted(before, id);
      CommitBy(s, a, id);
    }
  }

  lemma NothingBy(id: nat)
    ensures By([], id) == []
  {
  }

  lemma ConnectKeepsKeys(s: State, a: Action)
    requires Enabled(s, a)
    ensures a.Connect? ==> s.sessions.Keys <= Apply(s, a).sessions.Keys
  {
  }

  /** The ResizeAcks of the log are, one for one and in order, the resizes committed
      by all clients together; there are as many as generations. */
  lemma {:induction false} CommittedAreLogged(run: seq<Action>)
    requires After(run).Some?
    ensures var s := After(run).value;
            && |Committed(run)| == s.gen == |Controls(s.log)|
            && forall k :: 0 <= k < s.gen ==>
                 k + 1 < U32_SIZE
                 && Controls(s.log)[k] == ResizeAckFrame(k + 1, Committed(run)[k].1.0, Committed(run)[k].1.1)
    decreases |run|
  {
    hide Inv, Enabled, Apply, Controls, ResizeAckFrame;
    EveryRunKeeps(run);
    InvAcks(After(run).value);
    if run != [] {
      BeforeLast(run);
      var before, a := run[..|run| - 1], run[|run| - 1];
      var s := After(before).value;
      CommittedAreLogged(before);
      EveryRunKeeps(before);
      InvAcks(s);
      StepControls(s, a);
    }
  }

  /** A resize that passed the check stays pending until it is committed; nothing
      else the broker or the client does ends it. */
  lemma PendingStays(s: State, a: Action, id: nat)
    requires Reachable(s) && Enabled(s, a) && id in s.sessions && s.sessions[id].handler.Resizing?
    requires a != CommitResize(id)
    ensures id in Apply(s, a).sessions && Apply(s, a).sessions[id].handler == s.sessions[id].handler
  {
    hide Inv, Enabled, Apply, Reachable;
    ReachableKeeps(s);
    if !OnMessage(a) || Actor(a) != Some(id) {
      DeskStays(s, a, id);
    } else {
      match a
      case Handle(_) => HandlesDesk(s, id);
      case ClientSends(_, msg) => SendsDesk(s, id, msg);
      case TypeInput(_) => TypesDesk(s, id);
      case DropInput(_) => DropsDesk(s, id);
    }
  }

  /** Everything a client has sent, in order. */
  function SentIn(run: seq<Action>, id: nat): seq<Message> {
    if run == [] then []
    else
      var a := run[|run| - 1];
      SentIn(run[..|run| - 1], id) + if a.ClientSends? && a.id == id then [a.msg] else []
  }

  /** The messages the broker has to handle for a client are those it has sent. */
  lemma {:induction false} OutboxIsSent(run: seq<Action>, id: nat)
    requires After(run).Some? && id in After(run).value.sessions
    ensures After(run).value.sessions[id].outbox == SentIn(run, id)
    decreases |run|
  {
    hide Inv, Enabled, Apply;
    NoneAtFirst(run);
    BeforeLast(run);
    var before, a := run[..|run| - 1], run[|run| - 1];
    var s := After(before).value;
    EveryRunKeeps(before);
    StepRegisters(s, a);
    if id !in s.sessions {
      NothingSent(before, id);
      ConnectSilent(s, a.role, id);
    } else {
      OutboxIsSent(before, id);
      OutboxStep(s, a, id);
    }
  }

  lemma OutboxStep(s: State, a: Action, id: nat)
    requires Inv(s) && Enabled(s, a) && id in s.sessions
    ensures id in Apply(s, a).sessions
    ensures Apply(s, a).sessions[id].outbox ==
            s.sessions[id].outbox + if a.ClientSends? && a.id == id then [a.msg] else []
  {
    hide Inv, Enabled, Apply;
    assert s.sessions[id].outbox + [] == s.sessions[id].outbox;
    if !OnMessage(a) || Actor(a) != Some(id) {
      DeskStays(s, a, id);
    } else {
      match a
      case Handle(_) => HandlesDesk(s, id);
      case ClientSends(_, msg) => SendsDesk(s, id, msg);
      case TypeInput(_) => TypesDesk(s, id);
      case DropInput(_) => DropsDesk(s, id);
      case CommitResize(_) => CommitsDesk(s, id);
    }
  }

  lemma ConnectSilent(s: State, role: Role, id: nat)
    requires id in Apply(s, Connect(role)).sessions && id !in s.sessions
    ensures Apply(s, Connect(role)).sessions[id].outbox == []
  {
  }

  lemma {:induction false} NothingSent(run: seq<Action>, id: nat)
    requires After(run).Some? && id !in After(run).value.sessions
    ensures SentIn(run, id) == []
    decreases |run|
  {
    hide Inv, Enabled, Apply;
    if run != [] {
      BeforeLast(run);
      var before, a := run[..|run| - 1], run[|run| - 1];
      var s := After(before).value;
      StepRegisters(s, a);
      ConnectKeepsKeys(s, a);
      NothingSent(before, id);
      SenderExists(s, a);
    }
  }

  lemma SenderExists(s: State, a: Action)
    requires Enabled(s, a)
    ensures a.ClientSends? ==> a.id in s.sessions
  {
  }
}
