/** What a client may conclude from the bytes on its socket: decoding, and the Ping/Pong barrier. */
module Barrier {
  import opened Bytes
  import opened Wire
  import opened Queueing
  import opened Broker
  import opened BrokerInvariant
  import opened BrokerSteps

  lemma WireOfHealthy(c: Session, log: seq<Event>, registered: bool, typed: seq<seq<byte>>)
    requires Healthy(c, log, registered, typed)
    ensures AllFit(true, c.dequeued) && c.wire <= EncodeAll(c.dequeued)
  {
    hide StreamOk, TransitOk, QueueOk, ReplayOk, PlanOk, InputOk, PongOk, WholeOk, ExitOk, PhaseOk, EncodeAll;
    match c.drain
    case Draining =>
    case Writing(rest) =>
    case _ =>
  }

  /** Whatever part of its socket a client has read, parsing it never fails and
      yields the frames the drain thread took, from the first one on. */
  lemma WireDecodes(s: State, id: nat, bytes: seq<byte>)
    requires Reachable(s) && id in s.sessions && bytes <= s.sessions[id].wire
    ensures var p := Parse(true, bytes);
            && p.error.None? && p.frames <= s.sessions[id].dequeued
            && bytes == EncodeAll(p.frames) + p.rest
  {
    hide Healthy, EncodeAll, Parse, Reachable, SharedOk, AuthorityOk, FirstOk, TypedBy;
    ReachableKeeps(s);
    var c := s.sessions[id];
    WireOfHealthy(c, s.log, id in s.registered, TypedBy(s.typed, id));
    ParseOfStream(true, c.dequeued, bytes);
  }

  lemma FlatPrefix(a: seq<Frame>, b: seq<Frame>)
    requires a <= b
    ensures Flat(a) <= Flat(b)
  {
    FlatAppend(a, b[|a|..]);
    assert b == a + b[|a|..];
  }

  lemma PongsPrefix(a: seq<Event>, b: seq<Event>)
    requires a <= b
    ensures Pongs(a) <= Pongs(b)
  {
    PongsAppend(a, b[|a|..]);
    assert b == a + b[|a|..];
  }

  lemma {:induction false} PingsPrefix(a: seq<Message>, b: seq<Message>)
    requires a <= b
    ensures Pings(a) <= Pings(b)
  {
    if a != [] {
      PingsPrefix(a[1..], b[1..]);
    }
  }

  /** Of the events a client has decoded, the leading part that is an initial
      piece of its stream; only an Exit after a cut can be missing from it. */
  lemma DecodedIsStream(c: Session, log: seq<Event>, registered: bool, typed: seq<seq<byte>>, got: seq<Frame>)
    returns (n: nat)
    requires Healthy(c, log, registered, typed) && got <= c.dequeued
    ensures n <= |c.stream| && n <= |Flat(got)| && c.stream[..n] == Flat(got)[..n]
    ensures Pongs(c.stream[..n]) == Pongs(Flat(got))
  {
    hide StreamOk, WireOk, QueueOk, ReplayOk, PlanOk, InputOk, PongOk, WholeOk, ExitOk, PhaseOk, Flat, Pongs;
    FlatPrefix(got, c.dequeued);
    var g := Flat(got);
    if !c.lost {
      n := |g|;
      assert g <= c.stream;
      assert g[..n] == g && c.stream[..n] == g;
    } else if |g| <= c.kept {
      n := |g|;
      assert g[..n] == g && c.stream[..n] == g;
    } else {
      n := c.kept;
      var exit := c.stream[|c.stream| - 1];
      assert g == c.stream[..n] + [exit];
      PongsAppend(c.stream[..n], [exit]);
      ExitIsNoPong(exit);
    }
  }

  lemma ExitIsNoPong(e: Event)
    requires e.Control? && e.frame.kind == EXIT
    ensures Pongs([e]) == 0
  {
    assert [e][1..] == [];
  }

  /** The sync barrier. A client had sent `before`, then a Ping, then `after`, and
      has decoded one more Pong than it had sent Pings in `before`. Then the
      broker has handled all of `before` in order and typed every approved input
      in it, and the client has decoded everything that was enqueued for it
      ahead of that Pong. */
  lemma SyncBarrier(s: State, id: nat, before: seq<Message>, after: seq<Message>, bytes: seq<byte>)
    requires Reachable(s) && id in s.sessions && bytes <= s.sessions[id].wire
    requires s.sessions[id].outbox == before + [Ping] + after
    requires Pongs(Flat(Parse(true, bytes).frames)) > Pings(before)
    ensures var c := s.sessions[id];
            && |before| < c.handled == |c.verdicts|
            && Approved(before, c.verdicts[..|before|]) <= TypedBy(s.typed, id)
            && forall n :: 0 <= n <= |c.stream| && Pongs(c.stream[..n]) <= Pings(before) ==>
                 c.stream[..n] <= Flat(Parse(true, bytes).frames)
  {
    hide Healthy, EncodeAll, Parse, Reachable, SharedOk, AuthorityOk, FirstOk, TypedBy, Flat, Pongs, Pings, Approved;
    ReachableKeeps(s);
    WireDecodes(s, id, bytes);
    var c := s.sessions[id];
    var got := Parse(true, bytes).frames;
    var typed := TypedBy(s.typed, id);
    var m := DecodedIsStream(c, s.log, id in s.registered, typed, got);
    PongsPrefix(c.stream[..m], c.stream);
    PongsWerePings(c, s.log, id in s.registered, typed);
    if c.handled <= |before| {
      assert c.outbox[..c.handled] <= before;
      PingsPrefix(c.outbox[..c.handled], before);
    }
    TypedBeforePing(c, s.log, id in s.registered, typed, before, after);
    forall n | 0 <= n <= |c.stream| && Pongs(c.stream[..n]) <= Pings(before)
      ensures c.stream[..n] <= Flat(got)
    {
      if m < n {
        assert c.stream[..m] <= c.stream[..n];
        PongsPrefix(c.stream[..m], c.stream[..n]);
      } else {
        assert c.stream[..n] == c.stream[..m][..n] == Flat(got)[..n];
      }
    }
  }

  lemma PongsWerePings(c: Session, log: seq<Event>, registered: bool, typed: seq<seq<byte>>)
    requires Healthy(c, log, registered, typed)
    ensures c.handled <= |c.outbox| && Pongs(c.stream) <= Pings(c.outbox[..c.handled])
    ensures c.handled == |c.verdicts|
  {
  }

  lemma {:induction false} ApprovedAppend(a: seq<Message>, va: seq<bool>, b: seq<Message>, vb: seq<bool>)
    requires |a| == |va| && |b| == |vb|
    ensures Approved(a + b, va + vb) == Approved(a, va) + Approved(b, vb)
  {
    if a == [] {
      assert a + b == b && va + vb == vb;
    } else {
      assert (a + b)[1..] == a[1..] + b && (va + vb)[1..] == va[1..] + vb;
      ApprovedAppend(a[1..], va[1..], b, vb);
    }
  }

  /** Once the Ping behind them has been handled, approved inputs are not merely about to be typed. */
  lemma TypedBeforePing(c: Session, log: seq<Event>, registered: bool, typed: seq<seq<byte>>,
                        before: seq<Message>, after: seq<Message>)
    requires Healthy(c, log, registered, typed) && c.outbox == before + [Ping] + after && |before| < c.handled
    ensures |before| <= |c.verdicts| && Approved(before, c.verdicts[..|before|]) <= typed
  {
    hide Approved;
    assert before == c.outbox[..|before|];
    InputsBefore(c.outbox, c.handled, c.verdicts, c.handler, typed, c.role, |before|);
  }

  lemma InputsBefore(outbox: seq<Message>, handled: nat, verdicts: seq<bool>, handler: Handler,
                     typed: seq<seq<byte>>, role: Role, b: nat)
    requires InputOk(outbox, handled, verdicts, handler, typed, role) && b < handled
    ensures Approved(outbox[..b], verdicts[..b]) <= typed
  {
    hide Approved;
    var rest, vrest := outbox[b..handled], verdicts[b..];
    assert outbox[..handled] == outbox[..b] + rest && verdicts == verdicts[..b] + vrest;
    ApprovedAppend(outbox[..b], verdicts[..b], rest, vrest);
    if handler.Typing? {
      LastIsApproved(rest, vrest);
      DropLast(typed, handler.payload, Approved(outbox[..b], verdicts[..b]), Approved(rest, vrest));
    } else {
      assert typed + [] == typed;
    }
  }

  lemma LastIsApproved(ms: seq<Message>, verdicts: seq<bool>)
    requires |ms| == |verdicts| > 0 && ms[|ms| - 1].Input? && verdicts[|ms| - 1]
    ensures var approved := Approved(ms, verdicts); approved != [] && approved[|approved| - 1] == ms[|ms| - 1].payload
  {
    var last := |ms| - 1;
    assert ms == ms[..last] + [ms[last]] && verdicts == verdicts[..last] + [verdicts[last]];
    ApprovedSnoc(ms[..last], verdicts[..last], ms[last], verdicts[last]);
  }

  lemma DropLast<T>(s: seq<T>, x: T, a: seq<T>, b: seq<T>)
    requires s + [x] == a + b && b != []
    ensures a <= s
  {
    assert s == (a + b)[..|s|];
  }

  /** While a client's queue is open, every Ping the broker has handled for it has
      one Pong in its stream; afterwards there are never more Pongs than Pings. */
  lemma PingsAreAnswered(s: State, id: nat)
    requires Reachable(s) && id in s.sessions
    ensures var c := s.sessions[id];
            && c.handled <= |c.outbox| && Pongs(c.stream) <= Pings(c.outbox[..c.handled])
            && (!c.queue.closed ==> Pongs(c.stream) == Pings(c.outbox[..c.handled]))
  {
    hide Healthy, SharedOk, AuthorityOk, FirstOk, Reachable, TypedBy, Pongs, Pings;
    ReachableKeeps(s);
    PongsOfHealthy(s.sessions[id], s.log, id in s.registered, TypedBy(s.typed, id));
  }

  lemma PongsOfHealthy(c: Session, log: seq<Event>, registered: bool, typed: seq<seq<byte>>)
    requires Healthy(c, log, registered, typed)
    ensures PongOk(c.stream, c.outbox, c.handled, c.queue.closed)
  {
  }
}
