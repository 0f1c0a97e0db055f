/** From the PTY to the client's terminal: queue, wire, decoder and relay composed. */
module EndToEnd {
  import opened Bytes
  import opened Wire
  import opened Queueing
  import opened Broker
  import opened BrokerInvariant
  import opened BrokerSteps
  import opened Delivery
  import opened Barrier
  import ScreenReaders
  import Onlcr
  import RawTexts
  import NewText
  import opened Painted

  lemma {:induction false} OutputIsHistory(fs: seq<Frame>)
    ensures ScreenReaders.OutputOf(fs) == HistoryOf(Flat(fs))
    ensures ScreenReaders.PongFrames(fs) == Pongs(Flat(fs))
  {
    if fs != [] {
      OutputIsHistory(fs[1..]);
      EventsOf(fs[0]);
      HistoryAppend(Events(fs[0]), Flat(fs[1..]));
      PongsAppend(Events(fs[0]), Flat(fs[1..]));
    }
  }

  /** Whatever part of its socket a client has read, and however it was cut, the
      output it decodes is an initial piece of its replay followed by the
      history since it attached. */
  lemma ClientSeesHistory(s: State, id: nat, bytes: seq<byte>)
    requires Reachable(s) && id in s.sessions && bytes <= s.sessions[id].wire && ReplayFits(s.sessions[id])
    ensures Parse(true, bytes).error == None
    ensures ScreenReaders.OutputOf(Parse(true, bytes).frames) <= Expected(s, s.sessions[id])
  {
    hide Parse, Flat, HistoryOf, Reachable, ReplayFits, Expected;
    WireDecodes(s, id, bytes);
    ExactlyOnce(s, id);
    var c, got := s.sessions[id], Parse(true, bytes).frames;
    OutputIsHistory(got);
    FlatPrefix(got, c.dequeued);
    HistoryPrefix(Flat(got), Flat(c.dequeued));
    PrefixOfPrefix(HistoryOf(Flat(got)), HistoryOf(Flat(c.dequeued)), HistoryOf(Flat(c.queue.frames)), Expected(s, c));
  }

  lemma PrefixOfPrefix<T>(a: seq<T>, b: seq<T>, c: seq<T>, d: seq<T>)
    requires a <= b && b + c <= d
    ensures a <= d
  {
    assert b <= d by { assert (b + c)[..|b|] == b; }
  }

  /** Once a client has read all that was written to it and nothing is in flight
      or queued for it, it has seen everything. */
  lemma CaughtUpClientSeesAll(s: State, id: nat)
    requires Reachable(s) && id in s.registered && id in s.sessions && ReplayFits(s.sessions[id])
    requires var c := s.sessions[id]; c.drain == Draining && c.queue.frames == []
    ensures var c := s.sessions[id];
            ScreenReaders.OutputOf(Parse(true, c.wire).frames) == Expected(s, c) && HistAt(s, c.upto) == |Hist(s)|
  {
    hide Parse, Flat, HistoryOf, Reachable, ReplayFits, Expected;
    ReachableKeeps(s);
    var c := s.sessions[id];
    CaughtUp(c, s.log, true, TypedBy(s.typed, id));
    ParseOfEncodeAll(true, c.dequeued);
    ExactlyOnce(s, id);
    OutputIsHistory(c.dequeued);
    NothingFlat();
    assert HistoryOf(Flat(c.dequeued)) + [] == HistoryOf(Flat(c.dequeued));
  }

  lemma CaughtUp(c: Session, log: seq<Event>, registered: bool, typed: seq<seq<byte>>)
    requires Healthy(c, log, registered, typed) && registered && c.drain == Draining
    ensures AllFit(true, c.dequeued) && c.wire == EncodeAll(c.dequeued) && !c.queue.closed && c.toReplay == []
    ensures NoExit(c.dequeued)
  {
  }

  // ----- the attach client -----

  /** The frames that a reader which stops at Exit processes. */
  function UpToExit(fs: seq<Frame>): seq<Frame> {
    if fs == [] then []
    else if fs[0].kind == EXIT then [fs[0]]
    else [fs[0]] + UpToExit(fs[1..])
  }

  /** Everything in front of the first Exit, then that Exit, then nothing. */
  lemma {:induction false} UpToExitStops(a: seq<Frame>, exit: Frame, b: seq<Frame>)
    requires NoExit(a) && exit.kind == 10
    ensures UpToExit(a + [exit] + b) == a + [exit]
    decreases |a|
  {
    var fs := a + [exit] + b;
    if a == [] {
      assert fs[0] == exit;
    } else {
      assert fs[0] == a[0] && fs[1..] == a[1..] + [exit] + b;
      UpToExitStops(a[1..], exit, b);
    }
  }

  lemma {:induction false} UpToExitIsPrefix(fs: seq<Frame>)
    ensures UpToExit(fs) <= fs
  {
    if fs != [] && fs[0].kind != EXIT {
      UpToExitIsPrefix(fs[1..]);
    }
  }

  function First(fs: seq<Frame>, n: nat): seq<Frame> {
    if n < |fs| then fs[..n] else fs
  }

  /** The reader thread: output goes to the terminal until Exit, end of input or a
      malformed frame, or until, after `turns` frames, it finds that the client
      has detached. */
  method AttachReader(bytes: seq<byte>, turns: nat) returns (written: seq<byte>)
    ensures written == Onlcr.Convert(false, ScreenReaders.OutputOf(First(UpToExit(Parse(true, bytes).frames), turns)))
  {
    hide Parse, UpToExit, Take, ScreenReaders.OutputOf, Encode, Onlcr.Convert, Onlcr.EndsInCr;
    var reader := new Reader(bytes);
    var out := new Onlcr.StdoutRelay();
    ghost var shown: seq<Frame> := [];
    ghost var goal := UpToExit(Parse(true, bytes).frames);
    assert [] + goal == goal;
    NothingShown();
    var turn := 0;
    while true
      invariant |shown| == turn <= turns
      invariant goal == shown + UpToExit(Parse(true, reader.rest).frames)
      invariant out.written == Onlcr.Convert(false, ScreenReaders.OutputOf(shown))
      invariant out.lastWasCr == Onlcr.EndsInCr(false, ScreenReaders.OutputOf(shown))
      decreases |reader.rest|
    {
      if turn == turns {
        assert First(goal, turns) == shown;
        break;
      }
      turn := turn + 1;
      ghost var rest := reader.rest;
      var r := ReadFields(reader);
      if !r.Read? {
        ParseStops(rest);
        assert shown + [] == shown;
        break;
      }
      var frame := r.frame;
      ParseTakes(rest, frame, reader.rest);
      ShowsNext(shown, frame);
      GoalMoves(goal, shown, frame, UpToExit(Parse(true, reader.rest).frames));
      shown := shown + [frame];
      if frame.kind == OUTPUT {
        out.RawWrite(frame.payload);
      } else if frame.kind == EXIT {
        break;
      }
    }
    assert shown == First(goal, turns);
    written := out.written;
  }

  /** What one more frame adds to the terminal. */
  lemma ShowsNext(shown: seq<Frame>, f: Frame)
    ensures var (before, after) := (ScreenReaders.OutputOf(shown), ScreenReaders.OutputOf(shown + [f]));
            if f.kind == OUTPUT then
              && Onlcr.Convert(false, after) ==
                 Onlcr.Convert(false, before) + Onlcr.Convert(Onlcr.EndsInCr(false, before), f.payload)
              && Onlcr.EndsInCr(false, after) == Onlcr.EndsInCr(Onlcr.EndsInCr(false, before), f.payload)
            else after == before
  {
    hide Onlcr.Convert, Onlcr.EndsInCr, ScreenReaders.OutputOf;
    ScreenReaders.FramesSnoc(shown, f);
    Onlcr.ConvertAppend(false, ScreenReaders.OutputOf(shown), f.payload);
    assert ScreenReaders.OutputOf(shown) + [] == ScreenReaders.OutputOf(shown);
  }

  lemma GoalMoves(goal: seq<Frame>, shown: seq<Frame>, f: Frame, later: seq<Frame>)
    ensures f.kind != EXIT && goal == shown + ([f] + later) ==> goal == (shown + [f]) + later
    ensures f.kind == EXIT && goal == shown + [f] ==> goal == (shown + [f]) + []
  {
  }

  lemma NothingShown()
    ensures ScreenReaders.OutputOf([]) == [] == Onlcr.Convert(false, []) && !Onlcr.EndsInCr(false, [])
  {
  }

  lemma ParseStops(buf: seq<byte>)
    requires !Take(true, buf).Got?
    ensures UpToExit(Parse(true, buf).frames) == []
  {
  }

  lemma ParseTakes(buf: seq<byte>, f: Frame, rest: seq<byte>)
    requires Take(true, buf) == Got(f, rest)
    ensures UpToExit(Parse(true, buf).frames) ==
            if f.kind == EXIT then [f] else [f] + UpToExit(Parse(true, rest).frames)
  {
  }

  /** End to end. Whatever the interleaving, the coalescing in the queue and the
      pieces read from the socket, an attached terminal shows the converted form
      of an initial piece of the replay followed by the history. */
  lemma TerminalShowsHistory(s: State, id: nat, bytes: seq<byte>, turns: nat) returns (shown: seq<byte>)
    requires Reachable(s) && id in s.sessions && bytes <= s.sessions[id].wire && ReplayFits(s.sessions[id])
    ensures shown <= Expected(s, s.sessions[id])
    ensures Onlcr.Convert(false, ScreenReaders.OutputOf(First(UpToExit(Parse(true, bytes).frames), turns))) ==
            Onlcr.Convert(false, shown)
    ensures Onlcr.NoBare(false, Onlcr.Convert(false, shown))
  {
    hide Parse, Reachable, ReplayFits, Expected, UpToExit, HistoryOf, Flat;
    var fs := Parse(true, bytes).frames;
    UpToExitIsPrefix(fs);
    var read := First(UpToExit(fs), turns);
    ClientSeesHistory(s, id, bytes);
    shown := ScreenReaders.OutputOf(read);
    OutputIsHistory(fs);
    OutputIsHistory(read);
    FlatPrefix(read, fs);
    HistoryPrefix(Flat(read), Flat(fs));
    Onlcr.ConvertLeavesNoBare(false, shown);
  }

  // ----- a session that has ended -----

  predicate SawExit(fs: seq<Frame>) {
    exists f :: f in fs && f.kind == EXIT
  }

  lemma NoExitAt(fs: seq<Frame>, n: nat, i: nat)
    requires i < n <= |fs| && NoExit(fs[..n])
    ensures fs[i].kind != EXIT
  {
    assert fs[..n][i] == fs[i];
  }

  /** Exit is the last frame of all. */
  lemma ExitEnds(mark: Option<ExitMark>, dequeued: seq<Frame>, q: Queue, lost: bool, i: nat)
    requires ExitOk(mark, dequeued, q, lost) && i < |dequeued| && dequeued[i].kind == EXIT
    ensures mark.Some? && q.frames == [] && i == |dequeued| - 1 && NoExit(dequeued[..i])
  {
    if mark.Some? {
      var m := mark.value;
      var since := dequeued[m.taken..];
      if i < m.taken {
        NoExitAt(dequeued, m.taken, i);
      }
      assert since[i - m.taken] == dequeued[i];
      var front := since[..|since| - 1];
      forall k | 0 <= k < |dequeued| - 1
        ensures dequeued[k].kind != EXIT
      {
        if k < m.taken {
          assert dequeued[..m.taken][k] == dequeued[k];
        } else {
          assert since[k - m.taken] == dequeued[k] == front[k - m.taken];
        }
      }
    }
  }

  lemma ExitIsTheEnd(c: Session, log: seq<Event>, registered: bool, typed: seq<seq<byte>>, got: seq<Frame>)
    requires Healthy(c, log, registered, typed) && got <= c.dequeued && SawExit(got)
    ensures got == c.dequeued && c.queue.frames == [] && c.exitMark.Some?
    ensures c.dequeued[|c.dequeued| - 1].kind == EXIT && NoExit(c.dequeued[..|c.dequeued| - 1])
  {
    hide StreamOk, TransitOk, WireOk, QueueOk, ReplayOk, PlanOk, InputOk, PongOk, WholeOk, ExitOk, PhaseOk;
    var i :| 0 <= i < |got| && got[i].kind == EXIT;
    ExitEnds(c.exitMark, c.dequeued, c.queue, c.lost, i);
  }

  /** A client that has decoded Exit has been given, unless the deadline cut it, all
      of its replay and the history up to the Exit broadcast. */
  lemma EndedClientSawAll(s: State, id: nat, got: seq<Frame>)
    requires Reachable(s) && id in s.sessions && ReplayFits(s.sessions[id])
    requires got <= s.sessions[id].dequeued && SawExit(got)
    ensures got == s.sessions[id].dequeued
    ensures NoExit(got[..|got| - 1]) && got[|got| - 1].kind == EXIT
    ensures !s.sessions[id].lost ==> ScreenReaders.OutputOf(got) == Expected(s, s.sessions[id])
  {
    hide Flat, HistoryOf, Reachable, ReplayFits, Expected, Healthy, SharedOk, AuthorityOk, FirstOk, TypedBy, SawExit;
    ReachableKeeps(s);
    var c := s.sessions[id];
    ExitIsTheEnd(c, s.log, id in s.registered, TypedBy(s.typed, id), got);
    ExactlyOnce(s, id);
    OutputIsHistory(got);
    NothingFlat();
    assert HistoryOf(Flat(c.dequeued)) + [] == HistoryOf(Flat(c.dequeued));
  }

  /** So it is for an observer that has taken Exit ... */
  lemma ObserverSeesEnd(s: State, id: nat, taken: seq<Frame>, buffered: seq<byte>)
    requires Reachable(s) && id in s.sessions && ReplayFits(s.sessions[id])
    requires AllFit(true, taken) && EncodeAll(taken) + buffered <= s.sessions[id].wire && SawExit(taken)
    ensures !s.sessions[id].lost ==> ScreenReaders.OutputOf(taken) == Expected(s, s.sessions[id])
  {
    hide Parse, Reachable, ReplayFits, Expected, EncodeAll, SawExit;
    ParseOfTaken(taken, buffered);
    WireDecodes(s, id, EncodeAll(taken) + buffered);
    EndedClientSawAll(s, id, taken);
  }

  lemma {:induction false} UpToLast(fs: seq<Frame>)
    requires forall i :: 0 <= i < |fs| - 1 ==> fs[i].kind != EXIT
    ensures UpToExit(fs) == fs
  {
    if fs != [] && fs[0].kind != EXIT {
      UpToLast(fs[1..]);
    } else if |fs| == 1 {
      assert fs == [fs[0]];
    }
  }

  /** ... and for a terminal: having read Exit unless the deadline cut it, or all that
      was written to a caught-up client, it shows the converted form of everything. */
  lemma TerminalShowsAll(s: State, id: nat, bytes: seq<byte>, turns: nat)
    requires Reachable(s) && id in s.sessions && bytes <= s.sessions[id].wire && ReplayFits(s.sessions[id])
    requires var c := s.sessions[id];
             || (SawExit(Parse(true, bytes).frames) && !c.lost)
             || (id in s.registered && c.drain == Draining && c.queue.frames == [] && bytes == c.wire)
    requires |UpToExit(Parse(true, bytes).frames)| <= turns
    ensures Onlcr.Convert(false, ScreenReaders.OutputOf(First(UpToExit(Parse(true, bytes).frames), turns))) ==
            Onlcr.Convert(false, Expected(s, s.sessions[id]))
  {
    hide Onlcr.Convert, Parse, Reachable, ReplayFits, Expected, UpToExit, EncodeAll, SawExit, ScreenReaders.OutputOf,
         Healthy, SharedOk, AuthorityOk, FirstOk, TypedBy;
    var c, fs := s.sessions[id], Parse(true, bytes).frames;
    WireDecodes(s, id, bytes);
    if SawExit(fs) && !c.lost {
      EndedClientSawAll(s, id, fs);
      NoExitFront(fs);
    } else {
      CaughtUpClientSeesAll(s, id);
      ReachableKeeps(s);
      CaughtUp(c, s.log, true, TypedBy(s.typed, id));
      ParseOfEncodeAll(true, c.dequeued);
      NoExitFront(fs);
    }
    UpToLast(fs);
  }

  lemma NoExitFront(fs: seq<Frame>)
    requires NoExit(fs) || (fs != [] && NoExit(fs[..|fs| - 1]))
    ensures forall i :: 0 <= i < |fs| - 1 ==> fs[i].kind != EXIT
  {
    assert forall i :: 0 <= i < |fs| - 1 ==> fs[i] == fs[..|fs| - 1][i];
  }

  // ----- the screen reader -----

  lemma {:induction false} ParseOfTaken(taken: seq<Frame>, rest: seq<byte>)
    requires AllFit(true, taken)
    ensures taken <= Parse(true, EncodeAll(taken) + rest).frames
  {
    hide Take, EncodeAll;
    ParseOfEncodeAll(true, taken);
    ParseResumes(true, EncodeAll(taken), rest);
  }

  /** What a screen reader has given to its parser is an initial piece of the
      replay and the history, however its reads were cut and delayed. The
      requirements are the reader's own invariant. */
  lemma ObserverSeesHistory(s: State, id: nat, taken: seq<Frame>, buffered: seq<byte>, received: seq<byte>)
    requires Reachable(s) && id in s.sessions && received <= s.sessions[id].wire && ReplayFits(s.sessions[id])
    requires AllFit(true, taken) && received == EncodeAll(taken) + buffered
    ensures ScreenReaders.OutputOf(taken) <= Expected(s, s.sessions[id])
  {
    hide Parse, Reachable, ReplayFits, Expected, HistoryOf, Flat;
    ParseOfTaken(taken, buffered);
    ClientSeesHistory(s, id, received);
    var fs := Parse(true, received).frames;
    OutputIsHistory(fs);
    OutputIsHistory(taken);
    FlatPrefix(taken, fs);
    HistoryPrefix(Flat(taken), Flat(fs));
  }

  /** An observer that has read all that was written to it, with nothing in flight
      or queued, and whose last poll did not run out of time, has observed all of
      the replay and the history up to the newest byte. `Decoded` is what such a
      poll promises. */
  lemma ObserverSeesAll(s: State, id: nat, taken: seq<Frame>, buffered: seq<byte>)
    requires Reachable(s) && id in s.registered && id in s.sessions && ReplayFits(s.sessions[id])
    requires var c := s.sessions[id]; c.drain == Draining && c.queue.frames == []
    requires Parse(true, s.sessions[id].wire) == Parsed(taken, buffered, None)
    ensures ScreenReaders.OutputOf(taken) == Expected(s, s.sessions[id]) && buffered == []
    ensures HistAt(s, s.sessions[id].upto) == |Hist(s)|
  {
    hide Parse, Reachable, ReplayFits, Expected, HistoryOf;
    CaughtUpClientSeesAll(s, id);
    ReachableKeeps(s);
    CaughtUp(s.sessions[id], s.log, true, TypedBy(s.typed, id));
    ParseOfEncodeAll(true, s.sessions[id].dequeued);
  }

  // ----- waiting for new text -----

  /** What the observer of raw output is shown, frame by frame. */
  function RawPieces(fs: seq<Frame>): seq<seq<byte>> {
    if fs == [] then []
    else (if fs[0].kind == OUTPUT then [fs[0].payload] else if fs[0].kind == RESIZE_ACK then [[]] else [])
         + RawPieces(fs[1..])
  }

  lemma {:induction false} PiecesAreOutput(fs: seq<Frame>)
    ensures Concat(RawPieces(fs)) == ScreenReaders.OutputOf(fs)
  {
    if fs != [] {
      PiecesAreOutput(fs[1..]);
      var head := if fs[0].kind == OUTPUT then [fs[0].payload] else if fs[0].kind == RESIZE_ACK then [[]] else [];
      ConcatAppend(head, RawPieces(fs[1..]));
      if head != [] {
        assert head[1..] == [] && head[0] + [] == head[0];
      }
    }
  }

  lemma {:induction false} OutputAppend(a: seq<Frame>, b: seq<Frame>)
    ensures ScreenReaders.OutputOf(a + b) == ScreenReaders.OutputOf(a) + ScreenReaders.OutputOf(b)
  {
    if a == [] {
      assert a + b == b;
    } else {
      assert (a + b)[1..] == a[1..] + b && (a + b)[0] == a[0];
      OutputAppend(a[1..], b);
      var h := if a[0].kind == OUTPUT then a[0].payload else [];
      assert h + (ScreenReaders.OutputOf(a[1..]) + ScreenReaders.OutputOf(b))
          == (h + ScreenReaders.OutputOf(a[1..])) + ScreenReaders.OutputOf(b);
    }
  }

  /** A wait for new text, armed after the frames `before`. Whatever the interleaving,
      the coalescing and the pieces read, its verdict on the frames `after` is
      whether the needle occurs in the visible text of one piece of the client's
      replay and history, the piece that starts where the output before arming ends,
      or one of the observations shows it in newly painted cells. */
  method WaitForText(ghost s: State, ghost id: nat, ghost before: seq<Frame>, ghost after: seq<Frame>,
                     ghost buffered: seq<byte>, looks: seq<Look>, needle: seq<byte>, text: string)
    returns (matched: bool)
    requires Reachable(s) && id in s.sessions && ReplayFits(s.sessions[id]) && needle != []
    requires AllFit(true, before + after) && EncodeAll(before + after) + buffered <= s.sessions[id].wire
    requires NewText.Outputs(looks) == RawPieces(after) && forall i :: 0 <= i < |looks| ==> Fitting(looks[i])
    ensures var all := Expected(s, s.sessions[id]);
            var from := |ScreenReaders.OutputOf(before)|;
            var to := from + |ScreenReaders.OutputOf(after)|;
            && to <= |all| && ScreenReaders.OutputOf(after) == all[from..to]
            && (matched <==> Contains(RawTexts.Visible(all[from..to]), needle) || EverShown(looks, text))
  {
    ghost var all := Expected(s, s.sessions[id]);
    ghost var first, rest := ScreenReaders.OutputOf(before), ScreenReaders.OutputOf(after);
    hide Parse, Reachable, ReplayFits, Expected, EncodeAll, ScreenReaders.OutputOf, RawPieces, RawTexts.Visible,
         EverShown;
    ObserverSeesHistory(s, id, before + after, buffered, EncodeAll(before + after) + buffered);
    OutputAppend(before, after);
    assert rest == all[|first|..|first| + |rest|] by { assert (first + rest)[|first|..] == rest; }
    PiecesAreOutput(after);
    matched := NewText.Watch(looks, needle, text);
  }

  // ----- sync -----

  /** `sync` is a barrier. If every earlier Ping of this client had been answered
      to it when it called `sync`, and `sync` succeeded, the broker has handled all
      it had sent before, approved inputs are typed, and everything enqueued for
      the client ahead of that Pong has been taken by it. */
  lemma SyncIsBarrier(s: State, id: nat, before: seq<Message>, after: seq<Message>,
                      takenBefore: seq<Frame>, taken: seq<Frame>, buffered: seq<byte>, received: seq<byte>)
    requires Reachable(s) && id in s.sessions && received <= s.sessions[id].wire
    requires s.sessions[id].outbox == before + [Ping] + after
    requires AllFit(true, taken) && received == EncodeAll(taken) + buffered
    requires ScreenReaders.PongFrames(takenBefore) == Pings(before)
    requires ScreenReaders.PongFrames(taken) > ScreenReaders.PongFrames(takenBefore)
    ensures var c := s.sessions[id];
            && |before| < c.handled == |c.verdicts|
            && Approved(before, c.verdicts[..|before|]) <= TypedBy(s.typed, id)
            && forall n :: 0 <= n <= |c.stream| && Pongs(c.stream[..n]) <= Pings(before) ==>
                 c.stream[..n] <= Flat(taken)
  {
    hide Parse, Reachable, HistoryOf, Flat, EncodeAll, Pongs, Pings, Approved, TypedBy;
    OutputIsHistory(taken);
    // Parsing exactly the frames taken sees the same Pongs.
    var bytes := EncodeAll(taken);
    ParseOfEncodeAll(true, taken);
    assert bytes <= received by { assert received[..|bytes|] == bytes; }
    SyncBarrier(s, id, before, after, bytes);
  }
}
