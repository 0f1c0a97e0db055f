/**
 The Python filter that drops CSI sequences with the `>` private byte. It holds
 back an unfinished sequence between calls; refined by a filter of the whole
 stream, and that by saying which positions of the stream are removed.
 */
module GtCsi {
  import opened Bytes

  const ESC: byte := 0x1b
  const BRACKET: byte := 0x5b
  const GT: byte := 0x3e
  const BODY_LIMIT: nat := 128

  predicate IsParam(b: byte) {
    0x20 <= b <= 0x3f
  }

  predicate IsFinal(b: byte) {
    0x40 <= b <= 0x7e
  }

  // ----- one pass over a whole buffer -----

  datatype Decision = Incomplete | Invalid | Keep(end: nat) | Drop(end: nat)

  /** Where the parameter bytes from `start` end. */
  function ParamEnd(buf: seq<byte>, start: nat): (n: nat)
    requires start <= |buf|
    ensures start <= n <= |buf|
    ensures forall j :: start <= j < n ==> IsParam(buf[j])
    ensures n < |buf| ==> !IsParam(buf[n])
    decreases |buf| - start
  {
    if start == |buf| || !IsParam(buf[start]) then start else ParamEnd(buf, start + 1)
  }

  /** Decide about the body of a sequence that starts at `start`. */
  function Classify(buf: seq<byte>, start: nat): Decision
    requires start <= |buf|
  {
    var end := ParamEnd(buf, start);
    if end >= start + BODY_LIMIT then Invalid
    else if end == |buf| then Incomplete
    else if !IsFinal(buf[end]) then Invalid
    else if GT in buf[start..end] then Drop(end + 1)
    else Keep(end + 1)
  }

  /** Output, and what is held back. */
  function Drained(buf: seq<byte>): (seq<byte>, seq<byte>)
    decreases |buf|
  {
    if buf == [] then ([], [])
    else if buf[0] != ESC then Emit(buf[..1], Drained(buf[1..]))
    else if |buf| == 1 then ([], buf)
    else if buf[1] != BRACKET then Emit(buf[..1], Drained(buf[1..]))
    else
      match Classify(buf, 2)
      case Incomplete => ([], buf)
      case Invalid => Emit(buf[..1], Drained(buf[1..]))
      case Keep(end) => Emit(buf[..end], Drained(buf[end..]))
      case Drop(end) => Drained(buf[end..])
  }

  function Emit(first: seq<byte>, later: (seq<byte>, seq<byte>)): (seq<byte>, seq<byte>) {
    (first + later.0, later.1)
  }

  /** What may be held back: nothing, or the beginning of a sequence too short to judge. */
  ghost predicate Held(p: seq<byte>) {
    p == [] ||
    (&& p[0] == ESC && |p| < 2 + BODY_LIMIT
     && (|p| == 1 || (p[1] == BRACKET && forall i :: 2 <= i < |p| ==> IsParam(p[i]))))
  }

  lemma {:induction false} DrainedHolds(buf: seq<byte>)
    ensures Held(Drained(buf).1)
    decreases |buf|
  {
    if buf != [] && (buf[0] != ESC || (|buf| > 1 && (buf[1] != BRACKET || Classify(buf, 2).Invalid?))) {
      DrainedHolds(buf[1..]);
    } else if |buf| > 1 {
      match Classify(buf, 2)
      case Keep(end) => DrainedHolds(buf[end..]);
      case Drop(end) => DrainedHolds(buf[end..]);
      case _ =>
    }
  }

  lemma HeldStays(p: seq<byte>)
    requires Held(p)
    ensures Drained(p) == ([], p)
  {
    if |p| > 1 {
      assert ParamEnd(p, 2) == |p|;
    }
  }

  // ----- the result does not depend on how the stream is cut -----

  lemma {:induction false} ParamEndStable(a: seq<byte>, b: seq<byte>, start: nat)
    requires start <= |a|
    ensures ParamEnd(a, start) < |a| ==> ParamEnd(a + b, start) == ParamEnd(a, start)
    ensures ParamEnd(a, start) <= ParamEnd(a + b, start)
    decreases |a| - start
  {
    if start < |a| && IsParam(a[start]) {
      ParamEndStable(a, b, start + 1);
    }
  }

  lemma ClassifyStable(a: seq<byte>, b: seq<byte>)
    requires 2 <= |a| && Classify(a, 2) != Incomplete
    ensures Classify(a + b, 2) == Classify(a, 2)
  {
    ParamEndStable(a, b, 2);
    var end := ParamEnd(a, 2);
    assert (a + b)[2..end] == a[2..end];
  }

  /** Draining in two goes: hold back what the first leaves, and go on from there. */
  lemma {:induction false} DrainedResumes(a: seq<byte>, b: seq<byte>)
    ensures var (out, held) := Drained(a); Drained(a + b) == Emit(out, Drained(held + b))
    decreases |a|
  {
    if a == [] {
      assert [] + b == b;
      EmitNothing(Drained(b));
      return;
    }
    assert (a + b)[..1] == a[..1] && (a + b)[1..] == a[1..] + b;
    if a[0] != ESC {
      DrainedResumes(a[1..], b);
      EmitTwice(a[..1], Drained(a[1..]).0, Drained(Drained(a[1..]).1 + b));
    } else if |a| == 1 || (a[1] == BRACKET && Classify(a, 2).Incomplete?) {
      EmitNothing(Drained(a + b));
    } else if a[1] != BRACKET {
      DrainedResumes(a[1..], b);
      EmitTwice(a[..1], Drained(a[1..]).0, Drained(Drained(a[1..]).1 + b));
    } else {
      ClassifyStable(a, b);
      match Classify(a, 2)
      case Invalid =>
        DrainedResumes(a[1..], b);
        EmitTwice(a[..1], Drained(a[1..]).0, Drained(Drained(a[1..]).1 + b));
      case Keep(end) =>
        assert (a + b)[..end] == a[..end] && (a + b)[end..] == a[end..] + b;
        DrainedResumes(a[end..], b);
        EmitTwice(a[..end], Drained(a[end..]).0, Drained(Drained(a[end..]).1 + b));
      case Drop(end) =>
        assert (a + b)[end..] == a[end..] + b;
        DrainedResumes(a[end..], b);
    }
  }

  lemma EmitNothing(d: (seq<byte>, seq<byte>))
    ensures Emit([], d) == d
  {
    assert [] + d.0 == d.0;
  }

  lemma EmitTwice(a: seq<byte>, b: seq<byte>, d: (seq<byte>, seq<byte>))
    ensures Emit(a, Emit(b, d)) == Emit(a + b, d)
  {
    assert a + (b + d.0) == (a + b) + d.0;
  }

  // ----- which bytes are removed -----

  /** A complete `ESC [` sequence whose body contains `>`. */
  ghost predicate Droppable(seg: seq<byte>) {
    && 3 <= |seg| <= 2 + BODY_LIMIT && seg[0] == ESC && seg[1] == BRACKET
    && (forall i :: 2 <= i < |seg| - 1 ==> IsParam(seg[i]))
    && IsFinal(seg[|seg| - 1]) && GT in seg[2..|seg| - 1]
  }

  ghost predicate DroppableAt(s: seq<byte>, p: int, e: int) {
    0 <= p <= e <= |s| && Droppable(s[p..e])
  }

  ghost predicate Removed(s: seq<byte>, k: int) {
    exists p, e :: DroppableAt(s, p, e) && p <= k < e
  }

  /** The bytes from `i` on that lie in no droppable sequence of the stream. */
  ghost function Survivors(s: seq<byte>, i: nat): seq<byte>
    requires i <= |s|
    decreases |s| - i
  {
    if i == |s| then []
    else (if Removed(s, i) then [] else [s[i]]) + Survivors(s, i + 1)
  }

  /** No droppable sequence runs across `i`. */
  ghost predicate Clear(s: seq<byte>, i: int) {
    forall p, e :: DroppableAt(s, p, e) ==> i <= p || e <= i
  }

  /** The extent of a droppable sequence is determined by where it starts. */
  lemma DroppableIsDrop(s: seq<byte>, p: nat, e: nat)
    requires DroppableAt(s, p, e)
    ensures s[p] == ESC && p + 1 < |s| && s[p + 1] == BRACKET && Classify(s[p..], 2) == Drop(e - p)
  {
    var seg, rest := s[p..e], s[p..];
    assert forall i :: 0 <= i < |seg| ==> seg[i] == rest[i];
    assert rest[2..e - p - 1] == seg[2..|seg| - 1];
    var end := ParamEnd(rest, 2);
    assert !IsParam(rest[e - p - 1]);
    assert end == e - p - 1;
  }

  lemma DropIsDroppable(s: seq<byte>, p: nat)
    requires p + 1 < |s| && s[p] == ESC && s[p + 1] == BRACKET && Classify(s[p..], 2).Drop?
    ensures DroppableAt(s, p, p + Classify(s[p..], 2).end)
  {
    var rest := s[p..];
    var n := Classify(rest, 2).end;
    var seg := s[p..p + n];
    assert forall i :: 0 <= i < n ==> seg[i] == rest[i];
    assert seg[2..n - 1] == rest[2..n - 1];
  }

  /** No droppable sequence starts at `q`. */
  ghost predicate NoneAt(s: seq<byte>, q: int) {
    forall g :: !DroppableAt(s, q, g) || g <= q
  }

  lemma NotRemoved(s: seq<byte>, i: nat)
    requires Clear(s, i) && NoneAt(s, i)
    ensures !Removed(s, i) && Clear(s, i + 1)
  {
  }

  lemma SurvivesOne(s: seq<byte>, i: nat)
    requires i < |s| && !Removed(s, i)
    ensures Survivors(s, i) == [s[i]] + Survivors(s, i + 1)
  {
  }

  /** A run at none of whose bytes a droppable sequence starts survives whole. */
  lemma {:induction false} RunSurvives(s: seq<byte>, i: nat, e: nat)
    requires i <= e <= |s| && Clear(s, i)
    requires forall q :: i <= q < e ==> NoneAt(s, q)
    ensures Clear(s, e) && Survivors(s, i) == s[i..e] + Survivors(s, e)
    decreases e - i
  {
    hide Clear, Removed, NoneAt, Survivors;
    if i < e {
      assert NoneAt(s, i);
      NotRemoved(s, i);
      SurvivesOne(s, i);
      RunSurvives(s, i + 1, e);
      assert s[i..e] == [s[i]] + s[i + 1..e];
    } else {
      assert s[i..e] + Survivors(s, e) == Survivors(s, e);
    }
  }

  lemma {:induction false} RunRemoved(s: seq<byte>, p: nat, i: nat, e: nat)
    requires p <= i <= e && DroppableAt(s, p, e)
    ensures Survivors(s, i) == Survivors(s, e)
    decreases e - i
  {
    if i < e {
      assert Removed(s, i);
      RunRemoved(s, p, i + 1, e);
    }
  }

  lemma NothingStartsAt(s: seq<byte>, q: nat)
    requires q < |s|
    requires s[q] == ESC && q + 1 < |s| && s[q + 1] == BRACKET ==> !Classify(s[q..], 2).Drop?
    ensures NoneAt(s, q)
  {
    forall g | DroppableAt(s, q, g)
      ensures g <= q
    {
      DroppableIsDrop(s, q, g);
    }
  }

  /** From any position that no droppable sequence crosses, the filter emits and
      holds back exactly the surviving bytes, in order. */
  lemma {:induction false} DrainedSurvives(s: seq<byte>, i: nat)
    requires i <= |s| && Clear(s, i)
    ensures Joined(Drained(s[i..])) == Survivors(s, i)
    decreases |s| - i
  {
    hide Classify, Drained, Survivors, Emit, Joined, Clear, Literal;
    if i == |s| {
      NothingSurvives(s);
      return;
    }
    var rest := s[i..];
    DrainedHead(s, i);
    if Literal(rest) {
      OneSurvives(s, i);
      DrainedSurvives(s, i + 1);
      EmitJoined([s[i]], Drained(s[i + 1..]));
      return;
    }
    HeldIsEscape(rest);
    if |rest| == 1 || Classify(rest, 2).Incomplete? {
      HeldSurvives(s, i);
      EmitJoined([], ([], rest));
      return;
    }
    var e := i + Classify(rest, 2).end;
    if Classify(rest, 2).Keep? {
      KeptSurvives(s, i);
      DrainedSurvives(s, e);
      EmitJoined(s[i..e], Drained(s[e..]));
    } else {
      DropSurvives(s, i);
      DrainedSurvives(s, e);
    }
  }

  /** The output followed by what is held. */
  function Joined(d: (seq<byte>, seq<byte>)): seq<byte> {
    d.0 + d.1
  }

  lemma EmitJoined(first: seq<byte>, d: (seq<byte>, seq<byte>))
    ensures Joined(Emit(first, d)) == first + Joined(d)
    ensures d.0 == [] ==> Joined(d) == d.1
  {
    assert (first + d.0) + d.1 == first + (d.0 + d.1);
    assert [] + d.1 == d.1;
  }

  lemma NothingSurvives(s: seq<byte>)
    ensures Joined(Drained(s[|s|..])) == [] == Survivors(s, |s|)
  {
  }

  lemma HeldIsEscape(rest: seq<byte>)
    requires rest != [] && !Literal(rest)
    ensures rest[0] == ESC && (|rest| > 1 ==> rest[1] == BRACKET && !Classify(rest, 2).Invalid?)
  {
  }

  /** The first byte of the buffer is passed on by itself. */
  predicate Literal(buf: seq<byte>)
    requires buf != []
  {
    buf[0] != ESC || (|buf| > 1 && (buf[1] != BRACKET || Classify(buf, 2).Invalid?))
  }

  /** One step of the drain at position `i` of a buffer. */
  lemma DrainedHead(s: seq<byte>, i: nat)
    requires i < |s|
    ensures var rest := s[i..];
            if Literal(rest) then Drained(rest) == Emit([s[i]], Drained(s[i + 1..]))
            else if |rest| == 1 || Classify(rest, 2).Incomplete? then Drained(rest) == ([], rest)
            else if Classify(rest, 2).Keep? then
              var e := i + Classify(rest, 2).end;
              e <= |s| && Drained(rest) == Emit(s[i..e], Drained(s[e..]))
            else
              var e := i + Classify(rest, 2).end;
              e <= |s| && Drained(rest) == Drained(s[e..])
  {
    var rest := s[i..];
    assert rest[1..] == s[i + 1..] && rest[..1] == [s[i]];
    if |rest| > 1 && (Classify(rest, 2).Keep? || Classify(rest, 2).Drop?) {
      var n := Classify(rest, 2).end;
      assert rest[n..] == s[i + n..] && rest[..n] == s[i..i + n];
    }
  }

  lemma OneSurvives(s: seq<byte>, i: nat)
    requires i < |s| && Clear(s, i) && Literal(s[i..])
    ensures Clear(s, i + 1) && Survivors(s, i) == [s[i]] + Survivors(s, i + 1)
  {
    NothingStartsAt(s, i);
    RunSurvives(s, i, i + 1);
    assert s[i..i + 1] == [s[i]];
  }

  lemma DropSurvives(s: seq<byte>, i: nat)
    requires i + 1 < |s| && Clear(s, i) && s[i] == ESC && s[i + 1] == BRACKET && Classify(s[i..], 2).Drop?
    ensures var e := i + Classify(s[i..], 2).end;
            i < e <= |s| && Clear(s, e) && Survivors(s, i) == Survivors(s, e)
  {
    hide Clear, Survivors, Removed;
    var e := i + Classify(s[i..], 2).end;
    DropIsDroppable(s, i);
    RunRemoved(s, i, i, e);
    ClearBehind(s, i, e);
  }

  lemma HeldSurvives(s: seq<byte>, i: nat)
    requires i < |s| && Clear(s, i) && s[i] == ESC
    requires |s| == i + 1 || (s[i + 1] == BRACKET && Classify(s[i..], 2).Incomplete?)
    ensures Survivors(s, i) == s[i..]
  {
    forall q | i <= q < |s|
      ensures NoneAt(s, q)
    {
      assert s[q] == s[i..][q - i];
      NothingStartsAt(s, q);
    }
    RunSurvives(s, i, |s|);
    assert s[i..|s|] == s[i..];
  }

  lemma KeptSurvives(s: seq<byte>, i: nat)
    requires i + 1 < |s| && Clear(s, i) && s[i] == ESC && s[i + 1] == BRACKET && Classify(s[i..], 2).Keep?
    ensures var e := i + Classify(s[i..], 2).end;
            i < e <= |s| && Clear(s, e) && Survivors(s, i) == s[i..e] + Survivors(s, e)
  {
    var e := i + Classify(s[i..], 2).end;
    forall q | i <= q < e
      ensures NoneAt(s, q)
    {
      assert s[q] == s[i..][q - i];
      NothingStartsAt(s, q);
    }
    RunSurvives(s, i, e);
  }

  /** Nothing runs across the end of a droppable sequence: its bytes after the first are no ESC. */
  lemma ClearBehind(s: seq<byte>, p: nat, e: nat)
    requires DroppableAt(s, p, e) && Clear(s, p)
    ensures Clear(s, e)
  {
    forall q, g | DroppableAt(s, q, g)
      ensures e <= q || g <= e
    {
      if p <= q < e {
        assert s[q] == s[p..e][q - p] && s[q] == s[q..g][0];
        if q == p {
          DroppableIsDrop(s, p, e);
          DroppableIsDrop(s, p, g);
        }
      }
    }
  }

  // ----- the filter -----

  class GtCsiFilter {
    var pending: seq<byte>

    ghost predicate Valid()
      reads this
    {
      Held(pending)
    }

    constructor ()
      ensures Valid() && pending == []
    {
      pending := [];
    }

    method Push(data: seq<byte>) returns (out: seq<byte>)
      requires Valid()
      modifies this
      ensures Valid()
      ensures (out, pending) == Drained(old(pending) + data)
    {
      HeldStays(pending);
      if data == [] {
        assert pending + [] == pending;
        return [];
      }
      if pending == [] && ESC !in data {
        NoEscape(data);
        assert [] + data == data;
        return data;
      }
      pending := pending + data;
      out := Drain();
    }

    method Drain() returns (out: seq<byte>)
      modifies this
      ensures Valid() && (out, pending) == Drained(old(pending))
    {
      hide Drained, Classify;
      var buf := pending;
      DrainedHolds(buf);
      out := [];
      var i, n := 0, |buf|;
      EmitNothing(Drained(buf));
      NothingDrains();
      assert buf[0..] == buf;
      while i < n
        invariant 0 <= i <= n && n == |buf| && pending == buf
        invariant Drained(buf) == Emit(out, Drained(buf[i..]))
        invariant i == n ==> Drained(buf[i..]) == ([], buf[i..])
        decreases n - i
      {
        var esc := Find(buf, i);
        if esc == n {
          out := Passed(buf, i, n, out);
          i := n;
          break;
        }
        if esc > i {
          out := Passed(buf, i, esc, out);
        }
        DrainedHead(buf, esc);
        if esc + 1 >= n {
          i := esc;
          break;
        }
        if buf[esc + 1] != BRACKET {
          EmitTwice(out, [ESC], Drained(buf[esc + 1..]));
          out := out + [ESC];
          i := esc + 1;
          continue;
        }
        var decision := ScanCsi(buf, esc);
        if decision == Incomplete {
          i := esc;
          break;
        }
        if decision == Invalid {
          EmitTwice(out, [ESC], Drained(buf[esc + 1..]));
          out := out + [ESC];
          i := esc + 1;
          continue;
        }
        var end := esc + decision.end;
        if decision.Keep? {
          EmitTwice(out, buf[esc..end], Drained(buf[end..]));
          out := out + buf[esc..end];
        }
        i := end;
      }
      assert out + [] == out;
      pending := buf[i..];
    }

    /** The next ESC at or after `i`, or the length. */
    static method Find(buf: seq<byte>, i: nat) returns (esc: nat)
      requires i <= |buf|
      ensures i <= esc <= |buf| && (forall j :: i <= j < esc ==> buf[j] != ESC) && (esc < |buf| ==> buf[esc] == ESC)
    {
      esc := i;
      while esc < |buf| && buf[esc] != ESC
        invariant i <= esc <= |buf| && forall j :: i <= j < esc ==> buf[j] != ESC
      {
        esc := esc + 1;
      }
    }

    /** Plain bytes up to `end` go straight to the output. */
    static method Passed(buf: seq<byte>, i: nat, end: nat, out: seq<byte>) returns (more: seq<byte>)
      requires i <= end <= |buf| && forall j :: i <= j < end ==> buf[j] != ESC
      ensures more == out + buf[i..end]
      ensures Emit(out, Drained(buf[i..])) == Emit(more, Drained(buf[end..]))
    {
      more := out + buf[i..end];
      PlainPasses(buf, i, end);
      EmitTwice(out, buf[i..end], Drained(buf[end..]));
    }

    /** Scan the body of the sequence at `esc`. */
    static method ScanCsi(buf: seq<byte>, esc: nat) returns (d: Decision)
      requires esc + 1 < |buf|
      ensures d == Classify(buf[esc..], 2) && (d.Keep? || d.Drop? ==> d.end > 0)
    {
      var start, n := esc + 2, |buf|;
      var limit := Min(n, start + BODY_LIMIT);
      var j, hasGt := start, false;
      ghost var rest := buf[esc..];
      ghost var end := ParamEnd(rest, 2);
      while j < limit
        invariant start <= j <= limit && j - esc <= end
        invariant hasGt <==> GT in rest[2..j - esc]
      {
        var c := buf[j];
        assert c == rest[j - esc] && rest[2..j - esc + 1] == rest[2..j - esc] + [c];
        if c == GT {
          hasGt := true;
        }
        if 0x20 <= c <= 0x3f {
          j := j + 1;
          continue;
        }
        assert end == j - esc;
        if 0x40 <= c <= 0x7e {
          return if hasGt then Drop(j + 1 - esc) else Keep(j + 1 - esc);
        }
        return Invalid;
      }
      return if start + BODY_LIMIT <= n then Invalid else Incomplete;
    }
  }

  lemma {:induction false} PlainPasses(buf: seq<byte>, i: nat, end: nat)
    requires i <= end <= |buf| && forall j :: i <= j < end ==> buf[j] != ESC
    ensures Drained(buf[i..]) == Emit(buf[i..end], Drained(buf[end..]))
    decreases end - i
  {
    if i == end {
      EmitNothing(Drained(buf[i..]));
    } else {
      assert buf[i..][1..] == buf[i + 1..] && buf[i..][..1] == [buf[i]];
      PlainPasses(buf, i + 1, end);
      EmitTwice([buf[i]], buf[i + 1..end], Drained(buf[end..]));
      assert [buf[i]] + buf[i + 1..end] == buf[i..end];
    }
  }

  lemma NothingDrains()
    ensures Drained([]) == ([], [])
  {
  }

  lemma NoEscape(data: seq<byte>)
    requires ESC !in data
    ensures Drained(data) == (data, [])
  {
    PlainPasses(data, 0, |data|);
    assert data[0..] == data && data[0..|data|] == data && data[|data|..] == [] && data + [] == data;
  }

  /** However a stream is cut, the outputs joined with what is still held are the
      stream without its droppable sequences, in order; at most 129 bytes are held. */
  method Filter(chunks: seq<seq<byte>>) returns (out: seq<byte>, held: seq<byte>)
    ensures (out, held) == Drained(Concat(chunks))
    ensures out + held == Survivors(Concat(chunks), 0)
    ensures Held(held) && |held| <= 129
  {
    var filter := new GtCsiFilter();
    out := [];
    ghost var all: seq<byte> := [];
    for i := 0 to |chunks|
      invariant all == Concat(chunks[..i])
      invariant filter.Valid() && (out, filter.pending) == Drained(all)
    {
      assert chunks[..i + 1] == chunks[..i] + [chunks[i]];
      ConcatSnoc(chunks[..i], chunks[i]);
      DrainedResumes(all, chunks[i]);
      var more := filter.Push(chunks[i]);
      out := out + more;
      all := all + chunks[i];
    }
    assert chunks[..|chunks|] == chunks;
    held := filter.pending;
    assert Clear(all, 0) && all[0..] == all;
    DrainedSurvives(all, 0);
  }

  // ----- what is dropped, in bytes -----

  lemma {:induction false} PlainThen(a: seq<byte>, c: seq<byte>)
    requires forall i :: 0 <= i < |a| ==> a[i] != 0x1b
    ensures Drained(a + c) == Emit(a, Drained(c))
    decreases |a|
  {
    if a == [] {
      assert a + c == c;
      EmitNothing(Drained(c));
    } else {
      assert (a + c)[..1] == a[..1] && (a + c)[1..] == a[1..] + c && a == a[..1] + a[1..];
      PlainThen(a[1..], c);
      EmitTwice(a[..1], a[1..], Drained(c));
    }
  }

  lemma ParamEndIs(buf: seq<byte>, n: nat)
    requires 2 <= n <= |buf| && (forall i :: 2 <= i < n ==> 0x20 <= buf[i] <= 0x3f)
    requires n < |buf| ==> !(0x20 <= buf[n] <= 0x3f)
    ensures ParamEnd(buf, 2) == n
  {
  }

  /** A control sequence of at most 127 parameter bytes is dropped if one of them is
      `>`, and otherwise passes whole. */
  lemma GtSequences(params: seq<byte>, final: byte, rest: seq<byte>)
    requires (forall i :: 0 <= i < |params| ==> 0x20 <= params[i] <= 0x3f) && |params| < 128
    requires 0x40 <= final <= 0x7e
    ensures var seg := [0x1b, 0x5b] + params + [final];
            Drained(seg + rest) == if 0x3e in params then Drained(rest) else Emit(seg, Drained(rest))
  {
    var seg := [0x1b, 0x5b] + params + [final];
    var buf := seg + rest;
    var n := 2 + |params|;
    ParamEndIs(buf, n);
    assert buf[2..n] == params && buf[n] == final;
    assert buf[n + 1..] == rest && buf[..n + 1] == seg;
    hide ParamEnd;
  }

  /** A longer run of parameters, or one that ends in neither a parameter nor a final
      byte, is no sequence: its ESC passes and the rest is looked at afresh. */
  lemma BrokenSequences(params: seq<byte>, rest: seq<byte>)
    requires forall i :: 0 <= i < |params| ==> 0x20 <= params[i] <= 0x3f
    requires rest != [] && !(0x20 <= rest[0] <= 0x3f)
    requires |params| >= 128 || !(0x40 <= rest[0] <= 0x7e)
    ensures Drained([0x1b, 0x5b] + params + rest) == Emit([0x1b], Drained([0x5b] + params + rest))
  {
    hide Drained, Emit;
    var buf := [0x1b, 0x5b] + params + rest;
    assert buf[..1] == [0x1b] && buf[1..] == [0x5b] + params + rest;
    BrokenFront(buf, 2 + |params|);
  }

  lemma BrokenFront(buf: seq<byte>, n: nat)
    requires 2 <= n < |buf| && buf[0] == 0x1b && buf[1] == 0x5b
    requires (forall i :: 2 <= i < n ==> 0x20 <= buf[i] <= 0x3f) && !(0x20 <= buf[n] <= 0x3f)
    requires n >= 130 || !(0x40 <= buf[n] <= 0x7e)
    ensures Drained(buf) == Emit(buf[..1], Drained(buf[1..]))
  {
    ParamEndIs(buf, n);
    hide ParamEnd;
  }

  /** An unfinished sequence is held back; an ESC before anything but `[` passes. */
  lemma UnfinishedSequences(params: seq<byte>, b: byte, rest: seq<byte>)
    requires (forall i :: 0 <= i < |params| ==> 0x20 <= params[i] <= 0x3f) && |params| < 128 && b != 0x5b
    ensures Drained([0x1b, 0x5b] + params) == ([], [0x1b, 0x5b] + params)
    ensures Drained([0x1b]) == ([], [0x1b])
    ensures Drained([0x1b, b] + rest) == Emit([0x1b], Drained([b] + rest))
  {
    var buf := [0x1b, 0x5b] + params;
    ParamEndIs(buf, |buf|);
    assert ([0x1b, b] + rest)[..1] == [0x1b] && ([0x1b, b] + rest)[1..] == [b] + rest;
    hide ParamEnd;
  }
}
