/** The attach client's newline conversion, which must not depend on frame boundaries. */
module Onlcr {
  import opened Bytes

  const CR: byte := 0x0d
  const LF: byte := 0x0a

  /** A line feed with no carriage return before it; `prev` says whether the byte before `s` was one. */
  predicate BareAt(prev: bool, s: seq<byte>, i: nat)
    requires i < |s|
  {
    s[i] == LF && !(if i == 0 then prev else s[i - 1] == CR)
  }

  ghost predicate NoBare(prev: bool, s: seq<byte>) {
    forall i :: 0 <= i < |s| ==> !BareAt(prev, s, i)
  }

  function BareCount(prev: bool, s: seq<byte>): nat {
    if s == [] then 0
    else BareCount(prev, s[..|s| - 1]) + if BareAt(prev, s, |s| - 1) then 1 else 0
  }

  /** One pass over the whole stream. */
  function Convert(prev: bool, s: seq<byte>): seq<byte> {
    if s == [] then []
    else
      var n := |s| - 1;
      Convert(prev, s[..n]) + (if BareAt(prev, s, n) then [CR] else []) + [s[n]]
  }

  function EndsInCr(prev: bool, s: seq<byte>): bool {
    if s == [] then prev else s[|s| - 1] == CR
  }

  /** Converting in pieces, carrying only whether the last byte was a CR, is converting the whole. */
  lemma {:induction false} ConvertAppend(prev: bool, a: seq<byte>, b: seq<byte>)
    ensures Convert(prev, a + b) == Convert(prev, a) + Convert(EndsInCr(prev, a), b)
    ensures EndsInCr(prev, a + b) == EndsInCr(EndsInCr(prev, a), b)
    decreases |b|
  {
    if b == [] {
      assert a + b == a && Convert(prev, a) + [] == Convert(prev, a);
    } else {
      var n := |b| - 1;
      assert (a + b)[..|a| + n] == a + b[..n];
      ConvertAppend(prev, a, b[..n]);
      assert BareAt(prev, a + b, |a| + n) == BareAt(EndsInCr(prev, a), b, n);
      var x, y := Convert(prev, a), Convert(EndsInCr(prev, a), b[..n]);
      var z := (if BareAt(prev, a + b, |a| + n) then [CR] else []) + [b[n]];
      assert (x + y) + z == x + (y + z);
    }
  }

  /** Every input byte keeps its place, moved only by the CRs inserted up to it. */
  lemma {:induction false} ConvertKeepsBytes(prev: bool, s: seq<byte>, i: nat)
    requires i < |s|
    ensures |Convert(prev, s)| == |s| + BareCount(prev, s)
    ensures i + BareCount(prev, s[..i + 1]) < |Convert(prev, s)|
    ensures Convert(prev, s)[i + BareCount(prev, s[..i + 1])] == s[i]
    ensures BareAt(prev, s, i) ==>
              var at := i + BareCount(prev, s[..i]); at < |Convert(prev, s)| && Convert(prev, s)[at] == CR
    decreases |s|
  {
    var n := |s| - 1;
    var front := s[..n];
    ConvertLength(prev, s);
    ConvertLength(prev, front);
    if i < n {
      ConvertKeepsBytes(prev, front, i);
      assert front[..i + 1] == s[..i + 1] && front[..i] == s[..i];
      assert BareAt(prev, s, i) == BareAt(prev, front, i);
      BareCountGrows(prev, s, i);
    } else {
      assert s[..i + 1] == s;
    }
  }

  lemma {:induction false} BareCountGrows(prev: bool, s: seq<byte>, i: nat)
    requires i < |s|
    ensures BareCount(prev, s[..i + 1]) == BareCount(prev, s[..i]) + if BareAt(prev, s, i) then 1 else 0
  {
    assert s[..i + 1][..i] == s[..i];
  }

  lemma {:induction false} ConvertLength(prev: bool, s: seq<byte>)
    ensures |Convert(prev, s)| == |s| + BareCount(prev, s)
  {
    if s != [] {
      ConvertLength(prev, s[..|s| - 1]);
    }
  }

  /** The result has no bare line feed and ends like the input. */
  lemma {:induction false} ConvertLeavesNoBare(prev: bool, s: seq<byte>)
    ensures NoBare(prev, Convert(prev, s))
    ensures EndsInCr(prev, Convert(prev, s)) == EndsInCr(prev, s)
  {
    if s != [] {
      var n := |s| - 1;
      var front := Convert(prev, s[..n]);
      ConvertLeavesNoBare(prev, s[..n]);
      var out := Convert(prev, s);
      forall i | 0 <= i < |out|
        ensures !BareAt(prev, out, i)
      {
        if i < |front| {
          assert BareAt(prev, out, i) == BareAt(prev, front, i);
        }
      }
    }
  }

  /** A stream is left alone exactly when it has no bare line feed; so converting again changes nothing. */
  lemma {:induction false} ConvertFixes(prev: bool, s: seq<byte>)
    ensures Convert(prev, s) == s <==> NoBare(prev, s)
    ensures Convert(prev, Convert(prev, s)) == Convert(prev, s)
  {
    ConvertLeavesNoBare(prev, s);
    UntouchedIfNoBare(prev, s);
    UntouchedIfNoBare(prev, Convert(prev, s));
  }

  lemma {:induction false} UntouchedIfNoBare(prev: bool, s: seq<byte>)
    ensures NoBare(prev, s) ==> Convert(prev, s) == s
  {
    if s != [] && NoBare(prev, s) {
      var n := |s| - 1;
      forall i | 0 <= i < n
        ensures !BareAt(prev, s[..n], i)
      {
        assert BareAt(prev, s[..n], i) == BareAt(prev, s, i);
      }
      UntouchedIfNoBare(prev, s[..n]);
      assert s == s[..n] + [s[n]];
    }
  }

  /** Standard output and the flag carried between frames. */
  class StdoutRelay {
    var lastWasCr: bool
    var written: seq<byte>

    constructor ()
      ensures !lastWasCr && written == []
    {
      lastWasCr, written := false, [];
    }

    method RawWrite(data: seq<byte>)
      modifies this
      ensures written == old(written) + Convert(old(lastWasCr), data)
      ensures lastWasCr == EndsInCr(old(lastWasCr), data)
    {
      // Fast path: nothing to convert.
      if LF !in data {
        UntouchedIfNoBare(lastWasCr, data);
        written := written + data;
        if data != [] {
          lastWasCr := data[|data| - 1] == CR;
        }
        return;
      }
      var buf: seq<byte> := [];
      assert data[..0] == [];
      for i := 0 to |data|
        invariant lastWasCr == old(lastWasCr) && written == old(written)
        invariant buf == Convert(lastWasCr, data[..i])
      {
        assert data[..i + 1][..i] == data[..i];
        assert BareAt(lastWasCr, data[..i + 1], i) == BareAt(lastWasCr, data, i);
        if data[i] == LF {
          var prevIsCr := if i == 0 then lastWasCr else data[i - 1] == CR;
          if !prevIsCr {
            buf := buf + [CR];
          }
        }
        buf := buf + [data[i]];
      }
      assert data[..|data|] == data;
      lastWasCr := data[|data| - 1] == CR;
      written := written + buf;
    }
  }

  /** The relay over any sequence of frames, empty ones and ones without line feeds included. */
  method Relay(frames: seq<seq<byte>>) returns (written: seq<byte>)
    ensures written == Convert(false, Concat(frames))
    ensures NoBare(false, written) && |written| == |Concat(frames)| + BareCount(false, Concat(frames))
  {
    var out := new StdoutRelay();
    ghost var all: seq<byte> := [];
    for i := 0 to |frames|
      invariant all == Concat(frames[..i])
      invariant out.written == Convert(false, all) && out.lastWasCr == EndsInCr(false, all)
    {
      assert frames[..i + 1] == frames[..i] + [frames[i]];
      ConcatSnoc(frames[..i], frames[i]);
      ConvertAppend(false, all, frames[i]);
      out.RawWrite(frames[i]);
      all := all + frames[i];
    }
    assert frames[..|frames|] == frames;
    ConvertLeavesNoBare(false, all);
    ConvertLength(false, all);
    written := out.written;
  }

  // ----- the conversion, in bytes -----

  /** A line feed gets a carriage return before it unless it has one. */
  lemma LineFeeds(a: seq<byte>, b: seq<byte>)
    ensures Convert(false, a + [0x0a] + b) ==
            Convert(false, a) + (if a != [] && a[|a| - 1] == 0x0d then [0x0a] else [0x0d, 0x0a]) + Convert(false, b)
  {
    ConvertAppend(false, a + [0x0a], b);
    ConvertAppend(false, a, [0x0a]);
    assert [0x0a][..0] == [];
    var x := Convert(EndsInCr(false, a), [0x0a]);
    assert x == if EndsInCr(false, a) then [0x0a] else [0x0d, 0x0a];
    assert EndsInCr(false, a + [0x0a]) == false;
  }

  /** Nothing else is touched. */
  lemma {:induction false} OtherBytes(s: seq<byte>)
    requires 0x0a !in s
    ensures Convert(false, s) == s
    decreases |s|
  {
    if s != [] {
      OtherBytes(s[..|s| - 1]);
      assert s == s[..|s| - 1] + [s[|s| - 1]];
    }
  }
}
