/** Byte strings, and the few facts about sequences every other module uses. */
module Bytes {

  type byte = b: int | 0 <= b < 256

  datatype Option<+T> = None | Some(value: T)

  function Min(a: int, b: int): int {
    if a <= b then a else b
  }

  /** All pieces joined in order. */
  function Concat<T>(pieces: seq<seq<T>>): seq<T> {
    if pieces == [] then [] else pieces[0] + Concat(pieces[1..])
  }

  lemma {:induction false} ConcatAppend<T>(a: seq<seq<T>>, b: seq<seq<T>>)
    ensures Concat(a + b) == Concat(a) + Concat(b)
  {
    if a == [] {
      assert a + b == b;
    } else {
      assert (a + b)[1..] == a[1..] + b;
      ConcatAppend(a[1..], b);
    }
  }

  lemma ConcatSnoc<T>(a: seq<seq<T>>, x: seq<T>)
    ensures Concat(a + [x]) == Concat(a) + x
  {
    ConcatAppend(a, [x]);
    assert [x][1..] == [];
  }

  lemma SplitAt<T>(s: seq<T>, k: nat)
    requires k < |s|
    ensures s == s[..k] + ([s[k]] + s[k + 1..])
  {
    assert s[k..] == [s[k]] + s[k + 1..];
    assert s == s[..k] + s[k..];
  }

  /** The last `n` elements, or everything when there are fewer. */
  function LastN<T>(n: nat, s: seq<T>): seq<T> {
    if |s| <= n then s else s[|s| - n..]
  }

  /** Truncating early loses nothing that truncating at the end would keep. */
  lemma LastNAppend<T>(n: nat, a: seq<T>, b: seq<T>)
    ensures LastN(n, LastN(n, a) + b) == LastN(n, a + b)
  {
  }

  lemma PrefixOfJoin<T>(head: seq<T>, tail: seq<T>, s: seq<T>)
    requires s <= head + tail
    ensures s < head || (head <= s && s == head + s[|head|..] && s[|head|..] <= tail)
  {
    assert (head + tail)[..|head|] == head && (head + tail)[|head|..] == tail;
    if |s| < |head| {
      assert s == head[..|s|];
    }
  }

  ghost predicate EndsWith<T>(s: seq<T>, tail: seq<T>) {
    |tail| <= |s| && s[|s| - |tail|..] == tail
  }

  ghost predicate ContainsAt<T>(s: seq<T>, needle: seq<T>, at: int) {
    0 <= at && at + |needle| <= |s| && s[at..at + |needle|] == needle
  }

  /** `needle` occurs in `s` as one contiguous piece. */
  ghost predicate Contains<T>(s: seq<T>, needle: seq<T>) {
    exists at :: ContainsAt(s, needle, at)
  }

  /** Growing a text by one element creates only occurrences that end there. */
  lemma ContainsSnoc<T>(s: seq<T>, x: T, needle: seq<T>)
    ensures Contains(s + [x], needle) <==> Contains(s, needle) || EndsWith(s + [x], needle)
  {
    var t := s + [x];
    if Contains(t, needle) {
      var at :| ContainsAt(t, needle, at);
      if at + |needle| <= |s| {
        assert s[at..at + |needle|] == t[at..at + |needle|];
        assert ContainsAt(s, needle, at);
      }
    }
    if Contains(s, needle) {
      var at :| ContainsAt(s, needle, at);
      assert t[at..at + |needle|] == s[at..at + |needle|];
      assert ContainsAt(t, needle, at);
    }
    if EndsWith(t, needle) {
      assert ContainsAt(t, needle, |t| - |needle|);
    }
  }

  /** A piece of a text that contains the needle makes the text contain it. */
  lemma ContainsWiden<T>(left: seq<T>, mid: seq<T>, right: seq<T>, needle: seq<T>)
    requires Contains(mid, needle)
    ensures Contains(left + mid + right, needle)
  {
    var at :| ContainsAt(mid, needle, at);
    var t := left + mid + right;
    assert t[|left| + at..|left| + at + |needle|] == mid[at..at + |needle|];
    assert ContainsAt(t, needle, |left| + at);
  }
}
