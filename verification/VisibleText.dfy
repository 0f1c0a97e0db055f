/** What the visible text of a stream is, said in bytes: the laws that a raw-text search relies on. */
module VisibleText {
  import opened Bytes
  import opened RawTexts

  // ----- outside escape sequences -----

  ghost predicate NoEsc(s: seq<byte>) {
    forall i :: 0 <= i < |s| ==> s[i] != 0x1b
  }

  /** Text without escapes does not affect what follows it. */
  lemma {:induction false} PlainThen(a: seq<byte>, c: seq<byte>)
    requires NoEsc(a)
    ensures Visible(a + c) == Visible(a) + Visible(c)
    decreases |a|
  {
    hide Shown;
    if a == [] {
      assert a + c == c;
    } else {
      assert (a + c)[1..] == a[1..] + c && (a + c)[0] == a[0];
      PlainThen(a[1..], c);
      assert Shown(a[0]) + (Visible(a[1..]) + Visible(c)) == (Shown(a[0]) + Visible(a[1..])) + Visible(c);
    }
  }

  /** Printable bytes, and all bytes from 0x80 on, are their own visible text. */
  lemma {:induction false} PrintableIsVisible(s: seq<byte>)
    requires forall i :: 0 <= i < |s| ==> s[i] > 0x1f && s[i] != 0x7f
    ensures Visible(s) == s
    decreases |s|
  {
    if s != [] {
      PrintableIsVisible(s[1..]);
      assert s == [s[0]] + s[1..];
    }
  }

  /** Backspace, tab, line feed and carriage return each break the text with one line
      feed; every other control byte but ESC, and DEL, vanishes. */
  lemma ControlsBreakOrVanish(a: seq<byte>, b: byte, c: seq<byte>)
    requires NoEsc(a) && b != 0x1b && (b <= 0x1f || b == 0x7f)
    ensures Visible(a + [b] + c) ==
            Visible(a) + (if b == 0x08 || b == 0x09 || b == 0x0a || b == 0x0d then [0x0a] else []) + Visible(c)
  {
    var shown := if b == 0x08 || b == 0x09 || b == 0x0a || b == 0x0d then [0x0a] else [];
    assert a + [b] + c == a + ([b] + c);
    PlainThen(a, [b] + c);
    assert ([b] + c)[1..] == c;
    assert Visible([b] + c) == shown + Visible(c);
    assert Visible(a) + (shown + Visible(c)) == Visible(a) + shown + Visible(c);
  }

  /** So a search never joins text across a line break. */
  lemma BreaksSeparate(a: seq<byte>, b: byte, c: seq<byte>, needle: seq<byte>)
    requires NoEsc(a) && b in {0x08, 0x09, 0x0a, 0x0d} && 0x0a !in needle
    ensures Contains(Visible(a + [b] + c), needle) <==>
            Contains(Visible(a), needle) || Contains(Visible(c), needle)
  {
    ControlsBreakOrVanish(a, b, c);
    Separated(Visible(a), Visible(c), needle);
  }

  lemma Across(t: seq<byte>, needle: seq<byte>, at: nat, n: nat)
    requires ContainsAt(t, needle, at) && n < |t|
    ensures at <= n < at + |needle| ==> t[n] in needle
  {
    if at <= n < at + |needle| {
      assert t[at..at + |needle|][n - at] == t[n];
    }
  }

  lemma Separated(x: seq<byte>, y: seq<byte>, needle: seq<byte>)
    requires 0x0a !in needle
    ensures Contains(x + [0x0a] + y, needle) <==> Contains(x, needle) || Contains(y, needle)
  {
    var t := x + [0x0a] + y;
    if Contains(x, needle) {
      ContainsWiden([], x, [0x0a] + y, needle);
      assert [] + x + ([0x0a] + y) == t;
    }
    if Contains(y, needle) {
      ContainsWiden(x + [0x0a], y, [], needle);
      assert x + [0x0a] + y + [] == t;
    }
    if Contains(t, needle) {
      var at :| ContainsAt(t, needle, at);
      var n := |x|;
      Across(t, needle, at, n);
      if at + |needle| <= n {
        assert x[at..at + |needle|] == t[at..at + |needle|];
        assert ContainsAt(x, needle, at);
      } else {
        assert t[n + 1..] == y;
        assert y[at - n - 1..at - n - 1 + |needle|] == t[at..at + |needle|];
        assert ContainsAt(y, needle, at - n - 1);
      }
    }
  }

  // ----- escape sequences -----

  lemma FirstInIs(body: seq<byte>, lo: byte, hi: byte, n: nat)
    requires n < |body| && lo <= body[n] <= hi && forall j :: 0 <= j < n ==> !(lo <= body[j] <= hi)
    ensures FirstIn(body, lo, hi, 0) == n
  {
  }

  /** A control sequence shows nothing if its final byte is `m`, `h` or `l`; any other
      breaks the text with one line feed. */
  lemma ControlSequences(params: seq<byte>, final: byte, rest: seq<byte>)
    requires forall i :: 0 <= i < |params| ==> !(0x40 <= params[i] <= 0x7e)
    requires 0x40 <= final <= 0x7e
    ensures Visible([0x1b, 0x5b] + params + [final] + rest) ==
            (if final == 0x6d || final == 0x68 || final == 0x6c then [] else [0x0a]) + Visible(rest)
  {
    var s := [0x1b, 0x5b] + params + [final] + rest;
    var body := s[2..];
    assert body == params + [final] + rest;
    FirstInIs(body, 0x40, 0x7e, |params|);
    assert body[|params| + 1..] == rest;
    hide FirstIn;
  }

  /** ESC 7, 8, D, E, M and c break the text with one line feed; ESC and any other
      byte that opens nothing longer shows nothing. */
  lemma TwoByteEscapes(b: byte, rest: seq<byte>)
    requires b !in {0x5b, 0x5d, 0x50, 0x58, 0x5e, 0x5f} && !(0x20 <= b <= 0x2f)
    ensures Visible([0x1b, b] + rest) ==
            (if b in {0x37, 0x38, 0x44, 0x45, 0x4d, 0x63} then [0x0a] else []) + Visible(rest)
  {
    assert ([0x1b, b] + rest)[2..] == rest;
  }

  /** An escape with intermediate bytes ends at the first byte from 0x30 to 0x7e and shows nothing. */
  lemma IntermediateEscapes(b: byte, more: seq<byte>, final: byte, rest: seq<byte>)
    requires 0x20 <= b <= 0x2f && 0x30 <= final <= 0x7e
    requires forall i :: 0 <= i < |more| ==> !(0x30 <= more[i] <= 0x7e)
    ensures Visible([0x1b, b] + more + [final] + rest) == Visible(rest)
  {
    var s := [0x1b, b] + more + [final] + rest;
    var body := s[2..];
    assert body == more + [final] + rest;
    FirstInIs(body, 0x30, 0x7e, |more|);
    assert body[|more| + 1..] == rest;
    hide FirstIn;
  }

  lemma StringEndIs(body: seq<byte>, bel: bool, n: nat)
    requires n < |body| && Terminates(body, bel, n) && forall j :: 0 <= j < n ==> !Terminates(body, bel, j)
    ensures StringEnd(body, bel, 0) == n
  {
  }

  /** The text of a control string holds no ESC followed by a backslash. */
  ghost predicate Unterminated(text: seq<byte>) {
    forall i :: 0 < i < |text| ==> !(text[i - 1] == 0x1b && text[i] == 0x5c)
  }

  /** A DCS, SOS, PM or APC string ends at ESC backslash and shows nothing. */
  lemma ControlStrings(b: byte, text: seq<byte>, rest: seq<byte>)
    requires b in {0x50, 0x58, 0x5e, 0x5f} && Unterminated(text)
    ensures Visible([0x1b, b] + text + [0x1b, 0x5c] + rest) == Visible(rest)
  {
    StringShowsNothing(b, text, [0x1b, 0x5c], rest);
  }

  /** So does an OSC string, which also ends at a BEL with no ESC before it. */
  lemma OscStrings(text: seq<byte>, end: seq<byte>, rest: seq<byte>)
    requires Unterminated(text)
    requires forall i :: 0 <= i < |text| && text[i] == 0x07 ==> i > 0 && text[i - 1] == 0x1b
    requires end == [0x1b, 0x5c] || (end == [0x07] && (text == [] || text[|text| - 1] != 0x1b))
    ensures Visible([0x1b, 0x5d] + text + end + rest) == Visible(rest)
  {
    StringShowsNothing(0x5d, text, end, rest);
  }

  lemma StringShowsNothing(b: byte, text: seq<byte>, end: seq<byte>, rest: seq<byte>)
    requires b in {0x50, 0x58, 0x5d, 0x5e, 0x5f} && Unterminated(text)
    requires b == 0x5d ==> forall i :: 0 <= i < |text| && text[i] == 0x07 ==> i > 0 && text[i - 1] == 0x1b
    requires end == [0x1b, 0x5c] || (b == 0x5d && end == [0x07] && (text == [] || text[|text| - 1] != 0x1b))
    ensures Visible([0x1b, b] + text + end + rest) == Visible(rest)
  {
    var s := [0x1b, b] + text + end + rest;
    var body := s[2..];
    assert body == text + end + rest;
    var n, bel := |text| + |end| - 1, b == 0x5d;
    forall j | 0 <= j < n
      ensures !Terminates(body, bel, j)
    {
      if j < |text| {
        assert body[j] == text[j];
      }
    }
    StringEndIs(body, bel, n);
    assert body[n + 1..] == rest;
    hide StringEnd;
  }

  /** What an unfinished sequence hides: all of itself. */
  lemma UnfinishedShowsNothing(params: seq<byte>)
    requires forall i :: 0 <= i < |params| ==> !(0x40 <= params[i] <= 0x7e)
    ensures Visible([0x1b]) == [] && Visible([0x1b, 0x5b] + params) == []
  {
    var s := [0x1b, 0x5b] + params;
    assert s[2..] == params;
  }
}
