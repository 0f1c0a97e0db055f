/** Searching for newly painted text on the screen: the row scan over a shadow grid and the live grid. */
module Painted {
  import opened Bytes

  const SENTINEL: char := '\U{e000}'

  datatype Cell = Cell(contents: string, wideContinuation: bool)

  type Row = seq<Cell>

  /** The shadow no longer shows the fill: something was painted here. */
  predicate IsPainted(shadow: Cell) {
    SENTINEL !in shadow.contents
  }

  predicate IsBlank(live: Cell) {
    !live.wideContinuation && (live.contents == "" || live.contents == " ")
  }

  /** What a cell contributes; the second half of a wide character contributes nothing. */
  function CellText(shadow: Cell): string {
    if !IsPainted(shadow) then " "
    else if shadow.contents == "" && !shadow.wideContinuation then " "
    else shadow.contents
  }

  /** A painted cell counts only if the live screen still agrees; any other must be blank there. */
  predicate Usable(shadow: Cell, live: Cell) {
    if IsPainted(shadow) then shadow == live else IsBlank(live)
  }

  function Text(shadow: Row, a: nat, end: nat): string
    requires end <= |shadow|
    decreases end
  {
    if end <= a then "" else Text(shadow, a, end - 1) + CellText(shadow[end - 1])
  }

  /** Columns `a` to `b` hold newly painted text: painted at both ends, with text
      at the first unless it is alone, and usable throughout. */
  ghost predicate Stretch(shadow: Row, live: Row, a: int, b: int)
    requires |shadow| == |live|
  {
    && 0 <= a <= b < |shadow| && IsPainted(shadow[a]) && IsPainted(shadow[b])
    && (a < b ==> CellText(shadow[a]) != "")
    && forall k :: a <= k <= b ==> Usable(shadow[k], live[k])
  }

  ghost predicate ShowsAt(shadow: Row, live: Row, needle: string, a: int, b: int)
    requires |shadow| == |live|
  {
    Stretch(shadow, live, a, b) && Contains(Text(shadow, a, b + 1), needle)
  }

  /** Some stretch that ends before column `end` contains the needle. */
  ghost predicate RowShows(shadow: Row, live: Row, needle: string, end: int)
    requires |shadow| == |live|
  {
    exists a, b :: ShowsAt(shadow, live, needle, a, b) && b < end
  }

  lemma {:induction false} TextSplit(shadow: Row, a: nat, mid: nat, end: nat)
    requires a <= mid <= end <= |shadow|
    ensures Text(shadow, a, end) == Text(shadow, a, mid) + Text(shadow, mid, end)
    decreases end
  {
    hide CellText;
    if end > mid {
      TextSplit(shadow, a, mid, end - 1);
      assert Text(shadow, a, mid) + (Text(shadow, mid, end - 1) + CellText(shadow[end - 1]))
          == (Text(shadow, a, mid) + Text(shadow, mid, end - 1)) + CellText(shadow[end - 1]);
    }
  }

  /** Text could still run on from column `a` into column `end`. */
  ghost predicate Running(shadow: Row, live: Row, a: int, end: int)
    requires |shadow| == |live|
  {
    && 0 <= a < end <= |shadow| && IsPainted(shadow[a]) && CellText(shadow[a]) != ""
    && forall k :: a <= k < end ==> Usable(shadow[k], live[k])
  }

  function Spaces(n: nat): string {
    if n == 0 then "" else Spaces(n - 1) + " "
  }

  /** The scan's variables stand for the longest text that could still run on. */
  ghost predicate Carries(shadow: Row, live: Row, col: nat, run: string, gap: nat, start: nat)
    requires |shadow| == |live|
  {
    && col <= |shadow|
    && (run == "" ==> gap == 0 && forall a :: !Running(shadow, live, a, col))
    && (run != "" ==>
          && Running(shadow, live, start, col)
          && run + Spaces(gap) == Text(shadow, start, col)
          && forall a :: Running(shadow, live, a, col) ==> start <= a)
  }

  lemma RunningBack(shadow: Row, live: Row, a: int, end: int)
    requires |shadow| == |live| && Running(shadow, live, a, end + 1)
    ensures Usable(shadow[end], live[end]) && (a < end ==> Running(shadow, live, a, end))
  {
  }

  /** Reaching a usable painted cell: `full` is what the scan then searches. */
  lemma ReachesPainted(shadow: Row, live: Row, needle: string, col: nat, run: string, gap: nat, start: nat)
    requires |shadow| == |live| && col < |shadow| && Carries(shadow, live, col, run, gap, start)
    requires IsPainted(shadow[col]) && shadow[col] == live[col]
    ensures var full := run + Spaces(gap) + CellText(shadow[col]);
            && (RowShows(shadow, live, needle, col + 1) <==>
                  RowShows(shadow, live, needle, col) || Contains(full, needle))
            && Carries(shadow, live, col + 1, full, 0, if run == "" then col else start)
  {
    var full := run + Spaces(gap) + CellText(shadow[col]);
    var from := if run == "" then col else start;
    assert Text(shadow, col, col) == "" && full == Text(shadow, from, col + 1);
    assert Stretch(shadow, live, from, col);
    if Contains(full, needle) {
      assert ShowsAt(shadow, live, needle, from, col);
    }
    if RowShows(shadow, live, needle, col + 1) && !RowShows(shadow, live, needle, col) {
      var a, b :| ShowsAt(shadow, live, needle, a, b) && b < col + 1;
      assert b == col;
      assert a < col ==> Running(shadow, live, a, col);
      TextSplit(shadow, from, a, col + 1);
      ContainsWiden(Text(shadow, from, a), Text(shadow, a, col + 1), "", needle);
      assert Text(shadow, from, a) + Text(shadow, a, col + 1) + "" == full;
    }
    CarriesOn(shadow, live, col, run, gap, start);
  }

  lemma CarriesOn(shadow: Row, live: Row, col: nat, run: string, gap: nat, start: nat)
    requires |shadow| == |live| && col < |shadow| && Carries(shadow, live, col, run, gap, start)
    requires IsPainted(shadow[col]) && shadow[col] == live[col]
    ensures Carries(shadow, live, col + 1, run + Spaces(gap) + CellText(shadow[col]), 0,
                    if run == "" then col else start)
  {
    var full := run + Spaces(gap) + CellText(shadow[col]);
    var from := if run == "" then col else start;
    assert Text(shadow, col, col) == "" && full + Spaces(0) == full == Text(shadow, from, col + 1);
    var next := col + 1;
    forall a | Running(shadow, live, a, next)
      ensures full != "" && from <= a
    {
      RunningBack(shadow, live, a, col);
      if run == "" {
        assert a == col;
      }
    }
  }

  /** A cell that cannot be used ends every run. */
  lemma Breaks(shadow: Row, live: Row, needle: string, col: nat)
    requires |shadow| == |live| && col < |shadow| && !Usable(shadow[col], live[col])
    ensures Carries(shadow, live, col + 1, "", 0, 0)
    ensures RowShows(shadow, live, needle, col + 1) <==> RowShows(shadow, live, needle, col)
  {
    forall a, b | ShowsAt(shadow, live, needle, a, b) && b < col + 1
      ensures b < col
    {
    }
  }

  /** An unpainted cell is searched only once a painted one follows. */
  lemma Skips(shadow: Row, live: Row, needle: string, col: nat, run: string, gap: nat, start: nat)
    requires |shadow| == |live| && col < |shadow| && Carries(shadow, live, col, run, gap, start)
    requires !IsPainted(shadow[col]) && IsBlank(live[col])
    ensures Carries(shadow, live, col + 1, run, if run == "" then 0 else gap + 1, start)
    ensures RowShows(shadow, live, needle, col + 1) <==> RowShows(shadow, live, needle, col)
  {
    var next := col + 1;
    forall a | Running(shadow, live, a, next)
      ensures a < col && Running(shadow, live, a, col)
    {
      RunningBack(shadow, live, a, col);
    }
    if run != "" {
      assert run + (Spaces(gap) + " ") == (run + Spaces(gap)) + " ";
    }
    forall a, b | ShowsAt(shadow, live, needle, a, b) && b < col + 1
      ensures b < col
    {
    }
  }

  lemma RowStarts(shadow: Row, live: Row, needle: string)
    requires |shadow| == |live|
    ensures Carries(shadow, live, 0, "", 0, 0) && !RowShows(shadow, live, needle, 0)
  {
  }

  /** The scan of one row. */
  method ScanRow(shadow: Row, live: Row, needle: string) returns (found: bool)
    requires |shadow| == |live|
    ensures found <==> RowShows(shadow, live, needle, |shadow|)
  {
    hide Carries, RowShows, Spaces;
    var run, gap := "", 0;
    ghost var start: nat := 0;
    RowStarts(shadow, live, needle);
    for col := 0 to |shadow|
      invariant Carries(shadow, live, col, run, gap, start)
      invariant !RowShows(shadow, live, needle, col)
    {
      var content, liveCell := shadow[col].contents, live[col];
      if SENTINEL in content {
        if run != "" && !liveCell.wideContinuation && (liveCell.contents == "" || liveCell.contents == " ") {
          Skips(shadow, live, needle, col, run, gap, start);
          gap := gap + 1;
        } else {
          if IsBlank(liveCell) {
            Skips(shadow, live, needle, col, run, gap, start);
          } else {
            Breaks(shadow, live, needle, col);
            start := 0;
          }
          run, gap := "", 0;
        }
      } else {
        if content != liveCell.contents || shadow[col].wideContinuation != liveCell.wideContinuation {
          Breaks(shadow, live, needle, col);
          run, gap, start := "", 0, 0;
          continue;
        }
        ReachesPainted(shadow, live, needle, col, run, gap, start);
        start := if run == "" then col else start;
        run := run + Spaces(gap);
        gap := 0;
        if content == "" && !shadow[col].wideContinuation {
          run := run + " ";
        } else {
          run := run + content;
        }
        var here := Search(run, needle);
        if here {
          RowShowsMore(shadow, live, needle, col + 1);
          return true;
        }
      }
    }
    found := false;
  }

  lemma RowShowsMore(shadow: Row, live: Row, needle: string, end: int)
    requires |shadow| == |live| && end <= |shadow| && RowShows(shadow, live, needle, end)
    ensures RowShows(shadow, live, needle, |shadow|)
  {
    var a, b :| ShowsAt(shadow, live, needle, a, b) && b < end;
    assert ShowsAt(shadow, live, needle, a, b) && b < |shadow|;
  }

  method Search(text: string, needle: string) returns (found: bool)
    ensures found <==> Contains(text, needle)
  {
    for at := 0 to |text| + 1
      invariant forall k :: 0 <= k < at ==> !ContainsAt(text, needle, k)
    {
      if at + |needle| <= |text| && text[at..at + |needle|] == needle {
        assert ContainsAt(text, needle, at);
        return true;
      }
    }
    found := false;
  }

  ghost predicate Matching(shadow: seq<Row>, live: seq<Row>) {
    |shadow| == |live| && forall r :: 0 <= r < |shadow| ==> |shadow[r]| == |live[r]|
  }

  ghost predicate ScreenShows(shadow: seq<Row>, live: seq<Row>, needle: string) {
    Matching(shadow, live) && exists r :: 0 <= r < |shadow| && RowShows(shadow[r], live[r], needle, |shadow[r]|)
  }

  /** The scan of the screen is sound and complete: it finds the needle exactly
      when some row has a stretch of newly painted text that contains it. Rows
      are never joined. */
  method ScanScreen(shadow: seq<Row>, live: seq<Row>, needle: string) returns (found: bool)
    requires Matching(shadow, live)
    ensures found <==> ScreenShows(shadow, live, needle)
  {
    for r := 0 to |shadow|
      invariant forall k :: 0 <= k < r ==> !RowShows(shadow[k], live[k], needle, |shadow[k]|)
    {
      var here := ScanRow(shadow[r], live[r], needle);
      if here {
        return true;
      }
    }
    found := false;
  }

  // ----- what a row shows, cell by cell -----

  /** The text of a row: a cell's contents, or one space for a cell that is empty or
      was not painted, but nothing for the second half of a wide character. */
  function Says(shadow: Row): string {
    if shadow == [] then ""
    else
      var c := shadow[|shadow| - 1];
      Says(shadow[..|shadow| - 1]) +
      if '\U{e000}' in c.contents || (c.contents == "" && !c.wideContinuation) then " " else c.contents
  }

  lemma {:induction false} SaysIsText(shadow: Row, n: nat)
    requires n <= |shadow|
    ensures Text(shadow, 0, n) == Says(shadow[..n])
  {
    if n > 0 {
      SaysIsText(shadow, n - 1);
      assert shadow[..n][..n - 1] == shadow[..n - 1];
    }
  }

  /** Painted cells that the live screen agrees with, and unpainted ones that are blank on it. */
  ghost predicate Agrees(shadow: Cell, live: Cell) {
    if '\U{e000}' in shadow.contents then live.contents in {"", " "} && !live.wideContinuation
    else shadow == live
  }

  lemma AgreesIsUsable(shadow: Cell, live: Cell)
    ensures Agrees(shadow, live) <==> Usable(shadow, live)
  {
  }

  /** A row that agrees throughout, with text in a painted first cell and a painted last
      one, shows exactly what its text contains: gaps inside it are spaces. */
  lemma AgreeingRow(shadow: Row, live: Row, needle: string)
    requires |shadow| == |live| > 0 && forall k :: 0 <= k < |shadow| ==> Agrees(shadow[k], live[k])
    requires '\U{e000}' !in shadow[0].contents && shadow[0].contents != ""
    requires '\U{e000}' !in shadow[|shadow| - 1].contents
    ensures RowShows(shadow, live, needle, |shadow|) <==> Contains(Says(shadow), needle)
  {
    var n := |shadow|;
    WholeStretch(shadow, live);
    hide Agrees, Stretch, Text, CellText, Contains, Says;
    SaysIsText(shadow, n);
    assert shadow[..n] == shadow;
    if Contains(Says(shadow), needle) {
      assert ShowsAt(shadow, live, needle, 0, n - 1);
    }
    if RowShows(shadow, live, needle, n) {
      var a, b :| ShowsAt(shadow, live, needle, a, b) && b < n;
      PartOfText(shadow, live, needle, a, b);
    }
  }

  lemma WholeStretch(shadow: Row, live: Row)
    requires |shadow| == |live| > 0 && forall k :: 0 <= k < |shadow| ==> Agrees(shadow[k], live[k])
    requires '\U{e000}' !in shadow[0].contents && shadow[0].contents != ""
    requires '\U{e000}' !in shadow[|shadow| - 1].contents
    ensures Stretch(shadow, live, 0, |shadow| - 1)
  {
    hide Agrees, Usable;
    forall k | 0 <= k <= |shadow| - 1
      ensures Usable(shadow[k], live[k])
    {
      AgreesIsUsable(shadow[k], live[k]);
    }
  }

  lemma PartOfText(shadow: Row, live: Row, needle: string, a: int, b: int)
    requires |shadow| == |live| && ShowsAt(shadow, live, needle, a, b)
    ensures Contains(Text(shadow, 0, |shadow|), needle)
  {
    hide ShowsAt, Text, Contains;
    ShownText(shadow, live, needle, a, b);
    TextSplit(shadow, 0, a, |shadow|);
    TextSplit(shadow, a, b + 1, |shadow|);
    InTheMiddle(Text(shadow, 0, a), Text(shadow, a, b + 1), Text(shadow, b + 1, |shadow|), needle);
  }

  lemma InTheMiddle(x: string, y: string, z: string, needle: string)
    requires Contains(y, needle)
    ensures Contains(x + (y + z), needle)
  {
    ContainsWiden(x, y, z, needle);
    assert x + (y + z) == x + y + z;
  }

  lemma ShownText(shadow: Row, live: Row, needle: string, a: int, b: int)
    requires |shadow| == |live| && ShowsAt(shadow, live, needle, a, b)
    ensures 0 <= a <= b < |shadow| && Contains(Text(shadow, a, b + 1), needle)
  {
  }

  lemma {:induction false} TextOfSlice(shadow: Row, i: nat, j: nat, a: nat, end: nat)
    requires i <= j <= |shadow| && a <= end <= j - i
    ensures Text(shadow[i..j], a, end) == Text(shadow, i + a, i + end)
    decreases end
  {
    hide CellText;
    if a < end {
      TextOfSlice(shadow, i, j, a, end - 1);
    }
  }

  lemma StretchOfSlice(shadow: Row, live: Row, i: nat, j: nat, a: nat, b: nat)
    requires |shadow| == |live| && i <= j <= |shadow| && a <= b < j - i
    ensures Stretch(shadow[i..j], live[i..j], a, b) <==> Stretch(shadow, live, i + a, i + b)
  {
    hide Usable, CellText;
    var s, l := shadow[i..j], live[i..j];
    if Stretch(s, l, a, b) {
      forall k | i + a <= k <= i + b
        ensures Usable(shadow[k], live[k])
      {
        assert s[k - i] == shadow[k] && l[k - i] == live[k];
      }
    }
    if Stretch(shadow, live, i + a, i + b) {
      forall k | a <= k <= b
        ensures Usable(s[k], l[k])
      {
        assert s[k] == shadow[i + k] && l[k] == live[i + k];
      }
    }
  }

  lemma ShowsSlice(shadow: Row, live: Row, needle: string, i: nat, j: nat, a: nat, b: nat)
    requires |shadow| == |live| && i <= j <= |shadow| && a <= b < j - i
    ensures ShowsAt(shadow[i..j], live[i..j], needle, a, b) <==> ShowsAt(shadow, live, needle, i + a, i + b)
  {
    hide Stretch, Text, Contains;
    TextOfSlice(shadow, i, j, a, b + 1);
    StretchOfSlice(shadow, live, i, j, a, b);
  }

  /** Part of a row. */
  ghost predicate PartShows(shadow: Row, live: Row, i: nat, j: nat, needle: string)
    requires |shadow| == |live| && i <= j <= |shadow|
  {
    RowShows(shadow[i..j], live[i..j], needle, j - i)
  }

  lemma PartIsShown(shadow: Row, live: Row, i: nat, j: nat, needle: string)
    requires |shadow| == |live| && i <= j <= |shadow| && PartShows(shadow, live, i, j, needle)
    ensures RowShows(shadow, live, needle, |shadow|)
  {
    var a, b :| ShowsAt(shadow[i..j], live[i..j], needle, a, b) && b < j - i;
    assert 0 <= a <= b;
    hide ShowsAt;
    ShowsSlice(shadow, live, needle, i, j, a, b);
  }

  lemma ShownIsPart(shadow: Row, live: Row, i: nat, j: nat, needle: string, a: int, b: int)
    requires |shadow| == |live| && i <= j <= |shadow| && ShowsAt(shadow, live, needle, a, b) && i <= a && b < j
    ensures PartShows(shadow, live, i, j, needle)
  {
    assert a <= b;
    hide ShowsAt;
    ShowsSlice(shadow, live, needle, i, j, a - i, b - i);
  }

  /** A cell that does not agree parts the row: nothing is found across it, and
      whatever either side shows by itself is found. */
  lemma PartedRow(shadow: Row, live: Row, n: nat, needle: string)
    requires |shadow| == |live| && n < |shadow| && !Agrees(shadow[n], live[n])
    ensures RowShows(shadow, live, needle, |shadow|) <==>
            PartShows(shadow, live, 0, n, needle) || PartShows(shadow, live, n + 1, |shadow|, needle)
  {
    AgreesIsUsable(shadow[n], live[n]);
    hide PartShows, Agrees, Text, Contains, Usable;
    if PartShows(shadow, live, 0, n, needle) {
      PartIsShown(shadow, live, 0, n, needle);
    }
    if PartShows(shadow, live, n + 1, |shadow|, needle) {
      PartIsShown(shadow, live, n + 1, |shadow|, needle);
    }
    if RowShows(shadow, live, needle, |shadow|) {
      var a, b :| ShowsAt(shadow, live, needle, a, b) && b < |shadow|;
      if b < n {
        ShownIsPart(shadow, live, 0, n, needle, a, b);
      } else {
        ShownIsPart(shadow, live, n + 1, |shadow|, needle, a, b);
      }
    }
  }

  // ----- over many observations -----

  /** The cursor is put back where it was saved: ESC 8. */
  const RESTORE: seq<byte> := [0x1b, 0x38]

  /** One observation: the output it reports; whether the terminal's size, or which
      screen it shows, differs from the shadow's; and what both show after it. */
  datatype Look = Look(output: seq<byte>, resized: bool, switched: bool, shadow: seq<Row>, live: seq<Row>)

  ghost predicate Fitting(look: Look) {
    !look.resized ==> Matching(look.shadow, look.live)
  }

  /** The shadow is started afresh, and nothing is searched, when it may have
      diverged; `since` is the output since it was last started. */
  ghost predicate Rearms(since: seq<byte>, look: Look) {
    look.resized || look.switched || Contains(since + look.output, RESTORE)
  }

  ghost function Since(looks: seq<Look>): seq<byte> {
    if looks == [] then []
    else
      var before, look := Since(looks[..|looks| - 1]), looks[|looks| - 1];
      if Rearms(before, look) then [] else before + look.output
  }

  /** Observation `k` shows the needle in newly painted text. */
  ghost predicate ShownAt(looks: seq<Look>, k: int, needle: string) {
    && 0 <= k < |looks| && !Rearms(Since(looks[..k]), looks[k])
    && ScreenShows(looks[k].shadow, looks[k].live, needle)
  }

  ghost predicate EverShown(looks: seq<Look>, needle: string) {
    exists k :: ShownAt(looks, k, needle)
  }

  lemma RestoreSnoc(s: seq<byte>, b: byte)
    ensures Contains(s + [b], RESTORE) <==> Contains(s, RESTORE) || (b == 0x38 && EndsWith(s, [0x1b]))
    ensures EndsWith(s + [b], [0x1b]) <==> b == 0x1b
  {
    ContainsSnoc(s, b, RESTORE);
    var t := s + [b];
    if |s| > 0 {
      assert t[|t| - 2..] == [s[|s| - 1], b] && s[|s| - 1..] == [s[|s| - 1]];
    }
    assert t[|t| - 1..] == [b];
  }

  lemma NothingSince()
    ensures !EndsWith<byte>([], [0x1b]) && !Contains<byte>([], RESTORE)
  {
  }

  /** The search of newly painted cells. Its parsers are not modelled: what the
      shadow and the live screen show is part of each observation. */
  class PaintedCells {
    var escape: bool
    ghost var since: seq<byte>

    ghost predicate Valid()
      reads this
    {
      (escape <==> EndsWith(since, [0x1b])) && !Contains(since, RESTORE)
    }

    constructor ()
      ensures Valid() && since == []
    {
      escape, since := false, [];
      new;
      NothingSince();
    }

    method Rearm()
      modifies this
      ensures Valid() && since == []
    {
      escape, since := false, [];
      NothingSince();
    }

    method Feed(look: Look, needle: string) returns (found: bool)
      requires Valid() && Fitting(look)
      modifies this
      ensures Valid() && since == if Rearms(old(since), look) then [] else old(since) + look.output
      ensures found <==> !Rearms(old(since), look) && ScreenShows(look.shadow, look.live, needle)
    {
      hide ScreenShows, Matching, EndsWith, Contains;
      if look.resized {
        Rearm();
        return false;
      }
      var restored := false;
      assert since + look.output[..0] == since;
      for i := 0 to |look.output|
        invariant escape <==> EndsWith(since + look.output[..i], [0x1b])
        invariant restored <==> Contains(since + look.output[..i], RESTORE)
        invariant since == old(since)
      {
        var byte := look.output[i];
        RestoreSnoc(since + look.output[..i], byte);
        assert since + look.output[..i + 1] == (since + look.output[..i]) + [byte];
        restored := restored || (escape && byte == 0x38);
        escape := byte == 0x1b;
      }
      assert look.output[..|look.output|] == look.output;
      if restored || look.switched {
        Rearm();
        return false;
      }
      since := since + look.output;
      found := ScanScreen(look.shadow, look.live, needle);
    }
  }
}
