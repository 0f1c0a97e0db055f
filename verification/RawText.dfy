/**
 Searching raw output for a text: a byte-at-a-time scanner that strips escape
 sequences and keeps only a bounded tail, refined by a search of the visible
 text of the whole stream.
 */
module RawTexts {
  import opened Bytes

  const ESC: byte := 0x1b
  const BREAK: byte := 0x0a

  // ----- what a stream shows (ECMA-48 sections 5.4 and 5.6, as the scanner reads them) -----

  /** Outside sequences: line and tab controls break text, other controls vanish. */
  function Shown(b: byte): seq<byte> {
    if b == 0x0d || b == 0x0a || b == 0x08 || b == 0x09 then [BREAK]
    else if b <= 0x1f || b == 0x7f then []
    else [b]
  }

  /** The first index from `i` on whose byte is in the range, or the length. */
  function FirstIn(s: seq<byte>, lo: byte, hi: byte, i: nat): (n: nat)
    requires i <= |s|
    ensures i <= n <= |s|
    ensures forall j :: i <= j < n ==> !(lo <= s[j] <= hi)
    ensures n < |s| ==> lo <= s[n] <= hi
    decreases |s| - i
  {
    if i == |s| || lo <= s[i] <= hi then i else FirstIn(s, lo, hi, i + 1)
  }

  predicate AfterEsc(s: seq<byte>, i: nat)
    requires i <= |s|
  {
    i > 0 && s[i - 1] == ESC
  }

  /** A control string ends at `ESC \`; an OSC also at a BEL that does not follow an ESC. */
  predicate Terminates(s: seq<byte>, bel: bool, i: nat)
    requires i < |s|
  {
    if AfterEsc(s, i) then s[i] == 0x5c else bel && s[i] == 0x07
  }

  function StringEnd(s: seq<byte>, bel: bool, i: nat): (n: nat)
    requires i <= |s|
    ensures i <= n <= |s|
    ensures forall j :: i <= j < n ==> !Terminates(s, bel, j)
    ensures n < |s| ==> Terminates(s, bel, n)
    decreases |s| - i
  {
    if i == |s| || Terminates(s, bel, i) then i else StringEnd(s, bel, i + 1)
  }

  /** Save, restore, index, next line, reverse index and reset move the cursor. */
  predicate MovesCursor(b: byte) {
    b == 0x37 || b == 0x38 || b == 0x44 || b == 0x45 || b == 0x4d || b == 0x63
  }

  /** Graphic renditions and mode switches leave adjacent text adjacent. */
  predicate KeepsText(b: byte) {
    b == 0x6d || b == 0x68 || b == 0x6c
  }

  /** The text of a whole stream, one sequence at a time; an unfinished sequence shows nothing. */
  function Visible(s: seq<byte>): seq<byte>
    decreases |s|
  {
    if s == [] then []
    else if s[0] != ESC then Shown(s[0]) + Visible(s[1..])
    else if |s| == 1 then []
    else
      var body := s[2..];
      if s[1] == 0x5b then
        var end := FirstIn(body, 0x40, 0x7e, 0);
        if end == |body| then []
        else (if KeepsText(body[end]) then [] else [BREAK]) + Visible(body[end + 1..])
      else if s[1] == 0x5d || IsStringStart(s[1]) then
        var end := StringEnd(body, s[1] == 0x5d, 0);
        if end == |body| then [] else Visible(body[end + 1..])
      else if 0x20 <= s[1] <= 0x2f then
        var end := FirstIn(body, 0x30, 0x7e, 0);
        if end == |body| then [] else Visible(body[end + 1..])
      else (if MovesCursor(s[1]) then [BREAK] else []) + Visible(body)
  }

  /** DCS, SOS, PM and APC. */
  predicate IsStringStart(b: byte) {
    b == 0x50 || b == 0x58 || b == 0x5e || b == 0x5f
  }

  // ----- the scanner -----

  type ScanState = n: int | 0 <= n <= 8 && n != 5

  /** Next state, and what is added to the text. */
  function Advance(state: ScanState, b: byte): (ScanState, seq<byte>) {
    match state
    case 0 => if b == ESC then (1, []) else (0, Shown(b))
    case 1 =>
      if b == 0x5b then (2, [])
      else if b == 0x5d then (3, [])
      else if IsStringStart(b) then (4, [])
      else if 0x20 <= b <= 0x2f then (6, [])
      else (0, if MovesCursor(b) then [BREAK] else [])
    case 2 => if 0x40 <= b <= 0x7e then (0, if KeepsText(b) then [] else [BREAK]) else (2, [])
    case 3 => if b == ESC then (7, []) else if b == 0x07 then (0, []) else (3, [])
    case 4 => if b == ESC then (8, []) else (4, [])
    case 6 => if 0x30 <= b <= 0x7e then (0, []) else (6, [])
    case _ => if b == 0x5c then (0, []) else if b != ESC then (state - 4, []) else (state, [])
  }

  /** State and text after a piece of the stream. */
  function Scan(state: ScanState, s: seq<byte>): (ScanState, seq<byte>)
    decreases |s|
  {
    if s == [] then (state, [])
    else
      var (next, shown) := Advance(state, s[0]);
      var (last, text) := Scan(next, s[1..]);
      (last, shown + text)
  }

  lemma {:induction false} ScanAppend(state: ScanState, a: seq<byte>, b: seq<byte>)
    ensures var (mid, text) := Scan(state, a);
            var (end, more) := Scan(mid, b);
            Scan(state, a + b) == (end, text + more)
    decreases |a|
  {
    if a == [] {
      assert a + b == b && [] + Scan(state, b).1 == Scan(state, b).1;
    } else {
      assert (a + b)[1..] == a[1..] + b && (a + b)[0] == a[0];
      var (next, shown) := Advance(state, a[0]);
      ScanAppend(next, a[1..], b);
      var (mid, text) := Scan(next, a[1..]);
      assert shown + (text + Scan(mid, b).1) == (shown + text) + Scan(mid, b).1;
    }
  }

  lemma ScanSnoc(state: ScanState, s: seq<byte>, b: byte)
    ensures var (mid, text) := Scan(state, s);
            Scan(state, s + [b]) == (Advance(mid, b).0, text + Advance(mid, b).1)
  {
    ScanAppend(state, s, [b]);
    var mid := Scan(state, s).0;
    assert [b][1..] == [] && Scan(mid, [b]) == (Advance(mid, b).0, Advance(mid, b).1 + []);
    assert Advance(mid, b).1 + [] == Advance(mid, b).1;
  }

  /** One byte of a scan. */
  lemma ScanOne(state: ScanState, s: seq<byte>, i: nat)
    requires i < |s|
    ensures Scan(state, s[i..]).1 == Advance(state, s[i]).1 + Scan(Advance(state, s[i]).0, s[i + 1..]).1
  {
    assert s[i..][1..] == s[i + 1..];
  }

  lemma ScanNothing(state: ScanState, s: seq<byte>)
    ensures Scan(state, s[|s|..]).1 == []
  {
  }

  lemma AdvanceCsi(b: byte)
    ensures Advance(2, b) == if 0x40 <= b <= 0x7e then (0, if KeepsText(b) then [] else [BREAK]) else (2, [])
    ensures Advance(6, b) == (if 0x30 <= b <= 0x7e then 0 else 6, [])
  {
  }

  lemma {:induction false} ScanCsi(body: seq<byte>, i: nat)
    requires i <= |body|
    ensures var end := FirstIn(body, 0x40, 0x7e, i);
            Scan(2, body[i..]).1 ==
            if end == |body| then []
            else (if KeepsText(body[end]) then [] else [BREAK]) + Scan(0, body[end + 1..]).1
    decreases |body| - i
  {
    hide Scan, Advance, KeepsText;
    ScanNothing(2, body);
    if i < |body| {
      ScanOne(2, body, i);
      AdvanceCsi(body[i]);
      if !(0x40 <= body[i] <= 0x7e) {
        ScanCsi(body, i + 1);
      }
    }
  }

  lemma {:induction false} ScanIntermediate(body: seq<byte>, i: nat)
    requires i <= |body|
    ensures var end := FirstIn(body, 0x30, 0x7e, i);
            Scan(6, body[i..]).1 == if end == |body| then [] else Scan(0, body[end + 1..]).1
    decreases |body| - i
  {
    hide Scan, Advance;
    ScanNothing(6, body);
    if i < |body| {
      ScanOne(6, body, i);
      AdvanceCsi(body[i]);
      if !(0x30 <= body[i] <= 0x7e) {
        ScanIntermediate(body, i + 1);
      }
    }
  }

  function InString(body: seq<byte>, bel: bool, i: nat): ScanState
    requires i <= |body|
  {
    (if bel then 3 else 4) + if AfterEsc(body, i) then 4 else 0
  }

  lemma AdvanceInString(body: seq<byte>, bel: bool, i: nat)
    requires i < |body|
    ensures Advance(InString(body, bel, i), body[i]) ==
            (if Terminates(body, bel, i) then 0 else InString(body, bel, i + 1), [])
  {
  }

  lemma {:induction false} ScanString(body: seq<byte>, bel: bool, i: nat)
    requires i <= |body|
    ensures var end := StringEnd(body, bel, i);
            Scan(InString(body, bel, i), body[i..]).1 == if end == |body| then [] else Scan(0, body[end + 1..]).1
    decreases |body| - i
  {
    hide Scan, Advance, InString, Terminates;
    ScanNothing(InString(body, bel, i), body);
    if i < |body| {
      ScanOne(InString(body, bel, i), body, i);
      AdvanceInString(body, bel, i);
      if !Terminates(body, bel, i) {
        ScanString(body, bel, i + 1);
      }
    }
  }

  /** An escape sequence at the front of a stream, scanned. */
  lemma ScanEscape(s: seq<byte>)
    requires |s| > 1 && s[0] == ESC
    ensures var body := s[2..];
            Scan(0, s).1 ==
            if s[1] == 0x5b then Scan(2, body).1
            else if s[1] == 0x5d || IsStringStart(s[1]) then Scan(InString(body, s[1] == 0x5d, 0), body).1
            else if 0x20 <= s[1] <= 0x2f then Scan(6, body).1
            else (if MovesCursor(s[1]) then [BREAK] else []) + Scan(0, body).1
  {
    hide Scan;
    assert s[0..] == s;
    ScanOne(0, s, 0);
    ScanOne(1, s, 1);
  }

  /** Byte by byte, the scanner finds exactly the visible text of the stream. */
  lemma {:induction false} ScanIsVisible(s: seq<byte>)
    ensures Scan(0, s).1 == Visible(s)
    decreases |s|, 1
  {
    hide Scan, Advance;
    assert s[0..] == s;
    if s == [] {
      ScanNothing(0, s);
    } else if s[0] != ESC {
      ScanOne(0, s, 0);
      PlainAdvance(s[0]);
      ScanIsVisible(s[1..]);
    } else if |s| == 1 {
      ScanOne(0, s, 0);
      EscapeAdvance();
      ScanNothing(1, s);
    } else {
      EscapeIsVisible(s);
    }
  }

  lemma {:induction false} EscapeIsVisible(s: seq<byte>)
    requires |s| > 1 && s[0] == ESC
    ensures Scan(0, s).1 == Visible(s)
    decreases |s|, 0
  {
    hide Scan, Visible, InString, FirstIn, StringEnd;
    ScanEscape(s);
    VisibleEscape(s);
    var body := s[2..];
    assert body[0..] == body;
    if s[1] == 0x5b {
      ScanCsi(body, 0);
      ScanBehind(body, FirstIn(body, 0x40, 0x7e, 0));
    } else if s[1] == 0x5d || IsStringStart(s[1]) {
      ScanString(body, s[1] == 0x5d, 0);
      ScanBehind(body, StringEnd(body, s[1] == 0x5d, 0));
    } else if 0x20 <= s[1] <= 0x2f {
      ScanIntermediate(body, 0);
      ScanBehind(body, FirstIn(body, 0x30, 0x7e, 0));
    } else {
      ScanIsVisible(body);
    }
  }

  /** The text that shows behind index `end` of the body, if the sequence ends there at all. */
  function Behind(body: seq<byte>, end: nat): seq<byte> {
    if end < |body| then Visible(body[end + 1..]) else []
  }

  lemma VisibleEscape(s: seq<byte>)
    requires |s| > 1 && s[0] == ESC
    ensures var body := s[2..];
            Visible(s) ==
            if s[1] == 0x5b then
              var end := FirstIn(body, 0x40, 0x7e, 0);
              (if end == |body| || KeepsText(body[end]) then [] else [BREAK]) + Behind(body, end)
            else if s[1] == 0x5d || IsStringStart(s[1]) then Behind(body, StringEnd(body, s[1] == 0x5d, 0))
            else if 0x20 <= s[1] <= 0x2f then Behind(body, FirstIn(body, 0x30, 0x7e, 0))
            else (if MovesCursor(s[1]) then [BREAK] else []) + Visible(body)
  {
    hide FirstIn, StringEnd, MovesCursor, KeepsText, IsStringStart;
    var body := s[2..];
    assert forall end: nat :: [] + Behind(body, end) == Behind(body, end);
  }

  lemma {:induction false} ScanBehind(body: seq<byte>, end: nat)
    requires end <= |body|
    ensures end < |body| ==> Scan(0, body[end + 1..]).1 == Visible(body[end + 1..]) == Behind(body, end)
    decreases |body|, 2
  {
    if end < |body| {
      ScanIsVisible(body[end + 1..]);
    }
  }

  lemma PlainAdvance(b: byte)
    requires b != ESC
    ensures Advance(0, b) == (0, Shown(b))
  {
  }

  lemma EscapeAdvance()
    ensures Advance(0, ESC) == (1, [])
  {
  }

  // ----- searching -----

  /** The needle ends the text after some nonempty part of the piece. */
  ghost predicate Hit(state: ScanState, text: seq<byte>, piece: seq<byte>, needle: seq<byte>) {
    exists k :: 0 < k <= |piece| && EndsWith(text + Scan(state, piece[..k]).1, needle)
  }

  /** After a piece, the needle has been seen in the text exactly if it had been
      seen before or there was a hit in the piece. */
  lemma {:induction false} HitIsContains(state: ScanState, text: seq<byte>, piece: seq<byte>, needle: seq<byte>)
    requires needle != []
    ensures Contains(text + Scan(state, piece).1, needle) <==> Contains(text, needle) || Hit(state, text, piece, needle)
    decreases |piece|
  {
    if piece == [] {
      assert text + [] == text;
      return;
    }
    var n := |piece|;
    var front, b := piece[..n - 1], piece[n - 1];
    assert piece == front + [b] && piece[..n] == piece;
    HitIsContains(state, text, front, needle);
    ScanSnoc(state, front, b);
    HitSnoc(state, text, front, b, needle);
    var shown := Advance(Scan(state, front).0, b).1;
    var before := text + Scan(state, front).1;
    assert text + Scan(state, piece).1 == before + shown;
    if shown == [] {
      assert before + shown == before;
      if EndsWith(before, needle) {
        assert ContainsAt(before, needle, |before| - |needle|);
      }
    } else {
      assert |shown| == 1 && shown == [shown[0]];
      ContainsSnoc(before, shown[0], needle);
    }
  }

  lemma HitSnoc(state: ScanState, text: seq<byte>, piece: seq<byte>, b: byte, needle: seq<byte>)
    ensures Hit(state, text, piece + [b], needle) <==>
            Hit(state, text, piece, needle) || EndsWith(text + Scan(state, piece + [b]).1, needle)
  {
    var more := piece + [b];
    assert forall k :: 0 <= k <= |piece| ==> more[..k] == piece[..k];
    assert more[..|more|] == more;
    if Hit(state, text, piece, needle) {
      var k :| 0 < k <= |piece| && EndsWith(text + Scan(state, piece[..k]).1, needle);
      assert more[..k] == piece[..k];
    }
  }

  lemma NothingScanned(state: ScanState, text: seq<byte>, needle: seq<byte>)
    ensures Scan(state, []) == (state, []) && !Hit(state, text, [], needle)
  {
  }

  class RawText {
    var state: ScanState
    var tail: seq<byte>

    /** All the text so far. */
    ghost var text: seq<byte>

    /** The bounded tail holds enough of the text for the needle. */
    ghost predicate Valid(needle: seq<byte>)
      reads this
    {
      tail == LastN(|needle| + 256, text)
    }

    constructor ()
      ensures state == 0 && text == [] && tail == []
    {
      state, tail, text := 0, [], [];
    }

    method Feed(bytes: seq<byte>, needle: seq<byte>) returns (matched: bool)
      requires Valid(needle)
      modifies this
      ensures Valid(needle)
      ensures state == Scan(old(state), bytes).0 && text == old(text) + Scan(old(state), bytes).1
      ensures matched <==> Hit(old(state), old(text), bytes, needle)
    {
      hide Scan, Advance, Hit;
      matched := false;
      NothingScanned(state, text, needle);
      assert text + [] == text && bytes[..0] == [];
      for i := 0 to |bytes|
        invariant Valid(needle)
        invariant (state, text) == (Scan(old(state), bytes[..i]).0, old(text) + Scan(old(state), bytes[..i]).1)
        invariant matched <==> Hit(old(state), old(text), bytes[..i], needle)
      {
        var b := bytes[i];
        assert bytes[..i + 1] == bytes[..i] + [b];
        ScanSnoc(old(state), bytes[..i], b);
        HitSnoc(old(state), old(text), bytes[..i], b, needle);
        TailSees(text, Advance(state, b).1, needle);
        assert (old(text) + Scan(old(state), bytes[..i]).1) + Advance(state, b).1
            == old(text) + (Scan(old(state), bytes[..i]).1 + Advance(state, b).1);
        Take(b);
        if |needle| <= |tail| && tail[|tail| - |needle|..] == needle {
          matched := true;
        }
        var limit := |needle| + 256;
        if |tail| > limit {
          tail := tail[|tail| - limit..];
        }
      }
      assert bytes[..|bytes|] == bytes;
    }

    /** The scanner's switch. */
    method Take(b: byte)
      modifies this
      ensures state == Advance(old(state), b).0
      ensures text == old(text) + Advance(old(state), b).1 && tail == old(tail) + Advance(old(state), b).1
    {
      match state
      case 0 =>
        if b == ESC {
          state := 1;
        } else if b == 0x0d || b == 0x0a || b == 0x08 || b == 0x09 {
          Add(BREAK);
        } else if !(b <= 0x1f || b == 0x7f) {
          Add(b);
        }
      case 1 =>
        if b == 0x5b {
          state := 2;
        } else if b == 0x5d {
          state := 3;
        } else if b == 0x50 || b == 0x58 || b == 0x5e || b == 0x5f {
          state := 4;
        } else if 0x20 <= b <= 0x2f {
          state := 6;
        } else {
          if b == 0x37 || b == 0x38 || b == 0x44 || b == 0x45 || b == 0x4d || b == 0x63 {
            Add(BREAK);
          }
          state := 0;
        }
      case 2 =>
        if 0x40 <= b <= 0x7e {
          if !(b == 0x6d || b == 0x68 || b == 0x6c) {
            Add(BREAK);
          }
          state := 0;
        }
      case 6 =>
        if 0x30 <= b <= 0x7e {
          state := 0;
        }
      case _ =>
        if state == 3 || state == 4 {
          if b == ESC {
            state := state + 4;
          } else if b == 7 && state == 3 {
            state := 0;
          }
        } else {
          assert state == 7 || state == 8;  // no other state is ever entered
          if b == 0x5c {
            state := 0;
          } else if b != ESC {
            state := state - 4;
          }
        }
    }

    method Add(b: byte)
      modifies `tail, `text
      ensures tail == old(tail) + [b] && text == old(text) + [b]
    {
      tail, text := tail + [b], text + [b];
    }
  }

  /** A tail longer than the needle ends with it exactly when the whole text does. */
  lemma TailSees(text: seq<byte>, more: seq<byte>, needle: seq<byte>)
    ensures EndsWith(LastN(|needle| + 256, text) + more, needle) <==> EndsWith(text + more, needle)
    ensures LastN(|needle| + 256, LastN(|needle| + 256, text) + more) == LastN(|needle| + 256, text + more)
  {
    var n := |needle| + 256;
    var whole := text + more;
    var d := if |text| <= n then 0 else |text| - n;
    assert LastN(n, text) + more == whole[d..];
    EndOfRest(whole, d, needle);
    LastNAppend(n, text, more);
  }

  lemma EndOfRest(s: seq<byte>, d: nat, needle: seq<byte>)
    requires d <= |s| && (d == 0 || |needle| <= |s| - d)
    ensures EndsWith(s[d..], needle) <==> EndsWith(s, needle)
  {
    assert |needle| <= |s| - d ==> s[d..][|s| - d - |needle|..] == s[|s| - |needle|..];
  }

  /** The raw-text half of the armed wait: however the stream is cut into frames, some
      feed hits if and only if the needle occurs in the visible text of the whole stream. */
  method Watch(chunks: seq<seq<byte>>, needle: seq<byte>) returns (matched: bool)
    requires needle != []
    ensures matched <==> Contains(Visible(Concat(chunks)), needle)
  {
    var raw := new RawText();
    matched := false;
    ghost var all: seq<byte> := [];
    assert !Contains<byte>([], needle);
    for i := 0 to |chunks|
      invariant all == Concat(chunks[..i])
      invariant raw.Valid(needle) && (raw.state, raw.text) == Scan(0, all)
      invariant matched <==> Contains(raw.text, needle)
    {
      assert chunks[..i + 1] == chunks[..i] + [chunks[i]];
      ConcatSnoc(chunks[..i], chunks[i]);
      ScanAppend(0, all, chunks[i]);
      HitIsContains(raw.state, raw.text, chunks[i], needle);
      var m := raw.Feed(chunks[i], needle);
      matched := matched || m;
      all := all + chunks[i];
    }
    assert chunks[..|chunks|] == chunks;
    ScanIsVisible(all);
  }
}
