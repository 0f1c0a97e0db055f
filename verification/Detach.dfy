/** The writer's detach keys: three commas and a `d`, however the keystrokes are read. */
module Detach {
  import opened Bytes

  const COMMA: byte := 0x2c
  const LETTER_D: byte := 0x64
  const PATTERN: seq<byte> := [COMMA, COMMA, COMMA, LETTER_D]

  /** Reads up to end of input, which shows as an empty read. */
  function Live(chunks: seq<seq<byte>>): seq<seq<byte>> {
    if chunks == [] || chunks[0] == [] then [] else [chunks[0]] + Live(chunks[1..])
  }

  function TrailingCommas(s: seq<byte>): nat {
    if s == [] || s[|s| - 1] != COMMA then 0 else 1 + TrailingCommas(s[..|s| - 1])
  }

  lemma {:induction false} TrailingAreCommas(s: seq<byte>, k: nat)
    ensures TrailingCommas(s) >= k <==> k <= |s| && forall i :: |s| - k <= i < |s| ==> s[i] == COMMA
    decreases |s|
  {
    if k > 0 && s != [] && s[|s| - 1] == COMMA {
      var front := s[..|s| - 1];
      TrailingAreCommas(front, k - 1);
      assert forall i :: 0 <= i < |front| ==> front[i] == s[i];
    }
  }

  /** The count is at least three and a `d` comes: the stream ends in the pattern. */
  lemma PatternEnds(s: seq<byte>, b: byte)
    ensures EndsWith(s + [b], [0x2c, 0x2c, 0x2c, 0x64]) <==> b == LETTER_D && TrailingCommas(s) >= 3
  {
    TrailingAreCommas(s, 3);
    var t := s + [b];
    if |t| >= 4 {
      var tail := t[|t| - 4..];
      assert tail[0] == s[|s| - 3] && tail[1] == s[|s| - 2] && tail[2] == s[|s| - 1] && tail[3] == b;
      assert tail == [tail[0], tail[1], tail[2], tail[3]];
    }
  }

  lemma {:induction false} LiveIsPrefix(chunks: seq<seq<byte>>)
    ensures Live(chunks) <= chunks && forall i :: 0 <= i < |Live(chunks)| ==> chunks[i] != []
    ensures |Live(chunks)| < |chunks| ==> chunks[|Live(chunks)|] == []
  {
    if chunks != [] && chunks[0] != [] {
      LiveIsPrefix(chunks[1..]);
    }
  }

  /** The writer's read loop. It detaches exactly when the keys typed so far
      contain the pattern, and has then forwarded exactly the reads before the
      one that completed it. */
  method WriterLoop(chunks: seq<seq<byte>>) returns (detached: bool, forwarded: seq<seq<byte>>)
    ensures detached <==> Contains(Concat(Live(chunks)), PATTERN)
    ensures forwarded <= Live(chunks) && !Contains(Concat(forwarded), PATTERN)
    ensures if detached
            then |forwarded| < |Live(chunks)| && Contains(Concat(Live(chunks)[..|forwarded| + 1]), PATTERN)
            else forwarded == Live(chunks)
  {
    hide Contains, TrailingCommas, Live;
    LiveIsPrefix(chunks);
    NothingTyped();
    ghost var live := Live(chunks);
    var commaCount := 0;
    detached, forwarded := false, [];
    ghost var all: seq<byte> := [];
    var i := 0;
    while i < |chunks|
      invariant 0 <= i <= |live| && forwarded == live[..i] && all == Concat(live[..i])
      invariant !detached && !Contains(all, PATTERN) && commaCount == TrailingCommas(all)
    {
      var data := chunks[i];
      if data == [] {
        break;
      }
      assert live[..i + 1] == live[..i] + [data];
      ConcatSnoc(live[..i], data);
      ghost var before := all;
      assert before + data[..0] == before;
      var j := 0;
      while j < |data|
        invariant 0 <= j <= |data| && all == before + data[..j]
        invariant !Contains(all, PATTERN) && commaCount == TrailingCommas(all)
      {
        OneMore(all, data[j]);
        assert data[..j + 1] == data[..j] + [data[j]];
        assert before + data[..j + 1] == all + [data[j]];
        if data[j] == COMMA {
          commaCount := commaCount + 1;
        } else if data[j] == LETTER_D && commaCount >= 3 {
          Completed(live, i, before, data, j);
          detached := true;
          return;
        } else {
          commaCount := 0;
        }
        all := all + [data[j]];
        j := j + 1;
      }
      assert data[..|data|] == data;
      forwarded := forwarded + [data];
      i := i + 1;
    }
    assert live[..|live|] == live;
  }

  /** One more key. */
  lemma OneMore(s: seq<byte>, b: byte)
    ensures Contains(s + [b], PATTERN) <==> Contains(s, PATTERN) || (b == LETTER_D && TrailingCommas(s) >= 3)
    ensures TrailingCommas(s + [b]) == if b == COMMA then TrailingCommas(s) + 1 else 0
  {
    hide Contains;
    PatternEnds(s, b);
    ContainsSnoc(s, b, PATTERN);
    assert (s + [b])[..|s|] == s;
  }

  lemma NothingTyped()
    ensures !Contains([], PATTERN) && TrailingCommas([]) == 0
  {
  }

  lemma Completed(live: seq<seq<byte>>, i: nat, before: seq<byte>, data: seq<byte>, j: nat)
    requires i < |live| && live[i] == data && before == Concat(live[..i]) && j < |data|
    requires Contains(before + data[..j + 1], PATTERN)
    ensures Contains(Concat(live[..i + 1]), PATTERN) && Contains(Concat(live), PATTERN)
  {
    hide Concat, Contains;
    assert live[..i + 1] == live[..i] + [data] && live == live[..i + 1] + live[i + 1..];
    ConcatSnoc(live[..i], data);
    ConcatAppend(live[..i + 1], live[i + 1..]);
    Widened(before + data[..j + 1], data[j + 1..]);
    assert before + data[..j + 1] + data[j + 1..] == before + data;
    Widened(before + data, Concat(live[i + 1..]));
  }

  lemma Widened(s: seq<byte>, more: seq<byte>)
    requires Contains(s, PATTERN)
    ensures Contains(s + more, PATTERN)
  {
    ContainsWiden([], s, more, PATTERN);
    assert [] + s + more == s + more;
  }
}
