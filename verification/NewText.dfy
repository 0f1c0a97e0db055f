/** Waiting for new text: every observation is searched twice, as raw output and as painted cells. */
module NewText {
  import opened Bytes
  import opened Painted
  import RawTexts

  function Outputs(looks: seq<Look>): seq<seq<byte>> {
    seq(|looks|, i requires 0 <= i < |looks| => looks[i].output)
  }

  /** The needle occurs in the visible text of the output, or some observation
      shows it in newly painted cells. */
  ghost predicate Seen(looks: seq<Look>, needle: seq<byte>, text: string) {
    Contains(RawTexts.Visible(Concat(Outputs(looks))), needle) || EverShown(looks, text)
  }

  /** What one more observation adds to the painted half. */
  lemma ShownNext(looks: seq<Look>, i: nat, text: string)
    requires i < |looks|
    ensures EverShown(looks[..i + 1], text) <==>
            || EverShown(looks[..i], text)
            || (!Rearms(Since(looks[..i]), looks[i]) && ScreenShows(looks[i].shadow, looks[i].live, text))
    ensures Since(looks[..i + 1]) ==
            if Rearms(Since(looks[..i]), looks[i]) then [] else Since(looks[..i]) + looks[i].output
  {
    hide Rearms, ScreenShows;
    var before, now := looks[..i], looks[..i + 1];
    assert now[..i] == before && now[i] == looks[i];
    forall k
      ensures ShownAt(now, k, text) <==>
              || ShownAt(before, k, text)
              || (k == i && !Rearms(Since(before), looks[i]) && ScreenShows(looks[i].shadow, looks[i].live, text))
    {
      if 0 <= k < i {
        assert now[..k] == before[..k];
      }
    }
    if !Rearms(Since(before), looks[i]) && ScreenShows(looks[i].shadow, looks[i].live, text) {
      assert ShownAt(now, i, text);
    }
  }

  /** A resize, a switch of screens and a restored cursor, even one whose two bytes came in
      different observations, start the painted half afresh: nothing is found then, and
      the output before counts no more. */
  lemma StartsAfresh(looks: seq<Look>, k: nat, text: string)
    requires k < |looks|
    requires looks[k].resized || looks[k].switched || Contains(Since(looks[..k]) + looks[k].output, [0x1b, 0x38])
    ensures !ShownAt(looks, k, text) && Since(looks[..k + 1]) == []
  {
    hide ScreenShows, Contains;
    assert looks[..k + 1][..k] == looks[..k];
  }

  /** Anything else goes on, and finds what the screen shows. */
  lemma GoesOn(looks: seq<Look>, k: nat, text: string)
    requires k < |looks|
    requires !looks[k].resized && !looks[k].switched && !Contains(Since(looks[..k]) + looks[k].output, [0x1b, 0x38])
    ensures ShownAt(looks, k, text) <==> ScreenShows(looks[k].shadow, looks[k].live, text)
    ensures Since(looks[..k + 1]) == Since(looks[..k]) + looks[k].output
  {
    hide ScreenShows, Contains;
    assert looks[..k + 1][..k] == looks[..k];
  }

  /** The match flag of the wait for new text, `needle` being the bytes of `text`. */
  method Watch(looks: seq<Look>, needle: seq<byte>, text: string) returns (matched: bool)
    requires needle != [] && forall i :: 0 <= i < |looks| ==> Fitting(looks[i])
    ensures matched <==> Seen(looks, needle, text)
  {
    hide EverShown, Fitting, Rearms, ScreenShows, RawTexts.Visible, Since;
    var raw := new RawTexts.RawText();
    var painted := new PaintedCells();
    matched := false;
    ghost var all: seq<byte> := [];
    NothingSeen(looks, needle, text);
    for i := 0 to |looks|
      invariant all == Concat(Outputs(looks[..i]))
      invariant raw.Valid(needle) && (raw.state, raw.text) == RawTexts.Scan(0, all)
      invariant painted.Valid() && painted.since == Since(looks[..i])
      invariant matched <==> Contains(raw.text, needle) || EverShown(looks[..i], text)
    {
      assert Outputs(looks[..i + 1]) == Outputs(looks[..i]) + [looks[i].output];
      ConcatSnoc(Outputs(looks[..i]), looks[i].output);
      RawTexts.ScanAppend(0, all, looks[i].output);
      RawTexts.HitIsContains(raw.state, raw.text, looks[i].output, needle);
      ShownNext(looks, i, text);
      var rawHit := raw.Feed(looks[i].output, needle);
      matched := matched || rawHit;
      var paintedHit := painted.Feed(looks[i], text);
      matched := matched || paintedHit;
      all := all + looks[i].output;
    }
    assert looks[..|looks|] == looks;
    RawTexts.ScanIsVisible(all);
  }

  lemma NothingSeen(looks: seq<Look>, needle: seq<byte>, text: string)
    requires needle != []
    ensures !Contains<byte>([], needle) && Outputs(looks[..0]) == [] && Since(looks[..0]) == []
    ensures !EverShown(looks[..0], text)
  {
  }
}
