/** How wide a message is, and when the hard length cuts it. */
module Widths {
  import opened Layout
  import Lists
  import Spilling
  import opened Text
  import opened Wrappers

  const NARROW := 1886
  const SHORT_INFO := 83

  // ------------------------------------------------------------------ the shape of a message

  function Front(open: Option<string>): string {
    match open
    case None => ""
    case Some(lang) => FENCE + lang + "\n"
  }

  function Back(items: seq<Item>, footer: string, open: Option<string>): string {
    CloserText(Opener(open) + Lines(items)) + FooterText(footer)
  }

  function Middle(items: seq<Item>): string {
    Join(Lines(items))
  }

  lemma {:induction false} MiddleWidth(items: seq<Item>)
    requires items != []
    ensures |Middle(items)| + 1 == Total(items)
  {
    TailCons(items, 0);
    assert items[0..] == items;
    if |items| > 1 {
      MiddleWidth(items[1..]);
      assert Lines(items)[1..] == Lines(items[1..]);
    } else {
      assert items[1..] == [];
    }
  }

  lemma MiddleEnds(u: seq<Item>, v: seq<Item>)
    requires v != []
    ensures Middle(u + v) == (if u == [] then "" else Middle(u) + "\n") + Middle(v)
  {
    assert Lines(u + v) == Lines(u) + Lines(v);
    if u == [] {
      assert u + v == v;
    } else {
      JoinConcat(Lines(u), Lines(v));
    }
  }

  lemma JoinOpener(lines: seq<string>, open: Option<string>)
    requires lines != []
    ensures Join(Opener(open) + lines) == Front(open) + Join(lines)
  {
    match open {
      case None =>
        assert Opener(open) + lines == lines;
        assert Front(open) + Join(lines) == Join(lines);
      case Some(lang) =>
        JoinConcat([FENCE + lang], lines);
        assert (FENCE + lang) + "\n" + Join(lines) == Front(open) + Join(lines);
    }
  }

  function CloserText(lines: seq<string>): string {
    if Fences(lines) % 2 == 1 then "\n" + FENCE else ""
  }

  lemma JoinCloser(lines: seq<string>)
    requires lines != []
    ensures Join(lines + Closer(lines)) == Join(lines) + CloserText(lines)
  {
    if Fences(lines) % 2 == 1 {
      JoinConcat(lines, [FENCE]);
      assert Join(lines) + "\n" + FENCE == Join(lines) + ("\n" + FENCE);
    } else {
      assert lines + Closer(lines) == lines;
    }
  }

  function FooterText(footer: string): string {
    if footer == "" then "" else "\n" + footer
  }

  lemma JoinFooter(lines: seq<string>, footer: string)
    requires lines != []
    ensures Join(if footer == "" then lines else lines + [footer]) == Join(lines) + FooterText(footer)
  {
    if footer != "" {
      JoinConcat(lines, [footer]);
      assert Join(lines) + "\n" + footer == Join(lines) + ("\n" + footer);
    }
  }

  /** A message is its items' lines between an inserted front and an inserted back. */
  lemma MessageShape(items: seq<Item>, footer: string, open: Option<string>)
    requires items != []
    ensures Full(items, footer, open) == Front(open) + Middle(items) + Back(items, footer, open)
  {
    var lines := Lines(items);
    JoinOpener(lines, open);
    JoinCloser(Opener(open) + lines);
    JoinFooter(BalanceFences(lines, open), footer);
    Lists.Assoc(Front(open) + Middle(items), CloserText(Opener(open) + lines), FooterText(footer));
  }

  lemma MessageWidth(items: seq<Item>, footer: string, open: Option<string>)
    requires items != []
    ensures |Full(items, footer, open)| + 1 ==
            |Front(open)| + Total(items) + |Back(items, footer, open)|
  {
    MessageShape(items, footer, open);
    MiddleWidth(items);
  }

  // ------------------------------------------------------------------ when nothing is cut

  /** Every fence of the narration carries an info string of at most 83 characters. */
  predicate ShortInfos(units: seq<Item>) {
    forall l | l in TextLines(units) :: IsFence(l) ==> |Info(l)| <= SHORT_INFO
  }

  /** The unit, frozen in a message of its own, is not cut. */
  predicate FitsAlone(units: seq<Item>, i: nat)
    requires i < |units|
  {
    |Full(units[i..i + 1], SPILL_FOOTER, OpenFence(units[..i]))| <= HARD_CAP
  }

  /** Every unit but the last, which is never frozen, fits a message of its own. */
  predicate Uncut(units: seq<Item>) {
    ShortInfos(units) && forall i | 0 <= i < |units| - 1 :: FitsAlone(units, i)
  }

  lemma {:induction false} FoldInfoIsShort(lines: seq<string>)
    requires forall l | l in lines :: IsFence(l) ==> |Info(l)| <= SHORT_INFO
    ensures FenceFold(None, lines).Some? ==> |FenceFold(None, lines).value| <= SHORT_INFO
  {
    if lines != [] {
      FoldInfoIsShort(lines[..|lines| - 1]);
    }
  }

  lemma OpenInfoIsShort(units: seq<Item>, base: nat)
    requires ShortInfos(units) && base <= |units|
    ensures |Front(OpenFence(units[..base]))| <= 4 + SHORT_INFO
  {
    Lists.FlatMapSplit(NarrationLines, units, base);
    FoldInfoIsShort(TextLines(units[..base]));
  }

  lemma BackWidth(items: seq<Item>, footer: string, open: Option<string>)
    ensures |Back(items, footer, open)| <= 4 + FooterWidth(footer)
  {
  }

  lemma WidthBound(units: seq<Item>, lo: nat, hi: nat, footer: string)
    requires ShortInfos(units) && lo < hi <= |units|
    ensures |Full(units[lo..hi], footer, OpenFence(units[..lo]))| <=
            7 + SHORT_INFO + Total(units[lo..hi]) + FooterWidth(footer)
  {
    OpenInfoIsShort(units, lo);
    BackWidth(units[lo..hi], footer, OpenFence(units[..lo]));
    MessageWidth(units[lo..hi], footer, OpenFence(units[..lo]));
  }

  lemma LineWithin(units: seq<Item>, lo: nat, hi: nat, i: nat)
    requires lo <= i < hi <= |units|
    ensures Total(units[i..i + 1]) <= Total(units[lo..hi])
  {
    LoneTotal(units, i);
    LoneTotal(units[lo..hi], i - lo);
    TotalPart(units[lo..hi], i - lo, i - lo + 1);
  }

  /** A unit of a part that fits with others is not cut on its own either. */
  lemma FittingFitsAlone(units: seq<Item>, lo: nat, hi: nat, i: nat, footer: string)
    requires ShortInfos(units) && lo <= i < hi <= |units| && Fits(units[lo..hi], footer)
    requires FooterWidth(footer) >= 2
    ensures FitsAlone(units, i)
  {
    WidthBound(units, i, i + 1, SPILL_FOOTER);
    LineWithin(units, lo, hi, i);
  }

  /** A packed interval is not cut if and only if none of its units would be on its own. */
  lemma PackedWholeIff(units: seq<Item>, lo: nat, hi: nat)
    requires ShortInfos(units) && lo < hi <= |units| && Spilling.Packed(units, lo, hi)
    ensures |Full(units[lo..hi], SPILL_FOOTER, OpenFence(units[..lo]))| <= HARD_CAP <==>
            forall i | lo <= i < hi :: FitsAlone(units, i)
  {
    if hi == lo + 1 {
      assert FitsAlone(units, lo) <==> |Full(units[lo..hi], SPILL_FOOTER, OpenFence(units[..lo]))| <= HARD_CAP;
    } else {
      WidthBound(units, lo, hi, SPILL_FOOTER);
      forall i | lo <= i < hi
        ensures FitsAlone(units, i)
      {
        FittingFitsAlone(units, lo, hi, i, SPILL_FOOTER);
      }
    }
  }

  /** A tail that fits under the done footer is not cut, nor would one of its units be. */
  lemma CapIsWhole(units: seq<Item>, base: nat)
    requires ShortInfos(units) && base < |units| && Fits(units[base..], DONE_FOOTER)
    ensures |Full(units[base..], "", OpenFence(units[..base]))| <= HARD_CAP
    ensures forall i | base <= i < |units| :: FitsAlone(units, i)
  {
    assert units[base..|units|] == units[base..];
    WidthBound(units, base, |units|, "");
    forall i | base <= i < |units|
      ensures FitsAlone(units, i)
    {
      FittingFitsAlone(units, base, |units|, i, DONE_FOOTER);
    }
  }

  /** Rendered units of at most 1886 characters are never cut, and the last one fits. */
  lemma NarrowIsUncut(units: seq<Item>)
    requires units != [] && ShortInfos(units) && forall i | 0 <= i < |units| :: |Line(units[i])| <= NARROW
    ensures Uncut(units) && Fits(units[|units| - 1..], DONE_FOOTER)
  {
    forall i | 0 <= i < |units|
      ensures Total(units[i..i + 1]) <= NARROW + 1 && FitsAlone(units, i)
    {
      LoneTotal(units, i);
      WidthBound(units, i, i + 1, SPILL_FOOTER);
    }
    var n := |units| - 1;
    assert units[n..] == units[n..n + 1];
  }
}
