/** Exactly when a covered turn survives the hard length cut. */
module WideLines {
  import Content
  import opened LayOut
  import opened Layout
  import Lists
  import opened Spilling
  import Text
  import opened Widths
  import opened Wrappers

  /** Every message shows its whole text. */
  predicate AllWhole(trace: seq<Op>, frozen: seq<Seal>, last: nat, units: seq<Item>, base: nat) {
    && (forall i | 0 <= i < |frozen| :: ShowsAll(trace, frozen[i], units))
    && Shows(trace, last) == Some(Full(From(units, base), "", OpenFence(Upto(units, base))))
  }

  predicate ShowsAll(trace: seq<Op>, f: Seal, units: seq<Item>) {
    Shows(trace, f.id) ==
    Some(Full(Interval(units, f.lo, f.hi), SPILL_FOOTER, OpenFence(Upto(units, f.lo))))
  }

  /** A frozen message shows all its text exactly when none of its units would be cut on its own. */
  lemma SealWholeIff(trace: seq<Op>, f: Seal, units: seq<Item>)
    requires ShortInfos(units) && IsFinal(trace, f) && Carries(trace, f, units) && f.lo < f.hi
    ensures ShowsAll(trace, f, units) <==> forall i | f.lo <= i < f.hi :: FitsAlone(units, i)
  {
    var full := Full(units[f.lo..f.hi], SPILL_FOOTER, OpenFence(units[..f.lo]));
    assert Shows(trace, f.id) == Some(Cut(full)) by {
      UntouchedStillShows(trace, f.at, f.id, SealBody(units, f.lo, f.hi));
    }
    assert ShowsAll(trace, f, units) <==> |full| <= HARD_CAP;
    PackedWholeIff(units, f.lo, f.hi);
  }

  lemma {:induction false} TileHolding(frozen: seq<Seal>, base: nat, i: nat) returns (k: nat)
    requires Tiles(frozen, base) && i < base
    ensures k < |frozen| && frozen[k].lo <= i < frozen[k].hi
  {
    TilesButLast(frozen, base);
    var n := |frozen| - 1;
    if frozen[n].lo <= i {
      k := n;
    } else {
      k := TileHolding(frozen[..n], frozen[n].lo, i);
    }
  }

  lemma SealsWholeIff(trace: seq<Op>, frozen: seq<Seal>, units: seq<Item>, base: nat)
    requires ShortInfos(units) && base <= |units| && Tiles(frozen, base)
    requires forall k | 0 <= k < |frozen| :: IsFinal(trace, frozen[k]) && Carries(trace, frozen[k], units)
    ensures (forall k | 0 <= k < |frozen| :: ShowsAll(trace, frozen[k], units)) <==>
            (forall i | 0 <= i < base :: FitsAlone(units, i))
  {
    if forall k | 0 <= k < |frozen| :: ShowsAll(trace, frozen[k], units) {
      forall i | 0 <= i < base
        ensures FitsAlone(units, i)
      {
        var k := TileHolding(frozen, base, i);
        SealWholeIff(trace, frozen[k], units);
      }
    }
    if forall i | 0 <= i < base :: FitsAlone(units, i) {
      forall k | 0 <= k < |frozen|
        ensures ShowsAll(trace, frozen[k], units)
      {
        Content.TileBelow(frozen, base, k);
        SealWholeIff(trace, frozen[k], units);
      }
    }
  }

  /** A turn that lay_out reports as covered is shown whole, on every message, if and only if none of its units
      but possibly the last would be cut in a message of its own. */
  lemma CoveredIsWholeIffUncut(s: Sys, units: seq<Item>, ok: Oracle)
    requires Ready(s, units) && s.state.base < |units| && ShortInfos(units)
    requires Laid(s, units, ok).1
    ensures var t := Laid(s, units, ok).0;
            t.state.mid.Some? &&
            (AllWhole(t.trace, t.frozen, t.state.mid.value, units, t.state.base) <==> Uncut(units))
  {
    LaidFacts(s, units, ok);
    var t := Laid(s, units, ok).0;
    CapIsWhole(units, t.state.base);
    forall k | 0 <= k < |t.frozen|
      ensures IsFinal(t.trace, t.frozen[k]) && Carries(t.trace, t.frozen[k], units)
    {
    }
    SealsWholeIff(t.trace, t.frozen, units, t.state.base);
  }

  // ------------------------------------------------------------------ a line that is cut

  lemma WideHasShortInfos(wide: string)
    requires |wide| > 0 && wide[0] == 'x' && '\n' !in wide
    ensures ShortInfos([Item(Narration, wide), Item(Narration, "y")])
  {
    var a, b := Item(Narration, wide), Item(Narration, "y");
    assert Text.LStrip(wide) == wide && Text.LStrip("y") == "y";
    Text.SplitLine(wide);
    Text.SplitLine("y");
    Lists.FlatMapConcat(NarrationLines, [a], [b]);
    Lists.FlatMapOne(NarrationLines, a);
    Lists.FlatMapOne(NarrationLines, b);
    assert [a, b] == [a] + [b];
    assert TextLines([a, b]) == [wide, "y"];
  }

  lemma ShortTailFits(wide: string)
    ensures Fits([Item(Narration, wide), Item(Narration, "y")][1..], DONE_FOOTER)
  {
    var units := [Item(Narration, wide), Item(Narration, "y")];
    assert units[1..] == units[1..2];
    LoneTotal(units, 1);
  }

  lemma WideDoesNotFitAlone(units: seq<Item>)
    requires units != [] && units[0].kind.Narration? && |units[0].text| > 1988
    ensures !FitsAlone(units, 0)
  {
    LoneTotal(units, 0);
    MessageWidth(units[0..1], SPILL_FOOTER, OpenFence(units[..0]));
  }

  /** Two lines, the first 1989 wide: lay_out reports success although the first was cut. */
  lemma WideLineIsCut()
    ensures var units := [Item(Narration, seq(1989, _ => 'x')), Item(Narration, "y")];
            var (t, covered) := Laid(Sys(FRESH, None, [], []), units, _ => true);
            covered && t.state.mid.Some? &&
            !AllWhole(t.trace, t.frozen, t.state.mid.value, units, t.state.base)
  {
    var wide := seq(1989, _ => 'x');
    ShortTailFits(wide);
    WideHasShortInfos(wide);
    WideIsCut([Item(Narration, wide), Item(Narration, "y")], _ => true);
  }

  lemma WideIsCut(units: seq<Item>, ok: Oracle)
    requires |units| == 2 && ShortInfos(units) && units[0].kind.Narration? && |units[0].text| > 1988
    requires Fits(units[1..], DONE_FOOTER) && forall i :: ok(i)
    ensures var (t, covered) := Laid(Sys(FRESH, None, [], []), units, ok);
            covered && t.state.mid.Some? &&
            !AllWhole(t.trace, t.frozen, t.state.mid.value, units, t.state.base)
  {
    var s := Sys(FRESH, None, [], []);
    CoversIffLastUnitFits(s, units, ok);
    NothingIsReady(units);
    CoveredIsWholeIffUncut(s, units, ok);
    WideIsNotUncut(units);
  }

  lemma NothingIsReady(units: seq<Item>)
    ensures Ready(Sys(FRESH, None, [], []), units)
  {
  }

  lemma WideIsNotUncut(units: seq<Item>)
    requires |units| == 2 && units[0].kind.Narration? && |units[0].text| > 1988
    ensures !Uncut(units)
  {
    WideDoesNotFitAlone(units);
  }
}
