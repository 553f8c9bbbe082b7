/** A narration that is streamed, sealed in part, committed and capped: what a reader then gets. */
module Streamed {
  import Answer
  import Blanks
  import Content
  import Following
  import LayOut
  import opened Layout
  import Lists
  import opened LostDeltas
  import Overlap
  import opened Progress
  import opened Spilling
  import Stop
  import opened Streaming
  import opened Text
  import opened Transcript
  import opened UnitStability
  import opened Widths
  import opened Wrappers

  predicate OneTurn(events: seq<Event>, turn: seq<Row>) {
    forall i | 0 <= i < |events| :: events[i].turn == turn
  }

  /** The narration as it is stored. */
  function StoredText(s: Sys, m: Option<string>): string {
    Strip(Deltas(Buffer(s, m)))
  }

  /** The units held, with the stored narration behind them. */
  function Behind(units: seq<Item>, s: Sys, m: Option<string>): seq<Item> {
    units + LiveUnits(StoredText(s, m))
  }

  // ------------------------------------------------------------------ while it streams

  /** The frozen messages hold the turn's units as they were sealed and the stored narration. */
  ghost predicate Sound(s: Sys, m: Option<string>, held: seq<Item>, units: seq<Item>) {
    && Content.Holds(s, Behind(held, s, m), Behind(units, s, m))
    && Content.HoldsLast(s, Behind(units, s, m))
  }

  lemma TextEvolves(units: seq<Item>, text: string, grown: string)
    requires text <= grown
    ensures Content.Evolved(units + LiveUnits(text), units + LiveUnits(grown))
  {
    if text == "" {
      Following.AppendedEvolves(units, units, LiveUnits(grown));
      assert units + LiveUnits(text) == units;
    } else {
      Following.GrownEvolves(units, units, text, grown, []);
      assert LiveUnits(grown) + [] == LiveUnits(grown);
    }
  }

  lemma LiveIsNarration(text: string)
    ensures forall x | x in LiveUnits(text) :: x.kind.Narration?
  {
    if text != "" {
      UnitsOfOne(Item(Narration, text));
    }
  }

  /** Completed lines of a growing text, sealed, are those of the grown one. */
  lemma UpdatedIs(held: seq<Item>, units: seq<Item>, text: string, grown: string, base: nat)
    requires Content.Recalls(held + LiveUnits(text), units + LiveUnits(text), base)
    requires Content.SlotsStay(units + LiveUnits(text), units + LiveUnits(grown), base)
    ensures base <= |held + LiveUnits(text)|
    ensures Content.Updated(held + LiveUnits(text), units + LiveUnits(grown), base) == held + LiveUnits(grown)
  {
    LiveIsNarration(text);
    var a, b, was, now := held + LiveUnits(text), units + LiveUnits(text), LiveUnits(text), LiveUnits(grown);
    var updated := Content.Updated(a, units + now, base);
    forall i | 0 <= i < |updated|
      ensures updated[i] == (held + now)[i]
    {
      if i < base {
        if i >= |held| {
          assert b[..base][i] == was[i - |held|] && (units + now)[..base][i] == now[i - |held|];
        }
      } else if i < |held| {
        assert a[base..][i - base] == b[base..][i - base];
      }
    }
  }

  predicate Below(s: Sys, m: Option<string>, i: int) {
    forall k | k in Buffer(s, m) :: k < i
  }

  predicate Streamed(s: Sys, m: Option<string>, i: nat, ev: Event) {
    && ev.isDisplay && ev.messageId == m && ev.delta.Some? && ev.index == i
    && !Finalized(s, ev.turn) && NextLive(s, ev).0.Some? && Below(s, m, i)
  }

  lemma StreamStep(s: Sys, m: Option<string>, i: nat, ev: Event, ok: Oracle, held: seq<Item>)
    requires Streamed(s, m, i, ev) && Sound(s, m, held, TurnUnits(ev.turn))
    ensures Sound(Step(s, ev, ok), m, held, TurnUnits(ev.turn))
  {
    var units, text, base, t := TurnUnits(ev.turn), StoredText(s, m), Stored(s).base, Step(s, ev, ok);
    var grown := Strip(Deltas(Buffer(s, m)) + ev.delta.value);
    NextDelta(Buffer(s, m), i, ev.delta.value);
    StripGrows(Deltas(Buffer(s, m)), ev.delta.value);
    assert Show(s, ev) == units + LiveUnits(grown);
    TextEvolves(units, text, grown);
    Content.EvolvedStays(units + LiveUnits(text), Show(s, ev), base);
    UpdatedIs(held, units, text, grown, base);
    Content.StepHolds(s, Behind(units, s, m), Behind(held, s, m), ev, ok);
    Content.StepHoldsLast(s, ev, ok);
    StepBuffer(s, m, i, ev, ok);
    if !Stores(s, ev, ok) {
      DeltaIsStoredIff(s, ev, ok);
      StaysBehind(s, t, held, units, text, grown);
    }
  }

  /** A step that stores nothing leaves what is held. */
  lemma StaysBehind(s: Sys, t: Sys, held: seq<Item>, units: seq<Item>, text: string, grown: string)
    requires Content.Holds(s, held + LiveUnits(text), units + LiveUnits(text))
    requires Content.Holds(t, held + LiveUnits(grown), units + LiveUnits(grown)) && t.store == s.store
    requires Content.SlotsStay(units + LiveUnits(text), units + LiveUnits(grown), Stored(s).base)
    ensures Content.Holds(t, held + LiveUnits(text), units + LiveUnits(text))
  {
    var base := Stored(s).base;
    UpdatedIs(held, units, text, grown, base);
    assert (held + LiveUnits(grown))[..base] == (held + LiveUnits(text))[..base];
    Content.FaithfulTransfers(t.trace, t.frozen, base, held + LiveUnits(grown), held + LiveUnits(text));
  }

  lemma StepBelow(s: Sys, m: Option<string>, i: nat, ev: Event, ok: Oracle)
    requires Streamed(s, m, i, ev)
    ensures Below(Step(s, ev, ok), m, i + 1)
  {
    StepBuffer(s, m, i, ev, ok);
  }

  /** So it is through a whole stream, whichever deltas were stored. */
  lemma {:induction false} StreamHolds(s: Sys, m: Option<string>, i: nat, events: seq<Event>, ok: Oracle,
                                       held: seq<Item>, turn: seq<Row>)
    requires Streams(s, m, i, events, ok) && OneTurn(events, turn) && Below(s, m, i)
    requires Sound(s, m, held, TurnUnits(turn))
    ensures Sound(RunAll(s, events, ok), m, held, TurnUnits(turn))
    decreases |events|
  {
    if events != [] {
      var ev := events[0];
      StreamStep(s, m, i, ev, ok, held);
      StepBelow(s, m, i, ev, ok);
      StreamHolds(Step(s, ev, ok), m, i + 1, events[1..], ok, held, turn);
    }
  }

  // ------------------------------------------------------------------ reading messages sealed from two lists

  /** The pieces, joined, are the items' lines. */
  predicate Spells(pieces: seq<string>, items: seq<Item>) {
    if items == [] then pieces == [] else pieces != [] && Join(pieces) == Middle(items)
  }

  lemma SpellsConcat(p: seq<string>, u: seq<Item>, q: seq<string>, v: seq<Item>)
    requires Spells(p, u) && Spells(q, v)
    ensures Spells(p + q, u + v)
  {
    if u == [] {
      assert p + q == q && u + v == v;
    } else if v == [] {
      assert p + q == p && u + v == u;
    } else {
      JoinConcat(p, q);
      MiddleEnds(u, v);
    }
  }

  /** Consecutive non-empty intervals from lo to hi. */
  predicate TilesFrom(frozen: seq<Seal>, lo: nat, hi: nat) {
    && (frozen == [] ==> lo == hi)
    && (frozen != [] ==> frozen[0].lo == lo && frozen[|frozen| - 1].hi == hi)
    && (forall i | 0 <= i < |frozen| :: frozen[i].lo < frozen[i].hi)
    && (forall i | 0 <= i < |frozen| - 1 :: frozen[i].hi == frozen[i + 1].lo)
  }

  lemma TilesFromButLast(frozen: seq<Seal>, lo: nat, hi: nat)
    requires TilesFrom(frozen, lo, hi) && frozen != []
    ensures var n := |frozen| - 1;
            TilesFrom(frozen[..n], lo, frozen[n].lo) && frozen[n].lo < frozen[n].hi == hi
  {
  }

  lemma {:induction false} TilesFromAscend(frozen: seq<Seal>, lo: nat, hi: nat)
    requires TilesFrom(frozen, lo, hi)
    ensures lo <= hi
  {
    if frozen != [] {
      TilesFromButLast(frozen, lo, hi);
      TilesFromAscend(frozen[..|frozen| - 1], lo, frozen[|frozen| - 1].lo);
    }
  }

  lemma PieceSpells(trace: seq<Op>, f: Seal, units: seq<Item>)
    requires IsFinal(trace, f) && Carries(trace, f, units) && f.lo < f.hi < |units| && Uncut(units)
    ensures Spells([LayOut.SealedPiece(trace, f, units)], units[f.lo..f.hi])
  {
    LayOut.SealedPieceIsItsLines(trace, f, units);
  }

  lemma SpellsOn(p: seq<string>, q: seq<string>, units: seq<Item>, lo: nat, mid: nat, hi: nat)
    requires lo <= mid <= hi <= |units| && Spells(p, units[lo..mid]) && Spells(q, units[mid..hi])
    ensures Spells(p + q, units[lo..hi])
  {
    SpellsConcat(p, units[lo..mid], q, units[mid..hi]);
    assert units[lo..mid] + units[mid..hi] == units[lo..hi];
  }

  lemma OneMoreSpells(trace: seq<Op>, f: Seal, units: seq<Item>, pieces: seq<string>, lo: nat)
    requires IsFinal(trace, f) && Carries(trace, f, units) && lo <= f.lo < f.hi < |units| && Uncut(units)
    requires Spells(pieces, units[lo..f.lo])
    ensures Spells(pieces + [LayOut.SealedPiece(trace, f, units)], units[lo..f.hi])
  {
    PieceSpells(trace, f, units);
    SpellsOn(pieces, [LayOut.SealedPiece(trace, f, units)], units, lo, f.lo, f.hi);
  }

  lemma {:induction false} PiecesSpell(trace: seq<Op>, frozen: seq<Seal>, lo: nat, hi: nat, units: seq<Item>)
    requires TilesFrom(frozen, lo, hi) && (frozen != [] ==> hi < |units|) && Uncut(units)
    requires forall i | 0 <= i < |frozen| :: Carries(trace, frozen[i], units) && IsFinal(trace, frozen[i])
    ensures lo <= hi && (hi <= |units| ==> Spells(LayOut.SealedPieces(trace, frozen, units), units[lo..hi]))
  {
    if frozen != [] {
      var n := |frozen| - 1;
      var f := frozen[n];
      TilesFromButLast(frozen, lo, hi);
      PiecesSpell(trace, frozen[..n], lo, f.lo, units);
      OneMoreSpells(trace, f, units, LayOut.SealedPieces(trace, frozen[..n], units), lo);
    }
  }

  // ------------------------------------------------------------------ capping over what was sealed before

  /** What sealing adds holds the units it was given, whatever earlier messages hold. */
  lemma {:induction false} SpillAddsFaithful(s: Sys, n: nat, show: seq<Item>, base: nat, mid: Option<nat>,
                                             footer: string, ok: Oracle)
    requires n <= |s.frozen| && Faithful(s.trace, s.frozen[n..], show)
    ensures var r := SpillFrom(s, show, base, mid, footer, ok);
            n <= |r.sys.frozen| && Faithful(r.sys.trace, r.sys.frozen[n..], show)
    decreases if base <= |show| then |show| - base else 0
  {
    if NeedsSeal(show, base, footer) {
      if ok(|s.trace|) {
        var t := SealOnce(s, show, base, mid, ok);
        var op, seal := SealOnceFacts(s, show, base, mid, ok);
        SealAddsFaithful(s, n, show, base, mid, ok);
        SpillAddsFaithful(t.sys, n, show, t.base, None, footer, ok);
      } else {
        var op := SealFailedFacts(s, show, base, mid, ok);
        CallKeepsFaithful(s.trace, op, s.frozen[n..], show);
      }
    }
  }

  lemma SealAddsFaithful(s: Sys, n: nat, show: seq<Item>, base: nat, mid: Option<nat>, ok: Oracle)
    requires n <= |s.frozen| && Faithful(s.trace, s.frozen[n..], show) && base + 1 < |show| && ok(|s.trace|)
    ensures var t := SealOnce(s, show, base, mid, ok);
            n <= |t.sys.frozen| && Faithful(t.sys.trace, t.sys.frozen[n..], show)
  {
    var k := NextSealIs(show, base);
    SealedWithFacts(s, base, NextSeal(show, base), mid, ok);
    SealKeepsFaithful(s.trace, s.frozen[n..], base, k, mid, show);
    var seal := Seal(mid.GetOr(|s.trace|), |s.trace|, base, base + k);
    assert (s.frozen + [seal])[n..] == s.frozen[n..] + [seal];
  }

  lemma LaterKeepsFaithful(trace: seq<Op>, later: seq<Op>, frozen: seq<Seal>, show: seq<Item>)
    requires Faithful(trace, frozen, show) && trace <= later
    ensures Faithful(later, frozen, show)
  {
    forall i | 0 <= i < |frozen|
      ensures Carries(later, frozen[i], show)
    {
      assert Carries(trace, frozen[i], show);
    }
  }

  /** The boundary and content of a turn about to be capped, whose frozen messages were sealed from other units. */
  ghost predicate Primed(s: Sys, seen: seq<Item>, units: seq<Item>) {
    && Anchored(s.trace, s.frozen, s.state.base, s.state.mid) && Faithful(s.trace, s.frozen, seen)
    && s.state.base < |units| && s.state.base <= |seen| && (s.state.base > 0 ==> s.state.base < |seen|)
    && Uncut(seen) && Uncut(units)
  }

  lemma TilesAre(frozen: seq<Seal>, n: nat, lo: nat, hi: nat)
    requires n <= |frozen| && Tiles(frozen[..n], lo) && Tiles(frozen, hi)
    ensures TilesFrom(frozen[..n], 0, lo) && TilesFrom(frozen[n..], lo, hi)
    ensures frozen[..n] != [] ==> lo > 0
  {
    if n > 0 {
      assert frozen[..n][n - 1] == frozen[n - 1];
    }
  }

  /** What a reader gets: the frozen messages with what was inserted into them as they were sealed erased, and the
      cap. */
  function ReadAcross(t: Sys, n: nat, seen: seq<Item>, units: seq<Item>): string
    requires n <= |t.frozen|
  {
    Join(LayOut.SealedPieces(t.trace, t.frozen[..n], seen) + LayOut.SealedPieces(t.trace, t.frozen[n..], units) +
         [LayOut.CapPiece(t.trace, t.state.mid.GetOr(0), units, t.state.base)])
  }

  lemma CapShows(r: Sys, units: seq<Item>, ok: Oracle)
    requires r.state.base < |units| && ShortInfos(units) && Fits(units[r.state.base..], DONE_FOOTER)
    requires ok(|r.trace|)
    ensures var t := LayOut.Capped(r, LayOut.CapBody(units, r.state.base), ok).0;
            t.state.mid.Some? && t.state.base == r.state.base && t.frozen == r.frozen && r.trace <= t.trace &&
            Spells([LayOut.CapPiece(t.trace, t.state.mid.value, units, t.state.base)], units[t.state.base..])
  {
    var base, n := r.state.base, |r.trace|;
    RenderDropsNothingIffFits(units[base..], "", OpenFence(units[..base]));
    var body := LayOut.CapBody(units, base);
    var t := LayOut.Capped(r, body, ok).0;
    LayOut.OpShows(r.trace, CallFor(r.state.mid, body, true), r.state.mid.GetOr(n), body);
    LayOut.CapPieceIsItsLines(t.trace, t.state.mid.value, units, base);
  }

  /** The frozen messages after a cap: the first n hold what they held, the others the units given to it. */
  ghost predicate Parted(t: Sys, n: nat, lo: nat, seen: seq<Item>, units: seq<Item>) {
    && n <= |t.frozen| && (n > 0 ==> lo < |seen|) && t.state.base < |units|
    && TilesFrom(t.frozen[..n], 0, lo) && TilesFrom(t.frozen[n..], lo, t.state.base)
    && Faithful(t.trace, t.frozen[..n], seen) && Faithful(t.trace, t.frozen[n..], units)
    && forall i | 0 <= i < |t.frozen| :: IsFinal(t.trace, t.frozen[i])
  }

  lemma SealedParts(s: Sys, seen: seq<Item>, units: seq<Item>, ok: Oracle)
    requires Primed(s, seen, units)
    ensures var r, n := LayOut.SealedForCap(s, units, ok), |s.frozen|;
            && s.trace <= r.trace && s.frozen <= r.frozen && r.state.base < |units| && Tiles(r.frozen, r.state.base)
            && Faithful(r.trace, r.frozen[n..], units)
  {
    var base, n := s.state.base, |s.frozen|;
    SpillKeepsAnchored(s, units, base, s.state.mid, DONE_FOOTER, ok);
    SpillAddsFaithful(s, n, units, base, s.state.mid, DONE_FOOTER, ok);
    SpillOnlyAdds(s, units, base, s.state.mid, DONE_FOOTER, ok);
  }

  lemma CoveredIs(s: Sys, units: seq<Item>, ok: Oracle)
    requires LayOut.Laid(s, units, ok).1
    ensures var r, t := LayOut.SealedForCap(s, units, ok), LayOut.Laid(s, units, ok).0;
            t.frozen == r.frozen && t.state.base == r.state.base && r.trace <= t.trace
  {
  }

  lemma CapParts(s: Sys, seen: seq<Item>, units: seq<Item>, ok: Oracle)
    requires Primed(s, seen, units) && LayOut.Laid(s, units, ok).1
    ensures Parted(LayOut.Laid(s, units, ok).0, |s.frozen|, s.state.base, seen, units)
  {
    SealedParts(s, seen, units, ok);
    CoveredIs(s, units, ok);
    Overlap.LaidKeepsSettled(s, units, ok);
    PartsLater(s, LayOut.SealedForCap(s, units, ok), LayOut.Laid(s, units, ok).0, seen, units);
  }

  lemma PartsLater(s: Sys, r: Sys, t: Sys, seen: seq<Item>, units: seq<Item>)
    requires Primed(s, seen, units) && s.trace <= r.trace <= t.trace && s.frozen <= r.frozen == t.frozen
    requires t.state.base == r.state.base < |units| && Tiles(r.frozen, r.state.base)
    requires Faithful(r.trace, r.frozen[|s.frozen|..], units) && Settled(t.trace, t.frozen, t.state.mid)
    ensures Parted(t, |s.frozen|, s.state.base, seen, units)
  {
    var n := |s.frozen|;
    assert t.frozen[..n] == s.frozen;
    TilesAre(t.frozen, n, s.state.base, t.state.base);
    LaterKeepsFaithful(s.trace, t.trace, t.frozen[..n], seen);
    LaterKeepsFaithful(r.trace, t.trace, t.frozen[n..], units);
  }

  lemma CapEnds(s: Sys, seen: seq<Item>, units: seq<Item>, ok: Oracle)
    requires Primed(s, seen, units) && LayOut.Laid(s, units, ok).1
    ensures var t := LayOut.Laid(s, units, ok).0;
            t.state.mid.Some? && t.state.base < |units| &&
            Spells([LayOut.CapPiece(t.trace, t.state.mid.value, units, t.state.base)], units[t.state.base..])
  {
    SpillOnlyAdds(s, units, s.state.base, s.state.mid, DONE_FOOTER, ok);
    CapShows(LayOut.SealedForCap(s, units, ok), units, ok);
  }

  lemma OldPartSpells(t: Sys, n: nat, lo: nat, seen: seq<Item>, units: seq<Item>)
    requires Parted(t, n, lo, seen, units) && lo <= |seen| && Uncut(seen)
    ensures Spells(LayOut.SealedPieces(t.trace, t.frozen[..n], seen), seen[..lo])
  {
    PiecesSpell(t.trace, t.frozen[..n], 0, lo, seen);
    assert seen[0..lo] == seen[..lo];
  }

  lemma NewPartSpells(t: Sys, n: nat, lo: nat, seen: seq<Item>, units: seq<Item>)
    requires Parted(t, n, lo, seen, units) && Uncut(units)
    ensures lo <= t.state.base
    ensures Spells(LayOut.SealedPieces(t.trace, t.frozen[n..], units), units[lo..t.state.base])
  {
    PiecesSpell(t.trace, t.frozen[n..], lo, t.state.base, units);
  }

  /** A cap that goes through leaves the units as they were sealed before it, and from there on as they are. */
  lemma CapReads(s: Sys, seen: seq<Item>, units: seq<Item>, ok: Oracle)
    requires Primed(s, seen, units) && LayOut.Laid(s, units, ok).1
    ensures var t, n := LayOut.Laid(s, units, ok).0, |s.frozen|;
            && n <= |t.frozen| && t.state.mid.Some?
            && ReadAcross(t, n, seen, units) == Middle(seen[..s.state.base] + units[s.state.base..])
  {
    var base, n, t := s.state.base, |s.frozen|, LayOut.Laid(s, units, ok).0;
    CapParts(s, seen, units, ok);
    CapEnds(s, seen, units, ok);
    OldPartSpells(t, n, base, seen, units);
    NewPartSpells(t, n, base, seen, units);
    ThreeSpell(LayOut.SealedPieces(t.trace, t.frozen[..n], seen), LayOut.SealedPieces(t.trace, t.frozen[n..], units),
               LayOut.CapPiece(t.trace, t.state.mid.value, units, t.state.base), seen[..base], units, base,
               t.state.base);
  }

  lemma ThreeSpell(p: seq<string>, q: seq<string>, cap: string, front: seq<Item>, units: seq<Item>, lo: nat, hi: nat)
    requires lo <= hi < |units|
    requires Spells(p, front) && Spells(q, units[lo..hi]) && Spells([cap], units[hi..])
    ensures Join(p + q + [cap]) == Middle(front + units[lo..])
  {
    assert units[hi..|units|] == units[hi..] && units[lo..|units|] == units[lo..];
    SpellsOn(q, [cap], units, lo, hi, |units|);
    SpellsConcat(p, front, q + [cap], units[lo..]);
    Lists.Assoc(p, q, [cap]);
  }

  // ------------------------------------------------------------------ the turn, read

  predicate OneLiners(items: seq<Item>) {
    forall i | 0 <= i < |items| :: items[i].kind.Narration? && '\n' !in items[i].text
  }

  lemma LiveUnitsAre(text: string)
    ensures OneLiners(LiveUnits(text)) && |LiveUnits(text)| == if text == "" then 0 else |Split(text)|
  {
    if text != "" {
      UnitsOfOne(Item(Narration, text));
      SplitYieldsLines(text);
    }
  }

  lemma MiddleIsInjective(p: seq<Item>, v: seq<Item>)
    requires OneLiners(p) && OneLiners(v) && p != [] && v != [] && Middle(p) == Middle(v)
    ensures p == v
  {
    SplitOfJoin(Lines(p));
    SplitOfJoin(Lines(v));
    SplitAllLines(Lines(p));
    SplitAllLines(Lines(v));
    forall i | 0 <= i < |p|
      ensures p[i] == v[i]
    {
      assert Lines(p)[i] == Lines(v)[i];
    }
    assert |Lines(p)| == |Lines(v)|;
  }

  /** Behind the same units, different lines are a different text. */
  lemma SameTextIff(held: seq<Item>, p: seq<Item>, v: seq<Item>)
    requires OneLiners(p) && OneLiners(v) && p != [] && v != []
    ensures Middle(held + p) == Middle(held + v) <==> p == v
  {
    MiddleEnds(held, p);
    MiddleEnds(held, v);
    var front := if held == [] then "" else Middle(held) + "\n";
    if Middle(held + p) == Middle(held + v) {
      assert (front + Middle(p))[|front|..] == Middle(p) && (front + Middle(v))[|front|..] == Middle(v);
      MiddleIsInjective(p, v);
    }
  }

  /** No line of the narration was frozen while it streamed, or the frozen ones are those that were committed. */
  predicate SealedAsCommitted(base: nat, n: nat, stored: seq<Item>, committed: seq<Item>) {
    base <= n || (base - n <= |stored| && base - n <= |committed| && stored[..base - n] == committed[..base - n])
  }

  lemma AcrossIff(held: seq<Item>, units: seq<Item>, stored: seq<Item>, committed: seq<Item>, base: nat)
    requires Content.Recalls(held + stored, units + stored, base) && |held| == |units|
    requires OneLiners(stored) && OneLiners(committed) && committed != [] && base < |units + committed|
    ensures base <= |held + stored|
    ensures Middle((held + stored)[..base] + (units + committed)[base..]) == Middle(held + committed) <==>
            SealedAsCommitted(base, |units|, stored, committed)
  {
    var n, across := |units|, (held + stored)[..base] + (units + committed)[base..];
    if base <= n {
      forall i | 0 <= i < |across|
        ensures across[i] == (held + committed)[i]
      {
        if base <= i < n {
          assert (held + stored)[base..][i - base] == (units + stored)[base..][i - base];
        }
      }
      assert across == held + committed;
    } else {
      var k := base - n;
      assert across == held + (stored[..k] + committed[k..]);
      SameTextIff(held, stored[..k] + committed[k..], committed);
      SplicedIff(stored, committed, k);
    }
  }

  lemma SplicedIff(stored: seq<Item>, committed: seq<Item>, k: nat)
    requires k <= |stored| && k <= |committed|
    ensures stored[..k] + committed[k..] == committed <==> stored[..k] == committed[..k]
  {
    var spliced := stored[..k] + committed[k..];
    assert spliced[..k] == stored[..k];
    if stored[..k] == committed[..k] {
      assert committed[..k] + committed[k..] == committed;
    }
  }

  // ------------------------------------------------------------------ from the first delta to the tombstone

  /** What is stored of the narration after the run, and what is committed. */
  function StoredLines(s: Sys, events: seq<Event>, ok: Oracle): seq<Item> {
    LiveUnits(Strip(Blanks.Kept(DeltasOf(events), StoredOf(s, events, ok))))
  }

  function CommittedLines(events: seq<Event>): seq<Item> {
    LiveUnits(Strip(Blanks.Whole(DeltasOf(events))))
  }

  /** A narration streamed into a turn by deltas in order, from a state whose frozen messages hold the turn's
      units, and then committed as the block that the deltas make up. */
  ghost predicate StreamedTurn(s: Sys, m: Option<string>, events: seq<Event>, ok: Oracle, held: seq<Item>,
                               turn: seq<Row>, row: Row) {
    && Streams(s, m, 0, events, ok) && OneTurn(events, turn) && Buffer(s, m) == map[]
    && Content.Holds(s, held, TurnUnits(turn)) && Content.HoldsLast(s, TurnUnits(turn))
    && row.role.Assistant? && row.blocks == [TextBlock(Blanks.Whole(DeltasOf(events)))]
    && CommittedLines(events) != []
  }

  lemma StoredLinesAre(s: Sys, m: Option<string>, events: seq<Event>, ok: Oracle)
    requires Streams(s, m, 0, events, ok) && Buffer(s, m) == map[]
    ensures LiveUnits(StoredText(RunAll(s, events, ok), m)) == StoredLines(s, events, ok)
    ensures CommittedLines(events) != [] ==> |StoredLines(s, events, ok)| <= |CommittedLines(events)|
  {
    BufferIsKept(s, m, 0, events, ok);
    var deltas, stored := DeltasOf(events), StoredOf(s, events, ok);
    Blanks.KeptHasNoMoreLines("", deltas, stored);
    assert "" + Blanks.Kept(deltas, stored) == Blanks.Kept(deltas, stored);
    assert "" + Blanks.Whole(deltas) == Blanks.Whole(deltas);
    LiveUnitsAre(Strip(Blanks.Kept(deltas, stored)));
    LiveUnitsAre(Strip(Blanks.Whole(deltas)));
  }

  lemma CommittedUnits(events: seq<Event>, turn: seq<Row>, row: Row)
    requires row.role.Assistant? && row.blocks == [TextBlock(Blanks.Whole(DeltasOf(events)))]
    requires CommittedLines(events) != []
    ensures TurnUnits(turn + [row]) == TurnUnits(turn) + CommittedLines(events)
  {
    CommitKeepsLiveUnits(turn, row, Blanks.Whole(DeltasOf(events)));
  }

  lemma StreamedHolds(s: Sys, m: Option<string>, events: seq<Event>, ok: Oracle, held: seq<Item>, turn: seq<Row>,
                      row: Row)
    requires StreamedTurn(s, m, events, ok, held, turn, row)
    ensures var t, stored := RunAll(s, events, ok), StoredLines(s, events, ok);
            && Content.Holds(t, held + stored, TurnUnits(turn) + stored)
            && Content.HoldsLast(t, TurnUnits(turn) + stored)
  {
    assert StoredText(s, m) == "";
    assert Behind(held, s, m) == held && Behind(TurnUnits(turn), s, m) == TurnUnits(turn);
    StreamHolds(s, m, 0, events, ok, held, turn);
    StoredLinesAre(s, m, events, ok);
  }

  lemma StreamedIsPrimed(s: Sys, m: Option<string>, events: seq<Event>, ok: Oracle, held: seq<Item>, turn: seq<Row>,
                         row: Row)
    requires StreamedTurn(s, m, events, ok, held, turn, row)
    requires Uncut(held + StoredLines(s, events, ok)) && Uncut(TurnUnits(turn + [row]))
    ensures var t := RunAll(s, events, ok);
            Primed(t.(state := Stored(t)), held + StoredLines(s, events, ok), TurnUnits(turn + [row]))
  {
    StreamedHolds(s, m, events, ok, held, turn, row);
    StoredLinesAre(s, m, events, ok);
    CommittedUnits(events, turn, row);
  }

  lemma SendsKeepAcross(s: Sys, t: Sys, n: nat, seen: seq<Item>, units: seq<Item>)
    requires Stop.OnlySends(s, t) && t.state.mid == s.state.mid && t.state.base == s.state.base
    requires Settled(s.trace, s.frozen, s.state.mid) && s.state.mid.Some? && n <= |s.frozen|
    ensures ReadAcross(t, n, seen, units) == ReadAcross(s, n, seen, units)
  {
    FrozenAreOld(s.trace, s.frozen, s.state.mid);
    Answer.SendsKeepPieces(s.trace, t.trace, s.frozen[..n], seen);
    Answer.SendsKeepPieces(s.trace, t.trace, s.frozen[n..], units);
    Stop.SendsKeepShows(s.trace, t.trace, s.state.mid.value);
  }

  lemma StopReads(s: Sys, seen: seq<Item>, plan: Stop.Plan, ok: Oracle)
    requires plan.Close? && !plan.alreadySent && Primed(s, seen, TurnUnits(plan.turn))
    requires LayOut.Laid(s, TurnUnits(plan.turn), ok).1
    ensures var t, n := Stop.AfterCap(LayOut.Laid(s, TurnUnits(plan.turn), ok).0, plan, true, ok), |s.frozen|;
            && n <= |t.frozen|
            && ReadAcross(t, n, seen, TurnUnits(plan.turn)) ==
               Middle(seen[..s.state.base] + TurnUnits(plan.turn)[s.state.base..])
  {
    var laid := LayOut.Laid(s, TurnUnits(plan.turn), ok).0;
    CapReads(s, seen, TurnUnits(plan.turn), ok);
    Overlap.LaidKeepsSettled(s, TurnUnits(plan.turn), ok);
    Stop.AfterCapOnlySends(laid, plan, true, ok);
    Answer.AfterCapKeepsState(laid, plan, true, ok);
    SendsKeepAcross(laid, Stop.AfterCap(laid, plan, true, ok), |s.frozen|, seen, TurnUnits(plan.turn));
  }

  /** No unit, as sealed or as committed, is too wide for a message of its own, and the last one fits the cap. */
  predicate Coverable(seen: seq<Item>, units: seq<Item>) {
    Uncut(seen) && Uncut(units) && units != [] && Fits(units[|units| - 1..], DONE_FOOTER)
  }

  /** Such a turn, with no unit too wide for a message of its own, closed by a Stop whose calls all go through. */
  ghost predicate StoppedTurn(s: Sys, m: Option<string>, events: seq<Event>, ok: Oracle, held: seq<Item>,
                              turn: seq<Row>, row: Row, plan: Stop.Plan) {
    && StreamedTurn(s, m, events, ok, held, turn, row)
    && plan.Close? && !plan.alreadySent && plan.turn == turn + [row]
    && Coverable(held + StoredLines(s, events, ok), TurnUnits(turn + [row]))
    && forall i | i >= |RunAll(s, events, ok).trace| :: ok(i)
  }

  /** What a reader then gets: of the messages frozen while the narration streamed, and of the others. */
  function StoppedText(s: Sys, events: seq<Event>, ok: Oracle, held: seq<Item>, plan: Stop.Plan): string
    requires plan.Close?
  {
    var t := RunAll(s, events, ok);
    var u := Stop.Committed(t, Stored(t), plan, ok);
    if |t.frozen| <= |u.frozen| then
      ReadAcross(u, |t.frozen|, held + StoredLines(s, events, ok), TurnUnits(plan.turn))
    else ""
  }

  lemma StoppedReads(s: Sys, m: Option<string>, events: seq<Event>, ok: Oracle, held: seq<Item>, turn: seq<Row>,
                     row: Row, plan: Stop.Plan)
    requires StoppedTurn(s, m, events, ok, held, turn, row, plan)
    ensures var t, seen := RunAll(s, events, ok), held + StoredLines(s, events, ok);
            && LayOut.Laid(t.(state := Stored(t)), TurnUnits(turn + [row]), ok).1
            && Primed(t.(state := Stored(t)), seen, TurnUnits(turn + [row]))
            && StoppedText(s, events, ok, held, plan) ==
               Middle(seen[..Stored(t).base] + TurnUnits(turn + [row])[Stored(t).base..])
  {
    var t := RunAll(s, events, ok);
    StreamedIsPrimed(s, m, events, ok, held, turn, row);
    LayOut.CoversIffLastUnitFits(t.(state := Stored(t)), TurnUnits(turn + [row]), ok);
    CoveredStopReads(t, held + StoredLines(s, events, ok), plan, ok);
  }

  lemma CoveredStopReads(t: Sys, seen: seq<Item>, plan: Stop.Plan, ok: Oracle)
    requires plan.Close? && !plan.alreadySent && Primed(t.(state := Stored(t)), seen, TurnUnits(plan.turn))
    requires LayOut.Laid(t.(state := Stored(t)), TurnUnits(plan.turn), ok).1
    ensures var u := Stop.Committed(t, Stored(t), plan, ok);
            && |t.frozen| <= |u.frozen|
            && ReadAcross(u, |t.frozen|, seen, TurnUnits(plan.turn)) ==
               Middle(seen[..Stored(t).base] + TurnUnits(plan.turn)[Stored(t).base..])
  {
    StopReads(t.(state := Stored(t)), seen, plan, ok);
    assert t.store.GetOr(Stored(t)) == Stored(t);
  }

  /** A narration streamed in order under any failures, committed, and capped by a Stop whose calls go through:
      lay_out reports it shown, and a reader finds the turn's units whole if and only if none of the narration's
      lines was frozen while it streamed, or the frozen ones are those that were committed. */
  lemma StreamedTurnReadsWholeIff(s: Sys, m: Option<string>, events: seq<Event>, ok: Oracle, held: seq<Item>,
                                  turn: seq<Row>, row: Row, plan: Stop.Plan)
    requires StoppedTurn(s, m, events, ok, held, turn, row, plan)
    ensures var t := RunAll(s, events, ok);
            && LayOut.Laid(t.(state := Stored(t)), TurnUnits(turn + [row]), ok).1
            && (StoppedText(s, events, ok, held, plan) == Middle(held + CommittedLines(events)) <==>
                SealedAsCommitted(Stored(t).base, |TurnUnits(turn)|, StoredLines(s, events, ok),
                                  CommittedLines(events)))
  {
    var t, stored := RunAll(s, events, ok), StoredLines(s, events, ok);
    StoppedReads(s, m, events, ok, held, turn, row, plan);
    StreamedHolds(s, m, events, ok, held, turn, row);
    CommittedUnits(events, turn, row);
    LiveUnitsAre(Strip(Blanks.Kept(DeltasOf(events), StoredOf(s, events, ok))));
    LiveUnitsAre(Strip(Blanks.Whole(DeltasOf(events))));
    AcrossIff(held, TurnUnits(turn), stored, CommittedLines(events), Stored(t).base);
  }

  /** So it does whenever no lost delta matters. */
  lemma HarmlessLossesReadWhole(s: Sys, m: Option<string>, events: seq<Event>, ok: Oracle, held: seq<Item>,
                                turn: seq<Row>, row: Row, plan: Stop.Plan)
    requires StoppedTurn(s, m, events, ok, held, turn, row, plan)
    requires Blanks.LossesHarmless("", DeltasOf(events), StoredOf(s, events, ok))
    ensures StoppedText(s, events, ok, held, plan) == Middle(held + CommittedLines(events))
  {
    var deltas, stored := DeltasOf(events), StoredOf(s, events, ok);
    Blanks.KeptIsWholeIff("", deltas, stored);
    assert "" + Blanks.Kept(deltas, stored) == Blanks.Kept(deltas, stored);
    assert "" + Blanks.Whole(deltas) == Blanks.Whole(deltas);
    StreamedHolds(s, m, events, ok, held, turn, row);
    StreamedTurnReadsWholeIff(s, m, events, ok, held, turn, row, plan);
  }
}
