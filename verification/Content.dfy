/** What the frozen messages of a run hold: the units as they were when they were sealed. */
module Content {
  import opened Layout
  import Lists
  import opened Progress
  import opened Spilling
  import opened UnitStability
  import opened Widths
  import opened Wrappers

  // ------------------------------------------------------------------ units that render alike

  lemma {:induction false} SameNarration(u: seq<Item>, v: seq<Item>)
    requires SameSlots(u, v)
    ensures TextLines(u) == TextLines(v)
  {
    if u != [] {
      var n := |u| - 1;
      SameNarration(u[..n], v[..n]);
      assert NarrationLines(u[n]) == NarrationLines(v[n]);
    }
  }

  /** The same slots from the start, and the very same units from base on. */
  predicate Recalls(seen: seq<Item>, units: seq<Item>, base: nat) {
    && SameSlots(seen, units)
    && base <= |units|
    && seen[base..] == units[base..]
  }

  lemma RecallsOpen(seen: seq<Item>, units: seq<Item>, base: nat, lo: nat)
    requires Recalls(seen, units, base) && lo <= |units|
    ensures OpenFence(seen[..lo]) == OpenFence(units[..lo])
  {
    SameNarration(seen[..lo], units[..lo]);
  }

  lemma RecallsPart(seen: seq<Item>, units: seq<Item>, base: nat, lo: nat, hi: nat)
    requires Recalls(seen, units, base) && base <= lo <= hi <= |units|
    ensures seen[lo..hi] == units[lo..hi] && Recalls(seen, units, lo)
  {
    Lists.SameSuffixSameSlice(seen, units, base, lo, hi);
  }

  lemma SameNextSeal(seen: seq<Item>, units: seq<Item>, base: nat)
    requires Recalls(seen, units, base) && base + 1 < |units|
    ensures NextSeal(seen, base) == NextSeal(units, base)
  {
    SameSealSize(seen, units, base);
    SameDraft(seen, units, base, SealSize(units, base));
  }

  lemma SameDraft(seen: seq<Item>, units: seq<Item>, base: nat, k: nat)
    requires Recalls(seen, units, base) && base + k <= |units|
    ensures DraftOf(seen, base, k) == DraftOf(units, base, k)
  {
    SameSealBody(seen, units, base, base + k);
  }

  lemma SameSealSize(seen: seq<Item>, units: seq<Item>, base: nat)
    requires Recalls(seen, units, base) && base + 1 < |units|
    ensures SealSize(seen, base) == SealSize(units, base)
  {
    RecallsPart(seen, units, base, base, |units| - 1);
  }

  lemma SameSealBody(seen: seq<Item>, units: seq<Item>, base: nat, hi: nat)
    requires Recalls(seen, units, base) && base <= hi <= |units|
    ensures SealBody(seen, base, hi) == SealBody(units, base, hi)
  {
    RecallsPart(seen, units, base, base, hi);
    RecallsOpen(seen, units, base, base);
  }

  lemma SameNeed(seen: seq<Item>, units: seq<Item>, base: nat, footer: string)
    requires Recalls(seen, units, base)
    ensures NeedsSeal(seen, base, footer) == NeedsSeal(units, base, footer)
  {
  }

  /** Sealing does not look back: units that differ only below the boundary, and not in narration, are sealed
      alike. */
  lemma {:induction false} SpillSame(s: Sys, seen: seq<Item>, units: seq<Item>, base: nat, mid: Option<nat>,
                                     footer: string, ok: Oracle)
    requires Recalls(seen, units, base)
    ensures SpillFrom(s, seen, base, mid, footer, ok) == SpillFrom(s, units, base, mid, footer, ok)
    decreases |units| - base
  {
    SameNeed(seen, units, base, footer);
    if NeedsSeal(units, base, footer) {
      SameNextSeal(seen, units, base);
      if ok(|s.trace|) {
        var t := SealOnce(s, units, base, mid, ok);
        var op, seal := SealOnceFacts(s, units, base, mid, ok);
        RecallsPart(seen, units, base, t.base, |units|);
        SpillSame(t.sys, seen, units, t.base, None, footer, ok);
      }
    }
  }

  // ------------------------------------------------------------------ what a run has frozen

  /** Units that agree on the sealed part carry the same frozen messages. */
  lemma FaithfulTransfers(trace: seq<Op>, frozen: seq<Seal>, base: nat, was: seq<Item>, now: seq<Item>)
    requires Faithful(trace, frozen, was) && Tiles(frozen, base)
    requires base <= |was| && base <= |now| && was[..base] == now[..base]
    ensures Faithful(trace, frozen, now)
  {
    forall i | 0 <= i < |frozen|
      ensures Carries(trace, frozen[i], now)
    {
      TileBelow(frozen, base, i);
      assert Carries(trace, frozen[i], was);
      CarriesTransfers(trace, frozen[i], base, was, now);
    }
  }

  lemma CarriesTransfers(trace: seq<Op>, f: Seal, base: nat, was: seq<Item>, now: seq<Item>)
    requires Carries(trace, f, was) && f.hi <= base
    requires base <= |was| && base <= |now| && was[..base] == now[..base]
    ensures Carries(trace, f, now)
  {
    Lists.SamePrefixSameSlice(was, now, base, f.lo, f.hi);
  }

  lemma {:induction false} TileBelow(frozen: seq<Seal>, base: nat, i: nat)
    requires Tiles(frozen, base) && i < |frozen|
    ensures frozen[i].hi <= base
    decreases |frozen| - i
  {
    if i + 1 < |frozen| {
      TileBelow(frozen, base, i + 1);
    }
  }

  /** The sealed units as they were, and the others as they are now. */
  function Updated(seen: seq<Item>, now: seq<Item>, base: nat): seq<Item>
    requires base <= |seen| && base <= |now|
  {
    seen[..base] + now[base..]
  }

  predicate SlotsStay(was: seq<Item>, now: seq<Item>, base: nat) {
    base <= |was| && base <= |now| && SameSlots(was[..base], now[..base])
  }

  lemma UpdatedRecalls(seen: seq<Item>, was: seq<Item>, now: seq<Item>, base: nat)
    requires Recalls(seen, was, base) && SlotsStay(was, now, base)
    ensures base <= |seen| && Recalls(Updated(seen, now, base), now, base)
    ensures Updated(seen, now, base)[..base] == seen[..base]
  {
    forall i | 0 <= i < base
      ensures seen[i].kind == now[i].kind && (seen[i].kind.Narration? ==> seen[i] == now[i])
    {
      assert was[..base][i] == was[i] && now[..base][i] == now[i];
    }
  }

  /** A run in which no step re-homes, and every step shows the sealed units in their slots: with their kinds,
      and narration with its text. Tool and agent text may change. */
  predicate SealedSlotsStay(s: Sys, show: seq<Item>, events: seq<Event>, ok: Oracle)
    decreases |events|
  {
    events != [] ==>
      var now := Show(s, events[0]);
      !Rehomes(s, events[0]) && SlotsStay(show, now, Stored(s).base) &&
      SealedSlotsStay(Step(s, events[0], ok), now, events[1..], ok)
  }

  function LastShow(s: Sys, show: seq<Item>, events: seq<Event>, ok: Oracle): seq<Item>
    decreases |events|
  {
    if events == [] then show else LastShow(Step(s, events[0], ok), Show(s, events[0]), events[1..], ok)
  }

  lemma TailKeepsFaithful(r: Spilled, show: seq<Item>, shown: nat, ok: Oracle, seen: seq<Item>)
    requires Faithful(r.sys.trace, r.sys.frozen, seen)
    ensures Faithful(ShowTail(r, show, shown, ok).trace, r.sys.frozen, seen)
  {
    TailFacts(r, show, shown, ok);
    if r.base < |show| {
      CallKeepsFaithful(r.sys.trace, TailCall(r, show, ok), r.sys.frozen, seen);
    }
  }

  /** The sealed units are held in the frozen messages; the rest is shown as it is. */
  ghost predicate Holds(s: Sys, seen: seq<Item>, show: seq<Item>) {
    InOrder(s) && Faithful(s.trace, s.frozen, seen) && Recalls(seen, show, Stored(s).base)
  }

  lemma StepHolds(s: Sys, show: seq<Item>, seen: seq<Item>, ev: Event, ok: Oracle)
    requires Holds(s, seen, show) && !Rehomes(s, ev) && SlotsStay(show, Show(s, ev), Stored(s).base)
    ensures Stored(s).base <= |seen|
    ensures Holds(Step(s, ev, ok), Updated(seen, Show(s, ev), Stored(s).base), Show(s, ev))
  {
    var now, base, mid := Show(s, ev), Stored(s).base, Stored(s).mid;
    UpdatedRecalls(seen, show, now, base);
    var updated := Updated(seen, now, base);
    StepKeepsOrder(s, ev, ok);
    FaithfulTransfers(s.trace, s.frozen, base, seen, updated);
    if !Finalized(s, ev.turn) {
      var r := Sealed(s, ev, ok);
      SpillSame(Loaded(s, ev), updated, now, base, mid, WORKING_FOOTER, ok);
      SpillKeepsFaithful(Loaded(s, ev), updated, base, mid, WORKING_FOOTER, ok);
      SpillOnlyAdds(Loaded(s, ev), now, base, mid, WORKING_FOOTER, ok);
      TailKeepsFaithful(r, now, |TurnUnits(ev.turn)|, ok, updated);
      TailFacts(r, now, |TurnUnits(ev.turn)|, ok);
      RecallsPart(updated, now, base, r.base, |now|);
    }
  }

  /** Over any run in which sealed units stay in their slots, every frozen message holds exactly the render of
      its interval of units that are the latest ones but for the tool and agent text that changed since it
      was sealed. */
  lemma {:induction false} RunKeepsFaithful(s: Sys, show: seq<Item>, was: seq<Item>, events: seq<Event>, ok: Oracle)
    returns (seen: seq<Item>)
    requires Holds(s, was, show) && SealedSlotsStay(s, show, events, ok)
    ensures Holds(RunAll(s, events, ok), seen, LastShow(s, show, events, ok))
    decreases |events|
  {
    if events == [] {
      seen := was;
    } else {
      var now := Show(s, events[0]);
      StepHolds(s, show, was, events[0], ok);
      seen := RunKeepsFaithful(Step(s, events[0], ok), now, Updated(was, now, Stored(s).base), events[1..], ok);
    }
  }

  // ------------------------------------------------------------------ runs that only grow

  /** Units get appended, and all but the last keep their slots: the last may grow, and a tool's or a subagent's
      status may change anywhere. */
  predicate Evolved(was: seq<Item>, now: seq<Item>) {
    |was| <= |now| && (was != [] ==> SameSlots(was[..|was| - 1], now[..|was| - 1]))
  }

  /** A run in which every step shows what the one before it showed, evolved, with no unit too wide for a
      message of its own. */
  predicate ShowsEvolve(s: Sys, show: seq<Item>, events: seq<Event>, ok: Oracle)
    decreases |events|
  {
    events != [] ==>
      var now := Show(s, events[0]);
      !Rehomes(s, events[0]) && Evolved(show, now) && Uncut(now) &&
      ShowsEvolve(Step(s, events[0], ok), now, events[1..], ok)
  }

  /** The boundary is below the last shown unit. */
  predicate HoldsLast(s: Sys, show: seq<Item>) {
    Stored(s).base == 0 || Stored(s).base < |show|
  }

  lemma EvolvedStays(was: seq<Item>, now: seq<Item>, base: nat)
    requires Evolved(was, now) && (base == 0 || base < |was|)
    ensures SlotsStay(was, now, base)
  {
    if base > 0 {
      assert was[..base] == was[..|was| - 1][..base] && now[..base] == now[..|was| - 1][..base];
    }
  }

  lemma StepHoldsLast(s: Sys, ev: Event, ok: Oracle)
    requires !Rehomes(s, ev) && HoldsLast(s, Show(s, ev))
    ensures HoldsLast(Step(s, ev, ok), Show(s, ev))
    ensures Stored(Step(s, ev, ok)).base >= Stored(s).base
  {
    if !Finalized(s, ev.turn) {
      SpillOnlyAdds(Loaded(s, ev), Show(s, ev), Stored(s).base, Stored(s).mid, WORKING_FOOTER, ok);
      TailFacts(Sealed(s, ev, ok), Show(s, ev), |TurnUnits(ev.turn)|, ok);
    }
  }

  /** No sealed unit was too wide for a message of its own. */
  predicate SealedUncut(seen: seq<Item>, base: nat) {
    base <= |seen| && forall i | 0 <= i < base :: FitsAlone(seen, i)
  }

  lemma OldFitsAlone(seen: seq<Item>, now: seq<Item>, base: nat, i: nat)
    requires i < base <= |seen| && base <= |now| && FitsAlone(seen, i)
    ensures FitsAlone(Updated(seen, now, base), i)
  {
    var updated := Updated(seen, now, base);
    assert updated[..base] == seen[..base];
    Lists.SamePrefixSameSlice(seen, updated, base, i, i + 1);
  }

  lemma NewFitsAlone(updated: seq<Item>, now: seq<Item>, base: nat, i: nat)
    requires Recalls(updated, now, base) && base <= i < |now| && FitsAlone(now, i)
    ensures FitsAlone(updated, i)
  {
    RecallsPart(updated, now, base, i, i + 1);
    RecallsOpen(updated, now, base, i);
  }

  /** The units as they were when last shown are not cut, if the latest are not. */
  lemma UpdatedUncut(seen: seq<Item>, now: seq<Item>, base: nat)
    requires SealedUncut(seen, base) && base <= |now| && Uncut(now) && Recalls(Updated(seen, now, base), now, base)
    ensures Uncut(Updated(seen, now, base))
  {
    var updated := Updated(seen, now, base);
    SameNarration(updated, now);
    forall i | 0 <= i < |updated| - 1
      ensures FitsAlone(updated, i)
    {
      if i < base {
        OldFitsAlone(seen, now, base, i);
      } else {
        NewFitsAlone(updated, now, base, i);
      }
    }
  }

  lemma UncutIsSealedUncut(seen: seq<Item>, base: nat)
    requires Uncut(seen) && (base == 0 || base < |seen|)
    ensures SealedUncut(seen, base)
  {
  }

  /** Evolving shows keep what is sealed: the frozen messages hold uncut units that differ from the latest at
      most in the tool and agent text of sealed ones. */
  lemma {:induction false} EvolvingRunHolds(s: Sys, show: seq<Item>, was: seq<Item>, events: seq<Event>, ok: Oracle)
    returns (seen: seq<Item>)
    requires Holds(s, was, show) && HoldsLast(s, show) && SealedUncut(was, Stored(s).base)
    requires ShowsEvolve(s, show, events, ok)
    ensures var t, last := RunAll(s, events, ok), LastShow(s, show, events, ok);
            Holds(t, seen, last) && HoldsLast(t, last) && SealedUncut(seen, Stored(t).base)
    decreases |events|
  {
    if events == [] {
      seen := was;
    } else {
      var now, base, t := Show(s, events[0]), Stored(s).base, Step(s, events[0], ok);
      EvolvedStays(show, now, base);
      StepHolds(s, show, was, events[0], ok);
      StepHoldsLast(s, events[0], ok);
      UpdatedRecalls(was, show, now, base);
      UpdatedUncut(was, now, base);
      UncutIsSealedUncut(Updated(was, now, base), Stored(t).base);
      seen := EvolvingRunHolds(t, now, Updated(was, now, base), events[1..], ok);
    }
  }
}
