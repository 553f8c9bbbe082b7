/** A turn that moves to fresh messages, to its end: every unit arrives and the answer is safe. */
module HomeAnswer {
  import Answer
  import opened Arrival
  import Chunking
  import Closing
  import Following
  import opened Homes
  import LayOut
  import opened Layout
  import Overlap
  import opened Progress
  import opened Spilling
  import opened Stop
  import opened Transcript
  import opened UnitStability
  import opened Widths
  import opened Wrappers

  const EMPTY := Turn(START, {})

  // ------------------------------------------------------------------ the history decides nothing at Stop either

  predicate SameView(s: Sys, t: Sys) {
    s.trace == t.trace && s.state == t.state
  }

  lemma LaidAlike(s: Sys, t: Sys, units: seq<Item>, ok: Oracle)
    requires SameView(s, t)
    ensures SameView(LayOut.Laid(s, units, ok).0, LayOut.Laid(t, units, ok).0)
    ensures LayOut.Laid(s, units, ok).1 == LayOut.Laid(t, units, ok).1
  {
    SpillAlike(s, t, units, s.state.base, s.state.mid, DONE_FOOTER, ok);
  }

  lemma {:induction false} PostAllAlike(s: Sys, t: Sys, parts: seq<string>, ok: Oracle)
    requires SameView(s, t)
    ensures SameView(PostAll(s, parts, ok), PostAll(t, parts, ok))
    decreases |parts|
  {
    if parts != [] {
      PostAllAlike(Post(s, parts[0], ok), Post(t, parts[0], ok), parts[1..], ok);
    }
  }

  lemma AfterCapAlike(s: Sys, t: Sys, plan: Plan, covered: bool, ok: Oracle)
    requires SameView(s, t) && plan.Close?
    ensures Alike(AfterCap(s, plan, covered, ok), AfterCap(t, plan, covered, ok))
  {
    PostAllAlike(s, t, Chunking.ChunksOf(plan.text), ok);
  }

  lemma CommittedAlike(s: Sys, t: Sys, first: TurnState, plan: Plan, ok: Oracle)
    requires Alike(s, t)
    ensures Alike(Committed(s, first, plan, ok), Committed(t, first, plan, ok))
  {
    if plan.Close? {
      var p, q := s.(state := s.store.GetOr(first)), t.(state := t.store.GetOr(first));
      LaidAlike(p, q, UnitsToCap(plan), ok);
      AfterCapAlike(LayOut.Laid(p, UnitsToCap(plan), ok).0, LayOut.Laid(q, UnitsToCap(plan), ok).0, plan,
                    LayOut.Laid(p, UnitsToCap(plan), ok).1, ok);
    }
  }

  // ------------------------------------------------------------------ from an empty turn

  lemma NothingIsAtHome()
    ensures AtHome(EMPTY, START, [], Following.SILENCE, [])
  {
    assert Following.Telling([], Following.SILENCE) == [];
  }

  /** A turn told in order from its first event, whose moves leave whole messages behind. */
  ghost predicate ToldAtHome(events: seq<Event>, turn: seq<Row>, ok: Oracle) {
    Following.Follows(START, [], Following.SILENCE, events, turn, ok) && MovesWell(EMPTY, [], events, ok)
  }

  lemma StopFindsHome(events: seq<Event>, turn: seq<Row>, ok: Oracle) returns (seen: seq<Item>)
    requires ToldAtHome(events, turn, ok) && TurnUnits(turn) != []
    ensures var h := HomeRun(EMPTY, events, ok);
            && Alike(h.sys, RunAll(START, events, ok)) && Stored(h.sys).done.None?
            && HomeHolds(h, seen, TurnUnits(turn)) && Stored(h.sys).base < |TurnUnits(turn)|
  {
    NothingIsAtHome();
    assert Following.Telling([], Following.SILENCE) == [];
    seen := RunIsAtHome(EMPTY, START, [], Following.SILENCE, [], events, turn, ok);
  }

  /** The delivery guarantee, across re-homes: a turn told in order, under any failures that lose no delta that shows
      something, which moves to a fresh message only when the one it leaves shows all that was laid out on it, arrives
      whole at a Stop whose calls go through - what was frozen, what was left behind and the last message, read in
      order. */
  lemma MovingTurnArrives(events: seq<Event>, turn: seq<Row>, ok: Oracle) returns (seen: seq<Item>)
    requires ToldAtHome(events, turn, ok)
    requires var units := TurnUnits(turn);
             units != [] && Uncut(units) && Fits(units[|units| - 1..], DONE_FOOTER)
    requires forall i | i >= |AtStop(events, ok).trace| :: ok(i)
    ensures var h, units := HomeRun(EMPTY, events, ok), TurnUnits(turn);
            var (t, covered) := LayOut.Laid(h.sys.(state := Stored(h.sys)), units, ok);
            && SameView(t, LayOut.Laid(AtStop(events, ok), units, ok).0)
            && covered && SameSlots(seen, units) && Tiles(t.frozen, t.state.base)
            && t.state.mid.Some? && HomeText(t, h.left, seen) == Middle(seen)
  {
    seen := StopFindsHome(events, turn, ok);
    var h, units := HomeRun(EMPTY, events, ok), TurnUnits(turn);
    var s := h.sys.(state := Stored(h.sys));
    LaidAlike(s, AtStop(events, ok), units, ok);
    LayOut.CoversIffLastUnitFits(s, units, ok);
    CoveredHomeReads(h, s, seen, units, ok);
  }

  // ------------------------------------------------------------------ the answer

  /** As in a turn that does not move: the answer is on the channel in the turn's messages, or in messages of its own,
      or it was written down and a warning attempted. */
  ghost predicate SafeAtHome(s: Sys, t: Sys, left: set<nat>, seen: seq<Item>, turn: seq<Row>) {
    || (t.state.mid.Some? && HomeText(t, left, seen) == Middle(seen) &&
        Answer.HoldsClosing(HomeText(t, left, seen), turn))
    || (exists at :: |s.trace| <= at && PostedAt(t.trace, at, Chunking.ChunksOf(Closing.ClosingText(turn))))
    || (RecordedSince(t.trace, |s.trace|, Closing.ClosingText(turn)) && WarnedSince(t.trace, |s.trace|))
  }

  lemma {:induction false} SendsKeepPieces(trace: seq<Op>, later: seq<Op>, frozen: seq<Seal>, left: set<nat>,
                                           units: seq<Item>)
    requires trace <= later && forall p | |trace| <= p < |later| :: !later[p].Edit?
    requires forall i | 0 <= i < |frozen| :: frozen[i].id < |trace|
    ensures Pieces(later, frozen, left, units) == Pieces(trace, frozen, left, units)
  {
    if frozen != [] {
      SendsKeepPieces(trace, later, frozen[..|frozen| - 1], left, units);
      SendsKeepShows(trace, later, frozen[|frozen| - 1].id);
    }
  }

  lemma SendsKeepHome(s: Sys, t: Sys, left: set<nat>, units: seq<Item>)
    requires OnlySends(s, t) && t.state.mid == s.state.mid && t.state.base == s.state.base
    requires Settled(s.trace, s.frozen, s.state.mid) && s.state.mid.Some?
    ensures HomeText(t, left, units) == HomeText(s, left, units)
  {
    FrozenAreOld(s.trace, s.frozen, s.state.mid);
    SendsKeepPieces(s.trace, t.trace, s.frozen, left, units);
    SendsKeepShows(s.trace, t.trace, s.state.mid.value);
  }

  lemma CoveredStaysHome(h: Turn, s: Sys, seen: seq<Item>, plan: Plan, ok: Oracle)
    requires plan.Close? && !plan.alreadySent && HomeReady(h, s, seen, TurnUnits(plan.turn))
    requires Closing.Flushed(plan.turn) && LayOut.Laid(s, TurnUnits(plan.turn), ok).1
    ensures var t := AfterCap(LayOut.Laid(s, TurnUnits(plan.turn), ok).0, plan, true, ok);
            t.state.mid.Some? && HomeText(t, h.left, seen) == Middle(seen) &&
            Answer.HoldsClosing(HomeText(t, h.left, seen), plan.turn)
  {
    var laid := LayOut.Laid(s, TurnUnits(plan.turn), ok).0;
    CoveredHomeReads(h, s, seen, TurnUnits(plan.turn), ok);
    Overlap.LaidKeepsSettled(s, TurnUnits(plan.turn), ok);
    AfterCapOnlySends(laid, plan, true, ok);
    Answer.AfterCapKeepsState(laid, plan, true, ok);
    SendsKeepHome(laid, AfterCap(laid, plan, true, ok), h.left, seen);
    Answer.ClosingIsWithin(seen, plan.turn);
  }

  lemma CloseIsSafeAtHome(h: Turn, seen: seq<Item>, turn: seq<Row>, ok: Oracle)
    requires HomeHolds(h, seen, TurnUnits(turn)) && Stored(h.sys).base < |TurnUnits(turn)| && Uncut(TurnUnits(turn))
    requires Closing.Flushed(turn)
    ensures var plan := Close(turn, Closing.ClosingText(turn), false);
            SafeAtHome(h.sys, Committed(h.sys, Stored(h.sys), plan, ok), h.left, seen, turn)
  {
    var plan, s := Close(turn, Closing.ClosingText(turn), false), h.sys.(state := Stored(h.sys));
    var t := Committed(h.sys, Stored(h.sys), plan, ok);
    var (laid, covered) := LayOut.Laid(s, TurnUnits(turn), ok);
    CoveredOrPosted(h.sys, Stored(h.sys), plan, ok);
    assert h.sys.store.GetOr(Stored(h.sys)) == Stored(h.sys);
    if covered {
      CoveredStaysHome(h, s, seen, plan, ok);
    } else if !PostedAt(t.trace, |laid.trace|, Chunking.ChunksOf(plan.text)) {
      Answer.LaterIsSince(t.trace, |h.sys.trace|, |laid.trace|, plan.text);
    }
  }

  /** The whole turn, across re-homes: a Stop that finds the closing answer flushed and not yet sent closes the turn
      and leaves the answer on the channel, or written down with a warning attempted, whichever calls fail before Stop
      or in it. */
  lemma NeverSilentAcrossHomes(events: seq<Event>, turn: seq<Row>, ok: Oracle) returns (seen: seq<Item>)
    requires ToldAtHome(events, turn, ok)
    requires Uncut(TurnUnits(turn)) && Closing.Flushed(turn) && !Sent(turn)
    ensures var h, s := HomeRun(EMPTY, events, ok), RunAll(START, events, ok);
            var plan := PlanFor(Stored(s).done, Polled(turn, true));
            && plan.Close? && SameSlots(seen, TurnUnits(turn))
            && Alike(Committed(h.sys, Stored(s), plan, ok), Committed(s, Stored(s), plan, ok))
            && SafeAtHome(h.sys, Committed(h.sys, Stored(s), plan, ok), h.left, seen, turn)
  {
    Answer.FlushedHasUnits(turn);
    seen := StopFindsHome(events, turn, ok);
    var h, s := HomeRun(EMPTY, events, ok), RunAll(START, events, ok);
    PlanCloses(Stored(s).done, turn);
    CommittedAlike(h.sys, s, Stored(s), Close(turn, Closing.ClosingText(turn), false), ok);
    CloseIsSafeAtHome(h, seen, turn, ok);
  }
}
