/** A turn from its first progress step to its cap: every unit arrives. */
module Arrival {
  import opened Content
  import Following
  import opened LayOut
  import opened Layout
  import opened Progress
  import opened Spilling
  import Text
  import Transcript
  import UnitStability
  import opened Widths
  import opened Wrappers

  const START := Sys(FRESH, None, [], [])

  /** What a reader gets from the messages of the turn, in order, without inserted fences and footers. */
  function ReadText(t: Sys, units: seq<Item>): string
    requires t.state.mid.Some?
  {
    Text.Join(SealedPieces(t.trace, t.frozen, units) + [CapPiece(t.trace, t.state.mid.value, units, t.state.base)])
  }

  predicate ReadsWhole(t: Sys, units: seq<Item>) {
    t.state.mid.Some? && ReadText(t, units) == Middle(units)
  }

  lemma CoveredReadsWhole(s: Sys, units: seq<Item>, ok: Oracle)
    requires Ready(s, units) && s.state.base < |units| && Uncut(units) && Laid(s, units, ok).1
    ensures var t := Laid(s, units, ok).0;
            Tiles(t.frozen, t.state.base) && ReadsWhole(t, units)
  {
    CoveredTurnIsWhole(s, units, ok);
  }

  /** What Stop finds: the units on the channel are the turn's, but for sealed tool and agent text. */
  ghost predicate UpToDate(s: Sys, seen: seq<Item>, units: seq<Item>) {
    Ready(s, seen) && Recalls(seen, units, s.state.base) && s.state.base < |units| && Uncut(seen)
  }

  function AtStop(events: seq<Event>, ok: Oracle): Sys {
    var s := RunAll(START, events, ok);
    s.(state := Stored(s))
  }

  lemma StopFinds(events: seq<Event>, units: seq<Item>, ok: Oracle) returns (seen: seq<Item>)
    requires ShowsEvolve(START, [], events, ok) && Evolved(LastShow(START, [], events, ok), units)
    requires units != [] && Uncut(units)
    ensures UpToDate(AtStop(events, ok), seen, units)
  {
    var last := LastShow(START, [], events, ok);
    var held := EvolvingRunHolds(START, [], [], events, ok);
    var s := AtStop(events, ok);
    var base := s.state.base;
    EvolvedStays(last, units, base);
    UpdatedRecalls(held, last, units, base);
    seen := Updated(held, units, base);
    FaithfulTransfers(s.trace, s.frozen, base, held, seen);
    UpdatedUncut(held, units, base);
  }

  lemma CoveredArrives(s: Sys, seen: seq<Item>, units: seq<Item>, ok: Oracle)
    requires UpToDate(s, seen, units) && Laid(s, units, ok).1
    ensures var t := Laid(s, units, ok).0;
            Tiles(t.frozen, t.state.base) && ReadsWhole(t, seen)
  {
    LaidSame(s, seen, units, ok);
    CoveredReadsWhole(s, seen, ok);
  }

  /** From an empty turn, through any run of progress steps under any failures, to a successful cap: if the units
      only got appended, grew at the end or changed their status, and none is too wide for a message of its own,
      the messages read in order are exactly the final units, but for tool and agent text that changed after it
      was sealed. */
  lemma TurnArrivesWhole(events: seq<Event>, units: seq<Item>, ok: Oracle) returns (seen: seq<Item>)
    requires ShowsEvolve(START, [], events, ok) && Evolved(LastShow(START, [], events, ok), units)
    requires units != [] && Uncut(units) && Laid(AtStop(events, ok), units, ok).1
    ensures var t := Laid(AtStop(events, ok), units, ok).0;
            UnitStability.SameSlots(seen, units) && Tiles(t.frozen, t.state.base) && ReadsWhole(t, seen)
  {
    seen := StopFinds(events, units, ok);
    CoveredArrives(AtStop(events, ok), seen, units, ok);
  }

  /** The delivery guarantee: if moreover the last unit fits a message and the transport works from Stop on, the
      cap does succeed, so every unit has arrived, once, whole and in order. */
  lemma EvolvingTurnArrives(events: seq<Event>, units: seq<Item>, ok: Oracle) returns (seen: seq<Item>)
    requires ShowsEvolve(START, [], events, ok) && Evolved(LastShow(START, [], events, ok), units)
    requires units != [] && Uncut(units) && Fits(units[|units| - 1..], DONE_FOOTER)
    requires forall i | i >= |AtStop(events, ok).trace| :: ok(i)
    ensures var (t, covered) := Laid(AtStop(events, ok), units, ok);
            covered && UnitStability.SameSlots(seen, units) && Tiles(t.frozen, t.state.base) && ReadsWhole(t, seen)
  {
    var found := StopFinds(events, units, ok);
    CoversIffLastUnitFits(AtStop(events, ok), units, ok);
    seen := TurnArrivesWhole(events, units, ok);
  }

  /** A turn told in order from its first event is one whose shows evolve. */
  lemma ToldFromTheStart(events: seq<Event>, turn: seq<Transcript.Row>, ok: Oracle)
    requires Following.Follows(START, [], Following.SILENCE, events, turn, ok) && NeverRehomes(START, events, ok)
    ensures ShowsEvolve(START, [], events, ok)
    ensures Evolved(LastShow(START, [], events, ok), UnitStability.TurnUnits(turn))
    ensures Stored(RunAll(START, events, ok)).done.None?
  {
    assert Following.Telling([], Following.SILENCE) == [];
    Following.FollowsEvolves(START, [], Following.SILENCE, events, turn, ok);
  }

  /** The guarantee in terms of transcripts and deltas: a turn whose narrations are told in order, under any failures
      that lose no delta that shows something, arrives whole at a Stop whose calls go through. */
  lemma ToldTurnArrives(events: seq<Event>, turn: seq<Transcript.Row>, ok: Oracle) returns (seen: seq<Item>)
    requires Following.Follows(START, [], Following.SILENCE, events, turn, ok) && NeverRehomes(START, events, ok)
    requires var units := UnitStability.TurnUnits(turn);
             units != [] && Uncut(units) && Fits(units[|units| - 1..], DONE_FOOTER)
    requires forall i | i >= |AtStop(events, ok).trace| :: ok(i)
    ensures var units := UnitStability.TurnUnits(turn);
            var (t, covered) := Laid(AtStop(events, ok), units, ok);
            covered && UnitStability.SameSlots(seen, units) && Tiles(t.frozen, t.state.base) && ReadsWhole(t, seen)
  {
    ToldFromTheStart(events, turn, ok);
    seen := EvolvingTurnArrives(events, UnitStability.TurnUnits(turn), ok);
  }

  /** So a turn that no progress step ever showed arrives too, exactly. */
  lemma UnshownTurnArrives(units: seq<Item>, ok: Oracle)
    requires units != [] && Uncut(units) && Fits(units[|units| - 1..], DONE_FOOTER) && forall i: nat :: ok(i)
    ensures var (t, covered) := Laid(START, units, ok);
            covered && Tiles(t.frozen, t.state.base) && ReadsWhole(t, units)
  {
    var seen := StopFinds([], units, ok);
    assert seen[0..] == seen && units[0..] == units;
    CoversIffLastUnitFits(START, units, ok);
    CoveredArrives(START, seen, units, ok);
  }
}
