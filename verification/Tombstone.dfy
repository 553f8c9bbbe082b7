/** How long a turn's tombstone silences its progress steps, when other Stops of the turn are under way. */
module Tombstone {
  import Chunking
  import Closing
  import LayOut
  import opened Layout
  import opened Overlap
  import opened Progress
  import opened Spilling
  import opened Stop
  import opened Transcript
  import Text
  import UnitStability
  import opened Wrappers

  /** No progress step of the turn would make a call now. */
  ghost predicate SilentNow(s: Sys, tid: Option<string>, ok: Oracle) {
    forall ev: Event | TurnId(ev.turn) == tid :: Step(s, ev, ok).trace == s.trace
  }

  /** Nor at any moment of the run. */
  ghost predicate StaysSilent(w: World, actions: seq<Action>, tid: Option<string>, ok: Oracle)
    decreases |actions|
  {
    SilentNow(w.sys, tid, ok) &&
    (actions != [] ==> StaysSilent(Do(w, actions[0], ok), actions[1..], tid, ok))
  }

  /** Neither the cap nor the chunks go through. */
  predicate Undelivered(s: Sys, units: seq<Item>, text: string, ok: Oracle) {
    var (laid, covered) := LayOut.Laid(s, units, ok);
    !covered && !AllWent(|laid.trace|, |Chunking.ChunksOf(text)|, ok)
  }

  /** A commit that clears the stored state: its Stop refuses, or it closes a turn whose answer no reply has sent,
      and neither the cap nor the chunks go through. */
  predicate Clears(w: World, a: Action, ok: Oracle) {
    a.Commit? && a.t in w.looked &&
    match PlanFor(w.looked[a.t].done, a.polled)
    case Skip => false
    case Refuse(_) => true
    case Close(turn, text, alreadySent) =>
      !alreadySent &&
      Undelivered(w.sys.(state := Start(w.sys, w.looked[a.t])), UnitStability.TurnUnits(turn), text, ok)
  }

  predicate NoneClears(w: World, actions: seq<Action>, ok: Oracle)
    decreases |actions|
  {
    actions != [] ==> !Clears(w, actions[0], ok) && NoneClears(Do(w, actions[0], ok), actions[1..], ok)
  }

  /** The step or the Stop belongs to the turn. */
  predicate OfTurn(a: Action, tid: Option<string>) {
    && (a.Fire? ==> TurnId(a.event.turn) == tid)
    && (a.Commit? && a.polled.Polled? ==> TurnId(a.polled.turn) == tid)
  }

  predicate Marked(s: Sys, tid: Option<string>) {
    tid.Some? && s.store.Some? && Stored(s).done == tid
  }

  lemma MarkedIsSilent(s: Sys, tid: Option<string>, ok: Oracle)
    requires Marked(s, tid)
    ensures SilentNow(s, tid, ok)
  {
  }

  lemma TextRow(tid: Option<string>)
    ensures UnitStability.TurnUnits([Row(false, Assistant, [TextBlock("a")], tid)]) != []
  {
    var row := Row(false, Assistant, [TextBlock("a")], tid);
    assert Text.LStrip("a") == "a" && Text.RStrip("a") == "a";
    UnitStability.CommitKeepsLiveUnits([], row, "a");
    UnitStability.UnitsOfOne(Item(Narration, "a"));
    assert [] + [row] == [row];
  }

  /** With the stored state gone the turn is shown again from its start: the first step that has anything to show
      makes a call. */
  lemma ClearedIsNotSilent(s: Sys, tid: Option<string>, ok: Oracle)
    requires s.store.None?
    ensures !SilentNow(s, tid, ok)
  {
    var ev := Event(false, None, None, 0, [Row(false, Assistant, [TextBlock("a")], tid)], false);
    TextRow(tid);
    FreshStepCalls(s, ev, ok);
  }

  lemma FreshStepCalls(s: Sys, ev: Event, ok: Oracle)
    requires s.store.None? && !ev.isDisplay && UnitStability.TurnUnits(ev.turn) != []
    ensures |Step(s, ev, ok).trace| > |s.trace|
  {
    var r := Sealed(s, ev, ok);
    SpillOnlyAdds(Loaded(s, ev), Show(s, ev), 0, None, WORKING_FOOTER, ok);
    if r.base == 0 {
      TailFacts(r, Show(s, ev), |UnitStability.TurnUnits(ev.turn)|, ok);
    }
  }

  lemma ActionMarks(w: World, a: Action, tid: Option<string>, ok: Oracle)
    requires Marked(w.sys, tid) && OfTurn(a, tid)
    ensures Clears(w, a, ok) ==> Do(w, a, ok).sys.store.None?
    ensures !Clears(w, a, ok) ==> Marked(Do(w, a, ok).sys, tid)
  {
    if a.Commit? && a.t in w.looked {
      CommitMarks(w.sys, w.looked[a.t], PlanFor(w.looked[a.t].done, a.polled), tid, ok);
    }
  }

  lemma CommitMarks(s: Sys, first: TurnState, plan: Plan, tid: Option<string>, ok: Oracle)
    requires Marked(s, tid) && (plan.Close? ==> TurnId(plan.turn) == tid)
    ensures var t := Committed(s, first, plan, ok);
            match plan
            case Skip => t == s
            case Refuse(_) => t.store.None?
            case Close(turn, text, alreadySent) =>
              if !alreadySent && Undelivered(s.(state := Start(s, first)), UnitsToCap(plan), text, ok)
              then t.store.None? else Marked(t, tid)
  {
  }

  /** From the moment a turn's tombstone is stored, through every order of its progress steps and of Stops under way,
      under any failures: at no moment would a progress step of the turn make a call, if and only if no Stop's commit
      clears the stored state. */
  lemma {:induction false} SilentIffNoneClears(w: World, actions: seq<Action>, tid: Option<string>, ok: Oracle)
    requires Marked(w.sys, tid) && forall i | 0 <= i < |actions| :: OfTurn(actions[i], tid)
    ensures StaysSilent(w, actions, tid, ok) <==> NoneClears(w, actions, ok)
    decreases |actions|
  {
    MarkedIsSilent(w.sys, tid, ok);
    if actions != [] {
      var next := Do(w, actions[0], ok);
      ActionMarks(w, actions[0], tid, ok);
      if Clears(w, actions[0], ok) {
        ClearedIsNotSilent(next.sys, tid, ok);
      } else {
        SilentIffNoneClears(next, actions[1..], tid, ok);
      }
    }
  }

  // ------------------------------------------------------------------ how the tombstone is erased

  lemma NothingGoes(s: Sys, units: seq<Item>, text: string, ok: Oracle)
    requires forall i | i >= |s.trace| :: !ok(i)
    ensures Undelivered(s, units, text, ok)
  {
    var n := |Chunking.ChunksOf(text)|;
    SpillOnlyAdds(s, units, s.state.base, s.state.mid, DONE_FOOTER, ok);
    LaidOnlyAdds(s, units, ok);
    assert !AllWent(|LayOut.Laid(s, units, ok).0.trace|, n, ok);
  }

  /** A Stop that looked before another stored the tombstone, and whose calls all fail, erases it. */
  lemma LateStopErases(w: World, t: nat, turn: seq<Row>, ok: Oracle)
    requires Marked(w.sys, TurnId(turn)) && t in w.looked && w.looked[t].done != TurnId(turn)
    requires Closing.Flushed(turn) && !Sent(turn) && forall i | i >= |w.sys.trace| :: !ok(i)
    ensures Clears(w, Action.Commit(t, Polled(turn, true)), ok)
    ensures !SilentNow(Do(w, Action.Commit(t, Polled(turn, true)), ok).sys, TurnId(turn), ok)
  {
    var a := Action.Commit(t, Polled(turn, true));
    PlanCloses(w.looked[t].done, turn);
    NothingGoes(w.sys.(state := Start(w.sys, w.looked[t])), UnitStability.TurnUnits(turn),
                Closing.ClosingText(turn), ok);
    ActionMarks(w, a, TurnId(turn), ok);
    ClearedIsNotSilent(Do(w, a, ok).sys, TurnId(turn), ok);
  }

  lemma CommitIs(w: World, t: nat, p: Polled, ok: Oracle)
    requires t in w.looked
    ensures var v := Do(w, Action.Commit(t, p), ok);
            v.sys == Committed(w.sys, w.looked[t], PlanFor(w.looked[t].done, p), ok) && v.looked == w.looked
  {
  }

  /** So it goes when two Stops read the state before either commits, the first leaves the tombstone, and then the
      channel is lost: the second one's commit erases it, and a progress step of the turn that comes later posts
      it anew. */
  lemma SecondStopErases(s: Sys, turn: seq<Row>, ok: Oracle)
    requires TurnId(turn).Some? && Stored(s).done != TurnId(turn) && Closing.Flushed(turn) && !Sent(turn)
    requires var t := Committed(s, Stored(s), PlanFor(Stored(s).done, Polled(turn, true)), ok);
             t.store.Some? && forall i | i >= |t.trace| :: !ok(i)
    ensures var p := Polled(turn, true);
            var both := Do(Do(World(s, map[]), Look(0), ok), Look(1), ok);
            var stored := Do(both, Action.Commit(0, p), ok);
            && SilentNow(stored.sys, TurnId(turn), ok)
            && !SilentNow(Do(stored, Action.Commit(1, p), ok).sys, TurnId(turn), ok)
  {
    var both := Do(Do(World(s, map[]), Look(0), ok), Look(1), ok);
    var p := Polled(turn, true);
    assert both.sys == s && 0 in both.looked && 1 in both.looked && both.looked[0] == both.looked[1] == Stored(s);
    CommitIs(both, 0, p, ok);
    PlanCloses(Stored(s).done, turn);
    StoredIsTombstone(s, Stored(s), PlanFor(Stored(s).done, p), ok);
    MarkedIsSilent(Do(both, Action.Commit(0, p), ok).sys, TurnId(turn), ok);
    LateStopErases(Do(both, Action.Commit(0, p), ok), 1, turn, ok);
  }
}
