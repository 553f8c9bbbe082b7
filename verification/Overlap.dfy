/** Progress hooks and Stop hooks of one turn in any order: a Stop reads the stored state once before its poll
    and commits later, under the lock, when other hooks may have run. */
module Overlap {
  import Closing
  import opened LayOut
  import opened Layout
  import opened Progress
  import opened Spilling
  import opened Stop
  import opened Transcript
  import UnitStability
  import opened Wrappers

  // ------------------------------------------------------------------ the cap

  /** Whether lay_out makes any call: it does unless one over-cap unit is all that is left. */
  predicate Calls(units: seq<Item>, base: nat) {
    NeedsSeal(units, base, DONE_FOOTER) || Fits(From(units, base), DONE_FOOTER)
  }

  lemma CappedKeepsSettled(r: Sys, body: string, ok: Oracle)
    requires Settled(r.trace, r.frozen, r.state.mid)
    ensures var t := Capped(r, body, ok).0;
            && Settled(t.trace, t.frozen, t.state.mid) && r.trace <= t.trace && t.frozen == r.frozen
            && t.trace == r.trace + [CallFor(r.state.mid, body, ok(|r.trace|))]
  {
    FrozenAreOld(r.trace, r.frozen, r.state.mid);
    CallKeepsSettled(r.trace, CallFor(r.state.mid, body, ok(|r.trace|)), r.frozen, r.state.mid);
  }

  lemma LaidKeepsSettled(s: Sys, units: seq<Item>, ok: Oracle)
    requires Settled(s.trace, s.frozen, s.state.mid)
    ensures var t := Laid(s, units, ok).0;
            Settled(t.trace, t.frozen, t.state.mid) && s.trace <= t.trace && s.frozen <= t.frozen
  {
    SpillKeepsSettled(s, units, s.state.base, s.state.mid, DONE_FOOTER, ok);
    SpillOnlyAdds(s, units, s.state.base, s.state.mid, DONE_FOOTER, ok);
    var r := SealedForCap(s, units, ok);
    CappedKeepsSettled(r, CapBody(units, r.state.base), ok);
  }

  /** The first call of lay_out, if it makes one, is on the live message it was given. */
  lemma FirstCall(s: Sys, units: seq<Item>, ok: Oracle)
    ensures var t := Laid(s, units, ok).0;
            && s.trace <= t.trace
            && (Calls(units, s.state.base) ==>
                  |t.trace| > |s.trace| &&
                  (s.state.mid.Some? ==> t.trace[|s.trace|].Edit? && t.trace[|s.trace|].id == s.state.mid.value))
            && (!Calls(units, s.state.base) ==> t.trace == s.trace && t.frozen == s.frozen)
  {
    LaidOnlyAdds(s, units, ok);
    if NeedsSeal(units, s.state.base, DONE_FOOTER) {
      FirstSealCall(s, units, ok);
    }
  }

  lemma FirstSealCall(s: Sys, units: seq<Item>, ok: Oracle)
    requires NeedsSeal(units, s.state.base, DONE_FOOTER)
    ensures var r := SpillFrom(s, units, s.state.base, s.state.mid, DONE_FOOTER, ok);
            s.trace + [CallFor(s.state.mid, NextSeal(units, s.state.base).body, ok(|s.trace|))] <= r.sys.trace
  {
    var base, mid := s.state.base, s.state.mid;
    if ok(|s.trace|) {
      var t := SealOnce(s, units, base, mid, ok);
      var op, seal := SealOnceFacts(s, units, base, mid, ok);
      SpillOnlyAdds(t.sys, units, t.base, None, DONE_FOOTER, ok);
    }
  }

  // ------------------------------------------------------------------ one commit

  /** The state a commit works on: the stored one, or what its Stop read before if there is none. */
  function Start(s: Sys, first: TurnState): TurnState {
    s.store.GetOr(first)
  }

  lemma AfterCapKeepsSettled(laid: Sys, plan: Plan, covered: bool, ok: Oracle)
    requires plan.Close? && Settled(laid.trace, laid.frozen, laid.state.mid)
    ensures var t := AfterCap(laid, plan, covered, ok);
            OnlySends(laid, t) && Settled(t.trace, t.frozen, Stored(t).mid)
  {
    AfterCapOnlySends(laid, plan, covered, ok);
    SendsKeepSettled(laid, AfterCap(laid, plan, covered, ok), laid.state.mid);
  }

  /** A commit keeps every frozen message as it is when the state it works on has a live message that is not
      frozen, or none. */
  lemma CommitKeepsSettled(s: Sys, first: TurnState, plan: Plan, ok: Oracle)
    requires Settled(s.trace, s.frozen, Stored(s).mid) && Settled(s.trace, s.frozen, Start(s, first).mid)
    ensures var t := Committed(s, first, plan, ok);
            Settled(t.trace, t.frozen, Stored(t).mid) && s.trace <= t.trace && s.frozen <= t.frozen
  {
    match plan {
      case Skip =>
      case Refuse(reason) =>
        FailedOnlySends(s, reason, ok);
        SendsKeepSettled(s, Failed(s, reason, ok), None);
      case Close(_, _, _) =>
        var loaded := s.(state := Start(s, first));
        LaidKeepsSettled(loaded, UnitsToCap(plan), ok);
        var (laid, covered) := Laid(loaded, UnitsToCap(plan), ok);
        AfterCapKeepsSettled(laid, plan, covered, ok);
    }
  }

  /** A Stop that read a live message which was frozen since, with no stored state left to tell it. */
  predicate Stale(s: Sys, first: TurnState) {
    s.store.None? && first.mid.Some? && Names(s.frozen, first.mid.value)
  }

  /** A commit edits a frozen message if and only if its Stop is stale and lay_out makes a call. */
  lemma CommitEditsFrozenIff(s: Sys, first: TurnState, plan: Plan, ok: Oracle)
    requires plan.Close? && Settled(s.trace, s.frozen, Stored(s).mid)
    requires first.mid.Some? ==> IsSent(s.trace, first.mid.value)
    ensures (forall i | 0 <= i < |s.frozen| ::
               Untouched(Committed(s, first, plan, ok).trace, |s.trace|, s.frozen[i].id)) <==>
            !(Stale(s, first) && Calls(UnitsToCap(plan), first.base))
  {
    var t := Committed(s, first, plan, ok);
    var loaded := s.(state := Start(s, first));
    var (laid, covered) := Laid(loaded, UnitsToCap(plan), ok);
    FirstCall(loaded, UnitsToCap(plan), ok);
    AfterCapOnlySends(laid, plan, covered, ok);
    if !Stale(s, first) {
      CommitKeepsSettled(s, first, plan, ok);
      FrozenLeftAlone(s, t, Stored(s).mid, Stored(t).mid);
    } else if Calls(UnitsToCap(plan), first.base) {
      assert t.trace[|s.trace|] == laid.trace[|s.trace|];
      var i :| 0 <= i < |s.frozen| && s.frozen[i].id == first.mid.value;
      assert !Untouched(t.trace, |s.trace|, s.frozen[i].id);
    }
  }

  // ------------------------------------------------------------------ every order of steps

  /** The shared state, and what each Stop that is under way read before its poll. */
  datatype World = World(sys: Sys, looked: map<nat, TurnState>)

  datatype Action = Fire(event: Event) | Look(t: nat) | Commit(t: nat, polled: Polled)

  function Do(w: World, a: Action, ok: Oracle): World {
    match a
    case Fire(event) => w.(sys := Step(w.sys, event, ok))
    case Look(t) => w.(looked := w.looked[t := Stored(w.sys)])
    case Commit(t, polled) =>
      if t !in w.looked then w
      else w.(sys := Committed(w.sys, w.looked[t], PlanFor(w.looked[t].done, polled), ok))
  }

  function DoAll(w: World, actions: seq<Action>, ok: Oracle): World
    decreases |actions|
  {
    if actions == [] then w else DoAll(Do(w, actions[0], ok), actions[1..], ok)
  }

  predicate IsStale(w: World, a: Action) {
    a.Commit? && a.t in w.looked && Stale(w.sys, w.looked[a.t])
  }

  predicate NoneStale(w: World, actions: seq<Action>, ok: Oracle)
    decreases |actions|
  {
    actions != [] ==> !IsStale(w, actions[0]) && NoneStale(Do(w, actions[0], ok), actions[1..], ok)
  }

  ghost predicate Sound(w: World) {
    && Settled(w.sys.trace, w.sys.frozen, Stored(w.sys).mid)
    && forall t | t in w.looked && w.looked[t].mid.Some? :: IsSent(w.sys.trace, w.looked[t].mid.value)
  }

  lemma ActionKeepsSound(w: World, a: Action, ok: Oracle)
    requires Sound(w) && !IsStale(w, a)
    ensures var w' := Do(w, a, ok);
            Sound(w') && w.sys.trace <= w'.sys.trace && w.sys.frozen <= w'.sys.frozen
  {
    match a
    case Fire(event) => StepKeepsSettled(w.sys, event, ok);
    case Look(_) =>
    case Commit(t, polled) =>
      if t in w.looked {
        CommitKeepsSettled(w.sys, w.looked[t], PlanFor(w.looked[t].done, polled), ok);
      }
  }

  lemma {:induction false} ActionsKeepSound(w: World, actions: seq<Action>, ok: Oracle)
    requires Sound(w) && NoneStale(w, actions, ok)
    ensures var v := DoAll(w, actions, ok);
            Sound(v) && w.sys.trace <= v.sys.trace && w.sys.frozen <= v.sys.frozen
    decreases |actions|
  {
    if actions != [] {
      ActionKeepsSound(w, actions[0], ok);
      ActionsKeepSound(Do(w, actions[0], ok), actions[1..], ok);
    }
  }

  /** In every order of progress steps and of any number of overlapping Stops none of which is stale, under any
      failures, a message once frozen is never edited again and keeps its text. */
  lemma FrozenStaysFrozen(w: World, actions: seq<Action>, ok: Oracle)
    requires Sound(w) && NoneStale(w, actions, ok)
    ensures forall i | 0 <= i < |w.sys.frozen| :: LeftAlone(w.sys, DoAll(w, actions, ok).sys, w.sys.frozen[i])
  {
    ActionsKeepSound(w, actions, ok);
    var v := DoAll(w, actions, ok);
    FrozenLeftAlone(w.sys, v.sys, Stored(w.sys).mid, Stored(v.sys).mid);
  }

  /** How a Stop goes stale: it reads the live message, a progress step freezes that message, another Stop
      refuses and so clears the stored state, and the first one commits. The frozen message is edited. */
  lemma StaleStopEditsFrozen(s: Sys, ev: Event, reason: string, plan: Plan, ok: Oracle)
    requires Settled(s.trace, s.frozen, Stored(s).mid) && Stored(s).mid.Some?
    requires !Finalized(s, ev.turn) && !Rehomes(s, ev)
    requires NeedsSeal(Show(s, ev), Stored(s).base, WORKING_FOOTER) && ok(|s.trace|)
    requires plan.Close? && Calls(UnitsToCap(plan), Stored(s).base)
    ensures var cleared := Committed(Step(s, ev, ok), FRESH, Refuse(reason), ok);
            Names(cleared.frozen, Stored(s).mid.value) &&
            EditsFrozen(cleared, Committed(cleared, Stored(s), plan, ok), Stored(s).mid.value)
  {
    StepFreezesLive(s, ev, ok);
    var stepped := Step(s, ev, ok);
    FailedOnlySends(stepped, reason, ok);
    ClearedEdits(Failed(stepped, reason, ok), Stored(s), plan, ok);
  }

  /** Between s and t a call edited this message, which was frozen. */
  predicate EditsFrozen(s: Sys, t: Sys, id: nat) {
    Names(s.frozen, id) && !Untouched(t.trace, |s.trace|, id)
  }

  lemma ClearedEdits(cleared: Sys, first: TurnState, plan: Plan, ok: Oracle)
    requires plan.Close? && cleared.store.None? && first.mid.Some? && Names(cleared.frozen, first.mid.value)
    requires Calls(UnitsToCap(plan), first.base)
    ensures EditsFrozen(cleared, Committed(cleared, first, plan, ok), first.mid.value)
  {
    CloseEdits(cleared, first, plan, ok);
  }

  /** A stale Stop's first call is on the message it read. */
  lemma CloseEdits(s: Sys, first: TurnState, plan: Plan, ok: Oracle)
    requires plan.Close? && s.store.None? && first.mid.Some? && Calls(UnitsToCap(plan), first.base)
    ensures !Untouched(Committed(s, first, plan, ok).trace, |s.trace|, first.mid.value)
  {
    var loaded := s.(state := first);
    var (laid, covered) := Laid(loaded, UnitsToCap(plan), ok);
    FirstCall(loaded, UnitsToCap(plan), ok);
    AfterCapOnlySends(laid, plan, covered, ok);
    assert Committed(s, first, plan, ok).trace[|s.trace|] == laid.trace[|s.trace|];
  }

  lemma StepFreezesLive(s: Sys, ev: Event, ok: Oracle)
    requires Stored(s).mid.Some? && !Finalized(s, ev.turn) && !Rehomes(s, ev)
    requires NeedsSeal(Show(s, ev), Stored(s).base, WORKING_FOOTER) && ok(|s.trace|)
    ensures Names(Step(s, ev, ok).frozen, Stored(s).mid.value)
  {
    var show, base, mid := Show(s, ev), Stored(s).base, Stored(s).mid;
    var t := SealOnce(Loaded(s, ev), show, base, mid, ok);
    var op, seal := SealOnceFacts(Loaded(s, ev), show, base, mid, ok);
    SpillOnlyAdds(t.sys, show, t.base, None, WORKING_FOOTER, ok);
    TailFacts(Sealed(s, ev, ok), show, |UnitStability.TurnUnits(ev.turn)|, ok);
    var frozen := Step(s, ev, ok).frozen;
    assert s.frozen + [seal] <= frozen;
    assert frozen[|s.frozen|].id == mid.value;
  }

  // ------------------------------------------------------------------ two Stops of one turn

  /** After a turn's tombstone is stored, another Stop of the turn makes no call if and only if it read the
      tombstone before its poll - or a reply had delivered the answer and one over-cap line is all that is
      left to cap. */
  lemma SecondStopSilentIff(t: Sys, first: TurnState, turn: seq<Row>, ok: Oracle)
    requires TurnId(turn).Some? && t.store.Some? && Stored(t).done == TurnId(turn) && Closing.Flushed(turn)
    ensures var plan := PlanFor(first.done, Polled(turn, true));
            Committed(t, first, plan, ok).trace == t.trace <==>
            first.done == TurnId(turn) || (Sent(turn) && !Calls(UnitsToCap(plan), Stored(t).base))
  {
    var plan := PlanFor(first.done, Polled(turn, true));
    Closing.FlushedIffClosingIsLast(turn);
    if first.done != TurnId(turn) {
      var (laid, covered) := Laid(t.(state := Stored(t)), UnitsToCap(plan), ok);
      FirstCall(t.(state := Stored(t)), UnitsToCap(plan), ok);
      CloseCallsIff(laid, plan, covered, ok);
    }
  }

  lemma CloseCallsIff(laid: Sys, plan: Plan, covered: bool, ok: Oracle)
    requires plan.Close?
    ensures |AfterCap(laid, plan, covered, ok).trace| >= |laid.trace|
    ensures AfterCap(laid, plan, covered, ok).trace == laid.trace <==> plan.alreadySent
  {
    AfterCapOnlySends(laid, plan, covered, ok);
    DeliveredOnlySends(laid, plan.text, ok);
  }

  /** Two Stops that both read the state before either committed: once the first has left its tombstone, the
      second still posts, unless the answer was sent by a reply and there is nothing to cap. A Stop that reads
      after the first committed makes no call. */
  lemma OverlappingStopsBothPost(s: Sys, turn: seq<Row>, ok: Oracle)
    requires TurnId(turn).Some? && Stored(s).done != TurnId(turn) && Closing.Flushed(turn)
    requires Committed(s, Stored(s), PlanFor(Stored(s).done, Polled(turn, true)), ok).store.Some?
    ensures var plan := PlanFor(Stored(s).done, Polled(turn, true));
            var t := Committed(s, Stored(s), plan, ok);
            && (Committed(t, Stored(s), plan, ok).trace == t.trace <==>
                Sent(turn) && !Calls(UnitsToCap(plan), Stored(t).base))
            && Committed(t, Stored(t), PlanFor(Stored(t).done, Polled(turn, true)), ok).trace == t.trace
  {
    var plan := PlanFor(Stored(s).done, Polled(turn, true));
    Closing.FlushedIffClosingIsLast(turn);
    StoredIsTombstone(s, Stored(s), plan, ok);
    var t := Committed(s, Stored(s), plan, ok);
    SecondStopSilentIff(t, Stored(s), turn, ok);
    SecondStopSilentIff(t, Stored(t), turn, ok);
  }
}
