/** Turns that move to a added message: what was frozen, what was left behind and what is live, read together. */
module Homes {
  import Content
  import Following
  import LayOut
  import opened Layout
  import Lists
  import Overlap
  import opened Progress
  import Rehoming
  import opened Spilling
  import Streamed
  import Text
  import opened Transcript
  import opened UnitStability
  import Widths
  import opened Wrappers

  // ------------------------------------------------------------------ the history of a turn that moves

  /** The last call on a message. */
  function LastCall(trace: seq<Op>, id: nat): nat {
    if trace == [] then 0
    else
      var n := |trace| - 1;
      if n == id || (trace[n].Edit? && trace[n].id == id) then n else LastCall(trace[..n], id)
  }

  lemma {:induction false} LastCallIs(trace: seq<Op>, id: nat)
    requires id < |trace|
    ensures id <= LastCall(trace, id) < |trace| && Untouched(trace, LastCall(trace, id) + 1, id)
  {
    var n := |trace| - 1;
    if n != id && !(trace[n].Edit? && trace[n].id == id) {
      LastCallIs(trace[..n], id);
    }
  }

  /** A re-home takes effect: a seal of the added message goes through, or its send does. */
  predicate Moves(s: Sys, ev: Event, ok: Oracle) {
    var r := Sealed(s, ev, ok);
    && Rehomes(s, ev) && !Finalized(s, ev.turn)
    && (r.base > StartBase(s, ev) || (r.base < |Show(s, ev)| && ok(|r.sys.trace|)))
  }

  /** The live message is left behind with the units up to the new start, and counts as frozen from then on. */
  function Left(s: Sys, start: nat): Sys
    requires Stored(s).mid.Some?
  {
    var st, mid := Stored(s), Stored(s).mid.value;
    s.(store := Some(st.(base := start, mid := None)),
       frozen := s.frozen + [Seal(mid, LastCall(s.trace, mid), st.base, start)])
  }

  /** A turn with its history: the frozen messages and those left behind, and which are the latter. */
  datatype Turn = Turn(sys: Sys, left: set<nat>)

  function HomeStep(t: Turn, ev: Event, ok: Oracle): Turn {
    if Moves(t.sys, ev, ok) then
      Turn(Step(Left(t.sys, StartBase(t.sys, ev)), ev, ok), t.left + {Stored(t.sys).mid.value})
    else Turn(Step(t.sys, ev, ok), t.left)
  }

  function HomeRun(t: Turn, events: seq<Event>, ok: Oracle): Turn
    decreases |events|
  {
    if events == [] then t else HomeRun(HomeStep(t, events[0], ok), events[1..], ok)
  }

  /** The same calls and the same stored state; only the history may differ. */
  predicate Alike(s: Sys, t: Sys) {
    s.trace == t.trace && s.store == t.store
  }

  /** The same state but for the boundary and the live message. */
  predicate StateAlike(a: TurnState, b: TurnState) {
    a.(base := 0, mid := None) == b.(base := 0, mid := None)
  }

  lemma {:induction false} SpillAlike(s: Sys, t: Sys, show: seq<Item>, base: nat, mid: Option<nat>, footer: string,
                                      ok: Oracle)
    requires s.trace == t.trace && StateAlike(s.state, t.state)
    ensures var p, q := SpillFrom(s, show, base, mid, footer, ok), SpillFrom(t, show, base, mid, footer, ok);
            && p.sys.trace == q.sys.trace && p.base == q.base && p.mid == q.mid && StateAlike(p.sys.state, q.sys.state)
            && (p.base > base ==> p.sys.store == q.sys.store)
            && (p.base == base ==> p.sys.store == s.store && q.sys.store == t.store)
    decreases if base <= |show| then |show| - base else 0
  {
    if NeedsSeal(show, base, footer) {
      if ok(|s.trace|) {
        var u, v := SealOnce(s, show, base, mid, ok), SealOnce(t, show, base, mid, ok);
        var op, seal := SealOnceFacts(s, show, base, mid, ok);
        var op', seal' := SealOnceFacts(t, show, base, mid, ok);
        SealedAlike(s, t, u, v);
        SpillAlike(u.sys, v.sys, show, u.base, None, footer, ok);
        SpillOnlyAdds(u.sys, show, u.base, None, footer, ok);
      } else {
        var op := SealFailedFacts(s, show, base, mid, ok);
        var op' := SealFailedFacts(t, show, base, mid, ok);
      }
    }
  }

  lemma SealedAlike(s: Sys, t: Sys, u: Spilled, v: Spilled)
    requires StateAlike(s.state, t.state) && u.base == v.base
    requires u.sys.state == s.state.(base := u.base, mid := None) && u.sys.store == Some(u.sys.state)
    requires v.sys.state == t.state.(base := v.base, mid := None) && v.sys.store == Some(v.sys.state)
    ensures u.sys.state == v.sys.state && u.sys.store == v.sys.store
  {
  }

  lemma TailAlike(p: Spilled, q: Spilled, show: seq<Item>, shown: nat, ok: Oracle)
    requires p.sys.trace == q.sys.trace && p.base == q.base && p.mid == q.mid && StateAlike(p.sys.state, q.sys.state)
    ensures var s, t := ShowTail(p, show, shown, ok), ShowTail(q, show, shown, ok);
            && s.trace == t.trace
            && (p.sys.store == q.sys.store ==> s.store == t.store)
            && (p.base < |show| && p.mid == None && ok(|p.sys.trace|) ==> s.store == t.store)
  {
  }

  lemma StepAlike(s: Sys, t: Sys, ev: Event, ok: Oracle)
    requires Alike(s, t)
    ensures Alike(Step(s, ev, ok), Step(t, ev, ok))
    ensures Moves(s, ev, ok) == Moves(t, ev, ok)
  {
    SpillAlike(Loaded(s, ev), Loaded(t, ev), Show(s, ev), StartBase(s, ev), StartMid(s, ev), WORKING_FOOTER, ok);
    SpillOnlyAdds(Loaded(s, ev), Show(s, ev), StartBase(s, ev), StartMid(s, ev), WORKING_FOOTER, ok);
    if !Finalized(s, ev.turn) {
      TailAlike(Sealed(s, ev, ok), Sealed(t, ev, ok), Show(s, ev), |TurnUnits(ev.turn)|, ok);
    }
  }

  /** A step that moves does what the step from the new start does. */
  lemma MoveAlike(s: Sys, ev: Event, ok: Oracle)
    requires Moves(s, ev, ok)
    ensures Alike(Step(Left(s, StartBase(s, ev)), ev, ok), Step(s, ev, ok))
  {
    var start, show := StartBase(s, ev), Show(s, ev);
    var l := Left(s, start);
    assert Show(l, ev) == show && NextLive(l, ev) == NextLive(s, ev);
    SpillAlike(Loaded(s, ev), Loaded(l, ev), show, start, None, WORKING_FOOTER, ok);
    SpillOnlyAdds(Loaded(s, ev), show, start, None, WORKING_FOOTER, ok);
    TailAlike(Sealed(s, ev, ok), Sealed(l, ev, ok), show, |TurnUnits(ev.turn)|, ok);
  }

  /** The history decides nothing: the calls and the stored state are those of the run. */
  lemma {:induction false} HomeRunAlike(t: Turn, s: Sys, events: seq<Event>, ok: Oracle)
    requires Alike(t.sys, s)
    ensures Alike(HomeRun(t, events, ok).sys, RunAll(s, events, ok))
    decreases |events|
  {
    if events != [] {
      StepAlike(t.sys, s, events[0], ok);
      if Moves(t.sys, events[0], ok) {
        MoveAlike(t.sys, events[0], ok);
      }
      HomeRunAlike(HomeStep(t, events[0], ok), Step(s, events[0], ok), events[1..], ok);
    }
  }

  // ------------------------------------------------------------------ what the messages hold

  /** The message holds the whole of its units, under this footer. */
  predicate HoldsWhole(trace: seq<Op>, f: Seal, footer: string, show: seq<Item>) {
    && f.lo < f.hi <= |show|
    && PutsAt(trace, f.at, f.id, RenderHead(show[f.lo..f.hi], footer, OpenFence(show[..f.lo])))
    && |Full(show[f.lo..f.hi], footer, OpenFence(show[..f.lo]))| <= HARD_CAP
  }

  /** A message that was left behind still says that work goes on. */
  function FooterOf(f: Seal, left: set<nat>): string {
    if f.id in left then WORKING_FOOTER else SPILL_FOOTER
  }

  predicate AllWhole(trace: seq<Op>, frozen: seq<Seal>, left: set<nat>, show: seq<Item>) {
    forall i | 0 <= i < |frozen| :: HoldsWhole(trace, frozen[i], FooterOf(frozen[i], left), show)
  }

  /** Everything below the boundary is in a frozen message or in one that was left behind; the rest is as it is. */
  ghost predicate HomeHolds(t: Turn, seen: seq<Item>, show: seq<Item>) {
    && InOrder(t.sys) && Content.Recalls(seen, show, Stored(t.sys).base)
    && AllWhole(t.sys.trace, t.sys.frozen, t.left, seen)
    && (forall id | id in t.left :: Names(t.sys.frozen, id))
  }

  lemma WholeTransfers(trace: seq<Op>, later: seq<Op>, f: Seal, footer: string, base: nat, was: seq<Item>,
                       now: seq<Item>)
    requires HoldsWhole(trace, f, footer, was) && trace <= later && f.hi <= base
    requires base <= |was| && base <= |now| && was[..base] == now[..base]
    ensures HoldsWhole(later, f, footer, now)
  {
    Lists.SamePrefixSameSlice(was, now, base, f.lo, f.hi);
  }

  lemma OldStayWhole(trace: seq<Op>, later: seq<Op>, frozen: seq<Seal>, left: set<nat>, base: nat, was: seq<Item>,
                     now: seq<Item>)
    requires AllWhole(trace, frozen, left, was) && trace <= later && Tiles(frozen, base)
    requires base <= |was| && base <= |now| && was[..base] == now[..base]
    ensures AllWhole(later, frozen, left, now)
  {
    forall i | 0 <= i < |frozen|
      ensures HoldsWhole(later, frozen[i], FooterOf(frozen[i], left), now)
    {
      Content.TileBelow(frozen, base, i);
      WholeTransfers(trace, later, frozen[i], FooterOf(frozen[i], left), base, was, now);
    }
  }

  lemma {:induction false} TilesFromBounds(frozen: seq<Seal>, lo: nat, hi: nat, i: nat)
    requires Streamed.TilesFrom(frozen, lo, hi) && i < |frozen|
    ensures lo <= frozen[i].lo < frozen[i].hi <= hi
  {
    var n := |frozen| - 1;
    Streamed.TilesFromButLast(frozen, lo, hi);
    Streamed.TilesFromAscend(frozen[..n], lo, frozen[n].lo);
    if i < n {
      TilesFromBounds(frozen[..n], lo, frozen[n].lo, i);
    }
  }

  /** A new seal is whole if none of the units is too wide for a message of its own. */
  lemma SealIsWhole(trace: seq<Op>, f: Seal, seen: seq<Item>, now: seq<Item>, base: nat)
    requires Carries(trace, f, seen) && base <= f.lo < f.hi < |now|
    requires Content.Recalls(seen, now, base) && Widths.Uncut(now)
    ensures HoldsWhole(trace, f, SPILL_FOOTER, seen)
  {
    Content.SameNarration(seen, now);
    forall i | f.lo <= i < f.hi
      ensures Widths.FitsAlone(seen, i)
    {
      Content.NewFitsAlone(seen, now, base, i);
    }
    Widths.PackedWholeIff(seen, f.lo, f.hi);
  }

  lemma NewAreWhole(trace: seq<Op>, added: seq<Seal>, seen: seq<Item>, now: seq<Item>, base: nat, hi: nat)
    requires Faithful(trace, added, seen) && Streamed.TilesFrom(added, base, hi) && (added != [] ==> hi < |now|)
    requires Content.Recalls(seen, now, base) && Widths.Uncut(now)
    ensures forall i | 0 <= i < |added| :: HoldsWhole(trace, added[i], SPILL_FOOTER, seen)
  {
    forall i | 0 <= i < |added|
      ensures HoldsWhole(trace, added[i], SPILL_FOOTER, seen)
    {
      TilesFromBounds(added, base, hi, i);
      SealIsWhole(trace, added[i], seen, now, base);
    }
  }

  lemma NewIsNotLeft(trace: seq<Op>, frozen: seq<Seal>, n: nat, left: set<nat>, mid: Option<nat>, i: nat)
    requires n <= i < |frozen| && Settled(trace, frozen, mid) && forall id | id in left :: Names(frozen[..n], id)
    ensures frozen[i].id !in left
  {
    assert forall j | 0 <= j < n :: frozen[..n][j].id == frozen[j].id != frozen[i].id;
    assert !Names(frozen[..n], frozen[i].id);
  }

  lemma StillNamed(frozen: seq<Seal>, n: nat, id: nat)
    requires n <= |frozen| && Names(frozen[..n], id)
    ensures Names(frozen, id)
  {
    var j :| 0 <= j < n && frozen[..n][j].id == id;
    assert frozen[j].id == id;
  }

  /** Old messages and new seals together. */
  lemma OldAndNew(trace: seq<Op>, frozen: seq<Seal>, n: nat, left: set<nat>, mid: Option<nat>, seen: seq<Item>)
    requires n <= |frozen| && Settled(trace, frozen, mid) && forall id | id in left :: Names(frozen[..n], id)
    requires AllWhole(trace, frozen[..n], left, seen)
    requires forall i | 0 <= i < |frozen[n..]| :: HoldsWhole(trace, frozen[n..][i], SPILL_FOOTER, seen)
    ensures AllWhole(trace, frozen, left, seen)
    ensures forall id | id in left :: Names(frozen, id)
  {
    forall i | 0 <= i < |frozen|
      ensures HoldsWhole(trace, frozen[i], FooterOf(frozen[i], left), seen)
    {
      if i < n {
        assert frozen[..n][i] == frozen[i];
      } else {
        assert frozen[n..][i - n] == frozen[i];
        NewIsNotLeft(trace, frozen, n, left, mid, i);
      }
    }
    forall id | id in left
      ensures Names(frozen, id)
    {
      StillNamed(frozen, n, id);
    }
  }

  // ------------------------------------------------------------------ a step at home

  /** What a step that does not re-home adds. */
  lemma StepAdds(s: Sys, seen: seq<Item>, ev: Event, ok: Oracle)
    requires InOrder(s) && !Rehomes(s, ev) && !Finalized(s, ev.turn)
    requires Content.Recalls(seen, Show(s, ev), Stored(s).base)
    ensures var t, now, n := Step(s, ev, ok), Show(s, ev), |s.frozen|;
            && InOrder(t) && s.trace <= t.trace && s.frozen <= t.frozen
            && Faithful(t.trace, t.frozen[n..], seen)
            && Stored(s).base <= Stored(t).base && (Stored(t).base > Stored(s).base ==> Stored(t).base < |now|)
            && Content.Recalls(seen, now, Stored(t).base)
  {
    var now, base, mid, n := Show(s, ev), Stored(s).base, Stored(s).mid, |s.frozen|;
    var r := Sealed(s, ev, ok);
    StepKeepsOrder(s, ev, ok);
    Content.SpillSame(Loaded(s, ev), seen, now, base, mid, WORKING_FOOTER, ok);
    Streamed.SpillAddsFaithful(Loaded(s, ev), n, seen, base, mid, WORKING_FOOTER, ok);
    SpillOnlyAdds(Loaded(s, ev), now, base, mid, WORKING_FOOTER, ok);
    TailFacts(r, now, |TurnUnits(ev.turn)|, ok);
    Streamed.LaterKeepsFaithful(r.sys.trace, Step(s, ev, ok).trace, r.sys.frozen[n..], seen);
    Content.RecallsPart(seen, now, base, r.base, |now|);
  }

  lemma HomeAfter(t: Turn, u: Sys, seen: seq<Item>, now: seq<Item>)
    requires Tiles(t.sys.frozen, Stored(t.sys).base) && InOrder(u) && t.sys.frozen <= u.frozen
    requires AllWhole(u.trace, t.sys.frozen, t.left, seen) && forall id | id in t.left :: Names(t.sys.frozen, id)
    requires Faithful(u.trace, u.frozen[|t.sys.frozen|..], seen) && Widths.Uncut(now)
    requires Stored(u).base > Stored(t.sys).base ==> Stored(u).base < |now|
    requires Stored(u).base >= Stored(t.sys).base
    requires Content.Recalls(seen, now, Stored(t.sys).base) && Content.Recalls(seen, now, Stored(u).base)
    ensures HomeHolds(Turn(u, t.left), seen, now)
  {
    var n, base := |t.sys.frozen|, Stored(t.sys).base;
    assert u.frozen[..n] == t.sys.frozen;
    Streamed.TilesAre(u.frozen, n, base, Stored(u).base);
    if u.frozen[n..] != [] {
      TilesFromBounds(u.frozen[n..], base, Stored(u).base, 0);
    }
    NewAreWhole(u.trace, u.frozen[n..], seen, now, base, Stored(u).base);
    OldAndNew(u.trace, u.frozen, n, t.left, Stored(u).mid, seen);
  }

  /** A step that does not re-home keeps what is held, and holds what it shows. */
  lemma StepKeepsHome(t: Turn, seen: seq<Item>, show: seq<Item>, ev: Event, ok: Oracle)
    requires HomeHolds(t, seen, show) && !Rehomes(t.sys, ev) && !Finalized(t.sys, ev.turn)
    requires Content.SlotsStay(show, Show(t.sys, ev), Stored(t.sys).base) && Widths.Uncut(Show(t.sys, ev))
    ensures Stored(t.sys).base <= |seen|
    ensures HomeHolds(Turn(Step(t.sys, ev, ok), t.left), Content.Updated(seen, Show(t.sys, ev), Stored(t.sys).base),
                      Show(t.sys, ev))
  {
    var s, now, base := t.sys, Show(t.sys, ev), Stored(t.sys).base;
    Content.UpdatedRecalls(seen, show, now, base);
    var updated, u := Content.Updated(seen, now, base), Step(s, ev, ok);
    StepAdds(s, updated, ev, ok);
    OldStayWhole(s.trace, u.trace, s.frozen, t.left, base, seen, updated);
    HomeAfter(t, u, updated, now);
  }

  // ------------------------------------------------------------------ a step that moves

  /** The live message shows these units, from the boundary to the new start, whole; its last call went through. */
  predicate LeftBehind(s: Sys, show: seq<Item>, start: nat, was: seq<Item>)
    requires Stored(s).mid.Some?
  {
    var base, mid := Stored(s).base, Stored(s).mid.value;
    && base < start <= |show| && |was| == start - base && SameSlots(was, show[base..start])
    && PutsAt(s.trace, LastCall(s.trace, mid), mid, RenderHead(was, WORKING_FOOTER, OpenFence(show[..base])))
    && |Full(was, WORKING_FOOTER, OpenFence(show[..base]))| <= HARD_CAP
  }

  /** The live message shows every unit up to the new start as it is or, if a tool's or a subagent's, was. */
  ghost predicate LeavesWhole(s: Sys, show: seq<Item>, start: nat) {
    Stored(s).mid.Some? && exists was :: LeftBehind(s, show, start, was)
  }

  /** The units held, with those left behind as they were. */
  function WithLeft(seen: seq<Item>, was: seq<Item>, now: seq<Item>, base: nat): seq<Item>
    requires base <= |seen| && base + |was| <= |now|
  {
    seen[..base] + was + now[base + |was|..]
  }

  lemma LeftInOrder(s: Sys, start: nat)
    requires InOrder(s) && Stored(s).mid.Some? && Stored(s).base < start
    requires exists body :: PutsAt(s.trace, LastCall(s.trace, Stored(s).mid.value), Stored(s).mid.value, body)
    ensures InOrder(Left(s, start)) && Names(Left(s, start).frozen, Stored(s).mid.value)
  {
    var mid, frozen := Stored(s).mid.value, Left(s, start).frozen;
    LastCallIs(s.trace, mid);
    assert frozen[|s.frozen|].id == mid;
    assert IsFinal(s.trace, frozen[|s.frozen|]);
    forall i | 0 <= i < |s.frozen|
      ensures IsFinal(s.trace, frozen[i]) && frozen[i].id != mid
    {
      assert frozen[i] == s.frozen[i];
    }
  }

  lemma WithLeftRecalls(seen: seq<Item>, show: seq<Item>, was: seq<Item>, now: seq<Item>, base: nat, start: nat)
    requires Content.Recalls(seen, show, base) && Content.SlotsStay(show, now, start)
    requires base <= start && |was| == start - base && SameSlots(was, show[base..start])
    ensures base <= |seen|
    ensures Content.Recalls(WithLeft(seen, was, now, base), now, start)
    ensures WithLeft(seen, was, now, base)[..base] == seen[..base]
    ensures WithLeft(seen, was, now, base)[base..start] == was
  {
    var held := WithLeft(seen, was, now, base);
    forall i | 0 <= i < |held|
      ensures held[i].kind == now[i].kind && (held[i].kind.Narration? ==> held[i] == now[i])
    {
      if i < start {
        assert show[..start][i] == show[i] && now[..start][i] == now[i];
        if i >= base {
          assert show[base..start][i - base] == show[i] && held[i] == was[i - base];
        }
      }
    }
  }

  lemma OneMoreWhole(trace: seq<Op>, frozen: seq<Seal>, f: Seal, left: set<nat>, seen: seq<Item>)
    requires AllWhole(trace, frozen, left, seen) && HoldsWhole(trace, f, WORKING_FOOTER, seen) && !Names(frozen, f.id)
    ensures AllWhole(trace, frozen + [f], left + {f.id}, seen)
  {
    forall i | 0 <= i < |frozen|
      ensures HoldsWhole(trace, frozen[i], FooterOf(frozen[i], left + {f.id}), seen)
    {
      assert frozen[i].id != f.id;
    }
  }

  lemma LeftIsWhole(t: Turn, seen: seq<Item>, show: seq<Item>, start: nat, was: seq<Item>, held: seq<Item>)
    requires HomeHolds(t, seen, show) && Stored(t.sys).mid.Some? && LeftBehind(t.sys, show, start, was)
    requires var base := Stored(t.sys).base;
             base <= |seen| && start <= |held| && held[..base] == seen[..base] && held[base..start] == was
    ensures AllWhole(t.sys.trace, Left(t.sys, start).frozen, t.left + {Stored(t.sys).mid.value}, held)
  {
    var s, base, mid := t.sys, Stored(t.sys).base, Stored(t.sys).mid.value;
    OldStayWhole(s.trace, s.trace, s.frozen, t.left, base, seen, held);
    Content.RecallsOpen(seen, show, base, base);
    OneMoreWhole(s.trace, s.frozen, Seal(mid, LastCall(s.trace, mid), base, start), t.left, held);
  }

  function Moved(t: Turn, start: nat): Turn
    requires Stored(t.sys).mid.Some?
  {
    Turn(Left(t.sys, start), t.left + {Stored(t.sys).mid.value})
  }

  lemma MovedHolds(t: Turn, seen: seq<Item>, show: seq<Item>, now: seq<Item>, start: nat, was: seq<Item>)
    requires HomeHolds(t, seen, show) && Stored(t.sys).mid.Some? && LeftBehind(t.sys, show, start, was)
    requires Content.SlotsStay(show, now, start)
    ensures Stored(t.sys).base <= |seen|
    ensures HomeHolds(Moved(t, start), WithLeft(seen, was, now, Stored(t.sys).base), now)
  {
    var base := Stored(t.sys).base;
    WithLeftRecalls(seen, show, was, now, base, start);
    LeftInOrder(t.sys, start);
    LeftIsWhole(t, seen, show, start, was, WithLeft(seen, was, now, base));
    forall id | id in t.left
      ensures Names(Left(t.sys, start).frozen, id)
    {
      var i :| 0 <= i < |t.sys.frozen| && t.sys.frozen[i].id == id;
      assert Left(t.sys, start).frozen[i].id == id;
    }
  }

  lemma NothingNew(seen: seq<Item>, now: seq<Item>, base: nat)
    requires Content.Recalls(seen, now, base)
    ensures base <= |seen| && Content.Updated(seen, now, base) == seen && Content.SlotsStay(now, now, base)
  {
    assert seen[..base] + seen[base..] == seen;
  }

  /** A step from what it shows anyway. */
  lemma StepSettlesIn(t: Turn, seen: seq<Item>, ev: Event, ok: Oracle)
    requires HomeHolds(t, seen, Show(t.sys, ev)) && !Rehomes(t.sys, ev) && !Finalized(t.sys, ev.turn)
    requires Widths.Uncut(Show(t.sys, ev))
    ensures HomeHolds(Turn(Step(t.sys, ev, ok), t.left), seen, Show(t.sys, ev))
  {
    NothingNew(seen, Show(t.sys, ev), Stored(t.sys).base);
    StepKeepsHome(t, seen, Show(t.sys, ev), ev, ok);
  }

  /** A step that moves, and leaves the live message with all that was shown on it, loses nothing. */
  lemma MoveKeepsHome(t: Turn, seen: seq<Item>, show: seq<Item>, ev: Event, ok: Oracle) returns (held: seq<Item>)
    requires HomeHolds(t, seen, show) && Moves(t.sys, ev, ok)
    requires LeavesWhole(t.sys, show, StartBase(t.sys, ev))
    requires Content.SlotsStay(show, Show(t.sys, ev), StartBase(t.sys, ev)) && Widths.Uncut(Show(t.sys, ev))
    ensures HomeHolds(HomeStep(t, ev, ok), held, Show(t.sys, ev))
  {
    var start, now := StartBase(t.sys, ev), Show(t.sys, ev);
    var was :| LeftBehind(t.sys, show, start, was);
    MovedHolds(t, seen, show, now, start, was);
    held := WithLeft(seen, was, now, Stored(t.sys).base);
    FromNewStart(t, ev, ok);
    StepSettlesIn(Moved(t, start), held, ev, ok);
  }

  lemma FromNewStart(t: Turn, ev: Event, ok: Oracle)
    requires Moves(t.sys, ev, ok)
    ensures var moved := Moved(t, StartBase(t.sys, ev));
            && HomeStep(t, ev, ok) == Turn(Step(moved.sys, ev, ok), moved.left)
            && Show(moved.sys, ev) == Show(t.sys, ev) && Stored(moved.sys).base == StartBase(t.sys, ev)
            && !Rehomes(moved.sys, ev) && !Finalized(moved.sys, ev.turn)
  {
  }

  /** A re-home that does not take effect changes nothing that is stored. */
  lemma StayKeepsHome(t: Turn, seen: seq<Item>, show: seq<Item>, ev: Event, ok: Oracle)
    requires HomeHolds(t, seen, show) && Rehomes(t.sys, ev) && !Moves(t.sys, ev, ok) && !Finalized(t.sys, ev.turn)
    requires Content.SlotsStay(show, Show(t.sys, ev), Stored(t.sys).base)
    ensures Stored(t.sys).base <= |seen|
    ensures HomeHolds(HomeStep(t, ev, ok), Content.Updated(seen, Show(t.sys, ev), Stored(t.sys).base), Show(t.sys, ev))
  {
    var s, now, base, u := t.sys, Show(t.sys, ev), Stored(t.sys).base, Step(t.sys, ev, ok);
    Content.UpdatedRecalls(seen, show, now, base);
    StepKeepsSettled(s, ev, ok);
    SpillOnlyAdds(Loaded(s, ev), now, StartBase(s, ev), None, WORKING_FOOTER, ok);
    assert u.frozen == s.frozen && u.store == s.store;
    OldStayWhole(s.trace, u.trace, s.frozen, t.left, base, seen, Content.Updated(seen, now, base));
  }

  lemma LastCallIsNew(trace: seq<Op>, op: Op, id: nat)
    requires (op.Edit? && op.id == id) || id == |trace|
    ensures LastCall(trace + [op], id) == |trace|
  {
  }

  lemma WholeTailBody(show: seq<Item>, base: nat)
    requires base < |show| && (base + 1 == |show| || Fits(show[base..], WORKING_FOOTER))
    ensures LiveBody(show, base) == RenderHead(show[base..], WORKING_FOOTER, OpenFence(show[..base]))
  {
    RenderDropsNothingIffFits(show[base..], WORKING_FOOTER, OpenFence(show[..base]));
    assert show[base..][0..] == show[base..];
  }

  lemma CallLeavesWhole(t: Sys, trace: seq<Op>, mid: Option<nat>, show: seq<Item>, body: string)
    requires t.trace == trace + [CallFor(mid, body, true)] && Stored(t).mid == Some(mid.GetOr(|trace|))
    requires Stored(t).base < |show|
    requires body == RenderHead(show[Stored(t).base..], WORKING_FOOTER, OpenFence(show[..Stored(t).base]))
    requires |Full(show[Stored(t).base..], WORKING_FOOTER, OpenFence(show[..Stored(t).base]))| <= HARD_CAP
    ensures LeavesWhole(t, show, |show|)
  {
    var base := Stored(t).base;
    assert PutsAt(t.trace, |trace|, mid.GetOr(|trace|), body);
    LastCallIsNew(trace, CallFor(mid, body, true), mid.GetOr(|trace|));
    assert show[base..|show|] == show[base..];
    assert LeftBehind(t, show, |show|, show[base..]);
  }

  lemma TailIsLeftWhole(r: Spilled, show: seq<Item>, ok: Oracle)
    requires r.base < |show| && ok(|r.sys.trace|)
    requires r.mid.Some? ==> r.sys.state.lastBody != Some(LiveBody(show, r.base))
    requires r.base + 1 == |show| || Fits(show[r.base..], WORKING_FOOTER)
    requires |Full(show[r.base..], WORKING_FOOTER, OpenFence(show[..r.base]))| <= HARD_CAP
    ensures var t := ShowTail(r, show, |show|, ok); Stored(t).shown == |show| && LeavesWhole(t, show, |show|)
  {
    var t := ShowTail(r, show, |show|, ok);
    WholeTailBody(show, r.base);
    assert t.trace == r.sys.trace + [CallFor(r.mid, LiveBody(show, r.base), true)];
    CallLeavesWhole(t, r.sys.trace, r.mid, show, LiveBody(show, r.base));
  }

  /** So does any re-home, over a transcript that has not shrunk, from a step that saved its tail when nothing was
      streaming, whose call went through and whose tail fitted and was not cut. */
  lemma SavedTailIsLeftWhole(s: Sys, ev: Event, ok: Oracle)
    requires SavesTail(s, ev, ok) && ok(|Sealed(s, ev, ok).sys.trace|) && NextLive(s, ev).1 == ""
    requires var tail := Rehoming.Tail(s, ev, ok);
             && (|tail| == 1 || Fits(tail, WORKING_FOOTER))
             && |Full(tail, WORKING_FOOTER, Rehoming.TailOpen(s, ev, ok))| <= HARD_CAP
    ensures var t := Step(s, ev, ok);
            && Stored(t).shown == |TurnUnits(ev.turn)| == |Show(s, ev)|
            && LeavesWhole(t, Show(s, ev), |Show(s, ev)|)
  {
    assert Show(s, ev) == TurnUnits(ev.turn);
    TailIsLeftWhole(Sealed(s, ev, ok), Show(s, ev), ok);
  }

  // ------------------------------------------------------------------ a turn that moves

  /** Every move of the run leaves the live message with all that was shown on it. */
  ghost predicate MovesWell(t: Turn, show: seq<Item>, events: seq<Event>, ok: Oracle)
    decreases |events|
  {
    events != [] ==>
      (Moves(t.sys, events[0], ok) ==> LeavesWhole(t.sys, show, StartBase(t.sys, events[0]))) &&
      MovesWell(HomeStep(t, events[0], ok), Show(t.sys, events[0]), events[1..], ok)
  }

  lemma StepShown(s: Sys, ev: Event, ok: Oracle)
    ensures Stored(Step(s, ev, ok)).shown in {Stored(s).shown, |TurnUnits(ev.turn)|}
  {
    SpillOnlyAdds(Loaded(s, ev), Show(s, ev), StartBase(s, ev), StartMid(s, ev), WORKING_FOOTER, ok);
  }

  lemma HomeStepAlike(t: Turn, s: Sys, ev: Event, ok: Oracle)
    requires Alike(t.sys, s)
    ensures Alike(HomeStep(t, ev, ok).sys, Step(s, ev, ok)) && Show(t.sys, ev) == Show(s, ev)
  {
    StepAlike(t.sys, s, ev, ok);
    if Moves(t.sys, ev, ok) {
      MoveAlike(t.sys, ev, ok);
    }
  }

  lemma SlotsUpto(turn: seq<Row>, later: seq<Row>, text: string, next: string, n: nat)
    requires turn <= later && n <= |TurnUnits(turn)|
    ensures Content.SlotsStay(TurnUnits(turn) + LiveUnits(text), TurnUnits(later) + LiveUnits(next), n)
    ensures |TurnUnits(turn)| <= |TurnUnits(later)|
  {
    AppendKeepsSlots(turn, later[|turn|..]);
    assert turn + later[|turn|..] == later;
    var a, b := TurnUnits(turn), TurnUnits(later);
    assert (a + LiveUnits(text))[..n] == a[..n] && (b + LiveUnits(next))[..n] == b[..|a|][..n];
  }

  /** One step of a turn that is told in order. */
  lemma StepHoldsHome(t: Turn, seen: seq<Item>, show: seq<Item>, ev: Event, ok: Oracle) returns (held: seq<Item>)
    requires HomeHolds(t, seen, show) && Content.HoldsLast(t.sys, show) && !Finalized(t.sys, ev.turn)
    requires Content.Evolved(show, Show(t.sys, ev)) && Widths.Uncut(Show(t.sys, ev))
    requires Moves(t.sys, ev, ok) ==> LeavesWhole(t.sys, show, StartBase(t.sys, ev)) &&
                                      Content.SlotsStay(show, Show(t.sys, ev), StartBase(t.sys, ev))
    ensures HomeHolds(HomeStep(t, ev, ok), held, Show(t.sys, ev))
    ensures Content.HoldsLast(HomeStep(t, ev, ok).sys, Show(t.sys, ev))
  {
    var now, base := Show(t.sys, ev), Stored(t.sys).base;
    Content.EvolvedStays(show, now, base);
    if Moves(t.sys, ev, ok) {
      held := MoveKeepsHome(t, seen, show, ev, ok);
      MoveHoldsLast(t, ev, ok);
    } else if Rehomes(t.sys, ev) {
      StayKeepsHome(t, seen, show, ev, ok);
      StayHoldsLast(t.sys, ev, ok);
      held := Content.Updated(seen, now, base);
    } else {
      StepKeepsHome(t, seen, show, ev, ok);
      Content.StepHoldsLast(t.sys, ev, ok);
      held := Content.Updated(seen, now, base);
    }
  }

  lemma MoveHoldsLast(t: Turn, ev: Event, ok: Oracle)
    requires Moves(t.sys, ev, ok)
    ensures Content.HoldsLast(HomeStep(t, ev, ok).sys, Show(t.sys, ev))
  {
    SpillOnlyAdds(Loaded(t.sys, ev), Show(t.sys, ev), StartBase(t.sys, ev), None, WORKING_FOOTER, ok);
    FromNewStart(t, ev, ok);
    Content.StepHoldsLast(Moved(t, StartBase(t.sys, ev)).sys, ev, ok);
  }

  lemma StayHoldsLast(s: Sys, ev: Event, ok: Oracle)
    requires Rehomes(s, ev) && !Moves(s, ev, ok)
    ensures Step(s, ev, ok).store == s.store
  {
    SpillOnlyAdds(Loaded(s, ev), Show(s, ev), StartBase(s, ev), None, WORKING_FOOTER, ok);
  }

  /** The messages, with the history, hold what a run that is told in order has shown so far. */
  ghost predicate AtHome(t: Turn, s: Sys, turn: seq<Row>, speech: Following.Speech, seen: seq<Item>) {
    && Alike(t.sys, s) && Following.Tracks(s, turn, speech) && Stored(s).shown <= |TurnUnits(turn)|
    && HomeHolds(t, seen, Following.Telling(turn, speech))
    && Content.HoldsLast(t.sys, Following.Telling(turn, speech))
  }

  lemma StepIsAtHome(t: Turn, s: Sys, turn: seq<Row>, speech: Following.Speech, seen: seq<Item>, ev: Event, ok: Oracle)
    returns (held: seq<Item>)
    requires AtHome(t, s, turn, speech, seen) && Following.Tells(s, turn, speech, ev, ok)
    requires Moves(t.sys, ev, ok) ==> LeavesWhole(t.sys, Following.Telling(turn, speech), StartBase(t.sys, ev))
    ensures AtHome(HomeStep(t, ev, ok), Step(s, ev, ok), ev.turn, Following.Kept(s, speech, ev, ok), held)
    ensures Following.Telling(ev.turn, Following.Kept(s, speech, ev, ok)) == Show(t.sys, ev)
  {
    Following.TellsOn(s, turn, speech, ev, ok);
    Following.NextIsPending(s, turn, speech, ev);
    HomeStepAlike(t, s, ev, ok);
    StepShown(s, ev, ok);
    SlotsUpto(turn, ev.turn, Following.Pending(turn, speech), NextLive(s, ev).1, Stored(s).shown);
    held := StepHoldsHome(t, seen, Following.Telling(turn, speech), ev, ok);
  }

  /** The turn's last units, when nothing is left uncommitted. */
  lemma EndIsAtHome(t: Turn, show: seq<Item>, seen: seq<Item>, units: seq<Item>) returns (held: seq<Item>)
    requires HomeHolds(t, seen, show) && Content.HoldsLast(t.sys, show) && Content.Evolved(show, units)
    ensures HomeHolds(t, held, units) && Content.HoldsLast(t.sys, units)
  {
    var base := Stored(t.sys).base;
    Content.EvolvedStays(show, units, base);
    Content.UpdatedRecalls(seen, show, units, base);
    held := Content.Updated(seen, units, base);
    OldStayWhole(t.sys.trace, t.sys.trace, t.sys.frozen, t.left, base, seen, held);
  }

  lemma {:induction false} RunIsAtHome(t: Turn, s: Sys, turn: seq<Row>, speech: Following.Speech, seen: seq<Item>,
                                       events: seq<Event>, last: seq<Row>, ok: Oracle) returns (held: seq<Item>)
    requires AtHome(t, s, turn, speech, seen) && Following.Follows(s, turn, speech, events, last, ok)
    requires MovesWell(t, Following.Telling(turn, speech), events, ok)
    ensures var u := HomeRun(t, events, ok);
            && Alike(u.sys, RunAll(s, events, ok)) && Stored(u.sys).done.None?
            && HomeHolds(u, held, TurnUnits(last)) && Content.HoldsLast(u.sys, TurnUnits(last))
    decreases |events|
  {
    if events == [] {
      Following.LastEvolves(turn, speech, last);
      held := EndIsAtHome(t, Following.Telling(turn, speech), seen, TurnUnits(last));
    } else {
      var ev := events[0];
      var next := StepIsAtHome(t, s, turn, speech, seen, ev, ok);
      held := RunIsAtHome(HomeStep(t, ev, ok), Step(s, ev, ok), ev.turn, Following.Kept(s, speech, ev, ok), next,
                          events[1..], last, ok);
    }
  }

  // ------------------------------------------------------------------ reading the turn

  /** What the reader of a message sees, without the inserted fences and footer. */
  function Piece(trace: seq<Op>, f: Seal, left: set<nat>, units: seq<Item>): string {
    LayOut.Erased(LayOut.ShownText(trace, f.id), LayOut.Interval(units, f.lo, f.hi), FooterOf(f, left),
                  OpenFence(LayOut.Upto(units, f.lo)))
  }

  function Pieces(trace: seq<Op>, frozen: seq<Seal>, left: set<nat>, units: seq<Item>): seq<string> {
    if frozen == [] then []
    else Pieces(trace, frozen[..|frozen| - 1], left, units) + [Piece(trace, frozen[|frozen| - 1], left, units)]
  }

  /** What a reader gets from all messages of the turn, in order: the frozen ones, those left behind, and the last. */
  function HomeText(t: Sys, left: set<nat>, units: seq<Item>): string {
    Text.Join(Pieces(t.trace, t.frozen, left, units) +
              [LayOut.CapPiece(t.trace, t.state.mid.GetOr(0), units, t.state.base)])
  }

  lemma PieceSpells(trace: seq<Op>, f: Seal, left: set<nat>, units: seq<Item>)
    requires HoldsWhole(trace, f, FooterOf(f, left), units) && IsFinal(trace, f)
    ensures Streamed.Spells([Piece(trace, f, left, units)], units[f.lo..f.hi])
  {
    var footer, open := FooterOf(f, left), OpenFence(units[..f.lo]);
    UntouchedStillShows(trace, f.at, f.id, RenderHead(units[f.lo..f.hi], footer, open));
    LayOut.ErasedGivesLines(units[f.lo..f.hi], footer, open);
  }

  lemma {:induction false} PiecesSpell(trace: seq<Op>, frozen: seq<Seal>, left: set<nat>, hi: nat, units: seq<Item>)
    requires Streamed.TilesFrom(frozen, 0, hi) && hi <= |units| && AllWhole(trace, frozen, left, units)
    requires forall i | 0 <= i < |frozen| :: IsFinal(trace, frozen[i])
    ensures Streamed.Spells(Pieces(trace, frozen, left, units), units[..hi])
  {
    if frozen != [] {
      var n := |frozen| - 1;
      var f := frozen[n];
      Streamed.TilesFromButLast(frozen, 0, hi);
      PiecesSpell(trace, frozen[..n], left, f.lo, units);
      PieceSpells(trace, f, left, units);
      assert units[0..f.lo] == units[..f.lo] && units[0..hi] == units[..hi];
      Streamed.SpellsOn(Pieces(trace, frozen[..n], left, units), [Piece(trace, f, left, units)], units, 0, f.lo, hi);
    }
  }

  // ------------------------------------------------------------------ the cap

  /** What lay_out finds: the units are held, and none is too wide. */
  ghost predicate HomeReady(t: Turn, s: Sys, seen: seq<Item>, units: seq<Item>) {
    && s == t.sys.(state := Stored(t.sys)) && HomeHolds(t, seen, units)
    && Stored(t.sys).base < |units| && Widths.Uncut(units)
  }

  lemma SealedHome(t: Turn, s: Sys, seen: seq<Item>, units: seq<Item>, ok: Oracle)
    requires HomeReady(t, s, seen, units)
    ensures var r, n := LayOut.SealedForCap(s, seen, ok), |s.frozen|;
            && s.trace <= r.trace && s.frozen <= r.frozen && s.state.base <= r.state.base < |units|
            && Tiles(r.frozen, r.state.base) && Faithful(r.trace, r.frozen[n..], seen)
  {
    var base, n := s.state.base, |s.frozen|;
    SpillKeepsAnchored(s, seen, base, s.state.mid, DONE_FOOTER, ok);
    Streamed.SpillAddsFaithful(s, n, seen, base, s.state.mid, DONE_FOOTER, ok);
    SpillOnlyAdds(s, seen, base, s.state.mid, DONE_FOOTER, ok);
  }

  lemma CapHolds(t: Turn, s: Sys, r: Sys, u: Sys, seen: seq<Item>, units: seq<Item>)
    requires HomeReady(t, s, seen, units) && s.trace <= r.trace <= u.trace && s.frozen <= r.frozen == u.frozen
    requires s.state.base <= u.state.base == r.state.base < |units| && Tiles(r.frozen, r.state.base)
    requires Faithful(r.trace, r.frozen[|s.frozen|..], seen) && Settled(u.trace, u.frozen, u.state.mid)
    ensures AllWhole(u.trace, u.frozen, t.left, seen)
  {
    var n, base := |s.frozen|, s.state.base;
    assert u.frozen[..n] == s.frozen;
    Streamed.TilesAre(u.frozen, n, base, u.state.base);
    OldStayWhole(s.trace, u.trace, s.frozen, t.left, base, seen, seen);
    Streamed.LaterKeepsFaithful(r.trace, u.trace, u.frozen[n..], seen);
    NewAreWhole(u.trace, u.frozen[n..], seen, units, base, u.state.base);
    OldAndNew(u.trace, u.frozen, n, t.left, u.state.mid, seen);
  }

  lemma CapSpells(pieces: seq<string>, cap: string, seen: seq<Item>, base: nat)
    requires base < |seen| && Streamed.Spells(pieces, seen[..base]) && Streamed.Spells([cap], seen[base..])
    ensures Text.Join(pieces + [cap]) == Widths.Middle(seen)
  {
    Streamed.SpellsConcat(pieces, seen[..base], [cap], seen[base..]);
    assert seen[..base] + seen[base..] == seen;
  }

  lemma CapReads(u: Sys, left: set<nat>, seen: seq<Item>)
    requires AllWhole(u.trace, u.frozen, left, seen) && Tiles(u.frozen, u.state.base) && u.state.base < |seen|
    requires forall i | 0 <= i < |u.frozen| :: IsFinal(u.trace, u.frozen[i])
    requires Streamed.Spells([LayOut.CapPiece(u.trace, u.state.mid.GetOr(0), seen, u.state.base)], seen[u.state.base..])
    ensures HomeText(u, left, seen) == Widths.Middle(seen)
  {
    var base, cap := u.state.base, LayOut.CapPiece(u.trace, u.state.mid.GetOr(0), seen, u.state.base);
    PiecesSpell(u.trace, u.frozen, left, base, seen);
    CapSpells(Pieces(u.trace, u.frozen, left, seen), cap, seen, base);
  }

  /** A cap that goes through leaves the whole turn to be read. */
  lemma CoveredHomeReads(t: Turn, s: Sys, seen: seq<Item>, units: seq<Item>, ok: Oracle)
    requires HomeReady(t, s, seen, units) && LayOut.Laid(s, units, ok).1
    ensures var u := LayOut.Laid(s, units, ok).0;
            u.state.mid.Some? && Tiles(u.frozen, u.state.base) && HomeText(u, t.left, seen) == Widths.Middle(seen)
  {
    LayOut.LaidSame(s, seen, units, ok);
    Content.SameNarration(seen, units);
    var r, u := LayOut.SealedForCap(s, seen, ok), LayOut.Laid(s, seen, ok).0;
    SealedHome(t, s, seen, units, ok);
    Streamed.CoveredIs(s, seen, ok);
    Overlap.LaidKeepsSettled(s, seen, ok);
    CapHolds(t, s, r, u, seen, units);
    Streamed.CapShows(r, seen, ok);
    CapReads(u, t.left, seen);
  }
}
