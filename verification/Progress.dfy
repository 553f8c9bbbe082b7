/** One locked run of the progress hook, and every run of such steps. */
module Progress {
  import opened Layout
  import opened Spilling
  import Streaming
  import opened Transcript
  import opened UnitStability
  import opened Wrappers

  /** What one firing of the hook sees: its event, the current turn's rows, and whether the channel's
      newest message is another one than the live message. */
  datatype Event = Event(
    isDisplay: bool,
    messageId: Option<string>,
    delta: Option<string>,
    index: int,
    turn: seq<Row>,
    newer: bool)

  function Stored(s: Sys): TurnState {
    s.store.GetOr(FRESH)
  }

  predicate Finalized(s: Sys, turn: seq<Row>) {
    TurnId(turn).Some? && Stored(s).done == TurnId(turn)
  }

  /** The streamed narration after this event; it is dropped once the transcript holds it as a block. */
  function NextLive(s: Sys, ev: Event): (Option<LiveState>, string) {
    var live := if ev.isDisplay then Some(Streaming.TrackLive(Stored(s).live, ev.messageId, ev.delta, ev.index))
                else Stored(s).live;
    if Streaming.LiveText(live) != "" && Item(Narration, Streaming.LiveText(live)) in TurnItems(ev.turn) then (None, "")
    else (live, Streaming.LiveText(live))
  }

  function LiveUnits(text: string): seq<Item> {
    if text == "" then [] else Units([Item(Narration, text)])
  }

  /** Everything there is to show: the committed units and the streamed ones. */
  function Show(s: Sys, ev: Event): seq<Item> {
    TurnUnits(ev.turn) + LiveUnits(NextLive(s, ev).1)
  }

  predicate Rehomes(s: Sys, ev: Event) {
    Stored(s).mid.Some? && !ev.isDisplay && ev.newer
  }

  function StartBase(s: Sys, ev: Event): nat {
    if Rehomes(s, ev) then
      (if Stored(s).shown <= |TurnUnits(ev.turn)| then Stored(s).shown else |TurnUnits(ev.turn)|)
    else Stored(s).base
  }

  function StartMid(s: Sys, ev: Event): Option<nat> {
    if Rehomes(s, ev) then None else Stored(s).mid
  }

  /** The state a hook works on: the stored one with this event's narration. */
  function Loaded(s: Sys, ev: Event): Sys {
    s.(state := Stored(s).(live := NextLive(s, ev).0))
  }

  function Saved(s: Sys, base: nat, shown: nat, body: string, mid: Option<nat>): Sys {
    var st := s.state.(base := base, shown := shown, lastBody := Some(body), mid := mid);
    s.(state := st, store := Some(st))
  }

  function LiveBody(show: seq<Item>, base: nat): string
    requires base <= |show|
  {
    Rendered(show[base..], WORKING_FOOTER, OpenFence(show[..base]))
  }

  /** Show the tail after sealing: edit the live message if its text changed, or open a fresh one. */
  function ShowTail(r: Spilled, show: seq<Item>, shown: nat, ok: Oracle): Sys {
    if r.base >= |show| then r.sys
    else
      var body := LiveBody(show, r.base);
      match r.mid
      case Some(m) =>
        if r.sys.state.lastBody == Some(body) then r.sys
        else Saved(Amend(r.sys, m, body, ok), r.base, shown, body, r.mid)
      case None =>
        if !ok(|r.sys.trace|) then Post(r.sys, body, ok)
        else Saved(Post(r.sys, body, ok), r.base, shown, body, NewId(r.sys, ok))
  }

  function Sealed(s: Sys, ev: Event, ok: Oracle): Spilled {
    SpillFrom(Loaded(s, ev), Show(s, ev), StartBase(s, ev), StartMid(s, ev), WORKING_FOOTER, ok)
  }

  function Step(s: Sys, ev: Event, ok: Oracle): Sys {
    if Finalized(s, ev.turn) then s.(state := Stored(s))
    else ShowTail(Sealed(s, ev, ok), Show(s, ev), |TurnUnits(ev.turn)|, ok)
  }

  /** The hook itself: load, drop or track the live narration, re-home, seal, render, send or edit, save. */
  method Run(hook: Hook, ev: Event)
    modifies hook
    ensures hook.Now() == Step(old(hook.Now()), ev, hook.ok)
  {
    var blocks := TurnLines(ev.turn);
    var full := SplitUnits(blocks);
    var tid := TurnId(ev.turn);
    hook.state := hook.store.GetOr(FRESH);
    if tid.Some? && hook.state.done == tid {
      return;
    }
    var live;
    if ev.isDisplay {
      hook.state := hook.state.(live := Some(Streaming.TrackLive(hook.state.live, ev.messageId, ev.delta, ev.index)));
    }
    live := Streaming.LiveText(hook.state.live);
    if live != "" && Item(Narration, live) in blocks {
      hook.state := hook.state.(live := None);
      live := "";
    }
    var base, mid := hook.state.base, hook.state.mid;
    if mid.Some? && !ev.isDisplay && ev.newer {
      base, mid := if hook.state.shown <= |full| then hook.state.shown else |full|, None;
    }
    var liveUnits := [];
    if live != "" {
      liveUnits := SplitUnits([Item(Narration, live)]);
    }
    ghost var before := old(hook.Now());
    assert hook.Now() == Loaded(before, ev) && full + liveUnits == Show(before, ev);
    base, mid := hook.Spill(full, base, mid, liveUnits, WORKING_FOOTER);
    assert Spilled(hook.Now(), base, mid) == Sealed(before, ev, hook.ok);
    RunTail(hook, full + liveUnits, |full|, base, mid);
  }

  method RunTail(hook: Hook, combined: seq<Item>, shown: nat, base: nat, mid0: Option<nat>)
    modifies hook
    ensures hook.Now() == ShowTail(Spilled(old(hook.Now()), base, mid0), combined, shown, hook.ok)
  {
    if base >= |combined| {
      return;
    }
    var open := FenceState(combined[..base]);
    var body := Render(combined[base..], WORKING_FOOTER, open);
    var mid := mid0;
    if mid.Some? {
      if hook.state.lastBody == Some(body) {
        return;
      }
      var _ := hook.ChannelEdit(mid.value, body);
    } else {
      mid := hook.ChannelSend(body);
      if mid.None? {
        return;
      }
    }
    hook.state := hook.state.(base := base, shown := shown, lastBody := Some(body), mid := mid);
    hook.store := Some(hook.state);
  }

  /** The step showed a tail and saved it: it opened a message, or the live one had another text. */
  predicate SavesTail(s: Sys, ev: Event, ok: Oracle) {
    var r := Sealed(s, ev, ok);
    && !Finalized(s, ev.turn)
    && r.base < |Show(s, ev)|
    && (r.mid.Some? ==> r.sys.state.lastBody != Some(LiveBody(Show(s, ev), r.base)))
    && (r.mid.None? ==> ok(|r.sys.trace|))
  }

  // ------------------------------------------------------------------ what every step keeps

  /** The stored boundary and live message agree with what is on the channel. */
  ghost predicate InOrder(s: Sys) {
    Anchored(s.trace, s.frozen, Stored(s).base, Stored(s).mid)
  }

  /** The call that shows a tail. */
  function TailCall(r: Spilled, show: seq<Item>, ok: Oracle): Op
    requires r.base <= |show|
  {
    CallFor(r.mid, LiveBody(show, r.base), ok(|r.sys.trace|))
  }

  lemma TailFacts(r: Spilled, show: seq<Item>, shown: nat, ok: Oracle)
    ensures var t := ShowTail(r, show, shown, ok);
            && t.frozen == r.sys.frozen
            && (t == r.sys ||
                (r.base < |show| && t.trace == r.sys.trace + [TailCall(r, show, ok)] &&
                 (t.store == r.sys.store ||
                  (Stored(t).base == r.base && Stored(t).mid == Some(r.mid.GetOr(|r.sys.trace|)) &&
                   (r.mid.None? ==> ok(|r.sys.trace|))))))
  {
  }

  lemma TailKeepsSettled(r: Spilled, show: seq<Item>, shown: nat, ok: Oracle)
    requires Settled(r.sys.trace, r.sys.frozen, r.mid)
    requires Settled(r.sys.trace, r.sys.frozen, Stored(r.sys).mid)
    ensures var t := ShowTail(r, show, shown, ok); Settled(t.trace, t.frozen, Stored(t).mid)
  {
    TailFacts(r, show, shown, ok);
    if r.base < |show| {
      FrozenAreOld(r.sys.trace, r.sys.frozen, r.mid);
      CallKeepsSettled(r.sys.trace, TailCall(r, show, ok), r.sys.frozen, r.mid);
      CallKeepsSettled(r.sys.trace, TailCall(r, show, ok), r.sys.frozen, Stored(r.sys).mid);
    }
  }

  lemma TailKeepsOrder(r: Spilled, show: seq<Item>, shown: nat, ok: Oracle)
    requires Anchored(r.sys.trace, r.sys.frozen, r.base, r.mid)
    requires Stored(r.sys).base == r.base && Stored(r.sys).mid == r.mid
    ensures InOrder(ShowTail(r, show, shown, ok))
    ensures r.sys.trace <= ShowTail(r, show, shown, ok).trace
    ensures ShowTail(r, show, shown, ok).frozen == r.sys.frozen
  {
    TailKeepsSettled(r, show, shown, ok);
    TailFacts(r, show, shown, ok);
    FrozenAreOld(r.sys.trace, r.sys.frozen, r.mid);
  }

  /** Every step keeps every frozen message as it is, whether it re-homes or not. */
  lemma StepKeepsSettled(s: Sys, ev: Event, ok: Oracle)
    requires Settled(s.trace, s.frozen, Stored(s).mid)
    ensures var t := Step(s, ev, ok);
            Settled(t.trace, t.frozen, Stored(t).mid) && s.trace <= t.trace && s.frozen <= t.frozen
  {
    if !Finalized(s, ev.turn) {
      var base, mid := StartBase(s, ev), StartMid(s, ev);
      var r := Sealed(s, ev, ok);
      SpillKeepsSettled(Loaded(s, ev), Show(s, ev), base, mid, WORKING_FOOTER, ok);
      SpillOnlyAdds(Loaded(s, ev), Show(s, ev), base, mid, WORKING_FOOTER, ok);
      if r.base == base {
        OthersStaySettled(s.trace, s.frozen, r.mid, r.sys.trace, Stored(s).mid);
      }
      TailKeepsSettled(r, Show(s, ev), |TurnUnits(ev.turn)|, ok);
      TailFacts(r, Show(s, ev), |TurnUnits(ev.turn)|, ok);
    }
  }

  /** A step that does not re-home keeps the tiling, whatever units it is given and whichever calls
      fail; it only adds calls and seals. */
  lemma StepKeepsOrder(s: Sys, ev: Event, ok: Oracle)
    requires InOrder(s) && !Rehomes(s, ev)
    ensures InOrder(Step(s, ev, ok))
    ensures s.trace <= Step(s, ev, ok).trace && s.frozen <= Step(s, ev, ok).frozen
  {
    if !Finalized(s, ev.turn) {
      SpillKeepsAnchored(Loaded(s, ev), Show(s, ev), Stored(s).base, Stored(s).mid, WORKING_FOOTER, ok);
      SpillOnlyAdds(Loaded(s, ev), Show(s, ev), Stored(s).base, Stored(s).mid, WORKING_FOOTER, ok);
      TailKeepsOrder(Sealed(s, ev, ok), Show(s, ev), |TurnUnits(ev.turn)|, ok);
    }
  }

  function RunAll(s: Sys, events: seq<Event>, ok: Oracle): Sys
    decreases |events|
  {
    if events == [] then s else RunAll(Step(s, events[0], ok), events[1..], ok)
  }

  predicate NeverRehomes(s: Sys, events: seq<Event>, ok: Oracle)
    decreases |events|
  {
    events != [] ==> !Rehomes(s, events[0]) && NeverRehomes(Step(s, events[0], ok), events[1..], ok)
  }

  /** Over any run of steps that do not re-home, under any pattern of failures and for any units, the
      frozen messages tile [0, base) and the stored (base, message) names exactly that boundary. */
  lemma {:induction false} RunKeepsOrder(s: Sys, events: seq<Event>, ok: Oracle)
    requires InOrder(s) && NeverRehomes(s, events, ok)
    ensures InOrder(RunAll(s, events, ok))
    decreases |events|
  {
    if events != [] {
      StepKeepsOrder(s, events[0], ok);
      RunKeepsOrder(Step(s, events[0], ok), events[1..], ok);
    }
  }

  /** A message is left alone from here on: no call edits it and it shows what it showed. */
  ghost predicate LeftAlone(s: Sys, t: Sys, f: Seal) {
    Untouched(t.trace, |s.trace|, f.id) && Shows(t.trace, f.id) == Shows(s.trace, f.id)
  }

  lemma FrozenLeftAlone(s: Sys, t: Sys, mid: Option<nat>, later: Option<nat>)
    requires Settled(s.trace, s.frozen, mid) && Settled(t.trace, t.frozen, later)
    requires s.trace <= t.trace && s.frozen <= t.frozen
    ensures forall i | 0 <= i < |s.frozen| :: LeftAlone(s, t, s.frozen[i])
  {
    forall i | 0 <= i < |s.frozen|
      ensures LeftAlone(s, t, s.frozen[i])
    {
      var f := s.frozen[i];
      assert IsFinal(s.trace, f) && t.frozen[i] == f && IsFinal(t.trace, f);
      var body :| PutsAt(s.trace, f.at, f.id, body);
      assert PutsAt(t.trace, f.at, f.id, body);
      UntouchedStillShows(s.trace, f.at, f.id, body);
      UntouchedStillShows(t.trace, f.at, f.id, body);
    }
  }

  lemma {:induction false} RunKeepsSettled(s: Sys, events: seq<Event>, ok: Oracle)
    requires Settled(s.trace, s.frozen, Stored(s).mid)
    ensures var t := RunAll(s, events, ok);
            Settled(t.trace, t.frozen, Stored(t).mid) && s.trace <= t.trace && s.frozen <= t.frozen
    decreases |events|
  {
    if events != [] {
      StepKeepsSettled(s, events[0], ok);
      RunKeepsSettled(Step(s, events[0], ok), events[1..], ok);
    }
  }

  /** Over every run of progress steps, with re-homes, failures and whatever units, a message once frozen is
      never edited again and keeps its text. */
  lemma FrozenStaysFrozen(s: Sys, events: seq<Event>, ok: Oracle)
    requires Settled(s.trace, s.frozen, Stored(s).mid)
    ensures forall i | 0 <= i < |s.frozen| :: LeftAlone(s, RunAll(s, events, ok), s.frozen[i])
  {
    RunKeepsSettled(s, events, ok);
    var t := RunAll(s, events, ok);
    FrozenLeftAlone(s, t, Stored(s).mid, Stored(t).mid);
  }

  // ------------------------------------------------------------------ the tombstone

  /** Once Stop has recorded a turn as done, progress steps of that turn send nothing, edit nothing
      and store nothing, however many follow. */
  lemma {:induction false} TombstoneSilences(s: Sys, events: seq<Event>, ok: Oracle)
    requires forall i | 0 <= i < |events| :: Finalized(s, events[i].turn)
    ensures var t := RunAll(s, events, ok);
            t.trace == s.trace && t.store == s.store && t.frozen == s.frozen
    decreases |events|
  {
    if events != [] {
      var t := Step(s, events[0], ok);
      assert forall i | 0 <= i < |events| :: Finalized(t, events[i].turn);
      TombstoneSilences(t, events[1..], ok);
    }
  }
}
