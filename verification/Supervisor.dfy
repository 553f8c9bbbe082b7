/** The supervisor: running agents follow the enabled ones, and a guard bounds how often either an agent
    or the gateway is relaunched. */
module Supervisor {
  import opened Wrappers

  // ------------------------------------------------------------------ the crash-loop guard

  /** MAX_RELAUNCHES, WINDOW_SECS and PAUSE_SECS. */
  datatype Limits = Limits(max: nat, window: nat, pause: nat)

  /** The remembered launch times, and the log of every moment the guard let a relaunch through. */
  datatype Guard = Guard(times: seq<nat>, passed: seq<nat>)

  const UNUSED := Guard([], [])

  function Recent(times: seq<nat>, now: nat, window: nat): seq<nat> {
    if times == [] then []
    else
      var n := |times| - 1;
      Recent(times[..n], now, window) + (if now - times[n] <= window then [times[n]] else [])
  }

  method KeepRecent(times: seq<nat>, now: nat, window: nat) returns (kept: seq<nat>)
    ensures kept == Recent(times, now, window)
  {
    kept := [];
    for i := 0 to |times|
      invariant kept == Recent(times[..i], now, window)
    {
      assert times[..i + 1][..i] == times[..i];
      if now - times[i] <= window {
        kept := kept + [times[i]];
      }
    }
    assert times[..|times|] == times;
  }

  /** One call at a given time. Too many recent launches: it sleeps, forgets them all, and passes without
      remembering this one. */
  function Guarded(l: Limits, g: Guard, now: nat): Guard {
    var kept := Recent(g.times + [now], now, l.window);
    if |kept| > l.max then Guard([], g.passed + [now + l.pause]) else Guard(kept, g.passed + [now])
  }

  /** The time at which that call returns. */
  function PassTime(l: Limits, g: Guard, now: nat): nat {
    if |Recent(g.times + [now], now, l.window)| > l.max then now + l.pause else now
  }

  method GuardRelaunch(l: Limits, was: Guard, at: nat) returns (guard: Guard, now: nat)
    ensures guard == Guarded(l, was, at) && now == PassTime(l, was, at)
  {
    now := at;
    var kept := KeepRecent(was.times + [now], now, l.window);
    if |kept| > l.max {
      now := now + l.pause;
      kept := [];
    }
    guard := Guard(kept, was.passed + [now]);
  }

  ghost predicate Sorted(s: seq<nat>) {
    forall i, j | 0 <= i < j < |s| :: s[i] <= s[j]
  }

  /** Any max + 2 passes in a row take longer than the window. */
  ghost predicate Spaced(l: Limits, s: seq<nat>) {
    forall i: nat :: SpacedFrom(l, s, i)
  }

  predicate SpacedFrom(l: Limits, s: seq<nat>, i: nat) {
    i + l.max + 1 < |s| ==> s[i + l.max + 1] > s[i] + l.window
  }

  /** The remembered times are the latest passes, from the j-th on; of the others at most one is recent. */
  ghost predicate Remembers(l: Limits, g: Guard, now: nat, j: nat) {
    && j <= |g.passed|
    && g.times == g.passed[j..]
    && (j >= 2 ==> g.passed[j - 2] + l.window < now)
  }

  ghost predicate GuardHolds(l: Limits, g: Guard, now: nat) {
    && Sorted(g.passed) && Spaced(l, g.passed)
    && (forall i | 0 <= i < |g.passed| :: g.passed[i] <= now)
    && exists j :: Remembers(l, g, now, j)
  }

  lemma {:induction false} RecentIsSuffix(times: seq<nat>, now: nat, window: nat) returns (k: nat)
    requires Sorted(times)
    ensures k <= |times| && Recent(times, now, window) == times[k..]
    ensures k > 0 ==> times[k - 1] + window < now
  {
    if times == [] {
      k := 0;
    } else {
      var n := |times| - 1;
      if now - times[n] <= window {
        k := RecentIsSuffix(times[..n], now, window);
        SuffixSnoc(times, n, k);
      } else {
        k := n + 1;
        assert forall i | 0 <= i < n :: times[i] <= times[n];
        AllExpired(times, now, window);
      }
    }
  }

  lemma SuffixSnoc(s: seq<nat>, n: nat, k: nat)
    requires k <= n && |s| == n + 1
    ensures s[..n][k..] + [s[n]] == s[k..]
    ensures k > 0 ==> s[..n][k - 1] == s[k - 1]
  {
  }

  lemma {:induction false} AllExpired(times: seq<nat>, now: nat, window: nat)
    requires forall i | 0 <= i < |times| :: now - times[i] > window
    ensures Recent(times, now, window) == []
  {
    if times != [] {
      AllExpired(times[..|times| - 1], now, window);
    }
  }

  lemma TimePreservesGuard(l: Limits, g: Guard, now: nat, later: nat)
    requires GuardHolds(l, g, now) && now <= later
    ensures GuardHolds(l, g, later)
  {
    var j :| Remembers(l, g, now, j);
    assert Remembers(l, g, later, j);
  }

  lemma SuffixOfSuffix(all: seq<nat>, j: nat, now: nat, window: nat) returns (m: nat)
    requires Sorted(all) && j <= |all| && (j >= 2 ==> all[j - 2] + window < now)
    ensures m <= |all| && Recent(all[j..], now, window) == all[m..]
    ensures m >= 2 ==> all[m - 2] + window < now
  {
    var s := all[j..];
    assert Sorted(s) by {
      assert forall i | 0 <= i < |s| :: s[i] == all[j + i];
    }
    var k := RecentIsSuffix(s, now, window);
    m := j + k;
    assert s[k..] == all[m..];
    if k >= 1 && m >= 2 {
      assert s[k - 1] == all[m - 1];
      assert all[m - 2] <= all[m - 1];
    }
  }

  lemma KeptIsSuffix(l: Limits, g: Guard, now: nat) returns (m: nat)
    requires GuardHolds(l, g, now)
    ensures m <= |g.passed| + 1
    ensures Recent(g.times + [now], now, l.window) == (g.passed + [now])[m..]
    ensures m >= 2 ==> (g.passed + [now])[m - 2] + l.window < now
  {
    var j: nat :| Remembers(l, g, now, j);
    var all := g.passed + [now];
    SortedSnoc(g.passed, now);
    assert all[j..] == g.passed[j..] + [now];
    m := SuffixOfSuffix(all, j, now, l.window);
  }

  lemma SortedSnoc(s: seq<nat>, t: nat)
    requires Sorted(s) && forall i | 0 <= i < |s| :: s[i] <= t
    ensures Sorted(s + [t])
  {
  }

  lemma SpacedSnoc(l: Limits, s: seq<nat>, t: nat)
    requires Spaced(l, s) && (|s| > l.max ==> t > s[|s| - 1 - l.max] + l.window)
    ensures Spaced(l, s + [t])
  {
    forall i: nat
      ensures SpacedFrom(l, s + [t], i)
    {
      assert SpacedFrom(l, s, i);
    }
  }

  lemma PauseKeepsGuard(l: Limits, g: Guard, now: nat)
    requires l.pause > l.window && GuardHolds(l, g, now)
    ensures GuardHolds(l, Guard([], g.passed + [now + l.pause]), now + l.pause)
  {
    SortedSnoc(g.passed, now + l.pause);
    SpacedSnoc(l, g.passed, now + l.pause);
    PauseForgets(l, g.passed, now);
  }

  lemma PauseForgets(l: Limits, passed: seq<nat>, now: nat)
    requires l.pause > l.window && (passed != [] ==> passed[|passed| - 1] <= now)
    ensures Remembers(l, Guard([], passed + [now + l.pause]), now + l.pause, |passed| + 1)
  {
    assert (passed + [now + l.pause])[|passed| + 1..] == [];
  }

  lemma PassKeepsGuard(l: Limits, g: Guard, now: nat)
    requires GuardHolds(l, g, now) && |Recent(g.times + [now], now, l.window)| <= l.max
    ensures GuardHolds(l, Guard(Recent(g.times + [now], now, l.window), g.passed + [now]), now)
  {
    var m := KeptIsSuffix(l, g, now);
    var after, n := Guard(Recent(g.times + [now], now, l.window), g.passed + [now]), |g.passed|;
    var all := g.passed + [now];
    SortedSnoc(g.passed, now);
    assert n > l.max ==> g.passed[n - 1 - l.max] == all[n - 1 - l.max] <= all[m - 2];
    SpacedSnoc(l, g.passed, now);
    assert Remembers(l, after, now, m);
  }

  /** A pause longer than the window keeps the passes spaced, whether a call pauses or not. */
  lemma CallKeepsGuard(l: Limits, g: Guard, now: nat)
    requires l.pause > l.window && GuardHolds(l, g, now)
    ensures GuardHolds(l, Guarded(l, g, now), PassTime(l, g, now))
  {
    var kept := Recent(g.times + [now], now, l.window);
    if |kept| > l.max {
      PauseKeepsGuard(l, g, now);
      assert Guarded(l, g, now) == Guard([], g.passed + [now + l.pause]);
    } else {
      PassKeepsGuard(l, g, now);
      assert Guarded(l, g, now) == Guard(kept, g.passed + [now]);
    }
  }

  /** Calls separated by any gaps, from a fresh guard. */
  datatype Timed = Timed(guard: Guard, now: nat)

  function Called(l: Limits, t: Timed, gap: nat): Timed {
    Timed(Guarded(l, t.guard, t.now + gap), PassTime(l, t.guard, t.now + gap))
  }

  function Calls(l: Limits, gaps: seq<nat>): Timed {
    if gaps == [] then Timed(UNUSED, 0) else Called(l, Calls(l, gaps[..|gaps| - 1]), gaps[|gaps| - 1])
  }

  lemma CallsSnoc(l: Limits, gaps: seq<nat>, gap: nat)
    ensures Calls(l, gaps + [gap]) == Called(l, Calls(l, gaps), gap)
  {
    assert (gaps + [gap])[..|gaps|] == gaps;
  }

  lemma CalledHolds(l: Limits, t: Timed, gap: nat)
    requires l.pause > l.window && GuardHolds(l, t.guard, t.now)
    ensures GuardHolds(l, Called(l, t, gap).guard, Called(l, t, gap).now)
  {
    TimePreservesGuard(l, t.guard, t.now, t.now + gap);
    CallKeepsGuard(l, t.guard, t.now + gap);
  }

  lemma {:induction false} CallsHold(l: Limits, gaps: seq<nat>)
    requires l.pause > l.window
    ensures GuardHolds(l, Calls(l, gaps).guard, Calls(l, gaps).now)
  {
    if gaps == [] {
      assert Remembers(l, UNUSED, 0, 0);
    } else {
      CallsHold(l, gaps[..|gaps| - 1]);
      CalledHolds(l, Calls(l, gaps[..|gaps| - 1]), gaps[|gaps| - 1]);
    }
  }

  // ------------------------------------------------------------------ what spacing means for a window

  /** The passes in the window that starts at x. */
  function InWindow(s: seq<nat>, x: int, window: nat): seq<nat> {
    if s == [] then []
    else
      var n := |s| - 1;
      InWindow(s[..n], x, window) + (if x <= s[n] <= x + window then [s[n]] else [])
  }

  lemma {:induction false} WindowIsSlice(s: seq<nat>, x: int, window: nat) returns (a: nat, b: nat)
    requires Sorted(s)
    ensures a <= b <= |s| && |InWindow(s, x, window)| == b - a
    ensures forall i | 0 <= i < |s| :: a <= i < b <==> x <= s[i] <= x + window
  {
    if s == [] {
      a, b := 0, 0;
    } else {
      var n := |s| - 1;
      a, b := WindowIsSlice(s[..n], x, window);
      a, b := WidenedSlice(s, s[..n], x, window, a, b);
    }
  }

  lemma WidenedSlice(s: seq<nat>, front: seq<nat>, x: int, window: nat, a: nat, b: nat) returns (c: nat, d: nat)
    requires Sorted(s) && s != [] && front == s[..|s| - 1] && a <= b <= |front|
    requires forall i | 0 <= i < |front| :: a <= i < b <==> x <= front[i] <= x + window
    ensures c <= d <= |s| && d - c == b - a + (if x <= s[|s| - 1] <= x + window then 1 else 0)
    ensures forall i | 0 <= i < |s| :: c <= i < d <==> x <= s[i] <= x + window
  {
    var n := |s| - 1;
    assert forall i | 0 <= i < n :: front[i] == s[i];
    if !(x <= s[n] <= x + window) {
      c, d := a, b;
    } else if a == b {
      c, d := n, n + 1;
    } else {
      assert x <= s[a] <= s[n - 1] <= s[n];
      c, d := a, n + 1;
    }
  }

  lemma SpacedAt(l: Limits, s: seq<nat>, i: nat)
    requires Spaced(l, s) && i + l.max + 1 < |s|
    ensures s[i + l.max + 1] > s[i] + l.window
  {
    assert SpacedFrom(l, s, i);
  }

  /** Passes are spaced if and only if no window of that length holds more than max + 1 of them. */
  lemma SpacedIffWindowsBounded(l: Limits, s: seq<nat>)
    requires Sorted(s)
    ensures Spaced(l, s) <==> forall x: int :: |InWindow(s, x, l.window)| <= l.max + 1
  {
    if Spaced(l, s) {
      forall x: int
        ensures |InWindow(s, x, l.window)| <= l.max + 1
      {
        var a, b := WindowIsSlice(s, x, l.window);
        if b - a > l.max + 1 {
          SpacedAt(l, s, a);
        }
      }
    }
    if !Spaced(l, s) {
      var i: nat :| !SpacedFrom(l, s, i);
      CrowdedWindow(l, s, i);
      var x: int := s[i];
      assert |InWindow(s, x, l.window)| > l.max + 1;
    }
  }

  lemma CrowdedWindow(l: Limits, s: seq<nat>, i: nat)
    requires Sorted(s) && i + l.max + 1 < |s| && s[i + l.max + 1] <= s[i] + l.window
    ensures |InWindow(s, s[i], l.window)| > l.max + 1
  {
    var a, b := WindowIsSlice(s, s[i], l.window);
    assert a <= i < b;
    assert i + l.max + 1 < b;
  }

  // ------------------------------------------------------------------ when the bound holds

  function Copies(n: nat, t: nat): (s: seq<nat>)
    ensures |s| == n && forall i | 0 <= i < n :: s[i] == t
  {
    if n == 0 then [] else Copies(n - 1, t) + [t]
  }

  lemma {:induction false} CopiesAreRecent(n: nat, t: nat, window: nat)
    ensures Recent(Copies(n, t), t, window) == Copies(n, t)
  {
    if n > 0 {
      CopiesAreRecent(n - 1, t, window);
      var s := Copies(n, t);
      assert s[..|s| - 1] == Copies(n - 1, t) && s[|s| - 1] == t;
    }
  }

  lemma FewPass(l: Limits, t: Timed, n: nat)
    requires t.guard.times == Copies(n, t.now) && n < l.max
    ensures Called(l, t, 0) == Timed(Guard(Copies(n + 1, t.now), t.guard.passed + [t.now]), t.now)
  {
    CopiesAreRecent(n + 1, t.now, l.window);
  }

  lemma TooManyPause(l: Limits, t: Timed)
    requires t.guard.times == Copies(l.max, t.now)
    ensures Called(l, t, 0) == Timed(Guard([], t.guard.passed + [t.now + l.pause]), t.now + l.pause)
  {
    CopiesAreRecent(l.max + 1, t.now, l.window);
  }

  /** The passes so far, then n more at one moment. */
  function Then(s: seq<nat>, n: nat, t: nat): seq<nat> {
    s + Copies(n, t)
  }

  lemma ThenOneMore(s: seq<nat>, n: nat, t: nat)
    ensures Then(s, n + 1, t) == Then(s, n, t) + [t]
  {
    assert s + (Copies(n, t) + [t]) == (s + Copies(n, t)) + [t];
  }

  lemma OneMoreCall(l: Limits, gaps: seq<nat>, n: nat)
    ensures Calls(l, Then(gaps, n + 1, 0)) == Called(l, Calls(l, Then(gaps, n, 0)), 0)
  {
    ThenOneMore(gaps, n, 0);
    CallsSnoc(l, Then(gaps, n, 0), 0);
  }

  /** Up to max calls at one instant all pass and are all remembered. */
  lemma {:induction false} BurstPasses(l: Limits, gaps: seq<nat>, n: nat)
    requires n <= l.max && Calls(l, gaps).guard.times == []
    ensures var t, u := Calls(l, gaps), Calls(l, Then(gaps, n, 0));
            u.guard.times == Copies(n, t.now) && u.guard.passed == Then(t.guard.passed, n, t.now) && u.now == t.now
  {
    var t := Calls(l, gaps);
    if n == 0 {
      assert Then(gaps, 0, 0) == gaps && Then(t.guard.passed, 0, t.now) == t.guard.passed;
    } else {
      BurstPasses(l, gaps, n - 1);
      OneMoreCall(l, gaps, n - 1);
      ThenOneMore(t.guard.passed, n - 1, t.now);
      FewPass(l, Calls(l, Then(gaps, n - 1, 0)), n - 1);
    }
  }

  /** The call after a burst of max pauses, and is forgotten with the rest. */
  lemma BurstThenPause(l: Limits, gaps: seq<nat>)
    requires Calls(l, gaps).guard.times == []
    ensures var t, u := Calls(l, gaps), Calls(l, Then(gaps, l.max + 1, 0));
            && u.guard.times == [] && u.now == t.now + l.pause
            && u.guard.passed == Then(t.guard.passed, l.max, t.now) + [t.now + l.pause]
  {
    var t, v := Calls(l, gaps), Calls(l, Then(gaps, l.max, 0));
    BurstPasses(l, gaps, l.max);
    assert v.guard.times == Copies(l.max, t.now) && v.now == t.now;
    assert v.guard.passed == Then(t.guard.passed, l.max, t.now);
    OneMoreCall(l, gaps, l.max);
    TooManyPause(l, v);
  }

  /** max + 1 calls at once, then n more. */
  function Bursts(l: Limits, n: nat): seq<nat> {
    Then(Then([], l.max + 1, 0), n, 0)
  }

  lemma FirstBurst(l: Limits)
    ensures Calls(l, Then([], l.max + 1, 0)) == Timed(Guard([], Then([], l.max, 0) + [l.pause]), l.pause)
  {
    var none: seq<nat> := [];
    BurstThenPause(l, none);
    assert Calls(l, none) == Timed(UNUSED, 0);
  }

  /** max + 1 passes at one single moment do occur: the bound cannot be lowered. */
  lemma BoundIsReached(l: Limits)
    ensures var s := Calls(l, Bursts(l, l.max)).guard.passed;
            |s| == 2 * l.max + 1 && forall i | l.max <= i < |s| :: s[i] == l.pause
  {
    FirstBurst(l);
    BurstPasses(l, Then([], l.max + 1, 0), l.max);
  }

  /** With a pause no longer than the window, max + 2 passes fit in one window. */
  lemma ShortPauseBreaksBound(l: Limits)
    requires l.pause <= l.window
    ensures !Spaced(l, Calls(l, Bursts(l, 1)).guard.passed)
  {
    FirstBurst(l);
    var first := Then([], l.max + 1, 0);
    var t, s := Calls(l, first).guard.passed, Calls(l, Bursts(l, 1)).guard.passed;
    if l.max == 0 {
      BurstThenPause(l, first);
      assert s == Then(t, 0, l.pause) + [l.pause + l.pause];
    } else {
      BurstPasses(l, first, 1);
      assert s == Then(t, 1, l.pause);
    }
    TooClose(l, t, s);
  }

  lemma TooClose(l: Limits, t: seq<nat>, s: seq<nat>)
    requires l.pause <= l.window && t == Then([], l.max, 0) + [l.pause]
    requires s == if l.max == 0 then Then(t, 0, l.pause) + [l.pause + l.pause] else Then(t, 1, l.pause)
    ensures !Spaced(l, s)
  {
    assert t[l.max] == l.pause && (l.max > 0 ==> t[0] == 0);
    assert s[0] == t[0] && s[l.max + 1] <= s[0] + l.pause;
    assert !SpacedFrom(l, s, 0);
  }

  lemma {:induction false} CallsSorted(l: Limits, gaps: seq<nat>)
    ensures var t := Calls(l, gaps);
            Sorted(t.guard.passed) && forall i | 0 <= i < |t.guard.passed| :: t.guard.passed[i] <= t.now
  {
    if gaps != [] {
      CallsSorted(l, gaps[..|gaps| - 1]);
      CalledSorted(l, Calls(l, gaps[..|gaps| - 1]), gaps[|gaps| - 1]);
    }
  }

  lemma CalledSorted(l: Limits, t: Timed, gap: nat)
    requires Sorted(t.guard.passed) && forall i | 0 <= i < |t.guard.passed| :: t.guard.passed[i] <= t.now
    ensures var u := Called(l, t, gap);
            Sorted(u.guard.passed) && forall i | 0 <= i < |u.guard.passed| :: u.guard.passed[i] <= u.now
  {
    var u := Called(l, t, gap);
    assert u.guard.passed == t.guard.passed + [u.now];
    SortedSnoc(t.guard.passed, u.now);
  }

  ghost predicate BoundedAlways(l: Limits) {
    forall gaps: seq<nat>, x: int :: |InWindow(Calls(l, gaps).guard.passed, x, l.window)| <= l.max + 1
  }

  /** At most max + 1 guarded relaunches pass in any window, whatever the calls, if and only if the pause
      is longer than the window. */
  lemma RateBoundIffPauseLonger(l: Limits)
    ensures BoundedAlways(l) <==> l.pause > l.window
  {
    if l.pause > l.window {
      forall gaps: seq<nat>, x: int
        ensures |InWindow(Calls(l, gaps).guard.passed, x, l.window)| <= l.max + 1
      {
        CallsHold(l, gaps);
        SpacedIffWindowsBounded(l, Calls(l, gaps).guard.passed);
      }
    } else {
      var gaps := Bursts(l, 1);
      ShortPauseBreaksBound(l);
      CallsSorted(l, gaps);
      SpacedIffWindowsBounded(l, Calls(l, gaps).guard.passed);
    }
  }

  // ------------------------------------------------------------------ reconciling

  datatype State = State(
    now: nat,
    running: set<string>,
    guards: map<string, Guard>,
    gateway: Guard,
    wasOk: bool,
    alerts: nat
  )

  function Started(running: set<string>): State {
    State(0, running, map[], UNUSED, true, 0)
  }

  /** What a pass meets: the time that goes by before each guard call, the agents whose launch does not
      take and those that cannot be stopped. */
  datatype Conditions = Conditions(gap: string -> nat, dead: set<string>, stuck: set<string>)

  function GuardOf(s: State, id: string): Guard {
    if id in s.guards then s.guards[id] else UNUSED
  }

  /** An agent's guard is called; the clock is everyone's. */
  function AgentGuarded(l: Limits, s: State, id: string, at: nat): State {
    var g := GuardOf(s, id);
    s.(now := PassTime(l, g, at), guards := s.guards[id := Guarded(l, g, at)])
  }

  function GatewayGuarded(l: Limits, s: State, at: nat): State {
    s.(now := PassTime(l, s.gateway, at), gateway := Guarded(l, s.gateway, at))
  }

  function Launched(l: Limits, s: State, id: string, c: Conditions): State {
    if id in s.running then s
    else
      Raised(AgentGuarded(l, s, id, s.now + c.gap(id)), id, c)
  }

  function Raised(s: State, id: string, c: Conditions): State {
    s.(running := if id in c.dead then s.running else s.running + {id})
  }

  function AllLaunched(l: Limits, s: State, enabled: seq<string>, c: Conditions): State {
    if enabled == [] then s
    else Launched(l, AllLaunched(l, s, enabled[..|enabled| - 1], c), enabled[|enabled| - 1], c)
  }

  function ExtrasStopped(s: State, enabled: seq<string>, c: Conditions): State {
    s.(running := set id | id in s.running && (id in enabled || id in c.stuck))
  }

  /** One pass over what the store reads as. */
  function Reconciled(l: Limits, s: State, read: Option<seq<string>>, c: Conditions): State {
    match read
    case None => s.(wasOk := false, alerts := if s.wasOk then s.alerts + 1 else s.alerts)
    case Some(enabled) => ExtrasStopped(AllLaunched(l, s.(wasOk := true), enabled, c), enabled, c)
  }

  class Sidecar {
    const limits: Limits
    var state: State

    constructor (limits: Limits, running: set<string>)
      ensures this.limits == limits && state == Started(running)
    {
      this.limits := limits;
      state := Started(running);
    }

    method GuardAgent(id: string, gap: nat)
      modifies this
      ensures state == AgentGuarded(limits, old(state), id, old(state).now + gap)
    {
      var guard, now := GuardRelaunch(limits, GuardOf(state, id), state.now + gap);
      state := state.(now := now, guards := state.guards[id := guard]);
    }

    method GuardGateway(gap: nat)
      modifies this
      ensures state == GatewayGuarded(limits, old(state), old(state).now + gap)
    {
      var guard, now := GuardRelaunch(limits, state.gateway, state.now + gap);
      state := state.(now := now, gateway := guard);
    }

    method LaunchOne(id: string, c: Conditions)
      modifies this
      ensures state == Launched(limits, old(state), id, c)
    {
      if id !in state.running {
        GuardAgent(id, c.gap(id));
        if id !in c.dead {
          state := state.(running := state.running + {id});
        }
      }
    }

    method LaunchAll(enabled: seq<string>, c: Conditions)
      modifies this
      ensures state == AllLaunched(limits, old(state), enabled, c)
    {
      for i := 0 to |enabled|
        invariant state == AllLaunched(limits, old(state), enabled[..i], c)
      {
        assert enabled[..i + 1][..i] == enabled[..i];
        LaunchOne(enabled[i], c);
      }
      assert enabled[..|enabled|] == enabled;
    }

    method StopExtras(enabled: seq<string>, c: Conditions)
      modifies this
      ensures state == ExtrasStopped(old(state), enabled, c)
    {
      var left := state.running;
      while left != {}
        invariant left <= old(state).running
        invariant state == old(state).(running := state.running)
        invariant state.running == set id | id in old(state).running && (id in left || id in enabled || id in c.stuck)
        decreases left
      {
        var id :| id in left;
        if id !in enabled && id !in c.stuck {
          state := state.(running := state.running - {id});
        }
        left := left - {id};
      }
    }

    method Reconcile(read: Option<seq<string>>, c: Conditions)
      modifies this
      ensures state == Reconciled(limits, old(state), read, c)
    {
      if read.None? {
        if state.wasOk {
          state := state.(wasOk := false, alerts := state.alerts + 1);
        }
        return;
      }
      state := state.(wasOk := true);
      LaunchAll(read.value, c);
      StopExtras(read.value, c);
    }
  }

  // ------------------------------------------------------------------ one pass

  lemma {:induction false} LaunchedRunning(l: Limits, s: State, enabled: seq<string>, c: Conditions, id: string)
    ensures id in AllLaunched(l, s, enabled, c).running <==> id in s.running || (id in enabled && id !in c.dead)
    ensures id !in enabled || id in s.running ==> GuardOf(AllLaunched(l, s, enabled, c), id) == GuardOf(s, id)
  {
    if enabled != [] {
      LaunchedRunning(l, s, enabled[..|enabled| - 1], c, id);
    }
  }

  predicate Distinct(ids: seq<string>) {
    forall i, j | 0 <= i < j < |ids| :: ids[i] != ids[j]
  }

  /** A pass takes every enabled agent that is down, and no other, through its guard exactly once. */
  lemma {:induction false} EachLaunchIsGuardedOnce(l: Limits, s: State, enabled: seq<string>, c: Conditions, id: string)
    requires Distinct(enabled)
    ensures var was, now := GuardOf(s, id).passed, GuardOf(AllLaunched(l, s, enabled, c), id).passed;
            if id in enabled && id !in s.running
            then |now| == |was| + 1 && now[..|was|] == was && now[|was|] >= s.now
            else now == was
    ensures AllLaunched(l, s, enabled, c).now >= s.now
  {
    if enabled != [] {
      var n := |enabled| - 1;
      EachLaunchIsGuardedOnce(l, s, enabled[..n], c, id);
      LaunchedRunning(l, s, enabled[..n], c, id);
      LaunchedRunning(l, s, enabled[..n], c, enabled[n]);
      assert id in enabled <==> id in enabled[..n] || id == enabled[n];
    }
  }

  /** What a pass over a readable store leaves running. */
  lemma ReadablePass(l: Limits, s: State, enabled: seq<string>, c: Conditions, id: string)
    ensures var t := Reconciled(l, s, Some(enabled), c);
            && (id in enabled ==> (id in t.running <==> id in s.running || id !in c.dead))
            && (id !in enabled ==> (id in t.running <==> id in s.running && id in c.stuck))
  {
    LaunchedRunning(l, s.(wasOk := true), enabled, c, id);
  }

  /** The launch or the stop that the agent needs, if any, works. */
  predicate Worked(s: State, enabled: seq<string>, c: Conditions, id: string) {
    && (id in enabled && id !in s.running ==> id !in c.dead)
    && (id in s.running && id !in enabled ==> id !in c.stuck)
  }

  /** A pass over a readable store ends with exactly the enabled agents running if and only if every
      launch it needed took and every stop it needed worked. */
  lemma ConvergesIffNothingFailed(l: Limits, s: State, enabled: seq<string>, c: Conditions)
    ensures (forall id :: id in Reconciled(l, s, Some(enabled), c).running <==> id in enabled) <==>
            (forall id :: Worked(s, enabled, c, id))
  {
    forall id
      ensures (id in Reconciled(l, s, Some(enabled), c).running <==> id in enabled) <==>
              Worked(s, enabled, c, id)
    {
      ReadablePass(l, s, enabled, c, id);
    }
  }

  lemma {:induction false} NothingToLaunch(l: Limits, s: State, enabled: seq<string>, c: Conditions)
    requires forall id | id in enabled :: id in s.running
    ensures AllLaunched(l, s, enabled, c) == s
  {
    if enabled != [] {
      NothingToLaunch(l, s, enabled[..|enabled| - 1], c);
    }
  }

  /** Once the enabled agents are the running ones, another pass launches nothing, stops nothing and
      takes no time, whatever would have failed. */
  lemma SecondPassDoesNothing(l: Limits, s: State, enabled: seq<string>, c: Conditions)
    requires forall id :: id in s.running <==> id in enabled
    ensures Reconciled(l, s, Some(enabled), c) == s.(wasOk := true)
  {
    NothingToLaunch(l, s.(wasOk := true), enabled, c);
    assert (set id | id in s.running && (id in enabled || id in c.stuck)) == s.running;
  }

  // ------------------------------------------------------------------ every run

  /** A pass, agents dying, a deliberate recycle (which no guard counts), a gateway relaunch. */
  datatype Event =
    | Pass(read: Option<seq<string>>, conditions: Conditions)
    | Die(ids: set<string>)
    | Recycle(id: string, up: bool)
    | RelaunchGateway(gap: nat)

  function After(l: Limits, s: State, e: Event): State {
    match e
    case Pass(read, c) => Reconciled(l, s, read, c)
    case Die(ids) => s.(running := s.running - ids)
    case Recycle(id, up) => s.(running := if up then s.running + {id} else s.running - {id})
    case RelaunchGateway(gap) => GatewayGuarded(l, s, s.now + gap)
  }

  function AfterAll(l: Limits, s: State, events: seq<Event>): State {
    if events == [] then s else After(l, AfterAll(l, s, events[..|events| - 1]), events[|events| - 1])
  }

  ghost predicate AllHold(l: Limits, s: State) {
    GuardHolds(l, s.gateway, s.now) && forall id :: GuardHolds(l, GuardOf(s, id), s.now)
  }

  lemma LaunchKeepsGuards(l: Limits, s: State, id: string, c: Conditions)
    requires l.pause > l.window && AllHold(l, s)
    ensures AllHold(l, Launched(l, s, id, c))
  {
    if id !in s.running {
      var at := s.now + c.gap(id);
      var t := AgentGuarded(l, s, id, at);
      AgentKeepsGuards(l, s, id, at);
      RaisedKeepsGuards(l, t, id, c);
      assert Launched(l, s, id, c) == Raised(t, id, c);
    }
  }

  lemma RaisedKeepsGuards(l: Limits, s: State, id: string, c: Conditions)
    requires AllHold(l, s)
    ensures AllHold(l, Raised(s, id, c))
  {
    SameGuards(l, s, Raised(s, id, c));
  }

  lemma AgentKeepsGuards(l: Limits, s: State, id: string, at: nat)
    requires l.pause > l.window && AllHold(l, s) && at >= s.now
    ensures AllHold(l, AgentGuarded(l, s, id, at))
  {
    var t := AgentGuarded(l, s, id, at);
    TimePreservesGuard(l, s.gateway, s.now, t.now);
    TimePreservesGuard(l, GuardOf(s, id), s.now, at);
    CallKeepsGuard(l, GuardOf(s, id), at);
    forall other | other != id
      ensures GuardHolds(l, GuardOf(t, other), t.now)
    {
      TimePreservesGuard(l, GuardOf(s, other), s.now, t.now);
    }
  }

  lemma {:induction false} LaunchesKeepGuards(l: Limits, s: State, enabled: seq<string>, c: Conditions)
    requires l.pause > l.window && AllHold(l, s)
    ensures AllHold(l, AllLaunched(l, s, enabled, c))
  {
    if enabled != [] {
      var n := |enabled| - 1;
      LaunchesKeepGuards(l, s, enabled[..n], c);
      LaunchKeepsGuards(l, AllLaunched(l, s, enabled[..n], c), enabled[n], c);
    }
  }

  /** Only the guards and the clock matter to the bound. */
  lemma SameGuards(l: Limits, s: State, t: State)
    requires AllHold(l, s) && t.now == s.now && t.guards == s.guards && t.gateway == s.gateway
    ensures AllHold(l, t)
  {
    forall id
      ensures GuardHolds(l, GuardOf(t, id), t.now)
    {
      assert GuardOf(t, id) == GuardOf(s, id);
    }
  }

  lemma GatewayKeepsGuards(l: Limits, s: State, at: nat)
    requires l.pause > l.window && AllHold(l, s) && at >= s.now
    ensures AllHold(l, GatewayGuarded(l, s, at))
  {
    var t := GatewayGuarded(l, s, at);
    TimePreservesGuard(l, s.gateway, s.now, at);
    CallKeepsGuard(l, s.gateway, at);
    forall id
      ensures GuardHolds(l, GuardOf(t, id), t.now)
    {
      TimePreservesGuard(l, GuardOf(s, id), s.now, t.now);
    }
  }

  lemma EventKeepsGuards(l: Limits, s: State, e: Event)
    requires l.pause > l.window && AllHold(l, s)
    ensures AllHold(l, After(l, s, e))
  {
    match e
    case Pass(read, c) =>
      if read.Some? {
        var ready := s.(wasOk := true);
        SameGuards(l, s, ready);
        LaunchesKeepGuards(l, ready, read.value, c);
        SameGuards(l, AllLaunched(l, ready, read.value, c), After(l, s, e));
      } else {
        SameGuards(l, s, After(l, s, e));
      }
    case RelaunchGateway(gap) => GatewayKeepsGuards(l, s, s.now + gap);
    case _ => SameGuards(l, s, After(l, s, e));
  }

  lemma {:induction false} RunKeepsGuards(l: Limits, running: set<string>, events: seq<Event>)
    requires l.pause > l.window
    ensures AllHold(l, AfterAll(l, Started(running), events))
  {
    if events == [] {
      assert Remembers(l, UNUSED, 0, 0);
    } else {
      var n := |events| - 1;
      RunKeepsGuards(l, running, events[..n]);
      EventKeepsGuards(l, AfterAll(l, Started(running), events[..n]), events[n]);
    }
  }

  /** Over any run of the supervisor, with all agents and the gateway sharing one clock and pausing each
      other, no window holds more than max + 1 guarded relaunches of one agent, or of the gateway. */
  lemma RelaunchRateIsBounded(l: Limits, running: set<string>, events: seq<Event>, id: string, x: int)
    requires l.pause > l.window
    ensures var s := AfterAll(l, Started(running), events);
            && |InWindow(GuardOf(s, id).passed, x, l.window)| <= l.max + 1
            && |InWindow(s.gateway.passed, x, l.window)| <= l.max + 1
  {
    RunKeepsGuards(l, running, events);
    var s := AfterAll(l, Started(running), events);
    SpacedIffWindowsBounded(l, GuardOf(s, id).passed);
    SpacedIffWindowsBounded(l, s.gateway.passed);
  }

  /** Nothing in the run asks for this agent to go. */
  predicate Wanted(events: seq<Event>, id: string) {
    forall i | 0 <= i < |events| ::
      match events[i]
      case Pass(read, _) => read.Some? ==> id in read.value
      case Die(ids) => id !in ids
      case Recycle(other, up) => other == id ==> up
      case RelaunchGateway(_) => true
  }

  /** An agent that lives and is in every enabled list that could be read stays up and is never launched
      again, through any number of passes over a store that could not be read. */
  lemma {:induction false} WantedStaysUp(l: Limits, s: State, events: seq<Event>, id: string)
    requires id in s.running && Wanted(events, id)
    ensures var t := AfterAll(l, s, events);
            id in t.running && GuardOf(t, id) == GuardOf(s, id)
  {
    if events != [] {
      var n := |events| - 1;
      WantedStaysUp(l, s, events[..n], id);
      var t := AfterAll(l, s, events[..n]);
      if events[n].Pass? && events[n].read.Some? {
        LaunchedRunning(l, t.(wasOk := true), events[n].read.value, events[n].conditions, id);
      }
    }
  }

  /** Whether the last pass, if any, could read the store. */
  predicate LastReadWorked(events: seq<Event>) {
    if events == [] then true
    else
      var n := |events| - 1;
      if events[n].Pass? then events[n].read.Some? else LastReadWorked(events[..n])
  }

  /** The passes that found the store unreadable when the pass before had read it. */
  function Outages(events: seq<Event>): nat {
    if events == [] then 0
    else
      var n := |events| - 1;
      Outages(events[..n]) + (if events[n].Pass? && events[n].read.None? && LastReadWorked(events[..n]) then 1 else 0)
  }

  lemma {:induction false} LaunchesAlertNobody(l: Limits, s: State, enabled: seq<string>, c: Conditions)
    ensures var t := AllLaunched(l, s, enabled, c);
            t.wasOk == s.wasOk && t.alerts == s.alerts
  {
    if enabled != [] {
      LaunchesAlertNobody(l, s, enabled[..|enabled| - 1], c);
    }
  }

  /** One alert for each outage, however many passes it lasts. */
  lemma {:induction false} OneAlertPerOutage(l: Limits, running: set<string>, events: seq<Event>)
    ensures var s := AfterAll(l, Started(running), events);
            s.alerts == Outages(events) && s.wasOk == LastReadWorked(events)
  {
    if events != [] {
      var n := |events| - 1;
      OneAlertPerOutage(l, running, events[..n]);
      if events[n].Pass? && events[n].read.Some? {
        var t := AfterAll(l, Started(running), events[..n]).(wasOk := true);
        LaunchesAlertNobody(l, t, events[n].read.value, events[n].conditions);
      }
    }
  }
}
