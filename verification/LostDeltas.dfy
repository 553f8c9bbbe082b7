/** Streamed deltas that are not stored, and what is shown of the narration they belong to. */
module LostDeltas {
  import opened Blanks
  import opened Layout
  import Lists
  import opened Progress
  import opened Spilling
  import opened Streaming
  import opened Text
  import opened Transcript
  import opened UnitStability
  import opened Wrappers

  /** When a display step stores its delta: a message overflows and its seal goes through; or there is something
      to show, and the live message's text would change, or there is no live message and the send of one goes
      through. */
  predicate Stores(s: Sys, ev: Event, ok: Oracle) {
    var show, st, n := Show(s, ev), Stored(s), |s.trace|;
    var overflows := NeedsSeal(show, st.base, WORKING_FOOTER);
    || (overflows && ok(n))
    || (st.base < |show| &&
        if st.mid.Some? then st.lastBody != Some(LiveBody(show, st.base)) else ok(if overflows then n + 1 else n))
  }

  lemma Unsealed(s: Sys, ev: Event, ok: Oracle)
    requires ev.isDisplay && !(NeedsSeal(Show(s, ev), Stored(s).base, WORKING_FOOTER) && ok(|s.trace|))
    ensures var r := Sealed(s, ev, ok);
            && r.base == Stored(s).base && r.mid == Stored(s).mid
            && r.sys == Loaded(s, ev).(trace := r.sys.trace)
            && |r.sys.trace| == |s.trace| + if NeedsSeal(Show(s, ev), Stored(s).base, WORKING_FOOTER) then 1 else 0
  {
    if NeedsSeal(Show(s, ev), Stored(s).base, WORKING_FOOTER) {
      var op := SealFailedFacts(Loaded(s, ev), Show(s, ev), Stored(s).base, Stored(s).mid, ok);
    }
  }

  lemma Sealing(s: Sys, ev: Event, ok: Oracle)
    requires ev.isDisplay && NeedsSeal(Show(s, ev), Stored(s).base, WORKING_FOOTER) && ok(|s.trace|)
    ensures var r := Sealed(s, ev, ok);
            r.sys.store == Some(r.sys.state) && r.sys.state.live == NextLive(s, ev).0
  {
    var show, base, mid := Show(s, ev), Stored(s).base, Stored(s).mid;
    var t := SealOnce(Loaded(s, ev), show, base, mid, ok);
    var op, seal := SealOnceFacts(Loaded(s, ev), show, base, mid, ok);
    SpillOnlyAdds(t.sys, show, t.base, None, WORKING_FOOTER, ok);
  }

  lemma TailStores(r: Spilled, show: seq<Item>, shown: nat, ok: Oracle)
    ensures var t := ShowTail(r, show, shown, ok);
            var saves := r.base < |show| &&
              if r.mid.Some? then r.sys.state.lastBody != Some(LiveBody(show, r.base)) else ok(|r.sys.trace|);
            if saves then Stored(t).live == r.sys.state.live else t.store == r.sys.store
  {
  }

  /** The buffer with this step's delta is stored exactly then; otherwise the stored state does not change. */
  lemma DeltaIsStoredIff(s: Sys, ev: Event, ok: Oracle)
    requires ev.isDisplay && !Finalized(s, ev.turn)
    ensures Stores(s, ev, ok) ==> Stored(Step(s, ev, ok)).live == NextLive(s, ev).0
    ensures !Stores(s, ev, ok) ==> Step(s, ev, ok).store == s.store
  {
    var r := Sealed(s, ev, ok);
    TailStores(r, Show(s, ev), |TurnUnits(ev.turn)|, ok);
    if NeedsSeal(Show(s, ev), Stored(s).base, WORKING_FOOTER) && ok(|s.trace|) {
      Sealing(s, ev, ok);
    } else {
      Unsealed(s, ev, ok);
      assert r.sys.state == Stored(s).(live := NextLive(s, ev).0) && r.sys.store == s.store;
    }
  }

  // ------------------------------------------------------------------ one narration, streamed in order

  /** What is stored of a display message. */
  function Buffer(s: Sys, m: Option<string>): map<int, string> {
    var held := Stored(s).live.GetOr(LiveState(None, map[]));
    if held.messageId == m then held.segments else map[]
  }

  /** A run of display steps that stream one message's deltas in order, from the i-th on, into a turn that is not
      over and does not hold what is streamed yet. */
  predicate Streams(s: Sys, m: Option<string>, i: nat, events: seq<Event>, ok: Oracle)
    decreases |events|
  {
    events != [] ==>
      var ev := events[0];
      && ev.isDisplay && ev.messageId == m && ev.delta.Some? && ev.index == i
      && !Finalized(s, ev.turn) && NextLive(s, ev).0.Some?
      && Streams(Step(s, ev, ok), m, i + 1, events[1..], ok)
  }

  function DeltasOf(events: seq<Event>): seq<string>
    ensures |DeltasOf(events)| == |events|
  {
    if events == [] then [] else [events[0].delta.GetOr("")] + DeltasOf(events[1..])
  }

  function StoredOf(s: Sys, events: seq<Event>, ok: Oracle): (r: seq<bool>)
    ensures |r| == |events|
    decreases |events|
  {
    if events == [] then [] else [Stores(s, events[0], ok)] + StoredOf(Step(s, events[0], ok), events[1..], ok)
  }

  lemma StepBuffer(s: Sys, m: Option<string>, i: nat, ev: Event, ok: Oracle)
    requires ev.isDisplay && ev.messageId == m && ev.delta.Some? && ev.index == i
    requires !Finalized(s, ev.turn) && NextLive(s, ev).0.Some?
    ensures Buffer(Step(s, ev, ok), m) ==
            if Stores(s, ev, ok) then Buffer(s, m)[i := ev.delta.value] else Buffer(s, m)
  {
    DeltaIsStoredIff(s, ev, ok);
  }

  /** What is stored of the message after the run: the deltas of the steps that stored theirs. */
  lemma {:induction false} BufferIsKept(s: Sys, m: Option<string>, i: nat, events: seq<Event>, ok: Oracle)
    requires Streams(s, m, i, events, ok) && forall k | k in Buffer(s, m) :: k < i
    ensures Deltas(Buffer(RunAll(s, events, ok), m)) ==
            Deltas(Buffer(s, m)) + Kept(DeltasOf(events), StoredOf(s, events, ok))
    decreases |events|
  {
    if events != [] {
      var ev, t := events[0], Step(s, events[0], ok);
      StepBuffer(s, m, i, ev, ok);
      BufferIsKept(t, m, i + 1, events[1..], ok);
      NextDelta(Buffer(s, m), i, ev.delta.value);
      KeptStep(Deltas(Buffer(s, m)), Deltas(Buffer(t, m)), ev.delta.value, DeltasOf(events[1..]),
               Stores(s, ev, ok), StoredOf(t, events[1..], ok));
      assert DeltasOf(events) == [ev.delta.value] + DeltasOf(events[1..]);
      assert StoredOf(s, events, ok) == [Stores(s, ev, ok)] + StoredOf(t, events[1..], ok);
    }
  }

  lemma KeptStep(was: string, now: string, d: string, deltas: seq<string>, stored: bool, flags: seq<bool>)
    requires |deltas| == |flags| && now == if stored then was + d else was
    ensures now + Kept(deltas, flags) == was + Kept([d] + deltas, [stored] + flags)
  {
    KeptCons(d, deltas, stored, flags);
  }

  lemma KeptCons(d: string, deltas: seq<string>, stored: bool, flags: seq<bool>)
    requires |deltas| == |flags|
    ensures Kept([d] + deltas, [stored] + flags) == (if stored then d else "") + Kept(deltas, flags)
  {
  }

  /** The joined segments are the whole narration, stripped, if and only if every delta that was not stored was
      white space at one of its ends. */
  lemma SegmentsAreTheTextIff(s: Sys, m: Option<string>, events: seq<Event>, ok: Oracle)
    requires Streams(s, m, 0, events, ok) && Buffer(s, m) == map[]
    ensures Strip(Deltas(Buffer(RunAll(s, events, ok), m))) == Strip(Whole(DeltasOf(events))) <==>
            LossesHarmless("", DeltasOf(events), StoredOf(s, events, ok))
  {
    BufferIsKept(s, m, 0, events, ok);
    KeptIsWholeIff("", DeltasOf(events), StoredOf(s, events, ok));
    var kept, whole := Kept(DeltasOf(events), StoredOf(s, events, ok)), Whole(DeltasOf(events));
    assert "" + kept == kept && "" + whole == whole;
  }

  // ------------------------------------------------------------------ shown twice

  lemma CommitItems(turn: seq<Row>, row: Row, text: string)
    requires row.role.Assistant? && row.blocks == [TextBlock(text)] && Strip(text) != ""
    ensures TurnItems(turn + [row]) == TurnItems(turn) + [Item(Narration, Strip(text))]
  {
    ResultsUnchanged(turn, [row]);
    var e, u := Errors(turn), Usages(turn);
    Lists.FlatMapConcat(r => RowItems(r, e, u), turn, [row]);
    Lists.FlatMapOne(b => BlockItems(b, e, u), TextBlock(text));
    Lists.FlatMapOne(r => RowItems(r, e, u), row);
  }

  /** When the narration is committed, the step that sees it shows it once if what was stored is the same text,
      and otherwise once more as it was stored, below it. */
  lemma CommitShows(t: Sys, ev: Event, m: Option<string>, turn: seq<Row>, row: Row, text: string)
    requires !ev.isDisplay && ev.turn == turn + [row]
    requires row.role.Assistant? && row.blocks == [TextBlock(text)] && Strip(text) != ""
    requires Stored(t).live.Some? && Stored(t).live.value.messageId == m
    requires Strip(Deltas(Buffer(t, m))) != ""
    requires Item(Narration, Strip(Deltas(Buffer(t, m)))) !in TurnItems(turn)
    ensures var stored := Strip(Deltas(Buffer(t, m)));
            Show(t, ev) == TurnUnits(turn) + Units([Item(Narration, Strip(text))]) +
                           (if stored == Strip(text) then [] else Units([Item(Narration, stored)]))
  {
    CommitItems(turn, row, text);
    UnitsConcat(TurnItems(turn), [Item(Narration, Strip(text))]);
  }

  /** So a narration whose text is exactly its deltas is shown a second time if and only if a delta was lost that
      was not white space at an end. */
  lemma ShownTwiceIff(s: Sys, m: Option<string>, events: seq<Event>, ok: Oracle, ev: Event, turn: seq<Row>, row: Row)
    requires Streams(s, m, 0, events, ok) && Buffer(s, m) == map[]
    requires !ev.isDisplay && ev.turn == turn + [row] && row.role.Assistant?
    requires var text := Whole(DeltasOf(events)); row.blocks == [TextBlock(text)] && Strip(text) != ""
    requires var t := RunAll(s, events, ok);
             && Stored(t).live.Some? && Stored(t).live.value.messageId == m
             && Strip(Deltas(Buffer(t, m))) != ""
             && Item(Narration, Strip(Deltas(Buffer(t, m)))) !in TurnItems(turn)
    ensures Show(RunAll(s, events, ok), ev) ==
            TurnUnits(turn) + Units([Item(Narration, Strip(Whole(DeltasOf(events))))]) <==>
            LossesHarmless("", DeltasOf(events), StoredOf(s, events, ok))
  {
    var t, text := RunAll(s, events, ok), Whole(DeltasOf(events));
    SegmentsAreTheTextIff(s, m, events, ok);
    CommitShows(t, ev, m, turn, row, text);
    UnitsOfOne(Item(Narration, Strip(Deltas(Buffer(t, m)))));
  }

  // ------------------------------------------------------------------ an example

  const JUST_A := LiveState(Some("m"), map[0 := "a"])

  lemma ThreeDeltas()
    ensures Deltas(JUST_A.segments) == "a"
    ensures Deltas(JUST_A.segments[1 := "\n"]) == "a\n"
    ensures Deltas(JUST_A.segments[2 := "b"]) == "ab"
    ensures Deltas(JUST_A.segments[1 := "\n"][2 := "b"]) == "a\nb"
  {
    var none: map<int, string> := map[];
    NextDelta(none, 0, "a");
    assert none[0 := "a"] == JUST_A.segments;
    NextDelta(JUST_A.segments, 1, "\n");
    NextDelta(JUST_A.segments, 2, "b");
    NextDelta(JUST_A.segments[1 := "\n"], 2, "b");
  }

  lemma StripExamples()
    ensures Strip("a") == "a" && Strip("a\n") == "a" && Strip("ab") == "ab" && Strip("a\nb") == "a\nb"
  {
    assert LStrip("a") == "a" && LStrip("a\n") == "a\n" && LStrip("ab") == "ab" && LStrip("a\nb") == "a\nb";
    assert "a\n"[..1] == "a";
    assert RStrip("a") == "a";
  }

  lemma NoUnits()
    ensures TurnUnits([]) == []
  {
  }

  lemma UnitsOfA()
    ensures Units([Item(Narration, "a")]) == [Item(Narration, "a")]
  {
    var item := Item(Narration, "a");
    UnitsOfOne(item);
    SplitLine("a");
    assert ItemUnits(item) == [item];
  }

  /** "a" is streaming and on display. */
  predicate ShowsA(s: Sys) {
    var body := LiveBody([Item(Narration, "a")], 0);
    s.store == Some(FRESH.(mid := Some(0), lastBody := Some(body), live := Some(JUST_A)))
  }

  function Delta(delta: string, index: int): Event {
    Event(true, Some("m"), Some(delta), index, [], false)
  }

  lemma LineBreakIsInvisible(s: Sys)
    requires ShowsA(s)
    ensures Show(s, Delta("\n", 1)) == [Item(Narration, "a")]
  {
    ThreeDeltas();
    StripExamples();
    NoUnits();
    UnitsOfA();
    assert NextLive(s, Delta("\n", 1)).1 == "a";
  }

  lemma NextShowsAB(s: Sys)
    requires ShowsA(s)
    ensures NextLive(s, Delta("b", 2)).1 == "ab"
  {
    ThreeDeltas();
    StripExamples();
  }

  /** The deltas "a", "\n", "b" of one message, when the first is on display already: the line break is not
      stored, and the third step shows "ab" where the message says "a\nb". */
  lemma LostLineBreak(s: Sys, ok: Oracle)
    requires ShowsA(s)
    ensures NextLive(Step(s, Delta("\n", 1), ok), Delta("b", 2)).1 == "ab"
    ensures Strip(Deltas(JUST_A.segments[1 := "\n"][2 := "b"])) == "a\nb"
  {
    ThreeDeltas();
    StripExamples();
    LineBreakIsInvisible(s);
    DeltaIsStoredIff(s, Delta("\n", 1), ok);
    NextShowsAB(Step(s, Delta("\n", 1), ok));
  }
}
