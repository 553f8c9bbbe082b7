/** One refused send while an answer streams: a line of it is on no message and in no record, another stands twice,
    and Stop reports the answer shown. */
module LostLine {
  import Answer
  import opened Arrival
  import Blanks
  import Chunking
  import Closing
  import LayOut
  import opened Layout
  import Lists
  import opened Progress
  import opened Spilling
  import opened Stop
  import opened Streaming
  import opened Text
  import opened Transcript
  import opened UnitStability
  import opened Wrappers

  const WIDTH := 1000
  const MESSAGE: Option<string> := Some("m")
  const PROMPT := Row(true, User, [], Some("u"))

  /** A line of which two do not fit one message. */
  predicate Solid(line: string) {
    |line| == WIDTH && '\n' !in line && !IsFence(line) && !IsSpace(line[0]) && !IsSpace(line[|line| - 1])
  }

  function Unit(line: string): Item {
    Item(Narration, line)
  }

  function Delta(delta: string, index: int): Event {
    Event(true, MESSAGE, Some(delta), index, [PROMPT], false)
  }

  // ------------------------------------------------------------------ the lines

  lemma SolidIsStripped(s: string)
    requires s != "" && !IsSpace(s[0]) && !IsSpace(s[|s| - 1])
    ensures Strip(s) == s && Strip(s + "\n") == s
  {
    Blanks.StripBlankBack(s, "\n");
  }

  lemma UnitsOfLine(line: string)
    requires Solid(line)
    ensures LiveUnits(line) == [Unit(line)]
  {
    UnitsOfOne(Unit(line));
    SplitLine(line);
  }

  lemma UnitsOfTwoLines(y: string, z: string)
    requires Solid(y) && Solid(z)
    ensures LiveUnits(y + "\n" + z) == [Unit(y), Unit(z)]
  {
    UnitsOfOne(Unit(y + "\n" + z));
    SplitMeets(y, z);
    SplitLine(y);
    SplitLine(z);
  }

  lemma {:induction false} NoFenceOpen(items: seq<Item>)
    requires forall i | 0 <= i < |items| :: items[i].kind.Narration? && Solid(items[i].text)
    ensures OpenFence(items) == None
  {
    if items != [] {
      var n := |items| - 1;
      NoFenceOpen(items[..n]);
      SplitLine(items[n].text);
      FenceFoldConcat(None, TextLines(items[..n]), [items[n].text]);
      assert [items[n].text][..0] == [];
    }
  }

  lemma TwoDoNotFit(items: seq<Item>, footer: string)
    requires |items| == 2 && items[0].kind.Narration? && items[1].kind.Narration?
    requires |items[0].text| == |items[1].text| == WIDTH
    ensures !Fits(items, footer)
  {
    LoneTotal(items, 0);
    LoneTotal(items, 1);
    TotalSplit(items, 1);
    assert items[0..1] == items[..1] && items[1..2] == items[1..];
  }

  lemma PromptShowsNothing()
    ensures TurnItems([PROMPT]) == [] && TurnUnits([PROMPT]) == []
  {
    var e, u := Errors([PROMPT]), Usages([PROMPT]);
    Lists.FlatMapOne(r => RowItems(r, e, u), PROMPT);
  }

  // ------------------------------------------------------------------ the steps

  lemma StepIs(s: Sys, ev: Event, ok: Oracle)
    requires ev.isDisplay && !Finalized(s, ev.turn)
    ensures Step(s, ev, ok) ==
            ShowTail(SpillFrom(Loaded(s, ev), Show(s, ev), Stored(s).base, Stored(s).mid, WORKING_FOOTER, ok),
                     Show(s, ev), |TurnUnits(ev.turn)|, ok)
  {
  }

  lemma LoneTailShown(s: Sys, line: string, shown: nat, ok: Oracle)
    ensures var t := ShowTail(Spilled(s, 0, None), [Unit(line)], shown, ok);
            && t.frozen == s.frozen
            && t.trace == s.trace + [Send(RenderHead([Unit(line)], WORKING_FOOTER, None), ok(|s.trace|))]
            && (!ok(|s.trace|) ==> t.store == s.store)
            && (ok(|s.trace|) ==> t.store.Some? && Stored(t).done == s.state.done && Stored(t).base == 0
                                  && Stored(t).mid == Some(|s.trace|) && Stored(t).live == s.state.live)
  {
    var show := [Unit(line)];
    assert show[0..] == show && show[..0] == [];
  }

  lemma OneLineShown(s: Sys, ev: Event, line: string, ok: Oracle)
    requires ev.isDisplay && ev.turn == [PROMPT] && Stored(s) == FRESH && Solid(line)
    requires NextLive(s, ev).1 == line
    ensures var t, body := Step(s, ev, ok), RenderHead([Unit(line)], WORKING_FOOTER, None);
            && t.frozen == s.frozen && t.trace == s.trace + [Send(body, ok(|s.trace|))]
            && (!ok(|s.trace|) ==> t.store == s.store)
            && (ok(|s.trace|) ==> t.store.Some? && Stored(t).done.None? && Stored(t).base == 0
                                  && Stored(t).mid == Some(|s.trace|) && Stored(t).live == NextLive(s, ev).0)
  {
    PromptShowsNothing();
    UnitsOfLine(line);
    assert Show(s, ev) == [Unit(line)];
    StepIs(s, ev, ok);
    LoneTailShown(Loaded(s, ev), line, |TurnUnits(ev.turn)|, ok);
  }

  lemma StreamedText(live: Option<LiveState>, delta: string, index: int)
    ensures live == None ==>
              TrackLive(live, MESSAGE, Some(delta), index) == LiveState(MESSAGE, map[index := delta]) &&
              Deltas(map[index := delta]) == delta
  {
    var none: map<int, string> := map[];
    NextDelta(none, index, delta);
    assert none[index := delta] == map[index := delta];
  }

  lemma FirstText(s: Sys, line: string, index: int)
    requires Stored(s) == FRESH && Solid(line)
    ensures NextLive(s, Delta(line + "\n", index)) ==
            (Some(LiveState(MESSAGE, map[index := line + "\n"])), line)
  {
    PromptShowsNothing();
    StreamedText(None, line + "\n", index);
    SolidIsStripped(line);
  }

  lemma NextText(s: Sys, y: string, z: string)
    requires Stored(s).live == Some(LiveState(MESSAGE, map[1 := y + "\n"])) && Solid(y) && Solid(z)
    ensures NextLive(s, Delta(z, 2)).1 == y + "\n" + z
  {
    PromptShowsNothing();
    StreamedText(None, y + "\n", 1);
    NextDelta(map[1 := y + "\n"], 2, z);
    SolidIsStripped(y + "\n" + z);
  }

  /** Two lines of which the second is the last: the first is frozen. */
  lemma OneSeal(s: Sys, show: seq<Item>, base: nat, mid: nat, footer: string, ok: Oracle)
    requires |show| == base + 2 && ok(|s.trace|)
    requires forall i | 0 <= i < |show| :: show[i].kind.Narration? && Solid(show[i].text)
    ensures var r := SpillFrom(s, show, base, Some(mid), footer, ok);
            && r.base == base + 1 && r.mid == None
            && r.sys.trace == s.trace + [Edit(mid, RenderHead([show[base]], SPILL_FOOTER, None), true)]
            && r.sys.state == s.state.(base := base + 1, mid := None) && r.sys.store == Some(r.sys.state)
  {
    TwoDoNotFit(show[base..], footer);
    var t := SealOnce(s, show, base, Some(mid), ok);
    var op, seal := SealOnceFacts(s, show, base, Some(mid), ok);
    assert SealSize(show, base) == 1;
    assert show[base..base + 1] == [show[base]];
    NoFenceOpen(show[..base]);
    assert !NeedsSeal(show, base + 1, footer);
  }

  lemma TailOpens(r: Spilled, show: seq<Item>, shown: nat, ok: Oracle)
    requires |show| == 2 && r.base == 1 && r.mid == None && ok(|r.sys.trace|) && show[0].kind.Narration?
    requires Solid(show[0].text)
    ensures var t := ShowTail(r, show, shown, ok);
            && t.trace == r.sys.trace + [Send(RenderHead([show[1]], WORKING_FOOTER, None), true)]
            && t.store == Some(t.state) && t.state.base == 1 && t.state.mid == Some(|r.sys.trace|)
            && t.state.done == r.sys.state.done
  {
    NoFenceOpen(show[..1]);
    assert show[1..] == [show[1]];
  }

  lemma TwoLinesShown(s: Sys, y: string, z: string)
    requires Solid(y) && Solid(z) && NextLive(s, Delta(z, 2)).1 == y + "\n" + z
    ensures Show(s, Delta(z, 2)) == [Unit(y), Unit(z)]
  {
    PromptShowsNothing();
    UnitsOfTwoLines(y, z);
  }

  lemma SealAndTail(s: Sys, show: seq<Item>, shown: nat, ok: Oracle)
    requires |show| == 2 && forall i | 0 <= i < |show| :: show[i].kind.Narration? && Solid(show[i].text)
    requires |s.trace| == 2 && ok(2) && ok(3)
    ensures var t := ShowTail(SpillFrom(s, show, 0, Some(1), WORKING_FOOTER, ok), show, shown, ok);
            && t.trace == s.trace + [Edit(1, RenderHead([show[0]], SPILL_FOOTER, None), true)]
                                  + [Send(RenderHead([show[1]], WORKING_FOOTER, None), true)]
            && t.store == Some(t.state) && t.state.base == 1 && t.state.mid == Some(3) && t.state.done == s.state.done
  {
    OneSeal(s, show, 0, 1, WORKING_FOOTER, ok);
    TailOpens(SpillFrom(s, show, 0, Some(1), WORKING_FOOTER, ok), show, shown, ok);
  }

  lemma LineSealed(s: Sys, y: string, z: string, ok: Oracle)
    requires Solid(y) && Solid(z) && |s.trace| == 2 && ok(2) && ok(3)
    requires s.store.Some? && Stored(s).done.None? && Stored(s).base == 0 && Stored(s).mid == Some(1)
    requires NextLive(s, Delta(z, 2)).1 == y + "\n" + z
    ensures var t := Step(s, Delta(z, 2), ok);
            && t.trace == s.trace + [Edit(1, RenderHead([Unit(y)], SPILL_FOOTER, None), true)]
                                  + [Send(RenderHead([Unit(z)], WORKING_FOOTER, None), true)]
            && t.store.Some? && Stored(t).done.None? && Stored(t).base == 1 && Stored(t).mid == Some(3)
  {
    var ev := Delta(z, 2);
    TwoLinesShown(s, y, z);
    StepIs(s, ev, ok);
    SealAndTail(Loaded(s, ev), Show(s, ev), |TurnUnits(ev.turn)|, ok);
  }

  // ------------------------------------------------------------------ Stop

  lemma CapSeals(s: Sys, units: seq<Item>, ok: Oracle)
    requires |units| == 3 && forall i | 0 <= i < |units| :: units[i].kind.Narration? && Solid(units[i].text)
    requires |s.trace| == 4 && ok(4) && ok(5) && s.state.base == 1 && s.state.mid == Some(3)
    ensures var (t, covered) := LayOut.Laid(s, units, ok);
            && covered
            && t.trace == s.trace + [Edit(3, RenderHead([units[1]], SPILL_FOOTER, None), true)]
                                  + [Send(RenderHead([units[2]], "", None), true)]
  {
    OneSeal(s, units, 1, 3, DONE_FOOTER, ok);
    CapOpens(LayOut.SealedForCap(s, units, ok), units, ok);
  }

  lemma CapOpens(r: Sys, units: seq<Item>, ok: Oracle)
    requires |units| == 3 && r.state.base == 2 && r.state.mid == None && ok(|r.trace|)
    requires forall i | 0 <= i < |units| :: units[i].kind.Narration? && Solid(units[i].text)
    ensures Fits(From(units, 2), DONE_FOOTER)
    ensures LayOut.Capped(r, LayOut.CapBody(units, 2), ok).0.trace ==
            r.trace + [Send(RenderHead([units[2]], "", None), true)]
    ensures LayOut.Capped(r, LayOut.CapBody(units, 2), ok).1
  {
    NoFenceOpen(units[..2]);
    assert units[2..] == [units[2]] && units[2..3] == [units[2]];
    LoneTotal(units, 2);
  }

  lemma {:induction false} JoinLacks(lines: seq<string>, c: char)
    requires c != '\n' && forall l | l in lines :: c !in l
    ensures c !in Join(lines)
  {
    if |lines| > 1 {
      JoinLacks(lines[1..], c);
    }
  }

  /** A character of nothing that is inserted into a message. */
  predicate Foreign(c: char) {
    !IsSpace(c) && c !in FENCE && c !in SPILL_FOOTER && c !in WORKING_FOOTER && c !in DONE_FOOTER
  }

  lemma RenderLacks(line: string, footer: string, c: char)
    requires Foreign(c) && c !in line && c !in footer
    ensures c !in RenderHead([Unit(line)], footer, None)
  {
    var lines := Lines([Unit(line)]);
    assert lines == [line];
    var dressed := Dress(lines, footer, None);
    assert forall l | l in dressed :: l == line || l == FENCE || l == footer;
    JoinLacks(dressed, c);
  }

  // ------------------------------------------------------------------ what a reader can find

  /** No call that went through carries the character, and nothing was written down. */
  predicate Clean(trace: seq<Op>, c: char) {
    forall p | 0 <= p < |trace| :: !trace[p].Record? && (trace[p].ok ==> c !in trace[p].body)
  }

  lemma {:induction false} CleanShows(trace: seq<Op>, id: nat, c: char)
    requires Clean(trace, c)
    ensures c !in LayOut.ShownText(trace, id)
  {
    if trace != [] {
      CleanShows(trace[..|trace| - 1], id, c);
    }
  }

  lemma {:induction false} CleanPieces(trace: seq<Op>, frozen: seq<Seal>, units: seq<Item>, c: char)
    requires Clean(trace, c)
    ensures forall p | p in LayOut.SealedPieces(trace, frozen, units) :: c !in p
  {
    if frozen != [] {
      CleanPieces(trace, frozen[..|frozen| - 1], units, c);
      CleanShows(trace, frozen[|frozen| - 1].id, c);
    }
  }

  lemma CleanReads(t: Sys, seen: seq<Item>, c: char)
    requires Clean(t.trace, c) && t.state.mid.Some? && c != '\n'
    ensures c !in ReadText(t, seen)
  {
    CleanPieces(t.trace, t.frozen, seen, c);
    CleanShows(t.trace, t.state.mid.value, c);
    JoinLacks(LayOut.SealedPieces(t.trace, t.frozen, seen) +
              [LayOut.CapPiece(t.trace, t.state.mid.value, seen, t.state.base)], c);
  }

  lemma {:induction false} DenseHas(s: string, c: char)
    requires !IsSpace(c)
    ensures c in Answer.Dense(s) <==> c in s
  {
    if s != "" {
      DenseHas(s[1..], c);
      assert s == [s[0]] + s[1..];
    }
  }

  lemma {:induction false} VisibleHas(s: string, c: char)
    requires c != '\n'
    ensures c in Visible(s) <==> c in s
  {
    if s != "" {
      VisibleHas(s[1..], c);
      assert s == [s[0]] + s[1..];
    }
  }

  lemma {:induction false} FlatHas(parts: seq<string>, c: char)
    ensures c in Chunking.Flat(parts) <==> exists i | 0 <= i < |parts| :: c in parts[i]
  {
    if parts != [] {
      var n := |parts| - 1;
      FlatHas(parts[..n], c);
      Chunking.FlatSnoc(parts[..n], parts[n]);
      assert parts == parts[..n] + [parts[n]];
    }
  }

  lemma {:induction false} WithinHas(shown: string, parts: seq<string>, c: char)
    requires Answer.Within(shown, parts) && c in Chunking.Flat(parts)
    ensures c in shown
    decreases |parts|
  {
    if parts != [] {
      var n := |parts| - 1;
      var k :| 0 <= k <= |shown| - |parts[n]| && shown[k..k + |parts[n]|] == parts[n] &&
               Answer.Within(shown[..k], parts[..n]);
      Chunking.FlatSnoc(parts[..n], parts[n]);
      assert parts == parts[..n] + [parts[n]];
      if c in Chunking.Flat(parts[..n]) {
        WithinHas(shown[..k], parts[..n], c);
      } else {
        assert c in shown[k..k + |parts[n]|];
      }
    }
  }

  lemma PostedIsNotClean(trace: seq<Op>, at: nat, text: string, c: char)
    requires PostedAt(trace, at, Chunking.ChunksOf(text)) && c in text && c != '\n'
    ensures !Clean(trace, c)
  {
    var parts := Chunking.ChunksOf(text);
    Chunking.ChunksConserve(text);
    VisibleHas(text, c);
    VisibleHas(Chunking.Flat(parts), c);
    FlatHas(parts, c);
    var i :| 0 <= i < |parts| && c in parts[i];
    assert trace[at + i] == Send(parts[i], true);
  }

  /** An answer with a character that is on no message and in no record is not safe, whatever is taken for the
      units that were shown. */
  lemma CleanIsUnsafe(s: Sys, t: Sys, turn: seq<Row>, seen: seq<Item>, c: char)
    requires Clean(t.trace, c) && !IsSpace(c) && c in Closing.ClosingText(turn)
    ensures !Answer.AnswerIsSafe(s, t, seen, turn)
  {
    var text := Closing.ClosingText(turn);
    if ReadsWhole(t, seen) && Answer.HoldsClosing(ReadText(t, seen), turn) {
      CleanReads(t, seen, c);
      var i :| 0 <= i < |turn| && Answer.Within(ReadText(t, seen), Answer.Parts(AssistantBlocks(turn[i]))) &&
               Answer.Dense(Chunking.Flat(Answer.Parts(AssistantBlocks(turn[i])))) == Answer.Dense(text);
      DenseHas(text, c);
      DenseHas(Chunking.Flat(Answer.Parts(AssistantBlocks(turn[i]))), c);
      WithinHas(ReadText(t, seen), Answer.Parts(AssistantBlocks(turn[i])), c);
    }
    forall at
      ensures !PostedAt(t.trace, at, Chunking.ChunksOf(text))
    {
      if PostedAt(t.trace, at, Chunking.ChunksOf(text)) {
        PostedIsNotClean(t.trace, at, text, c);
      }
    }
  }

  // ------------------------------------------------------------------ the whole turn

  function Story(x: string, y: string, z: string): seq<Event> {
    [Delta(x + "\n", 0), Delta(y + "\n", 1), Delta(z, 2)]
  }

  function AnswerText(x: string, y: string, z: string): string {
    (x + "\n") + ((y + "\n") + z)
  }

  function AnswerRow(x: string, y: string, z: string): Row {
    Row(false, Assistant, [TextBlock(AnswerText(x, y, z))], Some("v"))
  }

  function AnswerTurn(x: string, y: string, z: string): seq<Row> {
    [PROMPT, AnswerRow(x, y, z)]
  }

  lemma StoryRuns(x: string, y: string, z: string, ok: Oracle)
    ensures RunAll(START, Story(x, y, z), ok) ==
            Step(Step(Step(START, Delta(x + "\n", 0), ok), Delta(y + "\n", 1), ok), Delta(z, 2), ok)
  {
    var e := Story(x, y, z);
    var s1 := Step(START, e[0], ok);
    var s2 := Step(s1, e[1], ok);
    assert e[1..][0] == e[1] && e[1..][1..] == [e[2]];
    assert [e[2]][1..] == [];
    assert RunAll(s2, [e[2]], ok) == Step(s2, e[2], ok);
    assert RunAll(s1, e[1..], ok) == RunAll(s2, [e[2]], ok);
  }

  lemma FirstTwoSteps(x: string, y: string, ok: Oracle)
    requires Solid(x) && Solid(y) && !ok(0) && ok(1)
    ensures var s := Step(Step(START, Delta(x + "\n", 0), ok), Delta(y + "\n", 1), ok);
            && s.store.Some? && Stored(s).done.None? && Stored(s).base == 0 && Stored(s).mid == Some(1)
            && Stored(s).live == Some(LiveState(MESSAGE, map[1 := y + "\n"]))
            && s.trace == [Send(RenderHead([Unit(x)], WORKING_FOOTER, None), false),
                           Send(RenderHead([Unit(y)], WORKING_FOOTER, None), true)]
  {
    FirstText(START, x, 0);
    OneLineShown(START, Delta(x + "\n", 0), x, ok);
    var s := Step(START, Delta(x + "\n", 0), ok);
    FirstText(s, y, 1);
    OneLineShown(s, Delta(y + "\n", 1), y, ok);
  }

  /** The state that the story leaves: the second line frozen, the third on the live message. */
  predicate Told(s: Sys, refused: string, first: string, frozen: string, second: string) {
    && s.store.Some? && Stored(s).done.None? && Stored(s).base == 1 && Stored(s).mid == Some(3)
    && s.trace == [Send(refused, false), Send(first, true)] + [Edit(1, frozen, true)] + [Send(second, true)]
  }

  lemma StoryLeaves(x: string, y: string, z: string, ok: Oracle)
    requires Solid(x) && Solid(y) && Solid(z) && !ok(0) && ok(1) && ok(2) && ok(3)
    ensures Told(RunAll(START, Story(x, y, z), ok), RenderHead([Unit(x)], WORKING_FOOTER, None),
                 RenderHead([Unit(y)], WORKING_FOOTER, None), RenderHead([Unit(y)], SPILL_FOOTER, None),
                 RenderHead([Unit(z)], WORKING_FOOTER, None))
  {
    StoryRuns(x, y, z, ok);
    FirstTwoSteps(x, y, ok);
    var s := Step(Step(START, Delta(x + "\n", 0), ok), Delta(y + "\n", 1), ok);
    NextText(s, y, z);
    LineSealed(s, y, z, ok);
  }

  /** The calls of the turn: a refused one, then those of its messages. */
  function Calls(refused: string, first: string, frozen: string, second: string, cap: string): seq<Op> {
    [Send(refused, false), Send(first, true)] + [Edit(1, frozen, true)] + [Send(second, true)] +
    [Edit(3, frozen, true)] + [Send(cap, true)] + [Send(DONE_FOOTER, true)]
  }

  lemma CallsShow(refused: string, first: string, frozen: string, second: string, cap: string, c: char)
    requires c !in first && c !in frozen && c !in second && c !in cap && Foreign(c)
    ensures var trace := Calls(refused, first, frozen, second, cap);
            Clean(trace, c) && Shows(trace, 1) == Shows(trace, 3) == Some(frozen)
  {
    var trace := Calls(refused, first, frozen, second, cap);
    UntouchedStillShows(trace, 2, 1, frozen);
    UntouchedStillShows(trace, 4, 3, frozen);
  }

  lemma AnswerIsStripped(x: string, y: string, z: string)
    requires Solid(x) && Solid(y) && Solid(z)
    ensures Strip(AnswerText(x, y, z)) == AnswerText(x, y, z) != ""
    ensures Split(AnswerText(x, y, z)) == [x, y, z]
  {
    var text := AnswerText(x, y, z);
    SolidIsStripped(text);
    assert text == x + "\n" + (y + "\n" + z);
    SplitMeets(x, y + "\n" + z);
    SplitMeets(y, z);
    SplitLine(x);
    SplitLine(y);
    SplitLine(z);
  }

  lemma AnswerLines(x: string, y: string, z: string)
    requires Solid(x) && Solid(y) && Solid(z)
    ensures Units([Unit(AnswerText(x, y, z))]) == [Unit(x), Unit(y), Unit(z)]
  {
    AnswerIsStripped(x, y, z);
    UnitsOfOne(Unit(AnswerText(x, y, z)));
    assert LineUnits(Narration, [x, y, z]) == [Unit(x), Unit(y), Unit(z)];
  }

  lemma AnswerUnits(x: string, y: string, z: string)
    requires Solid(x) && Solid(y) && Solid(z)
    ensures TurnUnits(AnswerTurn(x, y, z)) == [Unit(x), Unit(y), Unit(z)]
  {
    AnswerIsStripped(x, y, z);
    PromptShowsNothing();
    CommitKeepsLiveUnits([PROMPT], AnswerRow(x, y, z), AnswerText(x, y, z));
    AnswerLines(x, y, z);
    assert [PROMPT] + [AnswerRow(x, y, z)] == AnswerTurn(x, y, z);
  }

  /** Stop closes the turn with the answer. */
  lemma StopCloses(x: string, y: string, z: string, done: Option<string>)
    requires Solid(x) && Solid(y) && Solid(z) && done.None?
    ensures var turn := AnswerTurn(x, y, z);
            && Closing.Flushed(turn) && Closing.ClosingText(turn) == AnswerText(x, y, z)
            && PlanFor(done, Polled(turn, true)) == Close(turn, AnswerText(x, y, z), false)
  {
    var turn := AnswerTurn(x, y, z);
    AnswerIsStripped(x, y, z);
    Closing.LoneTextIsRowText(turn[1], 0);
    assert Closing.HasText(turn[1]) && !HasToolResult(turn[1]);
    assert turn[..|turn| - 1] == [PROMPT];
    assert !Sent(turn);
  }

  lemma CommittedIs(s: Sys, plan: Plan, ok: Oracle)
    requires plan.Close? && !plan.alreadySent && s.store.Some?
    ensures var (laid, covered) := LayOut.Laid(s.(state := Stored(s)), TurnUnits(plan.turn), ok);
            Committed(s, Stored(s), plan, ok) == AfterCap(laid, plan, covered, ok)
  {
  }

  lemma CoveredEnds(laid: Sys, plan: Plan, ok: Oracle)
    requires plan.Close? && !plan.alreadySent && TurnId(plan.turn).Some? && ok(|laid.trace|)
    ensures var t := AfterCap(laid, plan, true, ok);
            t.store.Some? && Stored(t).done == TurnId(plan.turn) && t.trace == laid.trace + [Send(DONE_FOOTER, true)]
  {
  }

  lemma StopEnds(s: Sys, plan: Plan, units: seq<Item>, ok: Oracle)
    requires plan.Close? && !plan.alreadySent && TurnId(plan.turn).Some? && TurnUnits(plan.turn) == units
    requires |units| == 3 && forall i | 0 <= i < |units| :: units[i].kind.Narration? && Solid(units[i].text)
    requires |s.trace| == 4 && ok(4) && ok(5) && ok(6)
    requires s.store.Some? && Stored(s).base == 1 && Stored(s).mid == Some(3)
    ensures var t := Committed(s, Stored(s), plan, ok);
            && LayOut.Laid(s.(state := Stored(s)), units, ok).1
            && t.store.Some? && Stored(t).done == TurnId(plan.turn)
            && t.trace == s.trace + [Edit(3, RenderHead([units[1]], SPILL_FOOTER, None), true)]
                                  + [Send(RenderHead([units[2]], "", None), true)] + [Send(DONE_FOOTER, true)]
  {
    var loaded := s.(state := Stored(s));
    CapSeals(loaded, units, ok);
    CoveredEnds(LayOut.Laid(loaded, units, ok).0, plan, ok);
    CommittedIs(s, plan, ok);
  }

  lemma AnswerHas(x: string, y: string, z: string, c: char)
    requires c in x
    ensures c in AnswerText(x, y, z)
  {
  }

  /** What Stop makes of it: lay_out reports the answer shown and the tombstone is stored, but a character of the
      answer is on no message and in no record, and one text stands on two messages. */
  ghost predicate LosesSilently(s: Sys, turn: seq<Row>, c: char, twice: string, ok: Oracle) {
    var t := Committed(s, Stored(s), PlanFor(Stored(s).done, Polled(turn, true)), ok);
    && Closing.Flushed(turn) && c in Closing.ClosingText(turn)
    && LayOut.Laid(s.(state := Stored(s)), TurnUnits(turn), ok).1 && Stored(t).done == TurnId(turn)
    && Clean(t.trace, c) && (forall seen :: !Answer.AnswerIsSafe(s, t, seen, turn))
    && Shows(t.trace, 1) == Shows(t.trace, 3) == Some(twice)
  }

  lemma StopLoses(s: Sys, turn: seq<Row>, units: seq<Item>, c: char, refused: string, first: string, frozen: string,
                  second: string, cap: string, ok: Oracle)
    requires Told(s, refused, first, frozen, second) && ok(4) && ok(5) && ok(6)
    requires |units| == 3 && forall i | 0 <= i < |units| :: units[i].kind.Narration? && Solid(units[i].text)
    requires TurnUnits(turn) == units && TurnId(turn).Some? && Closing.Flushed(turn) && !Sent(turn)
    requires frozen == RenderHead([units[1]], SPILL_FOOTER, None) && cap == RenderHead([units[2]], "", None)
    requires Foreign(c) && c in Closing.ClosingText(turn)
    requires c !in first && c !in frozen && c !in second && c !in cap
    ensures LosesSilently(s, turn, c, frozen, ok)
  {
    PlanCloses(Stored(s).done, turn);
    var plan := PlanFor(Stored(s).done, Polled(turn, true));
    StopEnds(s, plan, units, ok);
    CallsShow(refused, first, frozen, second, cap, c);
    var t := Committed(s, Stored(s), plan, ok);
    assert t.trace == Calls(refused, first, frozen, second, cap);
    forall seen
      ensures !Answer.AnswerIsSafe(s, t, seen, turn)
    {
      CleanIsUnsafe(s, t, turn, seen, c);
    }
  }

  lemma StoryLoses(s: Sys, x: string, y: string, z: string, c: char, ok: Oracle)
    requires Solid(x) && Solid(y) && Solid(z) && Foreign(c) && c in x && c !in y && c !in z
    requires forall i | i > 0 :: ok(i)
    requires Told(s, RenderHead([Unit(x)], WORKING_FOOTER, None), RenderHead([Unit(y)], WORKING_FOOTER, None),
                  RenderHead([Unit(y)], SPILL_FOOTER, None), RenderHead([Unit(z)], WORKING_FOOTER, None))
    ensures LosesSilently(s, AnswerTurn(x, y, z), c, RenderHead([Unit(y)], SPILL_FOOTER, None), ok)
  {
    StopCloses(x, y, z, Stored(s).done);
    AnswerUnits(x, y, z);
    AnswerHas(x, y, z, c);
    RenderLacks(y, WORKING_FOOTER, c);
    RenderLacks(y, SPILL_FOOTER, c);
    RenderLacks(z, WORKING_FOOTER, c);
    RenderLacks(z, "", c);
    StopLoses(s, AnswerTurn(x, y, z), [Unit(x), Unit(y), Unit(z)], c, RenderHead([Unit(x)], WORKING_FOOTER, None),
              RenderHead([Unit(y)], WORKING_FOOTER, None), RenderHead([Unit(y)], SPILL_FOOTER, None),
              RenderHead([Unit(z)], WORKING_FOOTER, None), RenderHead([Unit(z)], "", None), ok);
  }

  /** Three lines of an answer, any two too many for a message, are streamed in order; the first send is refused and
      every later call goes through; the answer is committed as streamed, and Stop finds it. The first line is lost
      and the second stands twice. */
  lemma RefusedSendLosesLine(x: string, y: string, z: string, c: char, ok: Oracle)
    requires Solid(x) && Solid(y) && Solid(z) && Foreign(c) && c in x && c !in y && c !in z
    requires !ok(0) && forall i | i > 0 :: ok(i)
    ensures LosesSilently(RunAll(START, Story(x, y, z), ok), AnswerTurn(x, y, z), c,
                          RenderHead([Unit(y)], SPILL_FOOTER, None), ok)
  {
    StoryLeaves(x, y, z, ok);
    StoryLoses(RunAll(START, Story(x, y, z), ok), x, y, z, c, ok);
  }

  function Letters(c: char): string {
    seq(WIDTH, _ => c)
  }

  lemma LettersAreSolid(c: char)
    requires 'a' <= c <= 'z'
    ensures Solid(Letters(c)) && forall d | d in Letters(c) :: d == c
  {
    assert LStrip(Letters(c)) == Letters(c);
    assert Letters(c)[0] == c;
  }

  /** Such lines: a thousand times x, y and z. */
  lemma RefusedSendExample(ok: Oracle)
    requires forall i :: ok(i) <==> i != 0
    ensures var x, y, z := Letters('x'), Letters('y'), Letters('z');
            LosesSilently(RunAll(START, Story(x, y, z), ok), AnswerTurn(x, y, z), 'x',
                          RenderHead([Unit(y)], SPILL_FOOTER, None), ok)
  {
    LettersAreSolid('x');
    LettersAreSolid('y');
    LettersAreSolid('z');
    assert Letters('x')[0] == 'x';
    RefusedSendLosesLine(Letters('x'), Letters('y'), Letters('z'), 'x', ok);
  }
}
