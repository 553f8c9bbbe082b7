/** The closing answer itself: its text is on the channel, or was posted, or was written down. */
module Answer {
  import opened Arrival
  import opened Chunking
  import opened Closing
  import Following
  import LayOut
  import opened Layout
  import opened Lists
  import Overlap
  import opened Progress
  import opened Spilling
  import opened Stop
  import opened Text
  import opened Transcript
  import opened UnitStability
  import opened Widths
  import opened Wrappers

  // ------------------------------------------------------------------ the parts of an answer

  function BlockPart(b: Block): seq<string> {
    if b.TextBlock? && Strip(b.text) != "" then [Strip(b.text)] else []
  }

  /** The answer as its row holds it: the stripped text blocks that are not blank. */
  function Parts(blocks: seq<Block>): seq<string> {
    FlatMap(BlockPart, blocks)
  }

  /** The parts stand in the text, whole, in order and apart. */
  predicate Within(shown: string, parts: seq<string>)
    decreases |parts|
  {
    parts == [] ||
    exists k | 0 <= k <= |shown| - |parts[|parts| - 1]| ::
      shown[k..k + |parts[|parts| - 1]|] == parts[|parts| - 1] && Within(shown[..k], parts[..|parts| - 1])
  }

  lemma WithinGrows(shown: string, more: string, parts: seq<string>)
    requires Within(shown, parts)
    ensures Within(shown + more, parts)
  {
    if parts != [] {
      var p := parts[|parts| - 1];
      var k :| 0 <= k <= |shown| - |p| && shown[k..k + |p|] == p && Within(shown[..k], parts[..|parts| - 1]);
      assert (shown + more)[k..k + |p|] == p && (shown + more)[..k] == shown[..k];
    }
  }

  lemma WithinSnoc(shown: string, parts: seq<string>, p: string)
    requires Within(shown, parts)
    ensures Within(shown + p, parts + [p])
  {
    var k, all := |shown|, parts + [p];
    assert all[..|all| - 1] == parts && (shown + p)[k..k + |p|] == p && (shown + p)[..k] == shown;
  }

  // ------------------------------------------------------------------ the characters of an answer

  /** The characters that are not white space. */
  function Dense(s: string): string {
    if s == "" then "" else (if IsSpace(s[0]) then "" else [s[0]]) + Dense(s[1..])
  }

  lemma {:induction false} DenseConcat(a: string, b: string)
    ensures Dense(a + b) == Dense(a) + Dense(b)
  {
    if a == "" {
      assert a + b == b;
    } else {
      var c, rest := a + b, a[1..];
      DenseConcat(rest, b);
      assert c[0] == a[0] && c[1..] == rest + b;
      Assoc(if IsSpace(a[0]) then "" else [a[0]], Dense(rest), Dense(b));
    }
  }

  lemma {:induction false} DenseLStrip(s: string)
    ensures Dense(LStrip(s)) == Dense(s)
  {
    if s != "" && IsSpace(s[0]) {
      DenseLStrip(s[1..]);
    }
  }

  lemma {:induction false} DenseRStrip(s: string)
    ensures Dense(RStrip(s)) == Dense(s)
  {
    if s != "" && IsSpace(s[|s| - 1]) {
      var n := |s| - 1;
      DenseRStrip(s[..n]);
      DenseConcat(s[..n], [s[n]]);
      assert s == s[..n] + [s[n]];
    }
  }

  lemma DenseStrip(s: string)
    ensures Dense(Strip(s)) == Dense(s)
  {
    DenseLStrip(s);
    DenseRStrip(LStrip(s));
  }

  lemma {:induction false} DenseJoin(texts: seq<string>)
    ensures Dense(Join(texts)) == Dense(Flat(texts))
  {
    if texts != [] {
      var n := |texts| - 1;
      assert texts == texts[..n] + [texts[n]];
      FlatSnoc(texts[..n], texts[n]);
      DenseConcat(Flat(texts[..n]), texts[n]);
      if n > 0 {
        DenseJoin(texts[..n]);
        JoinConcat(texts[..n], [texts[n]]);
        DenseConcat(Join(texts[..n]) + "\n", texts[n]);
        DenseConcat(Join(texts[..n]), "\n");
      }
    }
  }

  lemma DenseBlock(b: Block, texts: seq<string>, parts: seq<string>)
    requires Dense(Flat(texts)) == Dense(Flat(parts))
    ensures Dense(Flat(texts + BlockTexts(b))) == Dense(Flat(parts + BlockPart(b)))
  {
    if b.TextBlock? {
      FlatSnoc(texts, b.text);
      DenseConcat(Flat(texts), b.text);
      DenseStrip(b.text);
      if Strip(b.text) != "" {
        FlatSnoc(parts, Strip(b.text));
        DenseConcat(Flat(parts), Strip(b.text));
      } else {
        assert parts + [] == parts;
      }
    } else {
      assert texts + [] == texts && parts + [] == parts;
    }
  }

  lemma {:induction false} DenseParts(blocks: seq<Block>)
    ensures Dense(Flat(FlatMap(BlockTexts, blocks))) == Dense(Flat(Parts(blocks)))
  {
    if blocks != [] {
      var n := |blocks| - 1;
      DenseParts(blocks[..n]);
      DenseBlock(blocks[n], FlatMap(BlockTexts, blocks[..n]), Parts(blocks[..n]));
    }
  }

  /** The parts hold the row's whole text, character for character but white space. */
  lemma PartsAreTheText(row: Row)
    ensures Dense(Flat(Parts(AssistantBlocks(row)))) == Dense(RowText(row))
  {
    var texts := FlatMap(BlockTexts, AssistantBlocks(row));
    DenseStrip(Join(texts));
    DenseJoin(texts);
    DenseParts(AssistantBlocks(row));
  }

  /** A row with one text block has that text as its only part. */
  lemma LonePartIsTheText(row: Row, k: nat)
    requires k < |AssistantBlocks(row)| && AssistantBlocks(row)[k].TextBlock? && RowText(row) != ""
    requires forall j | 0 <= j < |AssistantBlocks(row)| && j != k :: !AssistantBlocks(row)[j].TextBlock?
    ensures Parts(AssistantBlocks(row)) == [RowText(row)]
  {
    var blocks := AssistantBlocks(row);
    LoneTextIsRowText(row, k);
    FlatMapAround(BlockPart, blocks, k);
    NoParts(blocks[..k]);
    NoParts(blocks[k + 1..]);
    assert [] + [RowText(row)] + [] == [RowText(row)];
  }

  lemma {:induction false} NoParts(blocks: seq<Block>)
    requires forall i | 0 <= i < |blocks| :: !blocks[i].TextBlock?
    ensures Parts(blocks) == []
  {
    if blocks != [] {
      NoParts(blocks[..|blocks| - 1]);
    }
  }

  // ------------------------------------------------------------------ the parts among the lines

  lemma NarrationMiddle(text: string)
    ensures Middle(Units([Item(Narration, text)])) == text
  {
    UnitsOfOne(Item(Narration, text));
    assert Lines(ItemUnits(Item(Narration, text))) == Split(text);
    JoinOfSplit(text);
  }

  /** One more block of the row: its part, if it has one, comes after the others. */
  lemma BlockWithin(before: seq<Item>, units: seq<Item>, b: Block, e: map<Option<string>, bool>,
                    u: map<string, OneLine>, parts: seq<string>)
    requires SameSlots(units, Units(BlockItems(b, e, u))) && Within(Middle(before), parts)
    ensures Within(Middle(before + units), parts + BlockPart(b))
  {
    if b.TextBlock? && Strip(b.text) != "" {
      UnitsOfOne(Item(Narration, Strip(b.text)));
      assert units == Units(BlockItems(b, e, u));
      NarrationMiddle(Strip(b.text));
      MiddleEnds(before, units);
      WithinGrows(Middle(before), "\n", parts);
      assert Middle([]) == "";
      WithinSnoc(if before == [] then "" else Middle(before) + "\n", parts, Strip(b.text));
    } else {
      MiddleGrows(before, units, parts);
      assert parts + BlockPart(b) == parts;
    }
  }

  lemma MiddleGrows(before: seq<Item>, units: seq<Item>, parts: seq<string>)
    requires Within(Middle(before), parts)
    ensures Within(Middle(before + units), parts)
  {
    if units == [] {
      assert before + units == before;
    } else {
      MiddleEnds(before, units);
      WithinGrows(Middle(before), "\n" + Middle(units), parts);
      assert Middle(before) + "\n" + Middle(units) == Middle(before) + ("\n" + Middle(units));
      if before == [] {
        WithinGrows("", Middle(units), parts);
        assert "" + Middle(units) == Middle(units);
      }
    }
  }

  lemma SlotsPart(u: seq<Item>, a: seq<Item>, b: seq<Item>)
    requires SameSlots(u, a + b)
    ensures SameSlots(u[..|a|], a) && SameSlots(u[|a|..], b) && u == u[..|a|] + u[|a|..]
  {
    assert forall i | 0 <= i < |a| :: (a + b)[i] == a[i];
    assert forall i | 0 <= i < |b| :: (a + b)[|a| + i] == b[i];
  }

  lemma {:induction false} BlocksWithin(before: seq<Item>, units: seq<Item>, blocks: seq<Block>,
                                        e: map<Option<string>, bool>, u: map<string, OneLine>)
    requires SameSlots(units, Units(FlatMap(b => BlockItems(b, e, u), blocks)))
    ensures Within(Middle(before + units), Parts(blocks))
    decreases |blocks|
  {
    if blocks != [] {
      var n := |blocks| - 1;
      var front := Units(FlatMap(b => BlockItems(b, e, u), blocks[..n]));
      UnitsConcat(FlatMap(b => BlockItems(b, e, u), blocks[..n]), BlockItems(blocks[n], e, u));
      SlotsPart(units, front, Units(BlockItems(blocks[n], e, u)));
      var x, y := units[..|front|], units[|front|..];
      BlocksWithin(before, x, blocks[..n], e, u);
      BlockWithin(before + x, y, blocks[n], e, u, Parts(blocks[..n]));
      Assoc(before, x, y);
    }
  }

  /** The parts of any row stand in the text of the turn's units, whatever tool and agent text has become. */
  lemma RowWithin(seen: seq<Item>, turn: seq<Row>, i: nat)
    requires i < |turn| && SameSlots(seen, TurnUnits(turn))
    ensures Within(Middle(seen), Parts(AssistantBlocks(turn[i])))
  {
    var e, u := Errors(turn), Usages(turn);
    var a, d := TurnAround(turn, i);
    var row := Units(RowItems(turn[i], e, u));
    SlotsPart(seen, a + row, d);
    SlotsPart(seen[..|a + row|], a, row);
    var x, y, z := seen[..|a|], seen[..|a + row|][|a|..], seen[|a + row|..];
    assert seen[..|a + row|][..|a|] == x;
    BlocksWithin(x, y, AssistantBlocks(turn[i]), e, u);
    MiddleGrows(x + y, z, Parts(AssistantBlocks(turn[i])));
  }

  /** What a reader finds is the closing answer: its parts, whole and in order, which hold all its characters
      but white space. */
  predicate HoldsClosing(shown: string, turn: seq<Row>) {
    exists i | 0 <= i < |turn| ::
      IsClosingRow(turn, i) && Within(shown, Parts(AssistantBlocks(turn[i]))) &&
      Dense(Flat(Parts(AssistantBlocks(turn[i])))) == Dense(ClosingText(turn))
  }

  lemma ClosingIsWithin(seen: seq<Item>, turn: seq<Row>)
    requires SameSlots(seen, TurnUnits(turn)) && Closing.Flushed(turn)
    ensures HoldsClosing(Middle(seen), turn)
  {
    FlushedIffClosingIsLast(turn);
    var i: nat :| IsClosingRow(turn, i) && forall j | i <= j < |turn| :: !HasToolResult(turn[j]);
    RowWithin(seen, turn, i);
    PartsAreTheText(turn[i]);
  }

  // ------------------------------------------------------------------ after the cap

  lemma {:induction false} SendsKeepPieces(trace: seq<Op>, later: seq<Op>, frozen: seq<Seal>, units: seq<Item>)
    requires trace <= later && forall p | |trace| <= p < |later| :: !later[p].Edit?
    requires forall i | 0 <= i < |frozen| :: frozen[i].id < |trace|
    ensures LayOut.SealedPieces(later, frozen, units) == LayOut.SealedPieces(trace, frozen, units)
  {
    if frozen != [] {
      SendsKeepPieces(trace, later, frozen[..|frozen| - 1], units);
      SendsKeepShows(trace, later, frozen[|frozen| - 1].id);
    }
  }

  lemma SendsKeepReading(s: Sys, t: Sys, units: seq<Item>)
    requires OnlySends(s, t) && t.state.mid == s.state.mid && t.state.base == s.state.base
    requires s.state.mid.Some? && s.state.mid.value < |s.trace|
    requires forall i | 0 <= i < |s.frozen| :: IsFinal(s.trace, s.frozen[i])
    ensures ReadsWhole(s, units) <==> ReadsWhole(t, units)
  {
    forall i | 0 <= i < |s.frozen|
      ensures s.frozen[i].id < |s.trace|
    {
      assert IsFinal(s.trace, s.frozen[i]);
    }
    SendsKeepPieces(s.trace, t.trace, s.frozen, units);
    SendsKeepShows(s.trace, t.trace, s.state.mid.value);
  }

  lemma AfterCapKeepsState(laid: Sys, plan: Plan, covered: bool, ok: Oracle)
    requires plan.Close?
    ensures var t := AfterCap(laid, plan, covered, ok);
            t.state.mid == laid.state.mid && t.state.base == laid.state.base
  {
    DeliveredOnlySends(laid, plan.text, ok);
  }

  // ------------------------------------------------------------------ never silent

  /** The answer is on the channel in the turn's messages, or in messages of its own, or it was written down and
      a warning attempted. */
  ghost predicate AnswerIsSafe(s: Sys, t: Sys, seen: seq<Item>, turn: seq<Row>) {
    || (ReadsWhole(t, seen) && HoldsClosing(ReadText(t, seen), turn))
    || (exists at :: |s.trace| <= at && PostedAt(t.trace, at, ChunksOf(ClosingText(turn))))
    || (RecordedSince(t.trace, |s.trace|, ClosingText(turn)) && WarnedSince(t.trace, |s.trace|))
  }

  lemma LaterIsSince(trace: seq<Op>, from: nat, later: nat, text: string)
    requires from <= later && RecordedSince(trace, later, text) && WarnedSince(trace, later)
    ensures RecordedSince(trace, from, text) && WarnedSince(trace, from)
  {
  }

  /** Stop loses no answer, whichever calls fail: when it finds the turn's units on the channel and closes the
      turn, what is left behind is the answer itself. */
  lemma CloseIsSafe(s: Sys, first: TurnState, turn: seq<Row>, seen: seq<Item>, ok: Oracle)
    requires Closing.Flushed(turn) && !Sent(turn)
    requires UpToDate(s.(state := s.store.GetOr(first)), seen, TurnUnits(turn))
    ensures AnswerIsSafe(s, Committed(s, first, Close(turn, ClosingText(turn), false), ok), seen, turn)
  {
    var plan := Close(turn, ClosingText(turn), false);
    var loaded := s.(state := s.store.GetOr(first));
    var t := Committed(s, first, plan, ok);
    var (laid, covered) := LayOut.Laid(loaded, TurnUnits(turn), ok);
    CoveredOrPosted(s, first, plan, ok);
    if covered {
      CoveredStays(loaded, seen, turn, plan, ok);
    } else if !PostedAt(t.trace, |laid.trace|, ChunksOf(plan.text)) {
      LaterIsSince(t.trace, |s.trace|, |laid.trace|, plan.text);
    }
  }

  /** What the cap left is still there when Stop is over. */
  lemma CoveredStays(loaded: Sys, seen: seq<Item>, turn: seq<Row>, plan: Plan, ok: Oracle)
    requires Closing.Flushed(turn) && plan.Close? && UpToDate(loaded, seen, TurnUnits(turn))
    requires LayOut.Laid(loaded, TurnUnits(turn), ok).1
    ensures var t := AfterCap(LayOut.Laid(loaded, TurnUnits(turn), ok).0, plan, true, ok);
            ReadsWhole(t, seen) && HoldsClosing(ReadText(t, seen), turn)
  {
    var laid := LayOut.Laid(loaded, TurnUnits(turn), ok).0;
    CoveredArrives(loaded, seen, TurnUnits(turn), ok);
    Overlap.LaidKeepsSettled(loaded, TurnUnits(turn), ok);
    AfterCapKeepsReading(laid, seen, plan, ok);
    ClosingIsWithin(seen, turn);
  }

  lemma AfterCapKeepsReading(laid: Sys, seen: seq<Item>, plan: Plan, ok: Oracle)
    requires plan.Close? && ReadsWhole(laid, seen) && Settled(laid.trace, laid.frozen, laid.state.mid)
    ensures ReadsWhole(AfterCap(laid, plan, true, ok), seen)
  {
    AfterCapOnlySends(laid, plan, true, ok);
    AfterCapKeepsState(laid, plan, true, ok);
    SendsKeepReading(laid, AfterCap(laid, plan, true, ok), seen);
  }

  lemma {:induction false} WithinIsNoLonger(shown: string, parts: seq<string>)
    requires Within(shown, parts)
    ensures |Flat(parts)| <= |shown|
    decreases |parts|
  {
    if parts != [] {
      var n := |parts| - 1;
      var k :| 0 <= k <= |shown| - |parts[n]| && shown[k..k + |parts[n]|] == parts[n] && Within(shown[..k], parts[..n]);
      WithinIsNoLonger(shown[..k], parts[..n]);
      FlatSnoc(parts[..n], parts[n]);
      assert parts == parts[..n] + [parts[n]];
    }
  }

  lemma ClosingIsDense(turn: seq<Row>, i: nat)
    requires IsClosingRow(turn, i)
    ensures Dense(ClosingText(turn)) != ""
  {
    StripTrims(Join(FlatMap(BlockTexts, AssistantBlocks(turn[i]))));
  }

  lemma FlushedHasUnits(turn: seq<Row>)
    requires Closing.Flushed(turn)
    ensures TurnUnits(turn) != []
  {
    FlushedIffClosingIsLast(turn);
    var i: nat :| IsClosingRow(turn, i) && forall j | i <= j < |turn| :: !HasToolResult(turn[j]);
    var parts := Parts(AssistantBlocks(turn[i]));
    RowWithin(TurnUnits(turn), turn, i);
    WithinIsNoLonger(Middle(TurnUnits(turn)), parts);
    PartsAreTheText(turn[i]);
    ClosingIsDense(turn, i);
    assert |Middle(TurnUnits(turn))| > 0;
  }

  /** The whole turn: its narrations told in order, no unit too wide for a message of its own, no re-home, and every
      delta that shows something stored; whichever calls fail, before Stop or in it, a Stop that finds the closing
      answer flushed and not yet sent closes the turn and leaves the answer on the channel, or written down with
      a warning attempted. */
  lemma NeverSilent(events: seq<Event>, turn: seq<Row>, ok: Oracle) returns (seen: seq<Item>)
    requires Following.Follows(START, [], Following.SILENCE, events, turn, ok) && NeverRehomes(START, events, ok)
    requires Uncut(TurnUnits(turn)) && Closing.Flushed(turn) && !Sent(turn)
    ensures var s := RunAll(START, events, ok);
            var plan := PlanFor(Stored(s).done, Polled(turn, true));
            plan.Close? && SameSlots(seen, TurnUnits(turn)) &&
            AnswerIsSafe(s, Committed(s, Stored(s), plan, ok), seen, turn)
  {
    var s := RunAll(START, events, ok);
    ToldFromTheStart(events, turn, ok);
    FlushedHasUnits(turn);
    PlanCloses(Stored(s).done, turn);
    seen := StopFinds(events, TurnUnits(turn), ok);
    CloseIsSafe(s, Stored(s), turn, seen, ok);
  }
}
