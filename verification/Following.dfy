/** From transcripts and deltas to what the steps show: a turn whose narrations are told in order evolves. */
module Following {
  import Content
  import opened Layout
  import Lists
  import LostDeltas
  import opened Progress
  import opened Spilling
  import Streaming
  import opened Text
  import opened Transcript
  import opened UnitStability
  import Widths
  import opened Wrappers

  /** The narration that is being streamed: its display message, the least index its next delta may have, and the
      deltas that have been kept, joined. */
  datatype Speech = Speech(message: Option<string>, next: int, text: string)

  const SILENCE := Speech(None, 0, "")

  /** A displayed delta goes on with the narration of its message, or begins that of another one. */
  function Hear(speech: Speech, ev: Event): Speech {
    if !ev.isDisplay then speech
    else
      var mine := if ev.messageId == speech.message then speech else Speech(ev.messageId, 0, "");
      if ev.delta.None? then mine else Speech(mine.message, ev.index + 1, mine.text + ev.delta.value)
  }

  /** The transcript holds the narration as a block. */
  predicate Said(turn: seq<Row>, speech: Speech) {
    Strip(speech.text) != "" && Item(Narration, Strip(speech.text)) in TurnItems(turn)
  }

  /** What of the narration is shown below the transcript's units. */
  function Pending(turn: seq<Row>, speech: Speech): string {
    if Said(turn, speech) then "" else Strip(speech.text)
  }

  function Telling(turn: seq<Row>, speech: Speech): seq<Item> {
    TurnUnits(turn) + LiveUnits(Pending(turn, speech))
  }

  function LiveItems(text: string): seq<Item> {
    if text == "" then [] else [Item(Narration, text)]
  }

  /** The items that the later rows bring. */
  function Brought(turn: seq<Row>, later: seq<Row>): seq<Item>
    requires turn <= later
  {
    RowsItems(later[|turn|..], Errors(later), Usages(later))
  }

  /** A text that is shown is followed by itself, the same or grown: still streaming, or as a block. */
  predicate CarriesOn(text: string, items: seq<Item>) {
    text == "" || (items != [] && items[0].kind.Narration? && text <= items[0].text)
  }

  /** The event belongs to a display message that goes on: its deltas come in order, and it is not a block yet. */
  predicate InTurn(turn: seq<Row>, speech: Speech, ev: Event) {
    ev.isDisplay && ev.messageId == speech.message ==>
      (ev.delta.Some? ==> speech.next <= ev.index) && !Said(turn, speech)
  }

  /** What is stored of the narration after the step. */
  function Kept(s: Sys, speech: Speech, ev: Event, ok: Oracle): Speech {
    if ev.isDisplay && LostDeltas.Stores(s, ev, ok) then Hear(speech, ev) else speech
  }

  /** One event of a turn: its transcript extends the one before, its delta is in order, what is being streamed goes
      on or is committed next, and a delta that is not stored is one that shows nothing. No unit is too wide for a
      message of its own. */
  predicate Tells(s: Sys, turn: seq<Row>, speech: Speech, ev: Event, ok: Oracle) {
    var heard := Hear(speech, ev);
    && turn <= ev.turn && InTurn(turn, speech, ev)
    && CarriesOn(Pending(turn, speech), Brought(turn, ev.turn) + LiveItems(Pending(ev.turn, heard)))
    && Pending(ev.turn, Kept(s, speech, ev, ok)) == Pending(ev.turn, heard)
    && Widths.Uncut(Telling(ev.turn, heard))
  }

  /** A run of such events, up to a last transcript that leaves nothing of the narration uncommitted. */
  predicate Follows(s: Sys, turn: seq<Row>, speech: Speech, events: seq<Event>, last: seq<Row>, ok: Oracle)
    decreases |events|
  {
    if events == [] then turn <= last && CarriesOn(Pending(turn, speech), Brought(turn, last))
    else
      var ev := events[0];
      Tells(s, turn, speech, ev, ok) &&
      Follows(Step(s, ev, ok), ev.turn, Kept(s, speech, ev, ok), events[1..], last, ok)
  }

  // ------------------------------------------------------------------ a narration stays in the transcript

  lemma {:induction false} NarrationKept<A(!new)>(f: A -> seq<Item>, g: A -> seq<Item>, xs: seq<A>, item: Item)
    requires forall x :: item in f(x) ==> item in g(x)
    requires item in Lists.FlatMap(f, xs)
    ensures item in Lists.FlatMap(g, xs)
  {
    if xs != [] {
      var n := |xs| - 1;
      if item in Lists.FlatMap(f, xs[..n]) {
        NarrationKept(f, g, xs[..n], item);
      }
    }
  }

  lemma RowKeepsNarration(row: Row, text: string, e: map<Option<string>, bool>, u: map<string, OneLine>,
                          e': map<Option<string>, bool>, u': map<string, OneLine>)
    requires Item(Narration, text) in RowItems(row, e, u)
    ensures Item(Narration, text) in RowItems(row, e', u')
  {
    NarrationKept(b => BlockItems(b, e, u), b => BlockItems(b, e', u'), AssistantBlocks(row), Item(Narration, text));
  }

  /** Rows that are appended leave every narration in the turn. */
  lemma AppendKeepsNarration(turn: seq<Row>, later: seq<Row>, text: string)
    requires turn <= later && Item(Narration, text) in TurnItems(turn)
    ensures Item(Narration, text) in TurnItems(later)
  {
    var e, u, e', u' := Errors(turn), Usages(turn), Errors(later), Usages(later);
    forall r: Row | Item(Narration, text) in RowItems(r, e, u)
      ensures Item(Narration, text) in RowItems(r, e', u')
    {
      RowKeepsNarration(r, text, e, u, e', u');
    }
    NarrationKept(r => RowItems(r, e, u), r => RowItems(r, e', u'), turn, Item(Narration, text));
    Lists.FlatMapSplit(r => RowItems(r, e', u'), later, |turn|);
    assert later[..|turn|] == turn;
  }

  lemma SaidStays(turn: seq<Row>, later: seq<Row>, speech: Speech)
    requires turn <= later && Said(turn, speech)
    ensures Said(later, speech)
  {
    AppendKeepsNarration(turn, later, Strip(speech.text));
  }

  // ------------------------------------------------------------------ the stored state tracks the narration

  /** The stored buffer holds the narration, or has been dropped since it is a block. */
  predicate Tracks(s: Sys, turn: seq<Row>, speech: Speech) {
    Stored(s).done.None? &&
    match Stored(s).live
    case None => speech == SILENCE || Said(turn, speech)
    case Some(l) => LiveIs(l, speech)
  }

  predicate LiveIs(l: LiveState, speech: Speech) {
    && l.messageId == speech.message && Streaming.Deltas(l.segments) == speech.text
    && forall k | k in l.segments :: k < speech.next
  }

  lemma HeardIsLive(s: Sys, turn: seq<Row>, speech: Speech, ev: Event)
    requires Tracks(s, turn, speech) && InTurn(turn, speech, ev) && ev.isDisplay
    ensures LiveIs(Streaming.TrackLive(Stored(s).live, ev.messageId, ev.delta, ev.index), Hear(speech, ev))
  {
    var held := Stored(s).live.GetOr(LiveState(None, map[]));
    var mine := if held.messageId != ev.messageId then LiveState(ev.messageId, map[]) else held;
    if ev.delta.Some? {
      Streaming.NextDelta(mine.segments, ev.index, ev.delta.value);
    }
  }

  lemma NextIsPending(s: Sys, turn: seq<Row>, speech: Speech, ev: Event)
    requires Tracks(s, turn, speech) && turn <= ev.turn && InTurn(turn, speech, ev)
    ensures NextLive(s, ev).1 == Pending(ev.turn, Hear(speech, ev))
    ensures Show(s, ev) == Telling(ev.turn, Hear(speech, ev))
  {
    if ev.isDisplay {
      HeardIsLive(s, turn, speech, ev);
    } else if Stored(s).live.None? && speech != SILENCE {
      SaidStays(turn, ev.turn, speech);
    }
  }

  lemma StepStores(s: Sys, ev: Event, ok: Oracle)
    requires Stored(s).done.None?
    ensures Stored(Step(s, ev, ok)).done.None?
    ensures Stored(Step(s, ev, ok)).live in {Stored(s).live, NextLive(s, ev).0}
    ensures ev.isDisplay && LostDeltas.Stores(s, ev, ok) ==> Stored(Step(s, ev, ok)).live == NextLive(s, ev).0
    ensures ev.isDisplay && !LostDeltas.Stores(s, ev, ok) ==> Stored(Step(s, ev, ok)).live == Stored(s).live
  {
    var r := Sealed(s, ev, ok);
    SpillOnlyAdds(Loaded(s, ev), Show(s, ev), StartBase(s, ev), StartMid(s, ev), WORKING_FOOTER, ok);
    LostDeltas.TailStores(r, Show(s, ev), |TurnUnits(ev.turn)|, ok);
    if ev.isDisplay {
      LostDeltas.DeltaIsStoredIff(s, ev, ok);
    }
  }

  lemma StepTracks(s: Sys, turn: seq<Row>, speech: Speech, ev: Event, ok: Oracle)
    requires Tracks(s, turn, speech) && turn <= ev.turn && InTurn(turn, speech, ev)
    ensures Tracks(Step(s, ev, ok), ev.turn, Kept(s, speech, ev, ok))
  {
    StepStores(s, ev, ok);
    if ev.isDisplay {
      HeardIsLive(s, turn, speech, ev);
    }
    if Said(turn, speech) {
      SaidStays(turn, ev.turn, speech);
    }
  }

  // ------------------------------------------------------------------ what makes a turn so told

  predicate PromptFree(rows: seq<Row>) {
    forall i | 0 <= i < |rows| :: !IsHumanPrompt(rows[i])
  }

  /** A transcript that gets only rows without a human prompt has a turn that extends, under one identifier. */
  lemma GrowingTranscript(rows: seq<Row>, later: seq<Row>)
    requires rows != [] && rows <= later && PromptFree(later[|rows|..])
    ensures TurnOf(rows) <= TurnOf(later) && TurnId(TurnOf(rows)) == TurnId(TurnOf(later))
  {
    AppendKeepsTurn(rows, later[|rows|..]);
    assert rows + later[|rows|..] == later;
  }

  /** A delta of the narration that is streaming, in order and stored, while the rows that come show nothing. */
  lemma DeltaTells(s: Sys, turn: seq<Row>, l: LiveState, ev: Event, ok: Oracle)
    requires ev.isDisplay && ev.messageId == l.messageId && ev.delta.Some? && LostDeltas.Stores(s, ev, ok)
    requires forall k | k in l.segments :: k < ev.index
    requires var speech := Speech(l.messageId, ev.index, Streaming.Deltas(l.segments));
             && turn <= ev.turn && Brought(turn, ev.turn) == []
             && !Said(turn, speech) && !Said(ev.turn, Hear(speech, ev))
             && Widths.Uncut(Telling(ev.turn, Hear(speech, ev)))
    ensures Tells(s, turn, Speech(l.messageId, ev.index, Streaming.Deltas(l.segments)), ev, ok)
  {
    Streaming.DeltaKeepsCompletedUnits([], l, ev.delta.value, ev.index);
    Streaming.NextDelta(l.segments, ev.index, ev.delta.value);
  }

  /** The row that commits the narration: its block is the text of the deltas. */
  lemma CommitTells(s: Sys, turn: seq<Row>, speech: Speech, ev: Event, row: Row, text: string, ok: Oracle)
    requires !ev.isDisplay && ev.turn == turn + [row]
    requires row.role.Assistant? && row.blocks == [TextBlock(text)] && Strip(text) == Strip(speech.text) != ""
    requires Widths.Uncut(TurnUnits(ev.turn))
    ensures Tells(s, turn, speech, ev, ok) && Pending(ev.turn, speech) == ""
  {
    LostDeltas.CommitItems(turn, row, text);
    CommitBrings(turn, row, text);
    assert TurnUnits(ev.turn) + LiveUnits("") == TurnUnits(ev.turn);
  }

  lemma CommitBrings(turn: seq<Row>, row: Row, text: string)
    requires row.role.Assistant? && row.blocks == [TextBlock(text)] && Strip(text) != ""
    ensures Brought(turn, turn + [row]) == [Item(Narration, Strip(text))]
  {
    var later := turn + [row];
    var e, u := Errors(later), Usages(later);
    assert later[|turn|..] == [row];
    Lists.FlatMapOne(b => BlockItems(b, e, u), TextBlock(text));
    Lists.FlatMapOne(r => RowItems(r, e, u), row);
  }

  // ------------------------------------------------------------------ so the shows evolve

  lemma UnitsFirst(items: seq<Item>)
    requires items != []
    ensures Units(items) == Units([items[0]]) + Units(items[1..])
  {
    UnitsConcat([items[0]], items[1..]);
    assert items == [items[0]] + items[1..];
  }

  lemma GrownEvolves(x: seq<Item>, y: seq<Item>, text: string, grown: string, rest: seq<Item>)
    requires SameSlots(x, y) && text <= grown
    ensures Content.Evolved(x + Units([Item(Narration, text)]), y + (Units([Item(Narration, grown)]) + rest))
  {
    GrowthKeepsCompletedUnits([], text, grown);
    var a, b := Units([Item(Narration, text)]), Units([Item(Narration, grown)]);
    assert [] + a == a && [] + b == b;
    UnitsOfOne(Item(Narration, text));
    var was, now, n := x + a, y + (b + rest), |x| + |a| - 1;
    forall i | 0 <= i < n
      ensures was[i].kind == now[i].kind && (was[i].kind.Narration? ==> was[i] == now[i])
    {
      if i >= |x| {
        assert a[i - |x|] == a[..|a| - 1][i - |x|] == b[i - |x|];
      }
    }
  }

  lemma AppendedEvolves(x: seq<Item>, y: seq<Item>, rest: seq<Item>)
    requires SameSlots(x, y)
    ensures Content.Evolved(x, y + rest)
  {
  }

  /** Units behind which nothing is streaming evolve when rows are appended. */
  lemma AppendedTurnEvolves(turn: seq<Row>, later: seq<Row>, next: string)
    requires turn <= later
    ensures Content.Evolved(TurnUnits(turn), TurnUnits(later) + LiveUnits(next))
  {
    AppendKeepsSlots(turn, later[|turn|..]);
    assert turn + later[|turn|..] == later;
    var n, units := |TurnUnits(turn)|, TurnUnits(later);
    AppendedEvolves(TurnUnits(turn), units[..n], units[n..] + LiveUnits(next));
    Lists.Assoc(units[..n], units[n..], LiveUnits(next));
    assert units == units[..n] + units[n..];
  }

  /** So do units behind which the shown narration goes on. */
  lemma CarriedOnEvolves(turn: seq<Row>, later: seq<Row>, text: string, next: string)
    requires turn <= later && CarriesOn(text, Brought(turn, later) + LiveItems(next))
    ensures Content.Evolved(TurnUnits(turn) + LiveUnits(text), TurnUnits(later) + LiveUnits(next))
  {
    if text == "" {
      AppendedTurnEvolves(turn, later, next);
      assert TurnUnits(turn) + LiveUnits(text) == TurnUnits(turn);
    } else {
      var e, u := Errors(later), Usages(later);
      assert turn + later[|turn|..] == later;
      TurnUnitsConcat(turn, later[|turn|..]);
      RowsKeepSlots(turn, Errors(turn), Usages(turn), e, u);
      var y, brought := Units(RowsItems(turn, e, u)), Brought(turn, later) + LiveItems(next);
      UnitsConcat(Brought(turn, later), LiveItems(next));
      Lists.Assoc(y, Units(Brought(turn, later)), LiveUnits(next));
      UnitsFirst(brought);
      GrownEvolves(TurnUnits(turn), y, text, brought[0].text, Units(brought[1..]));
    }
  }

  lemma LastEvolves(turn: seq<Row>, speech: Speech, last: seq<Row>)
    requires turn <= last && CarriesOn(Pending(turn, speech), Brought(turn, last))
    ensures Content.Evolved(Telling(turn, speech), TurnUnits(last))
  {
    assert Brought(turn, last) + LiveItems("") == Brought(turn, last);
    CarriedOnEvolves(turn, last, Pending(turn, speech), "");
    assert TurnUnits(last) + LiveUnits("") == TurnUnits(last);
  }

  lemma TellsOn(s: Sys, turn: seq<Row>, speech: Speech, ev: Event, ok: Oracle)
    requires Tracks(s, turn, speech) && Tells(s, turn, speech, ev, ok)
    ensures Tracks(Step(s, ev, ok), ev.turn, Kept(s, speech, ev, ok))
    ensures Telling(ev.turn, Kept(s, speech, ev, ok)) == Show(s, ev)
    ensures Content.Evolved(Telling(turn, speech), Show(s, ev)) && Widths.Uncut(Show(s, ev))
  {
    NextIsPending(s, turn, speech, ev);
    CarriedOnEvolves(turn, ev.turn, Pending(turn, speech), Pending(ev.turn, Hear(speech, ev)));
    StepTracks(s, turn, speech, ev, ok);
  }

  /** A turn that is told in order, from any state that has kept up with it, through any failures and
      without a re-home: every step shows what the one before it showed, evolved, and so does the turn that Stop is
      given. */
  lemma {:induction false} FollowsEvolves(s: Sys, turn: seq<Row>, speech: Speech, events: seq<Event>, last: seq<Row>,
                                          ok: Oracle)
    requires Tracks(s, turn, speech) && Follows(s, turn, speech, events, last, ok) && NeverRehomes(s, events, ok)
    ensures Content.ShowsEvolve(s, Telling(turn, speech), events, ok)
    ensures Content.Evolved(Content.LastShow(s, Telling(turn, speech), events, ok), TurnUnits(last))
    ensures Stored(RunAll(s, events, ok)).done.None?
    decreases |events|
  {
    if events == [] {
      LastEvolves(turn, speech, last);
    } else {
      var ev, kept := events[0], Kept(s, speech, events[0], ok);
      TellsOn(s, turn, speech, ev, ok);
      FollowsEvolves(Step(s, ev, ok), ev.turn, kept, events[1..], last, ok);
    }
  }

  // ------------------------------------------------------------------ no shown line is pushed out

  lemma UnchangedPrefix(turn: seq<Row>, later: seq<Row>, text: string, next: string)
    requires turn <= later && BringsNoResult(later[|turn|..]) && CarriesOn(text, Brought(turn, later) + LiveItems(next))
    ensures var was, now := TurnUnits(turn) + LiveUnits(text), TurnUnits(later) + LiveUnits(next);
            |was| <= |now| && (was != [] ==> was[..|was| - 1] <= now)
  {
    var more, x := later[|turn|..], TurnUnits(turn);
    assert turn + more == later;
    AppendWithoutResultsKeepsUnits(turn, more);
    if text != "" {
      ResultsUnchanged(turn, more);
      TurnUnitsConcat(turn, more);
      var brought := Brought(turn, later) + LiveItems(next);
      UnitsConcat(Brought(turn, later), LiveItems(next));
      Lists.Assoc(x, Units(Brought(turn, later)), LiveUnits(next));
      UnitsFirst(brought);
      GrowthKeepsCompletedUnits(x, text, brought[0].text);
      Lists.Assoc(x, Units([brought[0]]), Units(brought[1..]));
    }
  }

  /** While no tool result arrives, a seal never pushes a completed shown line out of its message: if the live
      message had room for all that was shown, the first message that the next step freezes keeps all of it but
      possibly the line that was still growing. */
  lemma StepKeepsShownLines(s: Sys, turn: seq<Row>, speech: Speech, ev: Event, ok: Oracle)
    requires Tracks(s, turn, speech) && Tells(s, turn, speech, ev, ok) && BringsNoResult(ev.turn[|turn|..])
    requires !Rehomes(s, ev) && Stored(s).base < |Telling(turn, speech)|
    requires Fits(Telling(turn, speech)[Stored(s).base..], WORKING_FOOTER)
    ensures var t, n := Step(s, ev, ok), |s.frozen|;
            |t.frozen| > n ==> t.frozen[n].lo == Stored(s).base && t.frozen[n].hi >= |Telling(turn, speech)| - 1
  {
    var was, base, mid := Telling(turn, speech), Stored(s).base, Stored(s).mid;
    NextIsPending(s, turn, speech, ev);
    UnchangedPrefix(turn, ev.turn, Pending(turn, speech), Pending(ev.turn, Hear(speech, ev)));
    SealKeepsShownLines(Loaded(s, ev), was, Show(s, ev), base, mid, WORKING_FOOTER, ok);
    SpillOnlyAdds(Loaded(s, ev), Show(s, ev), base, mid, WORKING_FOOTER, ok);
    TailFacts(Sealed(s, ev, ok), Show(s, ev), |TurnUnits(ev.turn)|, ok);
  }
}
