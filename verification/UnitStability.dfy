/** A unit index keeps its meaning while the turn's transcript grows. */
module UnitStability {
  import FenceMeaning
  import opened Layout
  import opened Lists
  import opened Text
  import opened Transcript
  import opened Wrappers

  function TurnUnits(turn: seq<Row>): seq<Item> {
    Units(TurnItems(turn))
  }

  /** The same units in the same places; only tool and agent text may differ. */
  predicate SameSlots(u: seq<Item>, v: seq<Item>) {
    |u| == |v| &&
    forall i | 0 <= i < |u| :: u[i].kind == v[i].kind && (u[i].kind.Narration? ==> u[i] == v[i])
  }

  predicate SlotsExtend(u: seq<Item>, v: seq<Item>) {
    |u| <= |v| && SameSlots(u, v[..|u|])
  }

  // ------------------------------------------------------------------ statuses may change

  lemma UnitsOfOne(item: Item)
    ensures Units([item]) == ItemUnits(item)
  {
    FlatMapOne(ItemUnits, item);
  }

  lemma UnitsOfTwo(a: Item, b: Item)
    ensures Units([a, b]) == ItemUnits(a) + ItemUnits(b)
  {
    UnitsConcat([a], [b]);
    UnitsOfOne(a);
    UnitsOfOne(b);
    assert [a, b] == [a] + [b];
  }

  /** A subagent's status is one unit, whatever it says. */
  lemma AgentUnits(input: ToolInput, status: Status, usage: OneLine)
    ensures Units(AgentItems(input, status, usage)) ==
            ItemUnits(Item(Agent, AgentHeader(input))) + [Item(Agent, AgentStatus(status, usage))]
  {
    var items := AgentItems(input, status, usage);
    UnitsOfTwo(items[0], items[1]);
    SplitLine(items[1].text);
    assert ItemUnits(items[1]) == [items[1]];
  }

  lemma AgentKeepsSlots(input: ToolInput, s: Status, u: OneLine, s': Status, u': OneLine)
    ensures SameSlots(Units(AgentItems(input, s, u)), Units(AgentItems(input, s', u')))
  {
    AgentUnits(input, s, u);
    AgentUnits(input, s', u');
    var header := Item(Agent, AgentHeader(input));
    assert forall i | 0 <= i < |ItemUnits(header)| :: ItemUnits(header)[i].kind.Agent?;
  }

  lemma ToolKeepsSlots(a: string, b: string)
    ensures SameSlots(Units([Item(Tool, a)]), Units([Item(Tool, b)]))
  {
    UnitsOfOne(Item(Tool, a));
    UnitsOfOne(Item(Tool, b));
  }

  lemma BlockKeepsSlots(b: Block, errors: map<Option<string>, bool>, usages: map<string, OneLine>,
                        errors': map<Option<string>, bool>, usages': map<string, OneLine>)
    ensures SameSlots(Units(BlockItems(b, errors, usages)), Units(BlockItems(b, errors', usages')))
  {
    if b.ToolUse? && !IsDiscordReply(b.name) {
      var st, st' := ToolStatus(b.id, errors), ToolStatus(b.id, errors');
      if b.name == "Task" || b.name == "Agent" {
        AgentKeepsSlots(b.input, st, UsageOf(b.id, usages), st', UsageOf(b.id, usages'));
      } else {
        ToolKeepsSlots(Glyph(st) + Summary(b.name, b.input), Glyph(st') + Summary(b.name, b.input));
      }
    }
  }

  lemma {:induction false} FlatMapKeepsSlots<A(!new)>(f: A -> seq<Item>, g: A -> seq<Item>, xs: seq<A>)
    requires forall x :: SameSlots(Units(f(x)), Units(g(x)))
    ensures SameSlots(Units(FlatMap(f, xs)), Units(FlatMap(g, xs)))
  {
    if xs != [] {
      var n := |xs| - 1;
      FlatMapKeepsSlots(f, g, xs[..n]);
      UnitsConcat(FlatMap(f, xs[..n]), f(xs[n]));
      UnitsConcat(FlatMap(g, xs[..n]), g(xs[n]));
      SlotsConcat(Units(FlatMap(f, xs[..n])), Units(FlatMap(g, xs[..n])), Units(f(xs[n])), Units(g(xs[n])));
    }
  }

  lemma SlotsConcat(a: seq<Item>, b: seq<Item>, c: seq<Item>, d: seq<Item>)
    requires SameSlots(a, b) && SameSlots(c, d)
    ensures SameSlots(a + c, b + d)
  {
  }

  lemma RowsKeepSlots(rows: seq<Row>, errors: map<Option<string>, bool>, usages: map<string, OneLine>,
                      errors': map<Option<string>, bool>, usages': map<string, OneLine>)
    ensures SameSlots(Units(RowsItems(rows, errors, usages)), Units(RowsItems(rows, errors', usages')))
  {
    forall r: Row
      ensures SameSlots(Units(RowItems(r, errors, usages)), Units(RowItems(r, errors', usages')))
    {
      forall b: Block
        ensures SameSlots(Units(BlockItems(b, errors, usages)), Units(BlockItems(b, errors', usages')))
      {
        BlockKeepsSlots(b, errors, usages, errors', usages');
      }
      FlatMapKeepsSlots(b => BlockItems(b, errors, usages), b => BlockItems(b, errors', usages'), AssistantBlocks(r));
    }
    FlatMapKeepsSlots(r => RowItems(r, errors, usages), r => RowItems(r, errors', usages'), rows);
  }

  lemma TurnUnitsConcat(turn: seq<Row>, more: seq<Row>)
    ensures var e, u := Errors(turn + more), Usages(turn + more);
            TurnUnits(turn + more) == Units(RowsItems(turn, e, u)) + Units(RowsItems(more, e, u))
  {
    var e, u := Errors(turn + more), Usages(turn + more);
    FlatMapConcat(r => RowItems(r, e, u), turn, more);
    UnitsConcat(RowsItems(turn, e, u), RowsItems(more, e, u));
  }

  /** Appending rows keeps every earlier unit in its place with its kind, and narration with its text. */
  lemma AppendKeepsSlots(turn: seq<Row>, more: seq<Row>)
    ensures SlotsExtend(TurnUnits(turn), TurnUnits(turn + more))
  {
    TurnUnitsConcat(turn, more);
    RowsKeepSlots(turn, Errors(turn), Usages(turn), Errors(turn + more), Usages(turn + more));
  }

  // ------------------------------------------------------------------ statuses settled

  predicate BringsNoResult(more: seq<Row>) {
    forall i | 0 <= i < |more| :: !HasToolResult(more[i])
  }

  lemma {:induction false} NoResultNoNews(errors: map<Option<string>, bool>, usages: map<string, OneLine>,
                                          blocks: seq<Block>)
    requires forall b | b in blocks :: !b.ToolResult?
    ensures NoteResults(errors, blocks) == errors && NoteUsages(usages, blocks) == usages
  {
    if blocks != [] {
      NoResultNoNews(errors, usages, blocks[..|blocks| - 1]);
    }
  }

  lemma {:induction false} ResultsUnchanged(turn: seq<Row>, more: seq<Row>)
    requires BringsNoResult(more)
    ensures Errors(turn + more) == Errors(turn) && Usages(turn + more) == Usages(turn)
  {
    if more == [] {
      assert turn + more == turn;
    } else {
      var n := |more| - 1;
      assert (turn + more)[..|turn + more| - 1] == turn + more[..n];
      ResultsUnchanged(turn, more[..n]);
      NoResultNoNews(Errors(turn), Usages(turn), more[n].blocks);
    }
  }

  /** Until a tool result arrives the units shown so far do not change at all. */
  lemma AppendWithoutResultsKeepsUnits(turn: seq<Row>, more: seq<Row>)
    requires BringsNoResult(more)
    ensures TurnUnits(turn) <= TurnUnits(turn + more)
  {
    ResultsUnchanged(turn, more);
    TurnUnitsConcat(turn, more);
  }

  /** A narration that is committed takes the very units it had while it streamed. */
  lemma CommitKeepsLiveUnits(turn: seq<Row>, row: Row, text: string)
    requires row.role.Assistant? && row.blocks == [TextBlock(text)] && Strip(text) != ""
    ensures TurnUnits(turn + [row]) == TurnUnits(turn) + Units([Item(Narration, Strip(text))])
  {
    ResultsUnchanged(turn, [row]);
    TurnUnitsConcat(turn, [row]);
    var e, u := Errors(turn), Usages(turn);
    FlatMapOne(b => BlockItems(b, e, u), TextBlock(text));
    FlatMapOne(r => RowItems(r, e, u), row);
  }

  /** When a narration grows at its end, all its units but the last are final. */
  lemma GrowthKeepsCompletedUnits(units: seq<Item>, text: string, grown: string)
    requires text <= grown
    ensures var was := units + Units([Item(Narration, text)]);
            var now := units + Units([Item(Narration, grown)]);
            |was| <= |now| && was[..|was| - 1] <= now
  {
    SplitGrows(text, grown);
    UnitsOfOne(Item(Narration, text));
    UnitsOfOne(Item(Narration, grown));
    var a, b := Split(text), Split(grown);
    forall i | 0 <= i < |a| - 1
      ensures a[i] == b[i]
    {
      assert a[i] == a[..|a| - 1][i];
    }
  }

  // ------------------------------------------------------------------ units are lines

  /** What split_units produces is line-granular. */
  lemma {:induction false} UnitsAreLines(items: seq<Item>)
    ensures FenceMeaning.LineGranular(Units(items))
  {
    if items != [] {
      var front, last := Units(items[..|items| - 1]), ItemUnits(items[|items| - 1]);
      UnitsAreLines(items[..|items| - 1]);
      SplitYieldsLines(items[|items| - 1].text);
      assert Units(items) == front + last;
    }
  }
}
