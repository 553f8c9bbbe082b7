/** Fence lines that come from tool calls, in the units of real rows. */
module StrayFences {
  import opened FenceMeaning
  import opened Layout
  import Lists
  import opened Text
  import opened Transcript
  import opened UnitStability
  import opened Wrappers

  /** An assistant row with one tool call whose result is not there yet. */
  function CallRow(name: string, input: ToolInput): Row {
    Row(false, Assistant, [ToolUse(name, Some("t"), input)], None)
  }

  lemma CallUnits(name: string, input: ToolInput)
    requires !IsDiscordReply(name)
    ensures TurnUnits([CallRow(name, input)]) ==
            if name == "Task" || name == "Agent" then Units(AgentItems(input, Pending, ""))
            else [Item(Tool, Glyph(Pending) + Summary(name, input))]
  {
    var row := CallRow(name, input);
    NoResultsYet(row);
    var e, u := Errors([row]), Usages([row]);
    Lists.FlatMapOne(r => RowItems(r, e, u), row);
    Lists.FlatMapOne(b => BlockItems(b, e, u), row.blocks[0]);
    if name != "Task" && name != "Agent" {
      UnitsOfOne(Item(Tool, Glyph(Pending) + Summary(name, input)));
    }
  }

  lemma NoResultsYet(row: Row)
    requires |row.blocks| == 1 && row.blocks[0].ToolUse?
    ensures Errors([row]) == map[] && Usages([row]) == map[]
  {
    NoResultNoNews(map[], map[], row.blocks);
    assert [row][..0] == [];
  }

  lemma TwoLines(header: string)
    requires '\n' !in header
    ensures ItemUnits(Item(Agent, header + "\n" + "```")) == [Item(Agent, header), Item(Agent, "```")]
  {
    SplitMeets(header, "```");
    SplitLine(header);
    SplitLine("```");
  }

  const HEADER := "> \U{1F916} x \U{2014} d"

  const FENCED_TASK := ToolInput("", "x", "d\n```", None)

  lemma FencedHeader()
    ensures AgentHeader(FENCED_TASK) == HEADER + "\n" + "```"
  {
  }

  /** A subagent whose task holds a fence on a line of its own: the line becomes an agent unit, which
      fence_state does not see. */
  lemma TaskFenceIsStray()
    ensures var units := TurnUnits([CallRow("Task", FENCED_TASK)]);
            |units| == 3 && units[1] == Item(Agent, "```") && !NoStrayFence(units)
  {
    CallUnits("Task", FENCED_TASK);
    TaskUnits();
    BareFenceIsStray(TurnUnits([CallRow("Task", FENCED_TASK)]));
  }

  lemma TaskUnits()
    ensures Units(AgentItems(FENCED_TASK, Pending, "")) ==
            [Item(Agent, HEADER), Item(Agent, "```"), Item(Agent, AgentStatus(Pending, ""))]
  {
    FencedHeader();
    assert '\n' !in HEADER;
    FencedTaskUnits(FENCED_TASK, HEADER);
  }

  lemma FencedTaskUnits(input: ToolInput, header: string)
    requires AgentHeader(input) == header + "\n" + "```" && '\n' !in header
    ensures Units(AgentItems(input, Pending, "")) ==
            [Item(Agent, header), Item(Agent, "```"), Item(Agent, AgentStatus(Pending, ""))]
  {
    AgentUnits(input, Pending, "");
    HeaderUnits(input, header);
  }

  lemma HeaderUnits(input: ToolInput, header: string)
    requires AgentHeader(input) == header + "\n" + "```" && '\n' !in header
    ensures ItemUnits(Item(Agent, AgentHeader(input))) == [Item(Agent, header), Item(Agent, "```")]
  {
    TwoLines(header);
  }

  lemma BareFence()
    ensures IsFence("```") && Split("```") == ["```"] && FenceFold(None, Split("```")).Some?
  {
    SplitLine("```");
    assert LStrip("```") == "```";
    FoldOne(None, "```");
  }

  lemma BareFenceIsStray(units: seq<Item>)
    requires |units| > 2 && units[0].kind.Agent? && units[1] == Item(Agent, "```")
    ensures !NoStrayFence(units)
  {
    NarrationStep(units, 0);
    assert units[..0] == [];
    BareFence();
    assert !Neutral(units, 1);
  }

  /** A fence on the second line of an item escapes the count by items. */
  lemma SecondLineEscapes(item: Item, first: string)
    requires Line(item) == first + "\n" + "````" && '\n' !in first
    requires !IsFence(first) && !IsFence(Line(item))
    ensures Odd(SeenLines([item])) && !Odd(Lines([item]))
  {
    SplitMeets(first, "````");
    SplitLine(first);
    SplitLine("````");
    SeenLinesOne(item);
    assert Lines([item]) == [Line(item)];
    OddOne(Line(item));
    OddConcat([first], ["````"]);
    OddOne(first);
    OddOne("````");
    assert LStrip("````") == "````";
  }

  const FENCED_PATTERN := ToolInput("x\n```", "", "", None)

  const FIRST := "`\U{23F3} \U{1F50E} x"

  lemma PatternLine()
    ensures Line(Item(Tool, Glyph(Pending) + Summary("Grep", FENCED_PATTERN))) == FIRST + "\n" + "````"
  {
  }

  lemma TickIsNoFence(line: string)
    requires |line| >= 2 && line[0] == '`' && line[1] != '`'
    ensures !IsFence(line)
  {
    assert LStrip(line) == line;
  }

  /** A search whose pattern holds a fence on a line of its own: the posted message leaves it open. */
  lemma PatternFenceStaysOpen()
    ensures var units := TurnUnits([CallRow("Grep", FENCED_PATTERN)]);
            !Balanced(units, WORKING_FOOTER, None)
  {
    CallUnits("Grep", FENCED_PATTERN);
    PatternIsUnbalanced();
  }

  lemma PatternIsUnbalanced()
    ensures !Balanced([Item(Tool, Glyph(Pending) + Summary("Grep", FENCED_PATTERN))], WORKING_FOOTER, None)
  {
    var item := Item(Tool, Glyph(Pending) + Summary("Grep", FENCED_PATTERN));
    PatternEscapes(item);
    UnbalancedStaysOpen([item]);
  }

  lemma UnbalancedStaysOpen(items: seq<Item>)
    requires items != [] && Odd(SeenLines(items)) != Odd(Lines(items))
    ensures !Balanced(items, WORKING_FOOTER, None)
  {
    PostedIsBalancedIff(items, WORKING_FOOTER, None);
  }

  lemma PatternEscapes(item: Item)
    requires item == Item(Tool, Glyph(Pending) + Summary("Grep", FENCED_PATTERN))
    ensures Odd(SeenLines([item])) && !Odd(Lines([item]))
  {
    PatternLine();
    TickIsNoFence(FIRST);
    TickIsNoFence(Line(item));
    assert '\n' !in FIRST;
    SecondLineEscapes(item, FIRST);
  }
}
