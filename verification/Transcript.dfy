/** A turn's transcript rows, the display units they become, and the closing answer. */
module Transcript {
  import opened Wrappers
  import opened Lists
  import Text
  import opened Layout

  type OneLine = s: string | '\n' !in s

  /** What a tool's summary line, the subagent header and the reply check read from its input: the command's
      first line, the file's name or the search pattern; the subagent and its task; the reply's text. */
  datatype ToolInput = ToolInput(detail: string, agentType: string, task: string, sent: Option<string>)

  datatype Block =
    | TextBlock(text: string)
    | ToolUse(name: string, id: Option<string>, input: ToolInput)
    | ToolResult(useId: Option<string>, isError: bool, usage: Option<OneLine>)
    | OtherBlock

  datatype Role = User | Assistant | OtherRole

  datatype Row = Row(userType: bool, role: Role, blocks: seq<Block>, uid: Option<string>)

  // ------------------------------------------------------------------ rows

  predicate HasToolResult(row: Row) {
    exists b | b in row.blocks :: b.ToolResult?
  }

  predicate IsHumanPrompt(row: Row) {
    row.userType && row.role.User? && !HasToolResult(row)
  }

  /** The blocks of an assistant row; other rows count as having none. */
  function AssistantBlocks(row: Row): seq<Block> {
    if row.role.Assistant? then row.blocks else []
  }

  predicate Contains(s: string, part: string)
    decreases |s|
  {
    part <= s || (s != "" && Contains(s[1..], part))
  }

  predicate IsDiscordReply(name: string) {
    "mcp__" <= name && Contains(name, "discord") && Contains(name, "reply")
  }

  /** The last human prompt, or the first row if there is none. */
  function TurnStart(rows: seq<Row>): (start: nat)
    ensures start <= |rows|
  {
    if rows == [] then 0
    else if IsHumanPrompt(rows[|rows| - 1]) then |rows| - 1
    else TurnStart(rows[..|rows| - 1])
  }

  function TurnOf(rows: seq<Row>): seq<Row> {
    rows[TurnStart(rows)..]
  }

  method CurrentTurn(rows: seq<Row>) returns (turn: seq<Row>)
    ensures turn == TurnOf(rows)
  {
    var start := 0;
    for i := 0 to |rows|
      invariant start == TurnStart(rows[..i])
    {
      assert rows[..i + 1][..i] == rows[..i];
      if IsHumanPrompt(rows[i]) {
        start := i;
      }
    }
    assert rows[..|rows|] == rows;
    turn := rows[start..];
  }

  /** A turn's identifier is that of its first row. */
  function TurnId(turn: seq<Row>): Option<string> {
    if turn == [] then None else turn[0].uid
  }

  /** Rows that hold no human prompt extend the turn they follow, under the same identifier. */
  lemma {:induction false} AppendKeepsTurn(rows: seq<Row>, more: seq<Row>)
    requires rows != [] && forall i | 0 <= i < |more| :: !IsHumanPrompt(more[i])
    ensures TurnOf(rows + more) == TurnOf(rows) + more
    ensures TurnId(TurnOf(rows + more)) == TurnId(TurnOf(rows))
  {
    StartBelow(rows);
    if more == [] {
      assert rows + more == rows;
    } else {
      var n := |more| - 1;
      AppendKeepsTurn(rows, more[..n]);
      assert (rows + more)[..|rows + more| - 1] == rows + more[..n];
      assert rows + more == (rows + more[..n]) + [more[n]];
    }
  }

  lemma {:induction false} StartBelow(rows: seq<Row>)
    requires rows != []
    ensures TurnStart(rows) < |rows|
  {
    if !IsHumanPrompt(rows[|rows| - 1]) && |rows| > 1 {
      StartBelow(rows[..|rows| - 1]);
    }
  }

  // ------------------------------------------------------------------ tool results

  function NoteResult(errors: map<Option<string>, bool>, b: Block): map<Option<string>, bool> {
    if b.ToolResult? then errors[b.useId := b.isError] else errors
  }

  function NoteResults(errors: map<Option<string>, bool>, blocks: seq<Block>): map<Option<string>, bool> {
    if blocks == [] then errors
    else NoteResult(NoteResults(errors, blocks[..|blocks| - 1]), blocks[|blocks| - 1])
  }

  /** Whether each tool call failed, by the last result it got. */
  function Errors(turn: seq<Row>): map<Option<string>, bool> {
    if turn == [] then map[]
    else NoteResults(Errors(turn[..|turn| - 1]), turn[|turn| - 1].blocks)
  }

  function NoteUsage(usages: map<string, OneLine>, b: Block): map<string, OneLine> {
    if b.ToolResult? && b.useId.Some? && b.usage.Some? then usages[b.useId.value := b.usage.value] else usages
  }

  function NoteUsages(usages: map<string, OneLine>, blocks: seq<Block>): map<string, OneLine> {
    if blocks == [] then usages
    else NoteUsage(NoteUsages(usages, blocks[..|blocks| - 1]), blocks[|blocks| - 1])
  }

  function Usages(turn: seq<Row>): map<string, OneLine> {
    if turn == [] then map[]
    else NoteUsages(Usages(turn[..|turn| - 1]), turn[|turn| - 1].blocks)
  }

  method ToolResultErrors(turn: seq<Row>) returns (errors: map<Option<string>, bool>)
    ensures errors == Errors(turn)
  {
    errors := map[];
    for i := 0 to |turn|
      invariant errors == Errors(turn[..i])
    {
      var blocks := turn[i].blocks;
      for j := 0 to |blocks|
        invariant errors == NoteResults(Errors(turn[..i]), blocks[..j])
      {
        assert blocks[..j + 1][..j] == blocks[..j];
        if blocks[j].ToolResult? {
          errors := errors[blocks[j].useId := blocks[j].isError];
        }
      }
      assert blocks[..|blocks|] == blocks;
      assert turn[..i + 1][..i] == turn[..i];
    }
    assert turn[..|turn|] == turn;
  }

  // ------------------------------------------------------------------ display items

  datatype Status = Pending | Errored | Done

  function ToolStatus(id: Option<string>, errors: map<Option<string>, bool>): Status {
    if id.None? || id !in errors then Pending else if errors[id] then Errored else Done
  }

  function Glyph(status: Status): string {
    match status
    case Pending => "\U{23F3} "
    case Errored => "\U{26A0}\U{FE0F} "
    case Done => ""
  }

  /** One icon and what the tool works on; a tool without an icon of its own is named. */
  function Summary(name: string, input: ToolInput): string {
    if name == "Bash" then "\U{2699}\U{FE0F} " + input.detail
    else if name == "Read" then "\U{1F4D6} " + input.detail
    else if name == "Edit" || name == "Write" || name == "NotebookEdit" then "\U{270F}\U{FE0F} " + input.detail
    else if name == "Grep" || name == "Glob" then "\U{1F50E} " + input.detail
    else "\U{1F527} " + name
  }

  function AgentHeader(input: ToolInput): string {
    "> \U{1F916} " + input.agentType + " \U{2014} " + input.task
  }

  function AgentItems(input: ToolInput, status: Status, usage: OneLine): seq<Item> {
    [Item(Agent, AgentHeader(input)), Item(Agent, AgentStatus(status, usage))]
  }

  function AgentStatus(status: Status, usage: OneLine): (s: string)
    ensures '\n' !in s
  {
    match status
    case Pending => "-# \U{23F3} running\U{2026}"
    case Errored => "-# \U{26A0}\U{FE0F} failed" + usage
    case Done => "-# \U{2705}" + usage
  }

  function UsageOf(id: Option<string>, usages: map<string, OneLine>): OneLine {
    if id.GetOr("") in usages then usages[id.GetOr("")] else ""
  }

  function BlockItems(b: Block, errors: map<Option<string>, bool>, usages: map<string, OneLine>): seq<Item> {
    match b
    case TextBlock(text) => if Text.Strip(text) == "" then [] else [Item(Narration, Text.Strip(text))]
    case ToolUse(name, id, input) =>
      if IsDiscordReply(name) then []
      else
        var status := ToolStatus(id, errors);
        if name == "Task" || name == "Agent" then
          AgentItems(input, status, UsageOf(id, usages))
        else [Item(Tool, Glyph(status) + Summary(name, input))]
    case _ => []
  }

  function RowItems(row: Row, errors: map<Option<string>, bool>, usages: map<string, OneLine>): seq<Item> {
    FlatMap(b => BlockItems(b, errors, usages), AssistantBlocks(row))
  }

  function RowsItems(rows: seq<Row>, errors: map<Option<string>, bool>, usages: map<string, OneLine>): seq<Item> {
    FlatMap(r => RowItems(r, errors, usages), rows)
  }

  /** The items of a turn: narrations whole, tools and subagents with the status they have by now. */
  function TurnItems(turn: seq<Row>): seq<Item> {
    RowsItems(turn, Errors(turn), Usages(turn))
  }

  method TurnLines(turn: seq<Row>) returns (items: seq<Item>)
    ensures items == TurnItems(turn)
  {
    var errors := ToolResultErrors(turn);
    var usages := Usages(turn);
    items := [];
    for i := 0 to |turn|
      invariant items == RowsItems(turn[..i], errors, usages)
    {
      var blocks := AssistantBlocks(turn[i]);
      ghost var before := items;
      for j := 0 to |blocks|
        invariant items == before + FlatMap(b => BlockItems(b, errors, usages), blocks[..j])
      {
        FlatMapSnoc(b => BlockItems(b, errors, usages), blocks, j);
        items := items + BlockItems(blocks[j], errors, usages);
      }
      assert blocks[..|blocks|] == blocks;
      FlatMapSnoc(r => RowItems(r, errors, usages), turn, i);
    }
    assert turn[..|turn|] == turn;
  }

  /** The items without the trailing narrations: what is left when the closing is dropped. */
  function WithoutClosing(items: seq<Item>): seq<Item> {
    if items != [] && items[|items| - 1].kind.Narration? then WithoutClosing(items[..|items| - 1])
    else items
  }

  method WorkLines(turn: seq<Row>) returns (items: seq<Item>)
    ensures items == WithoutClosing(TurnItems(turn))
  {
    items := TurnLines(turn);
    while items != [] && items[|items| - 1].kind.Narration?
      invariant WithoutClosing(items) == WithoutClosing(TurnItems(turn))
    {
      items := items[..|items| - 1];
    }
  }

  // ------------------------------------------------------------------ units

  function LineUnits(kind: Kind, lines: seq<string>): (u: seq<Item>)
    ensures |u| == |lines|
  {
    seq(|lines|, i requires 0 <= i < |lines| => Item(kind, lines[i]))
  }

  function ItemUnits(item: Item): seq<Item> {
    if item.kind.Tool? then [item] else LineUnits(item.kind, Text.Split(item.text))
  }

  function Units(items: seq<Item>): seq<Item> {
    FlatMap(ItemUnits, items)
  }

  method SplitUnits(items: seq<Item>) returns (units: seq<Item>)
    ensures units == Units(items)
  {
    units := [];
    for i := 0 to |items|
      invariant units == Units(items[..i])
    {
      FlatMapSnoc(ItemUnits, items, i);
      units := units + ItemUnits(items[i]);
    }
    assert items[..|items|] == items;
  }

  lemma UnitsConcat(a: seq<Item>, b: seq<Item>)
    ensures Units(a + b) == Units(a) + Units(b)
  {
    FlatMapConcat(ItemUnits, a, b);
  }
}
