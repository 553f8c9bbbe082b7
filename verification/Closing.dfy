/** Finding a turn's closing answer, and knowing when it has reached the transcript. */
module Closing {
  import opened Layout
  import opened Lists
  import Text
  import opened Transcript
  import UnitStability
  import opened Wrappers

  function BlockTexts(b: Block): seq<string> {
    if b.TextBlock? then [b.text] else []
  }

  function BlockText(blocks: seq<Block>): string {
    Text.Strip(Text.Join(FlatMap(BlockTexts, blocks)))
  }

  function RowText(row: Row): string {
    BlockText(AssistantBlocks(row))
  }

  predicate HasText(row: Row) {
    RowText(row) != ""
  }

  /** Some assistant text comes after every tool result. */
  predicate Flushed(turn: seq<Row>) {
    exists i | 0 <= i < |turn| ::
      HasText(turn[i]) && forall j | i <= j < |turn| :: !HasToolResult(turn[j])
  }

  method ClosingFlushed(turn: seq<Row>) returns (flushed: bool)
    ensures flushed <==> Flushed(turn)
  {
    var lastText, lastResult := -1, -1;
    for i := 0 to |turn|
      invariant lastText == LastText(turn[..i]) && lastResult == LastResult(turn[..i])
    {
      assert turn[..i + 1][..i] == turn[..i];
      if HasToolResult(turn[i]) {
        lastResult := i;
      }
      if RowText(turn[i]) != "" {
        lastText := i;
      }
    }
    assert turn[..|turn|] == turn;
    flushed := lastText > lastResult;
    LastsDecide(turn);
  }

  /** Where the last row with assistant text is; -1 if there is none. */
  function LastText(turn: seq<Row>): int {
    if turn == [] then -1
    else if HasText(turn[|turn| - 1]) then |turn| - 1
    else LastText(turn[..|turn| - 1])
  }

  function LastResult(turn: seq<Row>): int {
    if turn == [] then -1
    else if HasToolResult(turn[|turn| - 1]) then |turn| - 1
    else LastResult(turn[..|turn| - 1])
  }

  lemma {:induction false} LastTextIs(turn: seq<Row>)
    ensures -1 <= LastText(turn) < |turn|
    ensures LastText(turn) >= 0 ==> HasText(turn[LastText(turn)])
    ensures forall j | LastText(turn) < j < |turn| :: !HasText(turn[j])
  {
    if turn != [] && !HasText(turn[|turn| - 1]) {
      var front := turn[..|turn| - 1];
      LastTextIs(front);
      assert forall j | 0 <= j < |front| :: front[j] == turn[j];
    }
  }

  lemma {:induction false} LastResultIs(turn: seq<Row>)
    ensures -1 <= LastResult(turn) < |turn|
    ensures LastResult(turn) >= 0 ==> HasToolResult(turn[LastResult(turn)])
    ensures forall j | LastResult(turn) < j < |turn| :: !HasToolResult(turn[j])
  {
    if turn != [] && !HasToolResult(turn[|turn| - 1]) {
      var front := turn[..|turn| - 1];
      LastResultIs(front);
      assert forall j | 0 <= j < |front| :: front[j] == turn[j];
    }
  }

  lemma LastsDecide(turn: seq<Row>)
    ensures LastText(turn) > LastResult(turn) <==> Flushed(turn)
  {
    LastTextIs(turn);
    LastResultIs(turn);
    if LastText(turn) > LastResult(turn) {
      assert HasText(turn[LastText(turn)]);
    }
  }

  /** The text of the last row that has one. */
  function ClosingText(turn: seq<Row>): string {
    if turn == [] then ""
    else if RowText(turn[|turn| - 1]) != "" then RowText(turn[|turn| - 1])
    else ClosingText(turn[..|turn| - 1])
  }

  /** A reply call whose result did not report an error carried this text. */
  predicate SentBy(b: Block, errors: map<Option<string>, bool>, text: string) {
    b.ToolUse? && IsDiscordReply(b.name) && b.input.sent.Some? &&
    b.id in errors && !errors[b.id] && Text.Strip(b.input.sent.value) == text
  }

  predicate WasDelivered(turn: seq<Row>, errors: map<Option<string>, bool>, text: string) {
    exists i | 0 <= i < |turn| :: DeliveredIn(AssistantBlocks(turn[i]), errors, text)
  }

  predicate DeliveredIn(blocks: seq<Block>, errors: map<Option<string>, bool>, text: string) {
    exists j | 0 <= j < |blocks| :: SentBy(blocks[j], errors, text)
  }

  /** The reply texts one row delivered. */
  method DeliveredTexts(blocks: seq<Block>, errors: map<Option<string>, bool>) returns (texts: seq<string>)
    ensures forall text :: text in texts <==> DeliveredIn(blocks, errors, text)
  {
    texts := [];
    for j := 0 to |blocks|
      invariant forall text :: text in texts <==> DeliveredIn(blocks[..j], errors, text)
    {
      ghost var before := texts;
      var b := blocks[j];
      if b.ToolUse? && IsDiscordReply(b.name) && b.input.sent.Some? && b.id in errors && !errors[b.id] {
        texts := texts + [Text.Strip(b.input.sent.value)];
      }
      forall text
        ensures text in texts <==> DeliveredIn(blocks[..j + 1], errors, text)
      {
        DeliveredGrows(blocks, j, errors, text);
      }
    }
    assert blocks[..|blocks|] == blocks;
  }

  lemma DeliveredGrows(blocks: seq<Block>, j: nat, errors: map<Option<string>, bool>, text: string)
    requires j < |blocks|
    ensures DeliveredIn(blocks[..j + 1], errors, text) <==>
            DeliveredIn(blocks[..j], errors, text) || SentBy(blocks[j], errors, text)
  {
    if DeliveredIn(blocks[..j], errors, text) {
      var k :| 0 <= k < j && SentBy(blocks[..j][k], errors, text);
      assert SentBy(blocks[..j + 1][k], errors, text);
    }
    if SentBy(blocks[j], errors, text) {
      assert SentBy(blocks[..j + 1][j], errors, text);
    }
    if DeliveredIn(blocks[..j + 1], errors, text) {
      var k :| 0 <= k < j + 1 && SentBy(blocks[..j + 1][k], errors, text);
      assert k < j ==> SentBy(blocks[..j][k], errors, text);
    }
  }

  /** The closing answer is the last assistant text; it counts as already sent exactly when a reply
      whose result did not error carried the same text. */
  method ExtractClosing(turn: seq<Row>) returns (closing: string, alreadySent: bool)
    ensures closing == ClosingText(turn)
    ensures alreadySent <==> closing != "" && WasDelivered(turn, Errors(turn), closing)
  {
    var errors := ToolResultErrors(turn);
    var delivered: seq<string> := [];
    closing := "";
    for i := 0 to |turn|
      invariant closing == ClosingText(turn[..i])
      invariant forall text :: text in delivered <==> WasDelivered(turn[..i], errors, text)
    {
      var texts := DeliveredTexts(AssistantBlocks(turn[i]), errors);
      DeliveredSnoc(turn, i, errors, delivered, texts);
      delivered := delivered + texts;
      ClosingTextSnoc(turn, i);
      if RowText(turn[i]) != "" {
        closing := RowText(turn[i]);
      }
    }
    assert turn[..|turn|] == turn;
    alreadySent := closing != "" && closing in delivered;
  }

  lemma ClosingTextSnoc(turn: seq<Row>, i: nat)
    requires i < |turn|
    ensures ClosingText(turn[..i + 1]) == if RowText(turn[i]) != "" then RowText(turn[i]) else ClosingText(turn[..i])
  {
    assert turn[..i + 1][..i] == turn[..i];
  }

  lemma DeliveredSnoc(turn: seq<Row>, i: nat, errors: map<Option<string>, bool>, delivered: seq<string>,
                       texts: seq<string>)
    requires i < |turn|
    requires forall text :: text in delivered <==> WasDelivered(turn[..i], errors, text)
    requires forall text :: text in texts <==> DeliveredIn(AssistantBlocks(turn[i]), errors, text)
    ensures forall text :: text in delivered + texts <==> WasDelivered(turn[..i + 1], errors, text)
  {
    forall text
      ensures text in delivered + texts <==> WasDelivered(turn[..i + 1], errors, text)
    {
      WasDeliveredSnoc(turn[..i], turn[i], errors, text);
      assert turn[..i + 1] == turn[..i] + [turn[i]];
    }
  }

  lemma WasDeliveredSnoc(turn: seq<Row>, row: Row, errors: map<Option<string>, bool>, text: string)
    ensures WasDelivered(turn + [row], errors, text) <==>
            WasDelivered(turn, errors, text) || DeliveredIn(AssistantBlocks(row), errors, text)
  {
    var all := turn + [row];
    if DeliveredIn(AssistantBlocks(row), errors, text) {
      assert DeliveredIn(AssistantBlocks(all[|turn|]), errors, text);
    }
    if WasDelivered(turn, errors, text) {
      var m :| 0 <= m < |turn| && DeliveredIn(AssistantBlocks(turn[m]), errors, text);
      assert DeliveredIn(AssistantBlocks(all[m]), errors, text);
    }
  }

  // ------------------------------------------------------------------ the answer is never stale

  /** Row i holds the closing text and no later row has any text. */
  predicate IsClosingRow(turn: seq<Row>, i: int) {
    0 <= i < |turn| && RowText(turn[i]) != "" && RowText(turn[i]) == ClosingText(turn) &&
    forall j | i < j < |turn| :: RowText(turn[j]) == ""
  }

  lemma {:induction false} ClosingRowExists(turn: seq<Row>, i: nat) returns (last: nat)
    requires i < |turn| && RowText(turn[i]) != ""
    ensures i <= last && IsClosingRow(turn, last)
  {
    var n := |turn| - 1;
    if RowText(turn[n]) != "" {
      last := n;
    } else {
      last := ClosingRowExists(turn[..n], i);
      ClosingRowStays(turn[..n], turn[n], last);
      assert turn == turn[..n] + [turn[n]];
    }
  }

  lemma ClosingRowStays(front: seq<Row>, row: Row, last: nat)
    requires IsClosingRow(front, last) && RowText(row) == ""
    ensures IsClosingRow(front + [row], last)
  {
    var turn := front + [row];
    assert turn[..|front|] == front;
    assert forall j | 0 <= j < |front| :: turn[j] == front[j];
  }

  /** closing_flushed holds exactly when the closing text is there and its row comes after every
      tool result: what Stop then forwards is never a stale intermediate line. */
  lemma FlushedIffClosingIsLast(turn: seq<Row>)
    ensures Flushed(turn) <==>
            exists i :: IsClosingRow(turn, i) && forall j | i <= j < |turn| :: !HasToolResult(turn[j])
    ensures Flushed(turn) ==> ClosingText(turn) != ""
  {
    if Flushed(turn) {
      var i :| 0 <= i < |turn| && HasText(turn[i]) && forall j | i <= j < |turn| :: !HasToolResult(turn[j]);
      var last := ClosingRowExists(turn, i);
      assert IsClosingRow(turn, last);
    }
  }

  // ------------------------------------------------------------------ the answer is on display

  lemma {:induction false} NoTextNoTexts(blocks: seq<Block>)
    requires forall i | 0 <= i < |blocks| :: !blocks[i].TextBlock?
    ensures FlatMap(BlockTexts, blocks) == []
  {
    if blocks != [] {
      NoTextNoTexts(blocks[..|blocks| - 1]);
    }
  }

  /** A list as what comes before an element, the element, and what comes after it. */
  lemma FlatMapAround<A, B>(f: A -> seq<B>, xs: seq<A>, i: nat)
    requires i < |xs|
    ensures FlatMap(f, xs) == FlatMap(f, xs[..i]) + f(xs[i]) + FlatMap(f, xs[i + 1..])
  {
    FlatMapSnoc(f, xs, i);
    FlatMapSplit(f, xs, i + 1);
  }

  lemma UnitsOfThree(a: seq<Item>, b: seq<Item>, c: seq<Item>)
    ensures Units(a + b + c) == Units(a) + Units(b) + Units(c)
  {
    UnitsConcat(a + b, c);
    UnitsConcat(a, b);
  }

  /** The units of a turn around one of its rows. */
  lemma TurnAround(turn: seq<Row>, i: nat) returns (before: seq<Item>, after: seq<Item>)
    requires i < |turn|
    ensures UnitStability.TurnUnits(turn) == before + Units(RowItems(turn[i], Errors(turn), Usages(turn))) + after
  {
    var e, u := Errors(turn), Usages(turn);
    FlatMapAround(r => RowItems(r, e, u), turn, i);
    var x, z := FlatMap(r => RowItems(r, e, u), turn[..i]), FlatMap(r => RowItems(r, e, u), turn[i + 1..]);
    UnitsOfThree(x, RowItems(turn[i], e, u), z);
    before, after := Units(x), Units(z);
  }

  lemma LoneTextIsRowText(row: Row, k: nat)
    requires k < |AssistantBlocks(row)| && AssistantBlocks(row)[k].TextBlock?
    requires forall j | 0 <= j < |AssistantBlocks(row)| && j != k :: !AssistantBlocks(row)[j].TextBlock?
    ensures RowText(row) == Text.Strip(AssistantBlocks(row)[k].text)
  {
    var blocks := AssistantBlocks(row);
    FlatMapAround(BlockTexts, blocks, k);
    NoTextNoTexts(blocks[..k]);
    NoTextNoTexts(blocks[k + 1..]);
    assert FlatMap(BlockTexts, blocks) == [blocks[k].text];
  }
}
