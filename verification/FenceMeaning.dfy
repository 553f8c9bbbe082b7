/** Cutting a turn into messages keeps the meaning of its code fences. */
module FenceMeaning {
  import opened Layout
  import Lists
  import opened Text
  import opened Wrappers

  /** What split_units produces: no narration or agent unit holds a newline. */
  predicate LineGranular(units: seq<Item>) {
    forall i | 0 <= i < |units| :: units[i].kind.Tool? || '\n' !in units[i].text
  }

  /** The lines a reader gets of the items: a summary may hold a line break. */
  function SeenLines(items: seq<Item>): seq<string> {
    SplitAll(Lines(items))
  }

  /** The fence state a reader of the uncut turn has just before unit j. */
  function StateInTurn(units: seq<Item>, j: nat): Option<string>
    requires j <= |units|
  {
    FenceFold(None, SeenLines(units[..j]))
  }

  /** The fence state a reader has just before unit j of a message that starts at unit lo. */
  function StateInMessage(units: seq<Item>, lo: nat, j: nat): Option<string>
    requires lo <= j <= |units|
  {
    FenceFold(None, Opener(OpenFence(units[..lo])) + SeenLines(units[lo..j]))
  }

  /** A reader of the message that starts at lo and a reader of the uncut turn are in the same fence state
      before unit j. */
  predicate Agree(units: seq<Item>, lo: nat, j: nat)
    requires lo <= j <= |units|
  {
    StateInMessage(units, lo, j) == StateInTurn(units, j)
  }

  /** The lines of a tool or agent unit leave the reader in the state of the narration before it. */
  predicate Neutral(units: seq<Item>, k: nat)
    requires k < |units|
  {
    FenceFold(OpenFence(units[..k]), Split(Line(units[k]))) == OpenFence(units[..k])
  }

  /** No tool or agent unit opens, closes or replaces a fence; the last unit has no message after it. */
  predicate NoStrayFence(units: seq<Item>) {
    forall k | 0 <= k < |units| - 1 && !units[k].kind.Narration? :: Neutral(units, k)
  }

  // ------------------------------------------------------------------ the reopened fence

  predicate Trimmed(open: Option<string>) {
    open.Some? ==> Strip(open.value) == open.value && '\n' !in open.value
  }

  lemma {:induction false} FoldIsTrimmed(open: Option<string>, lines: seq<string>)
    requires Trimmed(open) && NewlineFree(lines)
    ensures Trimmed(FenceFold(open, lines))
  {
    if lines != [] {
      var n := |lines| - 1;
      FoldIsTrimmed(open, lines[..n]);
      if IsFence(lines[n]) {
        LStripSuffix(lines[n]);
        StripTrims(LStrip(lines[n])[3..]);
      }
    }
  }

  lemma {:induction false} TextLinesAreLines(items: seq<Item>)
    ensures NewlineFree(TextLines(items))
  {
    if items != [] {
      TextLinesAreLines(items[..|items| - 1]);
      SplitYieldsLines(items[|items| - 1].text);
    }
  }

  lemma OpenFenceIsTrimmed(items: seq<Item>)
    ensures Trimmed(OpenFence(items))
  {
    TextLinesAreLines(items);
    FoldIsTrimmed(None, TextLines(items));
  }

  /** The line that reopens a fence carries the same info string again. */
  lemma OpenerReopens(open: Option<string>)
    requires Trimmed(open)
    ensures FenceFold(None, Opener(open)) == open
  {
    if open.Some? {
      var line := FENCE + open.value;
      assert line[0] == '`' && LStrip(line) == line;
      assert line[3..] == open.value;
      var none: seq<string> := [];
      assert [line][..0] == none;
      assert FenceFold(None, [line]) == FenceStep(FenceFold(None, none), line);
    }
  }

  // ------------------------------------------------------------------ meaning

  lemma SeenLinesConcat(a: seq<Item>, b: seq<Item>)
    ensures SeenLines(a + b) == SeenLines(a) + SeenLines(b)
  {
    assert Lines(a + b) == Lines(a) + Lines(b);
    SplitAllConcat(Lines(a), Lines(b));
  }

  lemma SeenLinesOne(item: Item)
    ensures SeenLines([item]) == Split(Line(item))
  {
    assert Lines([item]) == [Line(item)];
    SplitAllOne(Line(item));
  }

  /** A message picks up the narration's fence state where it starts. */
  lemma MessageFolds(units: seq<Item>, lo: nat, j: nat)
    requires lo <= j <= |units|
    ensures StateInMessage(units, lo, j) == FenceFold(OpenFence(units[..lo]), SeenLines(units[lo..j]))
  {
    OpenFenceIsTrimmed(units[..lo]);
    OpenerReopens(OpenFence(units[..lo]));
    FenceFoldConcat(None, Opener(OpenFence(units[..lo])), SeenLines(units[lo..j]));
  }

  lemma TurnFolds(units: seq<Item>, lo: nat, j: nat)
    requires lo <= j <= |units|
    ensures StateInTurn(units, j) == FenceFold(StateInTurn(units, lo), SeenLines(units[lo..j]))
  {
    assert units[..j] == units[..lo] + units[lo..j];
    SeenLinesConcat(units[..lo], units[lo..j]);
    FenceFoldConcat(None, SeenLines(units[..lo]), SeenLines(units[lo..j]));
  }

  lemma TurnStep(units: seq<Item>, k: nat)
    requires k < |units|
    ensures StateInTurn(units, k + 1) == FenceFold(StateInTurn(units, k), Split(Line(units[k])))
  {
    TurnFolds(units, k, k + 1);
    assert units[k..k + 1] == [units[k]];
    SeenLinesOne(units[k]);
  }

  lemma NarrationStep(units: seq<Item>, k: nat)
    requires k < |units|
    ensures OpenFence(units[..k + 1]) ==
            if units[k].kind.Narration? then FenceFold(OpenFence(units[..k]), Split(Line(units[k])))
            else OpenFence(units[..k])
  {
    Lists.FlatMapSnoc(NarrationLines, units, k);
    FenceFoldConcat(None, TextLines(units[..k]), NarrationLines(units[k]));
  }

  /** The narration's state is the reader's as long as every other unit is neutral. */
  lemma {:induction false} NarrationLeads(units: seq<Item>, j: nat)
    requires NoStrayFence(units) && j < |units|
    ensures OpenFence(units[..j]) == StateInTurn(units, j)
  {
    if j > 0 {
      NarrationLeads(units, j - 1);
      TurnStep(units, j - 1);
      NarrationStep(units, j - 1);
      assert !units[j - 1].kind.Narration? ==> Neutral(units, j - 1);
    } else {
      assert units[..0] == [];
    }
  }

  lemma AgreeAtStart(units: seq<Item>, lo: nat)
    requires lo <= |units|
    ensures Agree(units, lo, lo) <==> OpenFence(units[..lo]) == StateInTurn(units, lo)
  {
    MessageFolds(units, lo, lo);
    assert units[lo..lo] == [];
  }

  /** For every message and every unit of it, the unit is inside or outside a fence, with the same language,
      in its own message exactly as in the uncut text - if and only if no tool or agent unit that another
      unit follows leaves the reader in another state than the narration before it. */
  lemma MeaningKeptIffNoStrayFence(units: seq<Item>)
    ensures NoStrayFence(units) <==>
            forall lo: nat, j: nat | lo < |units| && lo <= j <= |units| :: Agree(units, lo, j)
  {
    if NoStrayFence(units) {
      forall lo: nat, j: nat | lo < |units| && lo <= j <= |units|
        ensures Agree(units, lo, j)
      {
        MeaningIsKept(units, lo, j);
      }
    } else {
      var k :| 0 <= k < |units| - 1 && !units[k].kind.Narration? && !Neutral(units, k);
      TurnStep(units, k);
      NarrationStep(units, k);
      AgreeAtStart(units, k);
      AgreeAtStart(units, k + 1);
      assert !(Agree(units, k, k) && Agree(units, k + 1, k + 1));
    }
  }

  lemma MeaningIsKept(units: seq<Item>, lo: nat, j: nat)
    requires NoStrayFence(units) && lo < |units| && lo <= j <= |units|
    ensures Agree(units, lo, j)
  {
    NarrationLeads(units, lo);
    MessageFolds(units, lo, j);
    TurnFolds(units, lo, j);
  }

  // ------------------------------------------------------------------ balance

  /** An odd number of the lines are fences. */
  predicate Odd(lines: seq<string>) {
    lines != [] && Odd(lines[..|lines| - 1]) != IsFence(lines[|lines| - 1])
  }

  lemma {:induction false} OddIs(lines: seq<string>)
    ensures Odd(lines) <==> Fences(lines) % 2 == 1
  {
    if lines != [] {
      OddIs(lines[..|lines| - 1]);
    }
  }

  lemma {:induction false} OpenIffOdd(lines: seq<string>)
    ensures FenceFold(None, lines).Some? <==> Odd(lines)
  {
    if lines != [] {
      OpenIffOdd(lines[..|lines| - 1]);
    }
  }

  lemma {:induction false} OddConcat(a: seq<string>, b: seq<string>)
    ensures Odd(a + b) <==> Odd(a) != Odd(b)
  {
    if b == [] {
      assert a + b == a;
    } else {
      OddConcat(a, b[..|b| - 1]);
      assert (a + b)[..|a + b| - 1] == a + b[..|b| - 1];
    }
  }

  lemma OddOne(line: string)
    ensures Odd([line]) <==> IsFence(line)
  {
    var none: seq<string> := [];
    assert [line][..0] == none;
  }

  predicate IsFooter(footer: string) {
    footer == "" || footer == WORKING_FOOTER || footer == DONE_FOOTER || footer == SPILL_FOOTER
  }

  lemma FooterIsNoFence(footer: string)
    requires IsFooter(footer)
    ensures !IsFence(footer) && '\n' !in footer
  {
    if footer != "" {
      assert LStrip(footer) == footer && footer[0] != '`';
    }
  }

  lemma FoldOne(open: Option<string>, line: string)
    ensures FenceFold(open, [line]) == FenceStep(open, line)
  {
    var none: seq<string> := [];
    assert [line][..0] == none;
  }

  // ------------------------------------------------------------------ what a reader of the text sees

  function FooterLines(footer: string): seq<string> {
    if footer == "" then [] else [footer]
  }

  /** The lines that go behind a message's items. */
  function Behind(items: seq<Item>, footer: string, open: Option<string>): seq<string> {
    Closer(Opener(open) + Lines(items)) + FooterLines(footer)
  }

  /** Lines with what goes in front of a message's items and behind them. */
  function Around(lines: seq<string>, items: seq<Item>, footer: string, open: Option<string>): seq<string> {
    (Opener(open) + lines) + Behind(items, footer, open)
  }

  lemma ComposeIs(items: seq<Item>, footer: string, open: Option<string>)
    ensures Compose(items, footer, open) == (Opener(open) + Lines(items)) + Behind(items, footer, open)
  {
    Lists.Assoc(Opener(open) + Lines(items), Closer(Opener(open) + Lines(items)), FooterLines(footer));
    assert BalanceFences(Lines(items), open) + [] == BalanceFences(Lines(items), open);
  }

  lemma InsertedAreLines(items: seq<Item>, footer: string, open: Option<string>)
    requires Trimmed(open) && IsFooter(footer)
    ensures SplitAll(Opener(open)) == Opener(open)
    ensures SplitAll(Behind(items, footer, open)) == Behind(items, footer, open)
  {
    if open.Some? {
      assert '\n' !in FENCE + open.value;
    }
    SplitAllLines(Opener(open));
    BehindIsLines(items, footer, open);
    SplitAllLines(Behind(items, footer, open));
  }

  lemma BehindIsLines(items: seq<Item>, footer: string, open: Option<string>)
    requires IsFooter(footer)
    ensures NewlineFree(Behind(items, footer, open))
  {
    FooterIsNoFence(footer);
  }

  /** The lines of a posted text: what was inserted, around the lines of the items. */
  lemma PostedLines(items: seq<Item>, footer: string, open: Option<string>)
    requires items != [] && Trimmed(open) && IsFooter(footer)
    ensures Split(Full(items, footer, open)) == Around(SeenLines(items), items, footer, open)
  {
    ComposeIs(items, footer, open);
    SplitOfJoin(Compose(items, footer, open));
    SplitAllConcat(Opener(open) + Lines(items), Behind(items, footer, open));
    SplitAllConcat(Opener(open), Lines(items));
    InsertedAreLines(items, footer, open);
  }

  lemma CloserEvens(lines: seq<string>)
    ensures Odd(Closer(lines)) <==> Odd(lines)
  {
    OddIs(lines);
    OddOne(FENCE);
    assert LStrip(FENCE) == FENCE;
  }

  lemma FooterIsEven(footer: string)
    requires IsFooter(footer)
    ensures !Odd(FooterLines(footer))
  {
    FooterIsNoFence(footer);
    OddOne(footer);
  }

  lemma BehindEvens(items: seq<Item>, footer: string, open: Option<string>)
    requires IsFooter(footer)
    ensures Odd(Behind(items, footer, open)) <==> Odd(Opener(open)) != Odd(Lines(items))
  {
    var body := Opener(open) + Lines(items);
    FooterIsEven(footer);
    OddConcat(Closer(body), FooterLines(footer));
    CloserEvens(body);
    OddConcat(Opener(open), Lines(items));
  }

  lemma AroundEvens(items: seq<Item>, footer: string, open: Option<string>)
    requires IsFooter(footer)
    ensures Odd(Around(SeenLines(items), items, footer, open)) <==> Odd(SeenLines(items)) != Odd(Lines(items))
  {
    BehindEvens(items, footer, open);
    OddConcat(Opener(open) + SeenLines(items), Behind(items, footer, open));
    OddConcat(Opener(open), SeenLines(items));
  }

  /** A reader of the posted text is left in no open fence. */
  predicate Balanced(items: seq<Item>, footer: string, open: Option<string>) {
    FenceFold(None, Split(Full(items, footer, open))) == None
  }

  /** A posted text closes the fences it opens if and only if the fence lines that a reader finds in its items and
      those that the closer counts, one at most an item, are both odd or both even in number. */
  lemma PostedIsBalancedIff(items: seq<Item>, footer: string, open: Option<string>)
    requires items != [] && Trimmed(open) && IsFooter(footer)
    ensures Balanced(items, footer, open) <==> (Odd(SeenLines(items)) <==> Odd(Lines(items)))
  {
    PostedLines(items, footer, open);
    OpenIffOdd(Split(Full(items, footer, open)));
    AroundEvens(items, footer, open);
  }

  /** So it does whenever every item is one line. */
  lemma LinesAreBalanced(items: seq<Item>, footer: string, open: Option<string>)
    requires items != [] && Trimmed(open) && IsFooter(footer) && NewlineFree(Lines(items))
    ensures Balanced(items, footer, open)
  {
    SplitAllLines(Lines(items));
    PostedIsBalancedIff(items, footer, open);
  }

  /** Where the lines of the units before j end in the posted text. */
  function SeenUpTo(units: seq<Item>, lo: nat, j: nat): nat
    requires lo <= j <= |units|
  {
    |Opener(OpenFence(units[..lo]))| + |SeenLines(units[lo..j])|
  }

  /** Reading an uncut posted text line by line, the lines up to unit j leave the reader in the message's fence
      state, whatever the units hold. */
  lemma PostedTextIsTheMessage(units: seq<Item>, lo: nat, j: nat, hi: nat, footer: string)
    requires lo <= j <= hi <= |units| && lo < hi && IsFooter(footer)
    ensures var seen := Split(Full(units[lo..hi], footer, OpenFence(units[..lo])));
            SeenUpTo(units, lo, j) <= |seen| &&
            FenceFold(None, seen[..SeenUpTo(units, lo, j)]) == StateInMessage(units, lo, j)
  {
    OpenFenceIsTrimmed(units[..lo]);
    assert units[lo..hi] == units[lo..j] + units[j..hi];
    PostedPrefix(units[lo..j], units[j..hi], footer, OpenFence(units[..lo]));
  }

  lemma PostedPrefix(a: seq<Item>, b: seq<Item>, footer: string, open: Option<string>)
    requires a + b != [] && Trimmed(open) && IsFooter(footer)
    ensures var seen := Split(Full(a + b, footer, open));
            var n := |Opener(open)| + |SeenLines(a)|;
            n <= |seen| && seen[..n] == Opener(open) + SeenLines(a)
  {
    PostedLines(a + b, footer, open);
    SeenLinesConcat(a, b);
    PrefixOfFour(Opener(open), SeenLines(a), SeenLines(b), Behind(a + b, footer, open));
  }

  lemma PrefixOfFour<T>(a: seq<T>, b: seq<T>, c: seq<T>, d: seq<T>)
    ensures (a + (b + c) + d)[..|a| + |b|] == a + b
  {
  }

  /** And in the fence state that the uncut turn has there, if no unit is stray. */
  lemma PostedTextKeepsMeaning(units: seq<Item>, lo: nat, j: nat, hi: nat, footer: string)
    requires NoStrayFence(units) && lo <= j <= hi <= |units| && lo < hi && IsFooter(footer)
    ensures var seen := Split(Full(units[lo..hi], footer, OpenFence(units[..lo])));
            SeenUpTo(units, lo, j) <= |seen| &&
            FenceFold(None, seen[..SeenUpTo(units, lo, j)]) == StateInTurn(units, j)
  {
    PostedTextIsTheMessage(units, lo, j, hi, footer);
    MeaningIsKept(units, lo, j);
  }
}
