/** How display items become the text of one size-bounded message. */
module Layout {
  import Lists
  import opened Text
  import opened Wrappers

  const BODY_CAP := 1900
  const HARD_CAP := 1990
  const TOOL_CAP := 120

  const WORKING_FOOTER := "\U{23F3} *working\U{2026}*"
  const DONE_FOOTER := "\U{2705} *done*"
  const SPILL_FOOTER := "\U{23EC}"
  const FENCE := "```"

  datatype Kind = Narration | Tool | Agent
  datatype Item = Item(kind: Kind, text: string)

  // ------------------------------------------------------------------ rendered lines and widths

  function Line(item: Item): string {
    if item.kind.Tool? then
      "`" + (if |item.text| <= TOOL_CAP then item.text else item.text[..TOOL_CAP]) + "`"
    else item.text
  }

  function Lines(items: seq<Item>): (r: seq<string>)
    ensures |r| == |items|
  {
    seq(|items|, i requires 0 <= i < |items| => Line(items[i]))
  }

  /** The width of the items with one separator each. */
  function Total(items: seq<Item>): nat {
    if items == [] then 0 else |Line(items[0])| + 1 + Total(items[1..])
  }

  lemma TailCons(items: seq<Item>, i: nat)
    requires i < |items|
    ensures Lines(items[i..]) == [Line(items[i])] + Lines(items[i + 1..])
    ensures Total(items[i..]) == |Line(items[i])| + 1 + Total(items[i + 1..])
  {
    assert items[i..][1..] == items[i + 1..];
  }

  /** A footer costs its own width and a separator; "" stands for no footer. */
  function FooterWidth(footer: string): nat {
    if footer == "" then 0 else |footer| + 1
  }

  predicate Fits(items: seq<Item>, footer: string) {
    FooterWidth(footer) + Total(items) <= BODY_CAP
  }

  lemma {:induction false} TotalConcat(a: seq<Item>, b: seq<Item>)
    ensures Total(a + b) == Total(a) + Total(b)
  {
    if a == [] {
      assert a + b == b;
    } else {
      TotalConcat(a[1..], b);
      assert (a + b)[1..] == a[1..] + b;
    }
  }

  lemma TotalSplit(items: seq<Item>, k: nat)
    requires k <= |items|
    ensures Total(items) == Total(items[..k]) + Total(items[k..])
  {
    TotalConcat(items[..k], items[k..]);
    assert items == items[..k] + items[k..];
  }

  lemma TotalSnoc(items: seq<Item>, k: nat)
    requires k < |items|
    ensures Total(items[..k + 1]) == Total(items[..k]) + |Line(items[k])| + 1
  {
    TotalConcat(items[..k], [items[k]]);
    assert items[..k + 1] == items[..k] + [items[k]];
  }

  lemma LoneTotal(items: seq<Item>, i: nat)
    requires i < |items|
    ensures Total(items[i..i + 1]) == |Line(items[i])| + 1
  {
    assert items[i..i + 1] == [items[i]];
    assert [items[i]][1..] == [];
  }

  /** A part is no wider than the whole. */
  lemma TotalPart(items: seq<Item>, lo: nat, hi: nat)
    requires lo <= hi <= |items|
    ensures Total(items[lo..hi]) <= Total(items)
  {
    TotalSplit(items, lo);
    TotalSplit(items[lo..], hi - lo);
    assert items[lo..][..hi - lo] == items[lo..hi];
  }

  // ------------------------------------------------------------------ code fences

  predicate IsFence(line: string) {
    FENCE <= LStrip(line)
  }

  function Info(line: string): string
    requires IsFence(line)
  {
    Strip(LStrip(line)[3..])
  }

  /** A fence line opens a block carrying its info string, or closes the open one. */
  function FenceStep(open: Option<string>, line: string): Option<string> {
    if !IsFence(line) then open else if open.None? then Some(Info(line)) else None
  }

  function FenceFold(open: Option<string>, lines: seq<string>): Option<string> {
    if lines == [] then open
    else FenceStep(FenceFold(open, lines[..|lines| - 1]), lines[|lines| - 1])
  }

  function NarrationLines(item: Item): seq<string> {
    if item.kind.Narration? then Split(item.text) else []
  }

  /** The lines of the narration items, in order. */
  function TextLines(items: seq<Item>): seq<string> {
    Lists.FlatMap(NarrationLines, items)
  }

  /** The fence left open after the items: the reference reading of fence_state. */
  function OpenFence(items: seq<Item>): Option<string> {
    FenceFold(None, TextLines(items))
  }

  lemma {:induction false} FenceFoldConcat(open: Option<string>, a: seq<string>, b: seq<string>)
    ensures FenceFold(open, a + b) == FenceFold(FenceFold(open, a), b)
  {
    if b == [] {
      assert a + b == a;
    } else {
      FenceFoldConcat(open, a, b[..|b| - 1]);
      assert (a + b)[..|a + b| - 1] == a + b[..|b| - 1];
    }
  }

  lemma FenceFoldSnoc(open: Option<string>, a: seq<string>, b: seq<string>, j: nat)
    requires j < |b|
    ensures FenceFold(open, a + b[..j + 1]) == FenceStep(FenceFold(open, a + b[..j]), b[j])
  {
    var whole := a + b[..j + 1];
    assert whole[..|whole| - 1] == a + b[..j];
  }

  method FenceState(items: seq<Item>) returns (open: Option<string>)
    ensures open == OpenFence(items)
  {
    var inside, lang := false, "";
    for i := 0 to |items|
      invariant (if inside then Some(lang) else None) == OpenFence(items[..i])
    {
      Lists.FlatMapSnoc(NarrationLines, items, i);
      ghost var before := TextLines(items[..i]);
      if items[i].kind.Narration? {
        var lines := Split(items[i].text);
        assert before + lines[..0] == before;
        for j := 0 to |lines|
          invariant (if inside then Some(lang) else None) == FenceFold(None, before + lines[..j])
        {
          FenceFoldSnoc(None, before, lines, j);
          if IsFence(lines[j]) {
            inside := !inside;
            lang := if inside then Info(lines[j]) else "";
          }
        }
        assert lines[..|lines|] == lines;
      } else {
        assert before + [] == before;
      }
    }
    assert items[..|items|] == items;
    return if inside then Some(lang) else None;
  }

  function Fences(lines: seq<string>): nat {
    if lines == [] then 0
    else Fences(lines[..|lines| - 1]) + (if IsFence(lines[|lines| - 1]) then 1 else 0)
  }

  function Opener(open: Option<string>): seq<string> {
    match open
    case None => []
    case Some(lang) => [FENCE + lang]
  }

  function Closer(lines: seq<string>): seq<string> {
    if Fences(lines) % 2 == 1 then [FENCE] else []
  }

  function BalanceFences(lines: seq<string>, open: Option<string>): seq<string> {
    Opener(open) + lines + Closer(Opener(open) + lines)
  }

  // ------------------------------------------------------------------ rendering

  /** The lines of one message, before the length cut. */
  function Dress(lines: seq<string>, footer: string, open: Option<string>): seq<string> {
    if footer == "" then BalanceFences(lines, open) else BalanceFences(lines, open) + [footer]
  }

  function Compose(items: seq<Item>, footer: string, open: Option<string>): seq<string> {
    Dress(Lines(items), footer, open)
  }

  function Full(items: seq<Item>, footer: string, open: Option<string>): string {
    Join(Compose(items, footer, open))
  }

  function Cut(s: string): string {
    if |s| <= HARD_CAP then s else s[..HARD_CAP]
  }

  function Finish(lines: seq<string>, footer: string, open: Option<string>): string {
    Cut(Join(Dress(lines, footer, open)))
  }

  function RenderHead(items: seq<Item>, footer: string, open: Option<string>): string {
    Finish(Lines(items), footer, open)
  }

  /** The start of the longest suffix within the budget, or of the last item if not even it fits. */
  function KeptStart(items: seq<Item>, budget: int): (start: nat)
    ensures start == 0 || start < |items|
  {
    if |items| <= 1 || Total(items) <= budget then 0 else 1 + KeptStart(items[1..], budget)
  }

  function Budget(footer: string): int {
    BODY_CAP - FooterWidth(footer)
  }

  /** What render posts: the kept suffix, laid out as render_head would lay it out. */
  function Rendered(items: seq<Item>, footer: string, open: Option<string>): string {
    RenderHead(items[KeptStart(items, Budget(footer))..], footer, open)
  }

  lemma {:induction false} KeptStartIs(items: seq<Item>, budget: int, i: nat)
    requires i < |items|
    requires i == |items| - 1 || Total(items[i..]) <= budget
    requires i == 0 || Total(items[i - 1..]) > budget
    ensures KeptStart(items, budget) == i
  {
    if i > 0 {
      TotalSplit(items, i - 1);
      assert items[1..][i - 1..] == items[i..];
      if i > 1 {
        assert items[1..][i - 2..] == items[i - 1..];
      }
      KeptStartIs(items[1..], budget, i - 1);
    } else {
      assert items[0..] == items;
    }
  }

  /** The newest lines that fit the budget, or the newest one alone. */
  method KeepNewest(items: seq<Item>, budget: int) returns (kept: seq<string>)
    ensures kept == Lines(items[KeptStart(items, budget)..])
  {
    kept := [];
    var total := 0;
    var i := |items|;
    while i > 0
      invariant 0 <= i <= |items|
      invariant kept == Lines(items[i..]) && total == Total(items[i..])
      invariant i >= |items| - 1 || total <= budget
    {
      var line := Line(items[i - 1]);
      TailCons(items, i - 1);
      if kept != [] && total + |line| + 1 > budget {
        break;
      }
      kept := [line] + kept;
      total := total + |line| + 1;
      i := i - 1;
    }
    if items != [] {
      KeptStartIs(items, budget, i);
    }
  }

  method Render(items: seq<Item>, footer: string, open: Option<string>) returns (body: string)
    ensures body == Rendered(items, footer, open)
  {
    var kept := KeepNewest(items, BODY_CAP - (if footer != "" then |footer| + 1 else 0));
    body := Finish(kept, footer, open);
  }

  /** Which items render keeps: a suffix, never empty, within the budget unless it is a lone item,
      and no longer suffix is within the budget. */
  lemma {:induction false} KeptIsLongestSuffix(items: seq<Item>, budget: int)
    requires items != []
    ensures var s := KeptStart(items, budget);
            && s < |items|
            && (s == |items| - 1 || Total(items[s..]) <= budget)
            && (forall i | 0 <= i < s :: Total(items[i..]) > budget)
  {
    if |items| > 1 && Total(items) > budget {
      var rest := items[1..];
      KeptIsLongestSuffix(rest, budget);
      var s := KeptStart(rest, budget);
      assert items[s + 1..] == rest[s..];
      forall i | 0 <= i < s + 1
        ensures Total(items[i..]) > budget
      {
        if i > 0 {
          assert items[i..] == rest[i - 1..];
        } else {
          assert items[0..] == items;
        }
      }
    } else {
      assert items[0..] == items;
    }
  }

  /** For two or more items render drops nothing exactly when fits holds, and then its text is
      render_head's; a lone item is always kept. */
  lemma RenderDropsNothingIffFits(items: seq<Item>, footer: string, open: Option<string>)
    ensures |items| >= 2 ==> (KeptStart(items, Budget(footer)) == 0 <==> Fits(items, footer))
    ensures |items| <= 1 ==> KeptStart(items, Budget(footer)) == 0
    ensures Fits(items, footer) ==> Rendered(items, footer, open) == RenderHead(items, footer, open)
  {
    assert items[0..] == items;
  }

  // ------------------------------------------------------------------ the sealed prefix

  /** The most leading items that fit, counting down from n; at least 1. */
  function LargestFit(items: seq<Item>, footer: string, n: nat): (k: nat)
    requires n <= |items|
    ensures k >= 1 && (n >= 1 ==> k <= n)
  {
    if n <= 1 then 1
    else if Fits(items[..n], footer) then n
    else LargestFit(items, footer, n - 1)
  }

  function FittingHead(items: seq<Item>, footer: string): (k: nat)
    ensures k >= 1 && (items != [] ==> k <= |items|)
  {
    LargestFit(items, footer, |items|)
  }

  lemma {:induction false} LargestFitIs(items: seq<Item>, footer: string, n: nat, k: nat)
    requires 1 <= k <= n <= |items|
    requires k == 1 || Fits(items[..k], footer)
    requires k < n ==> !Fits(items[..k + 1], footer)
    ensures LargestFit(items, footer, n) == k
  {
    if n > k {
      TotalPart(items[..n], 0, k + 1);
      assert items[..n][0..k + 1] == items[..k + 1];
      LargestFitIs(items, footer, n - 1, k);
    }
  }

  method HeadFit(items: seq<Item>, footer: string) returns (k: nat)
    ensures k == FittingHead(items, footer)
  {
    var total := if footer != "" then |footer| + 1 else 0;
    var n := 0;
    while n < |items|
      invariant 0 <= n <= |items|
      invariant total == FooterWidth(footer) + Total(items[..n])
      invariant n <= 1 || Fits(items[..n], footer)
    {
      var width := |Line(items[n])| + 1;
      TotalSnoc(items, n);
      if n > 0 && total + width > BODY_CAP {
        break;
      }
      total := total + width;
      n := n + 1;
    }
    if items != [] {
      LargestFitIs(items, footer, |items|, n);
    }
    k := if n > 1 then n else 1;
  }

  /** The sealed prefix is the fullest one: it fits unless it is a lone item, and every prefix
      that fits is part of it. */
  lemma {:induction false} HeadIsFullest(items: seq<Item>, footer: string, n: nat)
    requires n <= |items|
    ensures var k := LargestFit(items, footer, n);
            && (k == 1 || Fits(items[..k], footer))
            && (forall j | 0 <= j <= n && Fits(items[..j], footer) :: j <= k)
  {
    if n > 1 && !Fits(items[..n], footer) {
      HeadIsFullest(items, footer, n - 1);
    }
  }
}
