/** Moving a turn to a fresh message: what the step before left on the channel, and where the new one starts. */
module Rehoming {
  import Content
  import opened FenceMeaning
  import LayOut
  import opened Layout
  import opened Progress
  import opened Spilling
  import StrayFences
  import opened Text
  import opened Transcript
  import opened UnitStability
  import Widths
  import opened Wrappers

  // ------------------------------------------------------------------ where a re-home starts

  /** After a step that saved its tail, a later re-home over a transcript that has not shrunk starts its new
      message with the first unit that step did not lay out if and only if no narration was still streaming then;
      otherwise it starts earlier and repeats streamed lines. */
  lemma RehomeContinuesIffNotStreaming(s: Sys, ev: Event, later: Event, ok: Oracle)
    requires SavesTail(s, ev, ok) && !later.isDisplay && later.newer
    requires |TurnUnits(ev.turn)| <= |TurnUnits(later.turn)|
    ensures var t := Step(s, ev, ok);
            && StartMid(t, later) == None && StartBase(t, later) == |TurnUnits(ev.turn)|
            && (StartBase(t, later) == |Show(s, ev)| <==> NextLive(s, ev).1 == "")
  {
    var text := NextLive(s, ev).1;
    if text != "" {
      UnitsOfOne(Item(Narration, text));
    }
  }

  // ------------------------------------------------------------------ two renders that differ

  lemma {:induction false} OddIsWide(items: seq<Item>)
    requires Odd(Lines(items))
    ensures Total(items) >= 4
  {
    var n := |items| - 1;
    TotalSnoc(items, n);
    assert items[..n + 1] == items && Lines(items)[..n] == Lines(items[..n]);
    if Odd(Lines(items[..n])) {
      OddIsWide(items[..n]);
    } else {
      LStripSuffix(Line(items[n]));
    }
  }

  /** The message gets a closing fence. */
  predicate Closes(items: seq<Item>, open: Option<string>) {
    Odd(Opener(open) + Lines(items))
  }

  lemma FullWidth(items: seq<Item>, footer: string, open: Option<string>)
    requires items != []
    ensures |Full(items, footer, open)| + 1 ==
            |Widths.Front(open)| + FooterWidth(footer) + Total(items) + (if Closes(items, open) then 4 else 0)
  {
    Widths.MessageWidth(items, footer, open);
    OddIs(Opener(open) + Lines(items));
  }

  lemma DroppedCloses(a: seq<Item>, b: seq<Item>, open: Option<string>)
    ensures Closes(b, open) && !Closes(a + b, open) ==> Total(a) >= 4
  {
    assert Lines(a + b) == Lines(a) + Lines(b);
    OddConcat(Lines(a), Lines(b));
    OddConcat(Opener(open), Lines(a + b));
    OddConcat(Opener(open), Lines(b));
    if Odd(Lines(a)) {
      OddIsWide(a);
    }
  }

  /** A message gets no longer when its oldest items are dropped. */
  lemma DroppingShortens(a: seq<Item>, b: seq<Item>, footer: string, open: Option<string>)
    requires b != []
    ensures |Full(b, footer, open)| <= |Full(a + b, footer, open)|
  {
    FullWidth(b, footer, open);
    FullWidth(a + b, footer, open);
    TotalConcat(a, b);
    DroppedCloses(a, b, open);
  }

  lemma ShiftedIsConstant(x: string, s: seq<string>, y: string)
    requires [x] + s == s + [y]
    ensures x == y && forall l | l in s :: l == y
  {
    var n := |s|;
    assert (s + [y])[n] == y;
    for i := n downto 0
      invariant forall j | i <= j < n :: s[j] == y
      invariant ([x] + s)[i] == y
    {
      assert ([x] + s)[i + 1] == s[i];
      assert (s + [y])[i] == s[i];
    }
  }

  /** Lines with one in front, or with a bare fence behind, are the same only if all of them are bare fences. */
  lemma SameOnlyIfFences(x: seq<string>, s: seq<string>, c: seq<string>, d: seq<string>)
    requires x != [] && x + s + c == s + d
    requires (c == [] || c == [FENCE]) && (d == [] || d == [FENCE])
    ensures forall l | l in x + s :: l == FENCE
  {
    assert |x| + |c| == |d|;
    assert c == [] && d == [FENCE] && |x| == 1;
    assert x + s + c == x + s && x == [x[0]];
    ShiftedIsConstant(x[0], s, FENCE);
  }

  lemma CloserIs(lines: seq<string>)
    ensures Closer(lines) == [] || Closer(lines) == [FENCE]
  {
  }

  lemma Unwrap<T>(o: seq<T>, u: seq<T>, v: seq<T>, f: seq<T>)
    requires o + u + f == o + v + f
    ensures u == v
  {
    assert |u| == |v|;
    forall i | 0 <= i < |u|
      ensures u[i] == v[i]
    {
      assert (o + u + f)[|o| + i] == u[i] && (o + v + f)[|o| + i] == v[i];
    }
  }

  lemma SeenHasLines(items: seq<Item>)
    requires items != []
    ensures SeenLines(items) != []
  {
    var n := |items| - 1;
    assert Lines(items)[n] == Line(items[n]);
    assert SeenLines(items) == SplitAll(Lines(items)[..n]) + Split(Line(items[n]));
  }

  lemma PostedParts(items: seq<Item>, footer: string, open: Option<string>)
    requires items != [] && Trimmed(open) && IsFooter(footer)
    ensures Split(Full(items, footer, open)) ==
            Opener(open) + (SeenLines(items) + Closer(Opener(open) + Lines(items))) + FooterLines(footer)
  {
    PostedLines(items, footer, open);
    var o, u, c, f := Opener(open), SeenLines(items), Closer(Opener(open) + Lines(items)), FooterLines(footer);
    assert (o + u) + (c + f) == o + (u + c) + f;
  }

  lemma DroppedDiffers(a: seq<Item>, b: seq<Item>, footer: string, open: Option<string>)
    requires a != [] && b != [] && Trimmed(open) && IsFooter(footer)
    requires exists l | l in SeenLines(a + b) :: l != FENCE
    ensures Full(b, footer, open) != Full(a + b, footer, open)
  {
    if Full(b, footer, open) == Full(a + b, footer, open) {
      PostedParts(b, footer, open);
      PostedParts(a + b, footer, open);
      SeenLinesConcat(a, b);
      SeenHasLines(a);
      var c, d := Closer(Opener(open) + Lines(a + b)), Closer(Opener(open) + Lines(b));
      Unwrap(Opener(open), SeenLines(a) + SeenLines(b) + c, SeenLines(b) + d, FooterLines(footer));
      CloserIs(Opener(open) + Lines(a + b));
      CloserIs(Opener(open) + Lines(b));
      SameOnlyIfFences(SeenLines(a), SeenLines(b), c, d);
    }
  }

  /** The text that render posts is the whole tail's if and only if it dropped nothing and nothing is cut; texts
      of nothing but bare fence lines aside. */
  lemma RenderedIsWholeIff(items: seq<Item>, footer: string, open: Option<string>)
    requires items != [] && Trimmed(open) && IsFooter(footer)
    requires exists l | l in SeenLines(items) :: l != FENCE
    ensures Rendered(items, footer, open) == Full(items, footer, open) <==>
            (|items| == 1 || Fits(items, footer)) && |Full(items, footer, open)| <= HARD_CAP
  {
    RenderDropsNothingIffFits(items, footer, open);
    var k := KeptStart(items, Budget(footer));
    if k == 0 {
      assert items[0..] == items;
    } else {
      var a, b := items[..k], items[k..];
      assert items == a + b;
      DroppedDiffers(a, b, footer, open);
      DroppingShortens(a, b, footer, open);
    }
  }

  // ------------------------------------------------------------------ what is on the channel

  function Tail(s: Sys, ev: Event, ok: Oracle): seq<Item> {
    From(Show(s, ev), Sealed(s, ev, ok).base)
  }

  function TailOpen(s: Sys, ev: Event, ok: Oracle): Option<string> {
    OpenFence(LayOut.Upto(Show(s, ev), Sealed(s, ev, ok).base))
  }

  /** A step that saved its tail saved it as shown whether or not its call went through. The live message shows
      the whole tail if and only if the call went through, nothing was dropped and nothing cut - or it failed and
      the message showed just that before. */
  lemma LiveShowsTailIff(s: Sys, ev: Event, ok: Oracle)
    requires SavesTail(s, ev, ok)
    requires exists l | l in SeenLines(Tail(s, ev, ok)) :: l != FENCE
    ensures var t, r, tail := Step(s, ev, ok), Sealed(s, ev, ok), Tail(s, ev, ok);
            var whole := Full(tail, WORKING_FOOTER, TailOpen(s, ev, ok));
            && Stored(t).mid == Some(r.mid.GetOr(|r.sys.trace|)) && Stored(t).shown == |TurnUnits(ev.turn)|
            && (Shows(t.trace, Stored(t).mid.value) == Some(whole) <==>
                if ok(|r.sys.trace|) then (|tail| == 1 || Fits(tail, WORKING_FOOTER)) && |whole| <= HARD_CAP
                else Shows(r.sys.trace, Stored(t).mid.value) == Some(whole))
  {
    var r, tail, open := Sealed(s, ev, ok), Tail(s, ev, ok), TailOpen(s, ev, ok);
    OpenFenceIsTrimmed(LayOut.Upto(Show(s, ev), r.base));
    RenderedIsWholeIff(tail, WORKING_FOOTER, open);
    ShownAfter(r, Show(s, ev), |TurnUnits(ev.turn)|, ok);
  }

  lemma ShownAfter(r: Spilled, show: seq<Item>, shown: nat, ok: Oracle)
    requires r.base < |show|
    requires r.mid.Some? ==> r.sys.state.lastBody != Some(LiveBody(show, r.base))
    requires r.mid.None? ==> ok(|r.sys.trace|)
    ensures var t, m := ShowTail(r, show, shown, ok), r.mid.GetOr(|r.sys.trace|);
            && Stored(t).mid == Some(m) && Stored(t).shown == shown && Stored(t).base == r.base
            && Shows(t.trace, m) == if ok(|r.sys.trace|) then Some(LiveBody(show, r.base)) else Shows(r.sys.trace, m)
  {
    var m, body, n := r.mid.GetOr(|r.sys.trace|), LiveBody(show, r.base), |r.sys.trace|;
    var op := CallFor(r.mid, body, ok(n));
    if ok(n) {
      LayOut.OpShows(r.sys.trace, op, m, body);
    } else {
      assert (r.sys.trace + [op])[..n] == r.sys.trace;
    }
  }

  /** The units from the boundary up to n begin what the live message lays out in full. */
  ghost predicate LiveHolds(t: Sys, show: seq<Item>, n: nat) {
    var base := Stored(t).base;
    n <= base ||
    (Stored(t).mid.Some? && n <= |show| &&
     exists items: seq<Item> :: show[base..n] <= items &&
       Shows(t.trace, Stored(t).mid.value) == Some(Full(items, WORKING_FOOTER, OpenFence(show[..base]))))
  }

  /** A re-home loses no unit: when the step before it saved a tail that fits, and its call went through, every
      unit below the new start is in a frozen message or on the live one that is left behind. */
  lemma RehomeLosesNothing(s: Sys, ev: Event, later: Event, ok: Oracle)
    requires InOrder(s) && !Rehomes(s, ev) && Faithful(s.trace, s.frozen, Show(s, ev))
    requires SavesTail(s, ev, ok) && ok(|Sealed(s, ev, ok).sys.trace|)
    requires |Tail(s, ev, ok)| == 1 || Fits(Tail(s, ev, ok), WORKING_FOOTER)
    requires |Full(Tail(s, ev, ok), WORKING_FOOTER, TailOpen(s, ev, ok))| <= HARD_CAP
    requires !later.isDisplay && later.newer && |TurnUnits(ev.turn)| <= |TurnUnits(later.turn)|
    ensures var t := Step(s, ev, ok);
            && Tiles(t.frozen, Stored(t).base) && Faithful(t.trace, t.frozen, Show(s, ev))
            && LiveHolds(t, Show(s, ev), StartBase(t, later))
  {
    StepKeepsOrder(s, ev, ok);
    StepKeepsFaithful(s, ev, ok);
    RehomeContinuesIffNotStreaming(s, ev, later, ok);
    WholeTailHolds(s, ev, ok, |TurnUnits(ev.turn)|);
  }

  lemma StepKeepsFaithful(s: Sys, ev: Event, ok: Oracle)
    requires !Rehomes(s, ev) && !Finalized(s, ev.turn) && Faithful(s.trace, s.frozen, Show(s, ev))
    ensures Faithful(Step(s, ev, ok).trace, Step(s, ev, ok).frozen, Show(s, ev))
  {
    var show, r := Show(s, ev), Sealed(s, ev, ok);
    SpillKeepsFaithful(Loaded(s, ev), show, Stored(s).base, Stored(s).mid, WORKING_FOOTER, ok);
    Content.TailKeepsFaithful(r, show, |TurnUnits(ev.turn)|, ok, show);
    TailFacts(r, show, |TurnUnits(ev.turn)|, ok);
  }

  lemma WholeTailHolds(s: Sys, ev: Event, ok: Oracle, n: nat)
    requires SavesTail(s, ev, ok) && ok(|Sealed(s, ev, ok).sys.trace|) && n <= |Show(s, ev)|
    requires |Tail(s, ev, ok)| == 1 || Fits(Tail(s, ev, ok), WORKING_FOOTER)
    requires |Full(Tail(s, ev, ok), WORKING_FOOTER, TailOpen(s, ev, ok))| <= HARD_CAP
    ensures LiveHolds(Step(s, ev, ok), Show(s, ev), n)
  {
    var show, r, tail := Show(s, ev), Sealed(s, ev, ok), Tail(s, ev, ok);
    ShownAfter(r, show, |TurnUnits(ev.turn)|, ok);
    BodyIsWhole(tail, TailOpen(s, ev, ok));
    TailHolds(Step(s, ev, ok), show, n);
  }

  lemma TailHolds(t: Sys, show: seq<Item>, n: nat)
    requires Stored(t).mid.Some? && Stored(t).base <= |show| && n <= |show|
    requires var base := Stored(t).base;
             Shows(t.trace, Stored(t).mid.value) ==
             Some(Full(show[base..], WORKING_FOOTER, OpenFence(show[..base])))
    ensures LiveHolds(t, show, n)
  {
    var base := Stored(t).base;
    assert n > base ==> show[base..n] <= show[base..];
  }

  lemma BodyIsWhole(tail: seq<Item>, open: Option<string>)
    requires |tail| == 1 || Fits(tail, WORKING_FOOTER)
    requires |Full(tail, WORKING_FOOTER, open)| <= HARD_CAP
    ensures Rendered(tail, WORKING_FOOTER, open) == Full(tail, WORKING_FOOTER, open)
  {
    RenderDropsNothingIffFits(tail, WORKING_FOOTER, open);
    assert tail[0..] == tail;
  }

  // ------------------------------------------------------------------ the two ways to lose lines

  lemma FullBeginsWith(items: seq<Item>, text: string)
    requires items != [] && items[0] == Item(Narration, text) && text != ""
    ensures var full := Full(items, WORKING_FOOTER, None); full != "" && full[0] == text[0]
  {
    Widths.MessageShape(items, WORKING_FOOTER, None);
    assert Widths.Middle(items) == if |items| == 1 then text else text + "\n" + Join(Lines(items)[1..]);
  }

  lemma FullIsLong(items: seq<Item>)
    requires items != []
    ensures |Full(items, WORKING_FOOTER, None)| > 1
  {
    Widths.MessageWidth(items, WORKING_FOOTER, None);
  }

  /** A failed edit changes nothing on the channel, but the step saves all its units as shown. */
  lemma FailedEditLosesUnits(s: Sys, ev: Event, later: Event, ok: Oracle)
    requires SavesTail(s, ev, ok) && Sealed(s, ev, ok).mid.Some? && !ok(|Sealed(s, ev, ok).sys.trace|)
    requires !later.isDisplay && later.newer && |TurnUnits(ev.turn)| <= |TurnUnits(later.turn)|
    ensures var t, r := Step(s, ev, ok), Sealed(s, ev, ok);
            && StartMid(t, later) == None && StartBase(t, later) == |TurnUnits(ev.turn)|
            && Shows(t.trace, r.mid.value) == Shows(r.sys.trace, r.mid.value)
  {
    ShownAfter(Sealed(s, ev, ok), Show(s, ev), |TurnUnits(ev.turn)|, ok);
    RehomeContinuesIffNotStreaming(s, ev, later, ok);
  }

  /** Only "x" is on the channel. */
  predicate OnlyX(s: Sys) {
    s.store == Some(FRESH.(mid := Some(0), lastBody := Some("x"))) && s.trace == [Send("x", true)] && s.frozen == []
  }

  function OneCall(): Event {
    Event(false, None, None, 0, [StrayFences.CallRow("Read", StrayFences.FENCED_PATTERN)], false)
  }

  lemma XHoldsNoUnit(t: Sys, show: seq<Item>)
    requires show != [] && Stored(t).base == 0 && Stored(t).mid.Some?
    requires Shows(t.trace, Stored(t).mid.value) == Some("x")
    ensures !LiveHolds(t, show, 1)
  {
    assert show[..0] == [] && |show[0..1]| == 1;
    forall items: seq<Item> | show[0..1] <= items
      ensures Full(items, WORKING_FOOTER, None) != "x"
    {
      FullIsLong(items);
    }
  }

  /** A message that shows "x" and a turn of one tool call whose edit fails: the call is shown nowhere, and a
      re-home starts behind it. */
  lemma FailedEditExample(s: Sys, ok: Oracle, later: Event)
    requires OnlyX(s) && !ok(1) && !later.isDisplay && later.newer && |TurnUnits(later.turn)| >= 1
    ensures var t := Step(s, OneCall(), ok);
            StartMid(t, later) == None && StartBase(t, later) == 1 && !LiveHolds(t, Show(s, OneCall()), 1)
  {
    StrayFences.CallUnits("Read", StrayFences.FENCED_PATTERN);
    OneUnitStep(s, OneCall(), ok);
    FailedEditLosesUnits(s, OneCall(), later, ok);
    ShownAfter(Sealed(s, OneCall(), ok), Show(s, OneCall()), 1, ok);
    XIsShown(s);
    XHoldsNoUnit(Step(s, OneCall(), ok), Show(s, OneCall()));
  }

  lemma XIsShown(s: Sys)
    requires OnlyX(s)
    ensures Shows(s.trace, 0) == Some("x")
  {
  }

  /** One unit to show, and a live message that showed something else. */
  lemma OneUnitStep(s: Sys, ev: Event, ok: Oracle)
    requires s.store == Some(FRESH.(mid := Some(0), lastBody := Some("x"))) && !ev.isDisplay && !ev.newer
    requires |TurnUnits(ev.turn)| == 1 && TurnId(ev.turn) == None
    ensures Show(s, ev) == TurnUnits(ev.turn) && SavesTail(s, ev, ok)
    ensures Sealed(s, ev, ok) == Spilled(Loaded(s, ev), 0, Some(0))
  {
    var show := Show(s, ev);
    assert show == TurnUnits(ev.turn) && show[0..] == show;
    BodyIsLong(show);
  }

  lemma BodyIsLong(show: seq<Item>)
    requires |show| == 1
    ensures LiveBody(show, 0) != "x"
  {
    assert show[0..] == show && show[..0] == [];
    FullIsLong(show);
  }

  function TextRow(text: string): Row {
    Row(false, Assistant, [TextBlock(text)], None)
  }

  /** A line of a thousand times the same letter. */
  predicate Solid(line: string, c: char) {
    |line| == 1000 && 'a' <= c <= 'z' && forall i | 0 <= i < |line| :: line[i] == c
  }

  lemma SolidIsLine(line: string, c: char)
    requires Solid(line, c)
    ensures Strip(line) == line && '\n' !in line && Units([Item(Narration, line)]) == [Item(Narration, line)]
  {
    assert LStrip(line) == line && RStrip(line) == line;
    UnitsOfOne(Item(Narration, line));
    SplitLine(line);
  }

  lemma OneLineMore(turn: seq<Row>, line: string, c: char)
    requires Solid(line, c)
    ensures TurnUnits(turn + [TextRow(line)]) == TurnUnits(turn) + [Item(Narration, line)]
  {
    SolidIsLine(line, c);
    CommitKeepsLiveUnits(turn, TextRow(line), line);
  }

  lemma TwoLineTurn(x: string, y: string)
    requires Solid(x, 'x') && Solid(y, 'y')
    ensures TurnUnits([TextRow(x), TextRow(y)]) == [Item(Narration, x), Item(Narration, y)]
  {
    NoRowsNoUnits();
    OneLineMore([], x, 'x');
    OneLineMore([] + [TextRow(x)], y, 'y');
    assert [] + [TextRow(x)] + [TextRow(y)] == [TextRow(x), TextRow(y)];
  }

  lemma NoRowsNoUnits()
    ensures TurnUnits([]) == []
  {
  }

  function TwoLines(x: string, y: string): Event {
    Event(false, None, None, 0, [TextRow(x), TextRow(y)], false)
  }

  /** The first line is on display. */
  predicate ShowsFirst(s: Sys, x: string) {
    var body := LiveBody([Item(Narration, x)], 0);
    s.store == Some(FRESH.(shown := 1, mid := Some(0), lastBody := Some(body))) && s.trace == [Send(body, true)]
  }

  /** What render keeps of the two lines, and how it begins. */
  lemma KeepsSecond(x: string, y: string)
    requires Solid(x, 'x') && Solid(y, 'y')
    ensures var items := [Item(Narration, x), Item(Narration, y)];
            && !Fits(items, WORKING_FOOTER)
            && var body := Rendered(items, WORKING_FOOTER, None); body != "" && body[0] == 'y'
  {
    var items := [Item(Narration, x), Item(Narration, y)];
    LoneTotal(items, 0);
    LoneTotal(items, 1);
    assert items[0..1] == [items[0]] && items[1..2] == [items[1]] && items == [items[0]] + [items[1]];
    TotalConcat([items[0]], [items[1]]);
    KeptIsLongestSuffix(items, Budget(WORKING_FOOTER));
    assert items[0..] == items && items[1..] == [items[1]];
    FullBeginsWith([items[1]], y);
  }

  lemma FirstBodyBegins(x: string)
    requires Solid(x, 'x')
    ensures var body := LiveBody([Item(Narration, x)], 0); body != "" && body[0] == 'x'
  {
    var items := [Item(Narration, x)];
    assert items[0..] == items && items[..0] == [];
    FullBeginsWith(items, x);
  }

  /** The seal's edit fails, then the step's own edit goes through: the message shows the second line alone. */
  lemma SealFailsThenShows(s: Sys, x: string, y: string, ok: Oracle)
    requires Solid(x, 'x') && Solid(y, 'y') && ShowsFirst(s, x) && !ok(1) && ok(2)
    ensures var ev := TwoLines(x, y);
            var r := Sealed(s, ev, ok);
            && Show(s, ev) == [Item(Narration, x), Item(Narration, y)]
            && r.base == 0 && r.mid == Some(0) && |r.sys.trace| == 2 && SavesTail(s, ev, ok)
  {
    var ev := TwoLines(x, y);
    TwoLineTurn(x, y);
    KeepsSecond(x, y);
    FirstBodyBegins(x);
    var show := Show(s, ev);
    assert show[0..] == show && show[..0] == [];
    var op := SealFailedFacts(Loaded(s, ev), show, 0, Some(0), ok);
  }

  lemma YHoldsNoX(t: Sys, show: seq<Item>, x: string, text: string)
    requires Solid(x, 'x') && |show| == 2 && show[0] == Item(Narration, x)
    requires Stored(t).base == 0 && Stored(t).mid.Some?
    requires Shows(t.trace, Stored(t).mid.value) == Some(text) && text != "" && text[0] == 'y'
    ensures !LiveHolds(t, show, 2)
  {
    assert show[..0] == [] && show[0..2] == show;
    forall items: seq<Item> | show[0..2] <= items
      ensures Full(items, WORKING_FOOTER, None) != text
    {
      FullBeginsWith(items, x);
    }
  }

  /** Two lines that do not fit one message, the first on display: when the edit that would freeze it fails and
      the next edit does not, the first line is on no message, and a re-home starts behind both. */
  lemma FailedSealExample(s: Sys, x: string, y: string, ok: Oracle, later: Event)
    requires Solid(x, 'x') && Solid(y, 'y') && ShowsFirst(s, x) && !ok(1) && ok(2)
    requires !later.isDisplay && later.newer && |TurnUnits(later.turn)| >= 2
    ensures var ev := TwoLines(x, y);
            var t := Step(s, ev, ok);
            StartMid(t, later) == None && StartBase(t, later) == 2 && !LiveHolds(t, Show(s, ev), 2)
  {
    var ev := TwoLines(x, y);
    SealFailsThenShows(s, x, y, ok);
    TwoLineTurn(x, y);
    var r, show := Sealed(s, ev, ok), Show(s, ev);
    ShownAfter(r, show, 2, ok);
    RehomeContinuesIffNotStreaming(s, ev, later, ok);
    assert show[0..] == show && show[..0] == [];
    KeepsSecond(x, y);
    YHoldsNoX(Step(s, ev, ok), show, x, LiveBody(show, 0));
  }
}
