/** Cutting a long answer into postable chunks. */
module Chunking {
  import Lists
  import opened Text

  const CHUNK := 1900

  datatype Acc = Acc(out: seq<string>, cur: string)

  /** One source line joins the current chunk, or flushes it and starts the next. */
  function Feed(a: Acc, line: string): Acc {
    var b := if |a.cur| + |line| + 1 > CHUNK && a.cur != "" then Acc(a.out + [a.cur], "") else a;
    b.(cur := b.cur + (if b.cur != "" then line + "\n" else line))
  }

  function FeedAll(lines: seq<string>): Acc {
    if lines == [] then Acc([], "") else Feed(FeedAll(lines[..|lines| - 1]), lines[|lines| - 1])
  }

  function Flushed(a: Acc): seq<string> {
    if a.cur != "" then a.out + [a.cur] else a.out
  }

  function ChunksOf(text: string): seq<string> {
    var out := Flushed(FeedAll(Split(text)));
    if out == [] then [text] else out
  }

  method Chunks(text: string) returns (parts: seq<string>)
    ensures parts == ChunksOf(text)
  {
    var out: seq<string>, cur := [], "";
    var lines := Split(text);
    for i := 0 to |lines|
      invariant Acc(out, cur) == FeedAll(lines[..i])
    {
      assert lines[..i + 1][..i] == lines[..i];
      if |cur| + |lines[i]| + 1 > CHUNK && cur != "" {
        out := out + [cur];
        cur := "";
      }
      cur := cur + (if cur != "" then lines[i] + "\n" else lines[i]);
    }
    assert lines[..|lines|] == lines;
    if cur != "" {
      out := out + [cur];
    }
    parts := if out != [] then out else [text];
  }

  // ------------------------------------------------------------------ nothing but line breaks is lost

  function Flat(parts: seq<string>): string {
    Lists.FlatMap((s: string) => s, parts)
  }

  lemma FlatSnoc(parts: seq<string>, s: string)
    ensures Flat(parts + [s]) == Flat(parts) + s
  {
    Lists.FlatMapConcat((s: string) => s, parts, [s]);
    Lists.FlatMapOne((s: string) => s, s);
  }

  lemma VisibleNewline(s: string)
    ensures Visible(s + "\n") == Visible(s)
  {
    VisibleConcat(s, "\n");
  }

  lemma FeedConserves(a: Acc, line: string)
    ensures var b := Feed(a, line);
            Visible(Flat(b.out) + b.cur) == Visible(Flat(a.out) + a.cur) + Visible(line)
  {
    FlatSnoc(a.out, a.cur);
    var whole := Flat(a.out) + a.cur;
    VisibleConcat(whole, line);
    if a.cur == "" {
      assert Feed(a, line).cur == line;
      assert Flat(a.out) + line == whole + line;
    } else if |a.cur| + |line| + 1 > CHUNK {
      assert Flat(a.out + [a.cur]) + ("" + line) == whole + line;
    } else {
      assert Flat(a.out) + (a.cur + (line + "\n")) == (whole + line) + "\n";
      VisibleNewline(whole + line);
    }
  }

  lemma {:induction false} FeedAllConserves(lines: seq<string>)
    ensures var a := FeedAll(lines);
            Visible(Flat(a.out) + a.cur) == Visible(Flat(lines))
  {
    if lines != [] {
      var n := |lines| - 1;
      FeedAllConserves(lines[..n]);
      FeedConserves(FeedAll(lines[..n]), lines[n]);
      assert lines == lines[..n] + [lines[n]];
      FlatSnoc(lines[..n], lines[n]);
      VisibleConcat(Flat(lines[..n]), lines[n]);
    }
  }

  lemma {:induction false} JoinShowsLines(lines: seq<string>)
    ensures Visible(Join(lines)) == Visible(Flat(lines))
  {
    if lines != [] {
      var n := |lines| - 1;
      assert lines == lines[..n] + [lines[n]];
      FlatSnoc(lines[..n], lines[n]);
      VisibleConcat(Flat(lines[..n]), lines[n]);
      if n > 0 {
        JoinShowsLines(lines[..n]);
        JoinConcat(lines[..n], [lines[n]]);
        VisibleConcat(Join(lines[..n]) + "\n", lines[n]);
        VisibleNewline(Join(lines[..n]));
      }
    }
  }

  /** The chunks hold every character of the text but newlines, in order. */
  lemma ChunksConserve(text: string)
    ensures Visible(Flat(ChunksOf(text))) == Visible(text)
  {
    var a := FeedAll(Split(text));
    FeedAllConserves(Split(text));
    JoinShowsLines(Split(text));
    JoinOfSplit(text);
    FlatSnoc(a.out, a.cur);
    FlatSnoc([], text);
    assert [] + [text] == [text];
    assert Flat([]) + text == text;
    if Flushed(a) != [] && a.cur == "" {
      assert Flat(a.out) + a.cur == Flat(a.out);
    }
  }

  // ------------------------------------------------------------------ chunk sizes

  predicate Sized(s: string, lines: seq<string>) {
    |s| <= CHUNK || s in lines
  }

  lemma {:induction false} FeedAllSized(lines: seq<string>)
    ensures var a := FeedAll(lines);
            (forall c | c in a.out :: Sized(c, lines)) && Sized(a.cur, lines)
  {
    if lines != [] {
      var n := |lines| - 1;
      FeedAllSized(lines[..n]);
      var a, b := FeedAll(lines[..n]), FeedAll(lines);
      assert lines[n] in lines && forall l | l in lines[..n] :: l in lines;
      forall c | c in b.out
        ensures Sized(c, lines)
      {
        assert c in a.out || c == a.cur;
      }
      if a.cur == "" || |a.cur| + |lines[n]| + 1 > CHUNK {
        assert b.cur == lines[n];
      }
    }
  }

  /** Every chunk is within the limit or is one source line - except that a text of nothing but
      newlines is posted as it stands. */
  lemma ChunksAreSized(text: string)
    ensures (forall c | c in ChunksOf(text) :: Sized(c, Split(text))) ||
            (ChunksOf(text) == [text] && Visible(text) == "")
  {
    FeedAllSized(Split(text));
    var a := FeedAll(Split(text));
    if Flushed(a) == [] {
      ChunksConserveNothing(text);
    }
  }

  lemma ChunksConserveNothing(text: string)
    requires Flushed(FeedAll(Split(text))) == []
    ensures Visible(text) == ""
  {
    FeedAllConserves(Split(text));
    JoinShowsLines(Split(text));
    JoinOfSplit(text);
  }

  // ------------------------------------------------------------------ line breaks

  lemma {:induction false} AfterFirstLine(lines: seq<string>)
    requires lines != [] && lines[0] != ""
    ensures var a := FeedAll(lines);
            && (a.out == [] ==> a.cur != "" && (|lines| > 1 ==> a.cur[|a.cur| - 1] == '\n'))
            && (|lines| == 1 ==> a == Acc([], lines[0]))
            && (lines[|lines| - 1] != "" ==> a.cur != "")
  {
    var n := |lines| - 1;
    if n == 0 {
      assert lines[..0] == [];
    } else {
      AfterFirstLine(lines[..n]);
    }
  }

  lemma {:induction false} SplitEnds(s: string)
    ensures var r := Split(s);
            && (s != "" && s[0] != '\n' ==> r[0] != "")
            && (s != "" && s[|s| - 1] != '\n' ==> r[|r| - 1] != "")
            && ('\n' in s ==> |r| > 1)
  {
    if s != "" {
      SplitEnds(s[1..]);
      PrependEnds(s[0], Split(s[1..]));
      assert s != [s[0]] ==> s[|s| - 1] == s[1..][|s| - 2];
    }
  }

  lemma PrependEnds(c: char, lines: seq<string>)
    requires lines != []
    ensures var r := Prepend(c, lines);
            && |r| == |lines| + (if c == '\n' then 1 else 0)
            && (c != '\n' ==> r[0] != "")
            && (lines[|lines| - 1] != "" ==> r[|r| - 1] != "")
  {
  }

  /** A stripped answer is posted unchanged, as one message, if and only if it is a single line:
      otherwise a line break moves or the answer is cut. */
  lemma PostedVerbatimIffOneLine(text: string)
    requires text != "" && Strip(text) == text
    ensures ChunksOf(text) == [text] <==> '\n' !in text
  {
    StripTrims(text);
    SplitEnds(text);
    if '\n' !in text {
      SplitLine(text);
      AfterFirstLine(Split(text));
    } else {
      ManyLinesMove(text, Split(text));
    }
  }

  lemma ManyLinesMove(text: string, lines: seq<string>)
    requires |lines| > 1 && lines[0] != "" && lines[|lines| - 1] != ""
    requires text != "" && text[|text| - 1] != '\n'
    ensures Flushed(FeedAll(lines)) != [text]
  {
    AfterFirstLine(lines);
    var a := FeedAll(lines);
    assert a.cur != "";
    if a.out != [] {
      assert |Flushed(a)| > 1;
    } else {
      assert Flushed(a) == [a.cur];
      assert a.cur[|a.cur| - 1] != text[|text| - 1];
    }
  }

  /** The first two lines of a chunk run together. */
  lemma FirstTwoLinesRunTogether()
    ensures ChunksOf("a\nb") == ["ab\n"]
  {
    SplitLine("b");
    SplitLine("a");
    SplitMeets("a", "b");
    assert "a" + "\n" + "b" == "a\nb";
    assert Split("a\nb") == ["a", "b"];
    assert ["a", "b"][..1] == ["a"] && ["a"][..0] == [];
    assert FeedAll([]) == Acc([], "");
    assert FeedAll(["a"]) == Acc([], "a");
    assert FeedAll(["a", "b"]) == Acc([], "ab\n");
  }
}
