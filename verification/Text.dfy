/** The string operations the bridge uses: strip, split on newlines, join with newlines.
    A string is a sequence of Unicode scalar values, so |s| is Python's len(s). */
module Text {
  import Lists

  /** Python's str.isspace for one character. */
  predicate IsSpace(c: char) {
    var n := c as int;
    9 <= n <= 13 || 28 <= n <= 32 || n == 133 || n == 160 || n == 5760 ||
    8192 <= n <= 8202 || n == 8232 || n == 8233 || n == 8239 || n == 8287 || n == 12288
  }

  /** Python's str.isdigit on ASCII. */
  predicate IsDigits(s: string) {
    s != "" && forall i | 0 <= i < |s| :: '0' <= s[i] <= '9'
  }

  function LStrip(s: string): string {
    if s != "" && IsSpace(s[0]) then LStrip(s[1..]) else s
  }

  function RStrip(s: string): string {
    if s != "" && IsSpace(s[|s| - 1]) then RStrip(s[..|s| - 1]) else s
  }

  function Strip(s: string): string {
    RStrip(LStrip(s))
  }

  /** A character in front of split lines: it begins the first one, or breaks it off. */
  function Prepend(c: char, lines: seq<string>): (r: seq<string>)
    requires lines != []
    ensures r != []
  {
    if c == '\n' then [""] + lines else [[c] + lines[0]] + lines[1..]
  }

  /** Python's s.split("\n"). */
  function Split(s: string): (r: seq<string>)
    ensures |r| >= 1
  {
    if s == "" then [""] else Prepend(s[0], Split(s[1..]))
  }

  /** Python's "\n".join(lines). */
  function Join(lines: seq<string>): string {
    if lines == [] then ""
    else if |lines| == 1 then lines[0]
    else lines[0] + "\n" + Join(lines[1..])
  }

  /** The characters of s without its newlines. */
  function Visible(s: string): string {
    if s == "" then ""
    else (if s[0] == '\n' then "" else [s[0]]) + Visible(s[1..])
  }

  predicate NewlineFree(lines: seq<string>) {
    forall i | 0 <= i < |lines| :: '\n' !in lines[i]
  }

  lemma {:induction false} VisibleConcat(a: string, b: string)
    ensures Visible(a + b) == Visible(a) + Visible(b)
  {
    if a == "" {
      assert a + b == b;
    } else {
      var c, rest := a + b, a[1..];
      VisibleConcat(rest, b);
      assert c[0] == a[0] && c[1..] == rest + b;
      Lists.Assoc(if a[0] == '\n' then "" else [a[0]], Visible(rest), Visible(b));
    }
  }

  // ------------------------------------------------------------------ strip

  lemma {:induction false} LStripSuffix(s: string)
    ensures |LStrip(s)| <= |s| && LStrip(s) == s[|s| - |LStrip(s)|..]
    ensures LStrip(s) != "" ==> !IsSpace(LStrip(s)[0])
  {
    if s != "" && IsSpace(s[0]) {
      LStripSuffix(s[1..]);
    }
  }

  lemma {:induction false} RStripPrefix(s: string)
    ensures |RStrip(s)| <= |s| && RStrip(s) == s[..|RStrip(s)|]
    ensures RStrip(s) != "" ==> !IsSpace(RStrip(s)[|RStrip(s)| - 1])
    ensures forall i | |RStrip(s)| <= i < |s| :: IsSpace(s[i])
  {
    if s != "" && IsSpace(s[|s| - 1]) {
      RStripPrefix(s[..|s| - 1]);
    }
  }

  /** A stripped string neither begins nor ends with white space, is part of the original,
      and so a second strip changes nothing. */
  lemma StripTrims(s: string)
    ensures Strip(s) != "" ==> !IsSpace(Strip(s)[0]) && !IsSpace(Strip(s)[|Strip(s)| - 1])
    ensures LStrip(Strip(s)) == Strip(s) == Strip(Strip(s))
    ensures |Strip(s)| <= |s|
    ensures '\n' !in s ==> '\n' !in Strip(s)
  {
    LStripSuffix(s);
    RStripPrefix(LStrip(s));
  }

  lemma {:induction false} LStripAppend(s: string, t: string)
    requires LStrip(s) != ""
    ensures LStrip(s + t) == LStrip(s) + t
  {
    if IsSpace(s[0]) {
      LStripAppend(s[1..], t);
      assert (s + t)[1..] == s[1..] + t;
    }
  }

  lemma {:induction false} RStripKeeps(s: string, n: nat)
    requires n <= |s| && (n == 0 || !IsSpace(s[n - 1]))
    ensures n <= |RStrip(s)|
  {
    if |s| > n && IsSpace(s[|s| - 1]) {
      RStripKeeps(s[..|s| - 1], n);
    }
  }

  /** Text that grows at its end grows at its end after stripping too. */
  lemma StripGrows(s: string, t: string)
    ensures Strip(s) <= Strip(s + t)
  {
    RStripPrefix(LStrip(s));
    if LStrip(s) != "" {
      LStripAppend(s, t);
      var grown := LStrip(s) + t;
      RStripPrefix(grown);
      RStripKeeps(grown, |Strip(s)|);
      assert Strip(s) == grown[..|Strip(s)|];
    }
  }

  // ------------------------------------------------------------------ split and join

  lemma {:induction false} JoinConcat(a: seq<string>, b: seq<string>)
    requires a != [] && b != []
    ensures Join(a + b) == Join(a) + "\n" + Join(b)
  {
    if |a| == 1 {
      assert (a + b)[1..] == b;
    } else {
      JoinConcat(a[1..], b);
      assert (a + b)[1..] == a[1..] + b;
    }
  }

  lemma {:induction false} SplitLine(s: string)
    requires '\n' !in s
    ensures Split(s) == [s]
  {
    if s != "" {
      SplitLine(s[1..]);
      assert [s[0]] + s[1..] == s;
    }
  }

  lemma PrependConcat(c: char, a: seq<string>, b: seq<string>)
    requires a != []
    ensures Prepend(c, a + b) == Prepend(c, a) + b
  {
  }

  lemma {:induction false} SplitMeets(s: string, t: string)
    ensures Split(s + "\n" + t) == Split(s) + Split(t)
  {
    var whole := s + "\n" + t;
    if s == "" {
      assert whole[0] == '\n' && whole[1..] == t;
    } else {
      SplitMeets(s[1..], t);
      assert whole[0] == s[0] && whole[1..] == s[1..] + "\n" + t;
      PrependConcat(s[0], Split(s[1..]), Split(t));
    }
  }

  lemma {:induction false} SplitYieldsLines(s: string)
    ensures NewlineFree(Split(s))
  {
    if s != "" {
      SplitYieldsLines(s[1..]);
    }
  }

  /** Every part split into its lines. */
  function SplitAll(parts: seq<string>): seq<string> {
    if parts == [] then [] else SplitAll(parts[..|parts| - 1]) + Split(parts[|parts| - 1])
  }

  lemma {:induction false} SplitAllConcat(a: seq<string>, b: seq<string>)
    ensures SplitAll(a + b) == SplitAll(a) + SplitAll(b)
  {
    if b == [] {
      assert a + b == a;
    } else {
      var n := |b| - 1;
      SplitAllConcat(a, b[..n]);
      assert (a + b)[..|a + b| - 1] == a + b[..n];
      Lists.Assoc(SplitAll(a), SplitAll(b[..n]), Split(b[n]));
    }
  }

  lemma SplitAllOne(s: string)
    ensures SplitAll([s]) == Split(s)
  {
    assert [s][..0] == [];
    assert SplitAll([s]) == SplitAll([s][..0]) + Split(s);
  }

  /** Joining parts and splitting again gives the lines of all parts. */
  lemma {:induction false} SplitOfJoin(parts: seq<string>)
    requires parts != []
    ensures Split(Join(parts)) == SplitAll(parts)
  {
    if |parts| == 1 {
      SplitAllOne(parts[0]);
      assert parts == [parts[0]];
    } else {
      SplitOfJoin(parts[1..]);
      SplitMeets(parts[0], Join(parts[1..]));
      SplitAllConcat([parts[0]], parts[1..]);
      SplitAllOne(parts[0]);
      assert parts == [parts[0]] + parts[1..];
    }
  }

  lemma {:induction false} SplitAllLines(lines: seq<string>)
    requires NewlineFree(lines)
    ensures SplitAll(lines) == lines
  {
    if lines != [] {
      var n := |lines| - 1;
      SplitAllLines(lines[..n]);
      SplitLine(lines[n]);
      assert lines == lines[..n] + [lines[n]];
    }
  }

  /** Splitting a text and joining the lines gives the text back. */
  lemma {:induction false} JoinOfSplit(s: string)
    ensures Join(Split(s)) == s
  {
    if s != "" {
      JoinOfSplit(s[1..]);
      var r := Split(s[1..]);
      if s[0] == '\n' {
        assert Split(s)[1..] == r;
      } else if |r| > 1 {
        assert Split(s)[1..] == r[1..];
      }
    }
  }

  /** When a text grows at its end, every line but its last one is final. */
  lemma {:induction false} SplitGrows(s: string, t: string)
    requires s <= t
    ensures |Split(s)| <= |Split(t)|
    ensures Split(s)[..|Split(s)| - 1] <= Split(t)
  {
    if s != "" {
      SplitGrows(s[1..], t[1..]);
      var a, b := Split(s[1..]), Split(t[1..]);
      assert s[0] == t[0] && (|a| > 1 ==> a[0] == a[..|a| - 1][0] == b[0]);
    }
  }
}
