/** Stripping a text from which a piece is missing. */
module Blanks {
  import opened Text

  predicate Blank(s: string) {
    forall i | 0 <= i < |s| :: IsSpace(s[i])
  }

  lemma {:induction false} BlankLStrips(s: string)
    ensures Blank(s) <==> LStrip(s) == ""
  {
    if s != "" {
      BlankLStrips(s[1..]);
      assert forall i | 0 < i < |s| :: s[i] == s[1..][i - 1];
    }
  }

  lemma {:induction false} BlankRStrips(s: string)
    ensures Blank(s) <==> RStrip(s) == ""
  {
    if s != "" {
      BlankRStrips(s[..|s| - 1]);
    }
  }

  lemma {:induction false} LStripBlankFront(x: string, z: string)
    requires Blank(x)
    ensures LStrip(x + z) == LStrip(z)
  {
    if x == "" {
      assert x + z == z;
    } else {
      LStripBlankFront(x[1..], z);
      assert (x + z)[1..] == x[1..] + z;
    }
  }

  lemma {:induction false} RStripBlankBack(z: string, y: string)
    requires Blank(y)
    ensures RStrip(z + y) == RStrip(z)
  {
    if y == "" {
      assert z + y == z;
    } else {
      var n := |y| - 1;
      RStripBlankBack(z, y[..n]);
      assert (z + y)[..|z + y| - 1] == z + y[..n];
    }
  }

  lemma {:induction false} RStripPrepend(x: string, y: string)
    requires RStrip(y) != ""
    ensures RStrip(x + y) == x + RStrip(y)
  {
    var n := |y| - 1;
    if IsSpace(y[n]) {
      RStripPrepend(x, y[..n]);
      assert (x + y)[..|x + y| - 1] == x + y[..n];
    }
  }

  lemma StripBlankFront(x: string, z: string)
    requires Blank(x)
    ensures Strip(x + z) == Strip(z)
  {
    LStripBlankFront(x, z);
  }

  lemma StripBlankBack(z: string, y: string)
    requires Blank(y)
    ensures Strip(z + y) == Strip(z)
  {
    BlankLStrips(z);
    if Blank(z) {
      StripBlankFront(z, y);
      BlankLStrips(y);
    } else {
      LStripAppend(z, y);
      RStripBlankBack(LStrip(z), y);
    }
  }

  /** The outer white space of a text is that of its two ends. */
  lemma StripEnds(x: string, y: string)
    requires !Blank(x) && !Blank(y)
    ensures Strip(x + y) == LStrip(x) + RStrip(y)
  {
    BlankLStrips(x);
    BlankRStrips(y);
    LStripAppend(x, y);
    RStripPrepend(LStrip(x), y);
  }

  lemma StripIsNoLonger(s: string)
    ensures |Strip(s)| <= |LStrip(s)| && |Strip(s)| <= |RStrip(s)|
  {
    RStripPrefix(LStrip(s));
    LStripSuffix(s);
    BlankLStrips(s);
    if !Blank(s) {
      var lead := s[..|s| - |LStrip(s)|];
      assert s == lead + LStrip(s);
      BlankRStrips(LStrip(s));
      StripTrims(s);
      LStripSuffix(s);
      assert !Blank(LStrip(s));
      RStripPrepend(lead, LStrip(s));
    }
  }

  /** A piece can be missing without a trace. */
  predicate Harmless(x: string, d: string, y: string) {
    d == "" || (Blank(d) && (Blank(x) || Blank(y)))
  }

  lemma LossAfterBlank(x: string, d: string, y: string)
    requires Blank(x)
    ensures |Strip(x + y)| <= |Strip(x + (d + y))|
    ensures |Strip(x + y)| == |Strip(x + (d + y))| <==> Blank(d)
    ensures Blank(d) ==> Strip(x + y) == Strip(x + (d + y))
  {
    StripBlankFront(x, y);
    StripBlankFront(x, d + y);
    BlankLStrips(d);
    if Blank(d) {
      StripBlankFront(d, y);
    } else if Blank(y) {
      StripBlankBack(d, y);
      StripBlankBack("", y);
      assert "" + y == y;
      NotBlankStrips(d);
    } else {
      StripEnds(d, y);
      StripIsNoLonger(y);
    }
  }

  lemma NotBlankStrips(s: string)
    requires !Blank(s)
    ensures Strip(s) != "" && RStrip(s) != ""
  {
    BlankLStrips(s);
    LStripSuffix(s);
    BlankRStrips(LStrip(s));
    BlankRStrips(s);
  }

  lemma LossBeforeBlank(x: string, d: string, y: string)
    requires !Blank(x) && Blank(y)
    ensures |Strip(x + y)| <= |Strip(x + (d + y))|
    ensures |Strip(x + y)| == |Strip(x + (d + y))| <==> Blank(d)
    ensures Blank(d) ==> Strip(x + y) == Strip(x + (d + y))
  {
    StripBlankBack(x, y);
    assert x + (d + y) == (x + d) + y;
    StripBlankBack(x + d, y);
    if Blank(d) {
      StripBlankBack(x, d);
    } else {
      StripEnds(x, d);
      NotBlankStrips(d);
      StripIsNoLonger(x);
    }
  }

  lemma LossInside(x: string, d: string, y: string)
    requires !Blank(x) && !Blank(y)
    ensures |Strip(x + (d + y))| == |Strip(x + y)| + |d|
  {
    StripEnds(x, y);
    assert x + (d + y) == (x + d) + y;
    assert !Blank(x + d) by {
      var i :| 0 <= i < |x| && !IsSpace(x[i]);
      assert (x + d)[i] == x[i];
    }
    StripEnds(x + d, y);
    BlankLStrips(x);
    LStripAppend(x, d);
  }

  /** A missing piece makes the stripped text shorter, or leaves it as it is: the latter if and only if it was
      white space at an end. */
  lemma Loss(x: string, d: string, y: string)
    ensures |Strip(x + y)| <= |Strip(x + (d + y))|
    ensures |Strip(x + y)| == |Strip(x + (d + y))| <==> Harmless(x, d, y)
    ensures Harmless(x, d, y) ==> Strip(x + y) == Strip(x + (d + y))
  {
    if d == "" {
      assert d + y == y;
    } else if Blank(x) {
      LossAfterBlank(x, d, y);
    } else if Blank(y) {
      LossBeforeBlank(x, d, y);
    } else {
      LossInside(x, d, y);
    }
  }

  // ------------------------------------------------------------------ many pieces

  function Whole(deltas: seq<string>): string {
    if deltas == [] then "" else deltas[0] + Whole(deltas[1..])
  }

  function Kept(deltas: seq<string>, stored: seq<bool>): string
    requires |deltas| == |stored|
  {
    if deltas == [] then "" else (if stored[0] then deltas[0] else "") + Kept(deltas[1..], stored[1..])
  }

  /** No lost delta matters: each is empty, or white space with nothing but white space kept before it or
      nothing but white space to come. */
  predicate LossesHarmless(before: string, deltas: seq<string>, stored: seq<bool>)
    requires |deltas| == |stored|
    decreases |deltas|
  {
    deltas == [] ||
    (if stored[0] then LossesHarmless(before + deltas[0], deltas[1..], stored[1..])
     else Harmless(before, deltas[0], Whole(deltas[1..])) && LossesHarmless(before, deltas[1..], stored[1..]))
  }

  lemma {:induction false} KeptIsWholeIff(before: string, deltas: seq<string>, stored: seq<bool>)
    requires |deltas| == |stored|
    ensures |Strip(before + Kept(deltas, stored))| <= |Strip(before + Whole(deltas))|
    ensures LossesHarmless(before, deltas, stored) <==>
            |Strip(before + Kept(deltas, stored))| == |Strip(before + Whole(deltas))|
    ensures LossesHarmless(before, deltas, stored) ==>
            Strip(before + Kept(deltas, stored)) == Strip(before + Whole(deltas))
    decreases |deltas|
  {
    if deltas != [] {
      var d, rest, flags := deltas[0], deltas[1..], stored[1..];
      if stored[0] {
        KeptIsWholeIff(before + d, rest, flags);
        assert (before + d) + Kept(rest, flags) == before + (d + Kept(rest, flags));
        assert (before + d) + Whole(rest) == before + (d + Whole(rest));
      } else {
        KeptIsWholeIff(before, rest, flags);
        assert "" + Kept(rest, flags) == Kept(rest, flags);
        Loss(before, d, Whole(rest));
      }
    }
  }

  // ------------------------------------------------------------------ many pieces have no fewer lines

  lemma {:induction false} LinesAdd(a: string, b: string)
    ensures |Split(a + b)| + 1 == |Split(a)| + |Split(b)|
  {
    if a == "" {
      assert a + b == b;
    } else {
      LinesAdd(a[1..], b);
      assert (a + b)[1..] == a[1..] + b;
    }
  }

  lemma PartHasNoMoreLines(a: string, b: string, c: string)
    ensures |Split(b)| <= |Split(a + b + c)|
  {
    LinesAdd(a, b);
    LinesAdd(a + b, c);
  }

  lemma StripHasNoMoreLines(s: string)
    ensures |Split(Strip(s))| <= |Split(LStrip(s))| && |Split(Strip(s))| <= |Split(RStrip(s))|
  {
    RStripPrefix(LStrip(s));
    var n := |Strip(s)|;
    assert LStrip(s) == "" + Strip(s) + LStrip(s)[n..];
    PartHasNoMoreLines("", Strip(s), LStrip(s)[n..]);
    if Blank(s) {
      BlankLStrips(s);
    } else {
      var lead := RStripIsLed(s);
      assert RStrip(s) == lead + Strip(s) + "";
      PartHasNoMoreLines(lead, Strip(s), "");
    }
  }

  lemma RStripIsLed(s: string) returns (lead: string)
    requires !Blank(s)
    ensures RStrip(s) == lead + Strip(s)
  {
    LStripSuffix(s);
    lead := s[..|s| - |LStrip(s)|];
    assert s == lead + LStrip(s);
    NotBlankStrips(s);
    RStripPrepend(lead, LStrip(s));
  }

  lemma LossAddsNoLine(x: string, d: string, y: string)
    ensures |Split(Strip(x + y))| <= |Split(Strip(x + (d + y)))|
  {
    Loss(x, d, y);
    if !Harmless(x, d, y) {
      if Blank(x) {
        StripBlankFront(x, y);
        StripBlankFront(x, d + y);
        ToTheRightAddsNoLine(d, y);
      } else if Blank(y) {
        StripBlankBack(x, y);
        assert x + (d + y) == (x + d) + y;
        StripBlankBack(x + d, y);
        ToTheLeftAddsNoLine(x, d);
      } else {
        InsideAddsNoLine(x, d, y);
      }
    }
  }

  lemma ToTheRightAddsNoLine(d: string, y: string)
    requires !Blank(d)
    ensures |Split(Strip(y))| <= |Split(Strip(d + y))|
  {
    if Blank(y) {
      StripBlankBack("", y);
      assert "" + y == y;
    } else {
      StripEnds(d, y);
      LinesAdd(LStrip(d), RStrip(y));
      StripHasNoMoreLines(y);
    }
  }

  lemma ToTheLeftAddsNoLine(x: string, d: string)
    requires !Blank(x) && !Blank(d)
    ensures |Split(Strip(x))| <= |Split(Strip(x + d))|
  {
    StripEnds(x, d);
    LinesAdd(LStrip(x), RStrip(d));
    StripHasNoMoreLines(x);
  }

  lemma InsideAddsNoLine(x: string, d: string, y: string)
    requires !Blank(x) && !Blank(y)
    ensures |Split(Strip(x + y))| <= |Split(Strip(x + (d + y)))|
  {
    StripEnds(x, y);
    var i :| 0 <= i < |x| && !IsSpace(x[i]);
    assert (x + d)[i] == x[i];
    assert x + (d + y) == (x + d) + y;
    StripEnds(x + d, y);
    BlankLStrips(x);
    LStripAppend(x, d);
    LinesAdd(LStrip(x), RStrip(y));
    LinesAdd(LStrip(x) + d, RStrip(y));
    LinesAdd(LStrip(x), d);
  }

  /** What is kept has, stripped, no more lines than the whole. */
  lemma {:induction false} KeptHasNoMoreLines(before: string, deltas: seq<string>, stored: seq<bool>)
    requires |deltas| == |stored|
    ensures |Split(Strip(before + Kept(deltas, stored)))| <= |Split(Strip(before + Whole(deltas)))|
    decreases |deltas|
  {
    if deltas != [] {
      var d, rest, flags := deltas[0], deltas[1..], stored[1..];
      if stored[0] {
        KeptHasNoMoreLines(before + d, rest, flags);
        assert (before + d) + Kept(rest, flags) == before + (d + Kept(rest, flags));
        assert (before + d) + Whole(rest) == before + (d + Whole(rest));
      } else {
        KeptHasNoMoreLines(before, rest, flags);
        assert "" + Kept(rest, flags) == Kept(rest, flags);
        LossAddsNoLine(before, d, Whole(rest));
      }
    }
  }
}
