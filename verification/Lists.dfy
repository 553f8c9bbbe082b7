/** A list built by appending what each element contributes. */
module Lists {

  function FlatMap<A, B>(f: A -> seq<B>, xs: seq<A>): seq<B> {
    if xs == [] then [] else FlatMap(f, xs[..|xs| - 1]) + f(xs[|xs| - 1])
  }

  lemma FlatMapOne<A, B>(f: A -> seq<B>, x: A)
    ensures FlatMap(f, [x]) == f(x)
  {
    assert [x][..0] == [];
    assert FlatMap(f, [x]) == FlatMap(f, [x][..0]) + f(x);
  }

  lemma FlatMapSnoc<A, B>(f: A -> seq<B>, xs: seq<A>, i: nat)
    requires i < |xs|
    ensures FlatMap(f, xs[..i + 1]) == FlatMap(f, xs[..i]) + f(xs[i])
  {
    assert xs[..i + 1][..i] == xs[..i];
  }

  lemma {:induction false} FlatMapConcat<A, B>(f: A -> seq<B>, a: seq<A>, b: seq<A>)
    ensures FlatMap(f, a + b) == FlatMap(f, a) + FlatMap(f, b)
  {
    if b == [] {
      assert a + b == a;
    } else {
      var n := |b| - 1;
      FlatMapConcat(f, a, b[..n]);
      assert (a + b)[..|a + b| - 1] == a + b[..n];
      var x, y, z := FlatMap(f, a), FlatMap(f, b[..n]), f(b[n]);
      assert x + (y + z) == (x + y) + z;
    }
  }

  lemma FlatMapSplit<A, B>(f: A -> seq<B>, xs: seq<A>, i: nat)
    requires i <= |xs|
    ensures FlatMap(f, xs) == FlatMap(f, xs[..i]) + FlatMap(f, xs[i..])
  {
    var front, back := xs[..i], xs[i..];
    assert front + back == xs;
    FlatMapConcat(f, front, back);
  }

  lemma SamePrefixSameSlice<T>(s: seq<T>, t: seq<T>, n: nat, lo: nat, hi: nat)
    requires lo <= hi <= n <= |s| && n <= |t| && s[..n] == t[..n]
    ensures s[lo..hi] == t[lo..hi] && s[..lo] == t[..lo]
  {
    assert forall i | 0 <= i < n :: s[i] == s[..n][i] == t[i];
  }

  lemma SameSuffixSameSlice<T>(s: seq<T>, t: seq<T>, n: nat, lo: nat, hi: nat)
    requires n <= lo <= hi <= |s| == |t| && s[n..] == t[n..]
    ensures s[lo..hi] == t[lo..hi] && s[lo..] == t[lo..]
  {
    assert forall i | n <= i < |s| :: s[i] == s[n..][i - n] == t[i];
  }

  lemma Assoc<T>(a: seq<T>, b: seq<T>, c: seq<T>)
    ensures (a + b) + c == a + (b + c)
  {
  }

  /** The elements that satisfy f, in order. */
  function Filter<A(!new)>(f: A -> bool, xs: seq<A>): (r: seq<A>)
    ensures forall x :: x in r <==> x in xs && f(x)
  {
    if xs == [] then []
    else Filter(f, xs[..|xs| - 1]) + (if f(xs[|xs| - 1]) then [xs[|xs| - 1]] else [])
  }
}
