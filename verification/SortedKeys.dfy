/** The order in which the controllers go through the keys of a map: sorted, so that the order in which
    the map itself yields them does not matter. */
module SortedKeys {
  /** Lexicographic order of strings. */
  predicate Less(a: string, b: string) {
    b != "" && (a == "" || a[0] < b[0] || (a[0] == b[0] && Less(a[1..], b[1..])))
  }

  lemma {:induction false} LessIsStrict(a: string)
    ensures !Less(a, a)
  {
    if a != "" {
      LessIsStrict(a[1..]);
    }
  }

  lemma {:induction false} LessIsTransitive(a: string, b: string, c: string)
    requires Less(a, b) && Less(b, c)
    ensures Less(a, c)
  {
    if a != "" && a[0] == b[0] && b[0] == c[0] {
      LessIsTransitive(a[1..], b[1..], c[1..]);
    }
  }

  lemma {:induction false} LessIsTotal(a: string, b: string)
    ensures a == b || Less(a, b) || Less(b, a)
  {
    if a != "" && b != "" && a[0] == b[0] {
      LessIsTotal(a[1..], b[1..]);
      assert a == [a[0]] + a[1..] && b == [b[0]] + b[1..];
    }
  }

  /** What is longer comes later. */
  lemma {:induction false} ShorterIsLess(p: string, c: char, x: string)
    ensures Less(p, p + [c] + x) && !Less(p + [c] + x, p)
  {
    if p != "" {
      ShorterIsLess(p[1..], c, x);
      assert (p + [c] + x)[1..] == p[1..] + [c] + x;
    }
  }

  /** And otherwise the first character that differs decides. */
  lemma {:induction false} FirstDifferenceDecides(p: string, c: char, x: string, d: char, y: string)
    requires c < d
    ensures Less(p + [c] + x, p + [d] + y) && !Less(p + [d] + y, p + [c] + x)
  {
    if p != "" {
      FirstDifferenceDecides(p[1..], c, x, d, y);
      assert (p + [c] + x)[1..] == p[1..] + [c] + x && (p + [d] + y)[1..] == p[1..] + [d] + y;
    }
  }

  /** Two strings agree up to `n`, and there the first one ends or has the smaller character. */
  predicate Precedes(a: string, b: string, n: nat) {
    n <= |a| && n < |b| && a[..n] == b[..n] && (n < |a| ==> a[n] < b[n])
  }

  /** There are no other cases. */
  lemma {:induction false} LessIsLexicographic(a: string, b: string)
    ensures Less(a, b) <==> exists n :: Precedes(a, b, n)
  {
    if Less(a, b) {
      if a == "" || a[0] < b[0] {
        assert Precedes(a, b, 0);
      } else {
        LessIsLexicographic(a[1..], b[1..]);
        var n: nat :| Precedes(a[1..], b[1..], n);
        assert a[..n + 1] == [a[0]] + a[1..][..n] && b[..n + 1] == [b[0]] + b[1..][..n];
        assert Precedes(a, b, n + 1);
      }
    }
    if n: nat :| Precedes(a, b, n) {
      assert b == b[..n] + [b[n]] + b[n + 1..];
      if n == |a| {
        assert a == a[..n];
        ShorterIsLess(a, b[n], b[n + 1..]);
      } else {
        assert a == a[..n] + [a[n]] + a[n + 1..];
        FirstDifferenceDecides(a[..n], a[n], a[n + 1..], b[n], b[n + 1..]);
      }
    }
  }

  /** No string is greater than one further on. */
  predicate Sorted(ks: seq<string>) {
    forall i, j :: 0 <= i < j < |ks| ==> !Less(ks[j], ks[i])
  }

  predicate StrictlySorted(ks: seq<string>) {
    forall i, j :: 0 <= i < j < |ks| ==> Less(ks[i], ks[j])
  }

  /** `ks` is the strictly sorted list of the keys in `s`. */
  ghost predicate Lists(ks: seq<string>, s: set<string>) {
    StrictlySorted(ks) && forall k :: k in ks <==> k in s
  }

  lemma HeadIsLeast(ks: seq<string>, s: set<string>, k: string)
    requires Lists(ks, s) && k in s
    ensures ks != [] && ks[0] in s && (k == ks[0] || Less(ks[0], k))
  {
    assert k in ks;
    assert ks[0] in ks;
  }

  lemma TailLists(ks: seq<string>, s: set<string>)
    requires Lists(ks, s) && ks != []
    ensures Lists(ks[1..], s - {ks[0]})
  {
    LessIsStrict(ks[0]);
    forall k ensures k in ks[1..] <==> k in s - {ks[0]} {
      assert k in ks <==> k == ks[0] || k in ks[1..];
    }
  }

  lemma HeadIsListed(ks: seq<string>, s: set<string>)
    requires Lists(ks, s)
    ensures ks == [] || ks[0] in s
  {
  }

  /** A set of keys has only one strictly sorted list. */
  lemma {:induction false} ListIsUnique(ks: seq<string>, ls: seq<string>, s: set<string>)
    requires Lists(ks, s) && Lists(ls, s)
    ensures ks == ls
  {
    if s == {} {
      HeadIsListed(ks, s);
      HeadIsListed(ls, s);
    } else {
      var k :| k in s;
      HeadIsLeast(ks, s, k);
      HeadIsLeast(ls, s, k);
      HeadIsLeast(ks, s, ls[0]);
      HeadIsLeast(ls, s, ks[0]);
      if ks[0] != ls[0] {
        LessIsTransitive(ks[0], ls[0], ks[0]);
        LessIsStrict(ks[0]);
      }
      TailLists(ks, s);
      TailLists(ls, s);
      ListIsUnique(ks[1..], ls[1..], s - {ks[0]});
    }
  }

  predicate Distinct<T(==)>(xs: seq<T>) {
    forall i, j :: 0 <= i < j < |xs| ==> xs[i] != xs[j]
  }

  lemma SortedDistinctLists(ks: seq<string>, s: set<string>)
    requires Sorted(ks) && Distinct(ks) && forall k :: k in ks <==> k in s
    ensures Lists(ks, s)
  {
    forall i, j | 0 <= i < j < |ks| ensures Less(ks[i], ks[j]) {
      LessIsTotal(ks[i], ks[j]);
    }
  }

  lemma StrictIsDistinct(ks: seq<string>)
    requires StrictlySorted(ks)
    ensures Distinct(ks) && Sorted(ks)
  {
    forall i, j | 0 <= i < j < |ks| ensures ks[i] != ks[j] && !Less(ks[j], ks[i]) {
      LessIsStrict(ks[i]);
      if Less(ks[j], ks[i]) {
        LessIsTransitive(ks[i], ks[j], ks[i]);
      }
    }
  }

  /** One key put into its place. */
  method Insert(ks: seq<string>, k: string) returns (r: seq<string>)
    requires Sorted(ks)
    ensures Sorted(r) && multiset(r) == multiset(ks) + multiset{k}
  {
    var i := |ks|;
    while i > 0 && Less(k, ks[i - 1])
      invariant 0 <= i <= |ks|
      invariant forall j :: i <= j < |ks| ==> Less(k, ks[j])
    {
      i := i - 1;
    }
    r := ks[..i] + [k] + ks[i..];
    assert ks == ks[..i] + ks[i..];
    forall a, b | 0 <= a < b < |r| ensures !Less(r[b], r[a]) {
      InsertedInOrder(ks, k, i, a, b);
    }
  }

  lemma InsertedInOrder(ks: seq<string>, k: string, i: nat, a: nat, b: nat)
    requires Sorted(ks) && i <= |ks| && a < b <= |ks|
    requires i > 0 ==> !Less(k, ks[i - 1])
    requires forall j :: i <= j < |ks| ==> Less(k, ks[j])
    ensures var r := ks[..i] + [k] + ks[i..]; !Less(r[b], r[a])
  {
    if b == i {
      if Less(k, ks[a]) {
        if a < i - 1 {
          LessIsTotal(ks[a], ks[i - 1]);
          if Less(ks[a], ks[i - 1]) {
            LessIsTransitive(k, ks[a], ks[i - 1]);
          }
        }
      }
    } else if a == i {
      if Less(ks[b - 1], k) {
        LessIsTransitive(k, ks[b - 1], k);
        LessIsStrict(k);
      }
    }
  }

  method Sort(keys: seq<string>) returns (sorted: seq<string>)
    ensures Sorted(sorted) && multiset(sorted) == multiset(keys)
  {
    sorted := [];
    for i := 0 to |keys|
      invariant Sorted(sorted) && multiset(sorted) == multiset(keys[..i])
    {
      assert keys[..i + 1] == keys[..i] + [keys[i]];
      sorted := Insert(sorted, keys[i]);
    }
    assert keys[..|keys|] == keys;
  }

  lemma SameElements<T>(xs: seq<T>, ys: seq<T>)
    requires multiset(xs) == multiset(ys)
    ensures |xs| == |ys| && forall x :: x in xs <==> x in ys
  {
    assert |multiset(xs)| == |xs| && |multiset(ys)| == |ys|;
    forall x ensures x in xs <==> x in ys {
      assert x in xs <==> x in multiset(xs);
      assert x in ys <==> x in multiset(ys);
    }
  }

  lemma {:induction false} DistinctIsOnce<T>(xs: seq<T>)
    requires Distinct(xs)
    ensures forall x :: multiset(xs)[x] <= 1
  {
    if xs != [] {
      var n := |xs| - 1;
      assert xs == xs[..n] + [xs[n]];
      DistinctIsOnce(xs[..n]);
      assert xs[n] !in multiset(xs[..n]);
    }
  }

  lemma OnceIsDistinct<T>(xs: seq<T>)
    requires forall x :: multiset(xs)[x] <= 1
    ensures Distinct(xs)
  {
    forall i, j | 0 <= i < j < |xs| ensures xs[i] != xs[j] {
      assert xs == xs[..j] + xs[j..];
      assert xs[i] in multiset(xs[..j]);
      assert xs[j] == xs[j..][0];
      assert xs[j] in multiset(xs[j..]);
      assert multiset(xs)[xs[j]] == multiset(xs[..j])[xs[j]] + multiset(xs[j..])[xs[j]];
    }
  }

  /** Sorted(maps.Keys(m)): the keys are taken from the map in any order and then sorted. */
  method KeysInOrder(s: set<string>) returns (keys: seq<string>)
    ensures Lists(keys, s) && keys == Listing(s)
  {
    var rest := s;
    var taken: seq<string> := [];
    while rest != {}
      invariant rest <= s && Distinct(taken)
      invariant forall k :: k in taken <==> k in s - rest
      decreases rest
    {
      var k :| k in rest;
      assert k !in taken;
      taken, rest := taken + [k], rest - {k};
    }
    keys := Sort(taken);
    SameElements(keys, taken);
    DistinctIsOnce(taken);
    OnceIsDistinct(keys);
    SortedDistinctLists(keys, s);
    ListIsUnique(keys, Listing(s), s);
  }

  predicate Least(k: string, s: set<string>) {
    k in s && forall j <- s :: j == k || Less(k, j)
  }

  lemma {:induction false} LeastExists(s: set<string>)
    requires s != {}
    ensures exists k :: Least(k, s)
  {
    var k :| k in s;
    if s == {k} {
      assert Least(k, s);
    } else {
      LeastExists(s - {k});
      var l :| Least(l, s - {k});
      LessIsTotal(k, l);
      if Less(k, l) {
        forall j | j in s && j != k ensures Less(k, j) {
          if j != l { LessIsTransitive(k, l, j); }
        }
        assert Least(k, s);
      } else {
        assert Least(l, s);
      }
    }
  }

  lemma ConcatLists(ks: seq<string>, s: set<string>, ls: seq<string>, t: set<string>)
    requires Lists(ks, s) && Lists(ls, t) && forall k <- s, l <- t :: Less(k, l)
    ensures Lists(ks + ls, s + t)
  {
    forall i, j | 0 <= i < j < |ks + ls| ensures Less((ks + ls)[i], (ks + ls)[j]) {
      if i < |ks| <= j {
        assert ks[i] in ks && ls[j - |ks|] in ls;
      }
    }
  }

  /** The listing of one key, and of keys that are smaller than all others. */
  lemma ListingOfOne(k: string)
    ensures Listing({k}) == [k]
  {
    ListIsUnique(Listing({k}), [k], {k});
  }

  lemma ListingOfTwoParts(s: set<string>, t: set<string>)
    requires forall k <- s, l <- t :: Less(k, l)
    ensures Listing(s + t) == Listing(s) + Listing(t)
  {
    ConcatLists(Listing(s), s, Listing(t), t);
    ListIsUnique(Listing(s + t), Listing(s) + Listing(t), s + t);
  }

  /** The strictly sorted list of a set of keys. */
  ghost function Listing(s: set<string>): (ks: seq<string>)
    ensures Lists(ks, s)
  {
    if s == {} then [] else
      LeastExists(s);
      var k :| Least(k, s);
      [k] + Listing(s - {k})
  }
}
