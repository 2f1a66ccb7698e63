/**
 * The order JavaScript's `Array.prototype.sort` uses on strings when it is given no
 * comparator: character by character, a proper prefix first. Sorting is modelled by
 * insertion, and any two sorted arrangements of the same strings are shown equal, so
 * the model fixes the result the built-in sort produces.
 */
module StringOrder {

  /** `a` sorts at or before `b`. */
  predicate Le(a: string, b: string) {
    |a| == 0 || (|b| > 0 && (a[0] < b[0] || (a[0] == b[0] && Le(a[1..], b[1..]))))
  }

  lemma {:induction false} LeTotal(a: string, b: string)
    ensures Le(a, b) || Le(b, a)
  {
    if |a| > 0 && |b| > 0 && a[0] == b[0] {
      LeTotal(a[1..], b[1..]);
    }
  }

  lemma {:induction false} LeAntisymmetric(a: string, b: string)
    requires Le(a, b) && Le(b, a)
    ensures a == b
  {
    if |a| > 0 && |b| > 0 {
      LeAntisymmetric(a[1..], b[1..]);
      assert a == [a[0]] + a[1..] && b == [b[0]] + b[1..];
    }
  }

  lemma {:induction false} LeTransitive(a: string, b: string, c: string)
    requires Le(a, b) && Le(b, c)
    ensures Le(a, c)
  {
    if |a| > 0 && |b| > 0 && |c| > 0 && a[0] == b[0] && b[0] == c[0] {
      LeTransitive(a[1..], b[1..], c[1..]);
    }
  }

  /** Every string before every later one. */
  predicate Sorted(s: seq<string>) {
    forall i, j :: 0 <= i < j < |s| ==> Le(s[i], s[j])
  }

  /** `x` placed before the first element it sorts at or before. */
  function Insert(x: string, s: seq<string>): (r: seq<string>)
    requires Sorted(s)
    ensures Sorted(r)
    ensures multiset(r) == multiset(s) + multiset{x}
  {
    if s == [] then [x]
    else if Le(x, s[0]) then
      assert forall j :: 0 <= j < |s| ==> Le(x, s[j]) by {
        forall j | 0 <= j < |s| ensures Le(x, s[j]) {
          if j > 0 { LeTransitive(x, s[0], s[j]); }
        }
      }
      [x] + s
    else
      var rest := Insert(x, s[1..]);
      LeTotal(x, s[0]);
      HeadBelowAll(s[0], s[1..], x, rest);
      assert s == [s[0]] + s[1..];
      [s[0]] + rest
  }

  /** A string at or before every string of `t` and `x` is at or before every string of a rearrangement of them. */
  lemma HeadBelowAll(h: string, t: seq<string>, x: string, rest: seq<string>)
    requires forall j :: 0 <= j < |t| ==> Le(h, t[j])
    requires Le(h, x)
    requires multiset(rest) == multiset(t) + multiset{x}
    ensures forall j :: 0 <= j < |rest| ==> Le(h, rest[j])
  {
    forall j | 0 <= j < |rest| ensures Le(h, rest[j]) {
      assert rest[j] in multiset(rest);
      if rest[j] != x {
        assert rest[j] in multiset(t);
        var k :| 0 <= k < |t| && t[k] == rest[j];
      }
    }
  }

  /** The strings in ascending order. */
  function Sort(s: seq<string>): (r: seq<string>)
    ensures Sorted(r)
    ensures multiset(r) == multiset(s)
  {
    if s == [] then []
    else
      assert s == [s[0]] + s[1..];
      Insert(s[0], Sort(s[1..]))
  }

  /** The first string of a sorted sequence sorts at or before every string in it. */
  lemma SortedHeadLeast(s: seq<string>, x: string)
    requires Sorted(s) && x in multiset(s)
    ensures Le(s[0], x)
  {
    var i :| 0 <= i < |s| && s[i] == x;
    if i == 0 { LeTotal(x, x); }
  }

  lemma TailMultiset(s: seq<string>)
    requires s != []
    ensures multiset(s[1..]) == multiset(s) - multiset{s[0]}
  {
    assert s == [s[0]] + s[1..];
  }

  /** Two sorted arrangements of the same strings are the same sequence. */
  lemma {:induction false} SortedUnique(a: seq<string>, b: seq<string>)
    requires Sorted(a) && Sorted(b) && multiset(a) == multiset(b)
    ensures a == b
  {
    assert |a| == |multiset(a)| == |multiset(b)| == |b|;
    if a != [] {
      assert a[0] in multiset(a) && b[0] in multiset(b);
      SortedHeadLeast(a, b[0]);
      SortedHeadLeast(b, a[0]);
      LeAntisymmetric(a[0], b[0]);
      TailMultiset(a);
      TailMultiset(b);
      SortedUnique(a[1..], b[1..]);
      assert a == [a[0]] + a[1..] && b == [b[0]] + b[1..];
    }
  }
}
