/** `Array.prototype.sort()` with no comparator, on the keys of an
    accumulator: an insertion sort in JavaScript's default string order. */
module Sorting {
  import opened Strings

  ghost predicate Distinct(s: seq<string>)
  {
    forall i, j :: 0 <= i < j < |s| ==> s[i] != s[j]
  }

  /** No element sorts before an element that precedes it. */
  ghost predicate Ascending(s: seq<string>)
  {
    forall i, j :: 0 <= i < j < |s| ==> !Below(s[j], s[i])
  }

  ghost predicate StrictlyAscending(s: seq<string>)
  {
    forall i, j :: 0 <= i < j < |s| ==> Below(s[i], s[j])
  }

  function Insert(x: string, s: seq<string>): (r: seq<string>)
    ensures multiset(r) == multiset(s) + multiset{x}
  {
    if s == [] then [x]
    else if Below(s[0], x) then
      assert s == [s[0]] + s[1..];
      [s[0]] + Insert(x, s[1..])
    else [x] + s
  }

  lemma {:induction false} InsertAscending(x: string, s: seq<string>)
    requires Ascending(s)
    ensures Ascending(Insert(x, s))
  {
    if s == [] {
    } else if Below(s[0], x) {
      var t := Insert(x, s[1..]);
      InsertAscending(x, s[1..]);
      assert !Below(t[0], s[0]) by {
        if s[1..] != [] && Below(s[1], x) {
          assert t[0] == s[1];
        } else {
          assert t[0] == x;
          BelowAsymmetric(s[0], x);
        }
      }
      forall j | 0 < j < |t|
        ensures !Below(t[j], s[0])
      {
        NotBelowTransitive(s[0], t[0], t[j]);
      }
      assert Insert(x, s) == [s[0]] + t;
    } else {
      forall j | 0 < j < |s|
        ensures !Below(s[j], x)
      {
        NotBelowTransitive(x, s[0], s[j]);
      }
    }
  }

  lemma {:induction false} InsertDistinct(x: string, s: seq<string>)
    requires Distinct(s) && x !in s
    ensures Distinct(Insert(x, s))
  {
    if s != [] && Below(s[0], x) {
      var t := Insert(x, s[1..]);
      InsertDistinct(x, s[1..]);
      assert s[0] !in multiset(s[1..]) + multiset{x};
      assert s[0] !in t;
      assert Insert(x, s) == [s[0]] + t;
    }
  }

  /** The sorted keys: ascending, and a permutation of the input. */
  function Sort(s: seq<string>): (r: seq<string>)
    ensures Ascending(r)
    ensures multiset(r) == multiset(s)
  {
    if s == [] then []
    else
      var t := Sort(s[1..]);
      assert s == [s[0]] + s[1..];
      InsertAscending(s[0], t);
      Insert(s[0], t)
  }

  /** Sorting keys that are already distinct gives a strictly ascending
      sequence with the same elements. */
  lemma {:induction false} SortDistinct(s: seq<string>)
    requires Distinct(s)
    ensures Distinct(Sort(s)) && StrictlyAscending(Sort(s))
    ensures forall x :: x in Sort(s) <==> x in s
  {
    if s != [] {
      assert s == [s[0]] + s[1..];
      SortDistinct(s[1..]);
      InsertDistinct(s[0], Sort(s[1..]));
    }
    var r := Sort(s);
    forall x
      ensures x in r <==> x in s
    {
      assert x in r <==> x in multiset(r);
      assert x in s <==> x in multiset(s);
    }
    forall i, j | 0 <= i < j < |r|
      ensures Below(r[i], r[j])
    {
      BelowTotal(r[i], r[j]);
    }
  }
}
