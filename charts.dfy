/** The part of a chart summary the dashboard fills in from an accumulator:
    the `labels` and the first dataset's `data`. */
module Charts {
  import opened Strings
  import opened Sorting
  import opened Tallies

  datatype Chart = Chart(labels: seq<string>, data: seq<nat>)

  lemma ValuesCons(x: string, s: seq<string>, m: map<string, nat>)
    requires x in m && forall k :: k in s ==> k in m
    ensures Sum(Values([x] + s, m)) == m[x] + Sum(Values(s, m))
  {
    assert Values([x] + s, m) == [m[x]] + Values(s, m);
    SumCons(m[x], Values(s, m));
  }

  lemma InsertMembers(x: string, s: seq<string>, m: map<string, nat>)
    requires x in m && forall k :: k in s ==> k in m
    ensures forall k :: k in Insert(x, s) ==> k in m
  {
    forall k | k in Insert(x, s)
      ensures k in m
    {
      assert k in multiset(Insert(x, s));
    }
  }

  lemma {:induction false} InsertSum(x: string, s: seq<string>, m: map<string, nat>)
    requires x in m && forall k :: k in s ==> k in m
    ensures forall k :: k in Insert(x, s) ==> k in m
    ensures Sum(Values(Insert(x, s), m)) == m[x] + Sum(Values(s, m))
  {
    InsertMembers(x, s, m);
    if s != [] && Below(s[0], x) {
      var t := Insert(x, s[1..]);
      InsertSum(x, s[1..], m);
      assert Insert(x, s) == [s[0]] + t;
      ValuesCons(s[0], t, m);
      assert s == [s[0]] + s[1..];
      ValuesCons(s[0], s[1..], m);
    } else {
      assert Insert(x, s) == [x] + s;
      ValuesCons(x, s, m);
    }
  }

  lemma SortMembers(s: seq<string>, m: map<string, nat>)
    requires forall k :: k in s ==> k in m
    ensures forall k :: k in Sort(s) ==> k in m
  {
    forall k | k in Sort(s)
      ensures k in m
    {
      assert k in multiset(Sort(s));
    }
  }

  /** Sorting the labels does not change what their values add up to. */
  lemma {:induction false} SortSum(s: seq<string>, m: map<string, nat>)
    requires forall k :: k in s ==> k in m
    ensures forall k :: k in Sort(s) ==> k in m
    ensures Sum(Values(Sort(s), m)) == Sum(Values(s, m))
  {
    SortMembers(s, m);
    if s != [] {
      SortSum(s[1..], m);
      InsertSum(s[0], Sort(s[1..]), m);
      assert s == [s[0]] + s[1..];
      ValuesCons(s[0], s[1..], m);
    }
  }

  /** `labels = Object.keys(acc).sort(); data = labels.map(...)`: the labels
      are the accumulator's keys in strictly ascending order, each value is
      the total under its label, and the values keep the accumulator's sum. */
  function SortedChart(t: Tally): (c: Chart)
    requires Valid(t)
    ensures |c.data| == |c.labels|
    ensures forall i :: 0 <= i < |c.labels| ==> c.labels[i] in t.totals && c.data[i] == t.totals[c.labels[i]]
    ensures forall k :: k in c.labels <==> k in t.totals
    ensures StrictlyAscending(c.labels)
    ensures Sum(c.data) == Sum(Values(t.keys, t.totals))
  {
    var labels := Sort(t.keys);
    SortDistinct(t.keys);
    SortSum(t.keys, t.totals);
    Chart(labels, Values(labels, t.totals))
  }

  /** `labels = Object.keys(acc); data = labels.map(...)`: the labels in
      insertion order. */
  function InsertionChart(t: Tally): (c: Chart)
    requires Valid(t)
    ensures c.labels == t.keys
    ensures |c.data| == |c.labels|
    ensures forall i :: 0 <= i < |c.labels| ==> c.labels[i] in t.totals && c.data[i] == t.totals[c.labels[i]]
    ensures forall k :: k in c.labels <==> k in t.totals
    ensures Distinct(c.labels)
    ensures Sum(c.data) == Sum(Values(t.keys, t.totals))
  {
    Chart(t.keys, Values(t.keys, t.totals))
  }
}
