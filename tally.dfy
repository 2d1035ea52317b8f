/** The accumulator object `acc` that each reducer of the dashboard threads
    through `events.reduce`: a dictionary from keys to running totals whose
    keys come out of `Object.keys` in insertion order. */
module Tallies {
  import opened Sorting

  /** What one event adds to the accumulator: `amount` more under `key`. */
  datatype Entry = Entry(key: string, amount: nat)

  /** `keys` is the insertion order of the dictionary, `totals` its contents. */
  datatype Tally = Tally(keys: seq<string>, totals: map<string, nat>)

  /** Every key is listed once, and exactly the keys of the dictionary are. */
  ghost predicate Valid(t: Tally)
  {
    && Distinct(t.keys)
    && forall k :: k in t.totals <==> k in t.keys
  }

  /** `acc[key] = (acc[key] || 0) + amount`: a new key goes to the end of the
      insertion order, an existing one keeps its place. */
  function Bump(t: Tally, e: Entry): (r: Tally)
    requires Valid(t)
    ensures Valid(r)
  {
    if e.key in t.totals then Tally(t.keys, t.totals[e.key := t.totals[e.key] + e.amount])
    else Tally(t.keys + [e.key], t.totals[e.key := e.amount])
  }

  /** The accumulator after folding `es` from the left over `{}`. */
  function Build(es: seq<Entry>): (t: Tally)
    ensures Valid(t)
  {
    if es == [] then Tally([], map[]) else Bump(Build(es[..|es| - 1]), es[|es| - 1])
  }

  lemma BuildSnoc(es: seq<Entry>, e: Entry)
    ensures Build(es + [e]) == Bump(Build(es), e)
  {
    assert (es + [e])[..|es|] == es;
  }

  function KeysOf(es: seq<Entry>): seq<string>
  {
    seq(|es|, i requires 0 <= i < |es| => es[i].key)
  }

  /** Sum of the amounts that `es` adds under `k`. */
  function AmountFor(es: seq<Entry>, k: string): nat
  {
    if es == [] then 0
    else AmountFor(es[..|es| - 1], k) + (if es[|es| - 1].key == k then es[|es| - 1].amount else 0)
  }

  /** Sum of all amounts in `es`. */
  function Total(es: seq<Entry>): nat
  {
    if es == [] then 0 else Total(es[..|es| - 1]) + es[|es| - 1].amount
  }

  function Sum(s: seq<nat>): nat
  {
    if s == [] then 0 else Sum(s[..|s| - 1]) + s[|s| - 1]
  }

  /** `labels.map((label) => acc[label])`. */
  function Values(ks: seq<string>, m: map<string, nat>): (r: seq<nat>)
    requires forall k :: k in ks ==> k in m
    ensures |r| == |ks|
    ensures forall i :: 0 <= i < |ks| ==> r[i] == m[ks[i]]
  {
    seq(|ks|, i requires 0 <= i < |ks| => m[ks[i]])
  }

  /** `labels` lists keys in the order in which each first occurs in
      `stream`: whenever `labels[j]` occurs in `stream`, every earlier label
      has already occurred before that point. */
  ghost predicate FirstSeenOrder(labels: seq<string>, stream: seq<string>)
  {
    forall i, j, p :: 0 <= i < j < |labels| && 0 <= p < |stream| && stream[p] == labels[j] ==>
      exists q :: 0 <= q < p && stream[q] == labels[i]
  }

  lemma KeysOfSnoc(es: seq<Entry>, e: Entry)
    ensures KeysOf(es + [e]) == KeysOf(es) + [e.key]
  {
  }

  lemma SumSnoc(s: seq<nat>, x: nat)
    ensures Sum(s + [x]) == Sum(s) + x
  {
    assert (s + [x])[..|s|] == s;
  }

  lemma {:induction false} SumCons(x: nat, s: seq<nat>)
    ensures Sum([x] + s) == x + Sum(s)
    decreases |s|
  {
    if s != [] {
      var p := s[..|s| - 1];
      SumCons(x, p);
      assert ([x] + s)[..|s|] == [x] + p;
    }
  }

  /** The key set of the accumulator is the set of keys that occur in `es`,
      and the total under each key is what `es` adds under it. */
  lemma {:induction false} BuildTotals(es: seq<Entry>, k: string)
    ensures k in Build(es).totals <==> k in KeysOf(es)
    ensures k in Build(es).totals ==> Build(es).totals[k] == AmountFor(es, k)
    ensures k !in Build(es).totals ==> AmountFor(es, k) == 0
    decreases |es|
  {
    if es != [] {
      var p, e := es[..|es| - 1], es[|es| - 1];
      assert es == p + [e];
      BuildTotals(p, k);
      KeysOfSnoc(p, e);
    }
  }

  lemma {:induction false} ValuesUnaffected(ks: seq<string>, m: map<string, nat>, k: string, v: nat)
    requires forall x :: x in ks ==> x in m
    requires k !in ks
    ensures Values(ks, m[k := v]) == Values(ks, m)
  {
  }

  /** Splitting off the last label splits the sum of the values. */
  lemma ValuesSnoc(q: seq<string>, x: string, m: map<string, nat>)
    requires forall k :: k in q + [x] ==> k in m
    ensures Sum(Values(q + [x], m)) == Sum(Values(q, m)) + m[x]
  {
    assert Values(q + [x], m) == Values(q, m) + [m[x]];
    SumSnoc(Values(q, m), m[x]);
  }

  /** Adding `a` under a key that the label list holds once adds `a` to the
      sum of the values. */
  lemma {:induction false} SumUpdate(ks: seq<string>, m: map<string, nat>, k: string, a: nat)
    requires forall x :: x in ks ==> x in m
    requires Distinct(ks) && k in ks
    ensures Sum(Values(ks, m[k := m[k] + a])) == Sum(Values(ks, m)) + a
    decreases |ks|
  {
    var q, x := ks[..|ks| - 1], ks[|ks| - 1];
    assert ks == q + [x];
    if x == k {
      SumUpdateLast(q, m, k, a);
    } else {
      SumUpdate(q, m, k, a);
      ValuesSnoc(q, x, m);
      ValuesSnoc(q, x, m[k := m[k] + a]);
    }
  }

  /** The updated key is the last label, so the earlier values are untouched. */
  lemma SumUpdateLast(q: seq<string>, m: map<string, nat>, k: string, a: nat)
    requires forall x :: x in q + [k] ==> x in m
    requires k !in q
    ensures Sum(Values(q + [k], m[k := m[k] + a])) == Sum(Values(q + [k], m)) + a
  {
    ValuesUnaffected(q, m, k, m[k] + a);
    ValuesSnoc(q, k, m);
    ValuesSnoc(q, k, m[k := m[k] + a]);
  }

  /** One step of the fold adds its amount to the sum of the values. */
  lemma SumAfterBump(t: Tally, e: Entry)
    requires Valid(t)
    ensures Sum(Values(Bump(t, e).keys, Bump(t, e).totals)) == Sum(Values(t.keys, t.totals)) + e.amount
  {
    if e.key in t.totals {
      SumUpdate(t.keys, t.totals, e.key, e.amount);
    } else {
      ValuesUnaffected(t.keys, t.totals, e.key, e.amount);
      ValuesSnoc(t.keys, e.key, t.totals[e.key := e.amount]);
    }
  }

  /** The values of the accumulator add up to the total of all amounts. */
  lemma {:induction false} BuildSum(es: seq<Entry>)
    ensures Sum(Values(Build(es).keys, Build(es).totals)) == Total(es)
    decreases |es|
  {
    if es != [] {
      var p, e := es[..|es| - 1], es[|es| - 1];
      BuildSum(p);
      SumAfterBump(Build(p), e);
    }
  }

  lemma FirstSeenAt(labels: seq<string>, stream: seq<string>, i: nat, j: nat, n: nat)
    requires FirstSeenOrder(labels, stream)
    requires i < j < |labels| && n < |stream| && stream[n] == labels[j]
    ensures exists q :: 0 <= q < n && stream[q] == labels[i]
  {
    var earlier := labels[i];
  }

  /** A key that has occurred before may occur again. */
  lemma FirstSeenRepeat(labels: seq<string>, stream: seq<string>, x: string)
    requires FirstSeenOrder(labels, stream) && x in stream
    ensures FirstSeenOrder(labels, stream + [x])
  {
    var stream' := stream + [x];
    forall i, j, n | 0 <= i < j < |labels| && 0 <= n < |stream'| && stream'[n] == labels[j]
      ensures exists q :: 0 <= q < n && stream'[q] == labels[i]
    {
      var n0 := n;
      if n == |stream| {
        n0 :| 0 <= n0 < |stream| && stream[n0] == x;
      }
      FirstSeenAt(labels, stream, i, j, n0);
      var q :| 0 <= q < n0 && stream[q] == labels[i];
      assert stream'[q] == labels[i];
    }
  }

  /** A key occurring for the first time goes after every label so far. */
  lemma FirstSeenNew(labels: seq<string>, stream: seq<string>, x: string)
    requires FirstSeenOrder(labels, stream) && x !in stream
    requires forall k :: k in labels ==> k in stream
    ensures FirstSeenOrder(labels + [x], stream + [x])
  {
    var labels', stream' := labels + [x], stream + [x];
    forall i, j, n | 0 <= i < j < |labels'| && 0 <= n < |stream'| && stream'[n] == labels'[j]
      ensures exists q :: 0 <= q < n && stream'[q] == labels'[i]
    {
      if j < |labels| {
        assert labels[j] in stream;
        assert n < |stream|;
        FirstSeenAt(labels, stream, i, j, n);
        var q :| 0 <= q < n && stream[q] == labels[i];
        assert stream'[q] == labels'[i];
      } else {
        assert n == |stream|;
        assert labels[i] in stream;
        var q :| 0 <= q < |stream| && stream[q] == labels[i];
        assert stream'[q] == labels'[i];
      }
    }
  }

  /** The insertion order of the accumulator is the order in which keys
      first occur in `es`. */
  lemma {:induction false} BuildFirstSeen(es: seq<Entry>)
    ensures FirstSeenOrder(Build(es).keys, KeysOf(es))
    decreases |es|
  {
    if es != [] {
      var p, e := es[..|es| - 1], es[|es| - 1];
      var t := Build(p);
      assert es == p + [e];
      KeysOfSnoc(p, e);
      BuildFirstSeen(p);
      BuildTotals(p, e.key);
      if e.key in t.totals {
        FirstSeenRepeat(t.keys, KeysOf(p), e.key);
      } else {
        forall k | k in t.keys
          ensures k in KeysOf(p)
        {
          BuildTotals(p, k);
        }
        FirstSeenNew(t.keys, KeysOf(p), e.key);
      }
    }
  }

  /** When every amount is 1, the total under a key counts its occurrences. */
  lemma {:induction false} UnitAmounts(es: seq<Entry>, k: string)
    requires forall i :: 0 <= i < |es| ==> es[i].amount == 1
    ensures AmountFor(es, k) == multiset(KeysOf(es))[k]
    decreases |es|
  {
    if es != [] {
      var p, e := es[..|es| - 1], es[|es| - 1];
      assert es == p + [e];
      KeysOfSnoc(p, e);
      UnitAmounts(p, k);
    }
  }
}
