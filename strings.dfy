/** String helpers the dashboard relies on: JavaScript's default string
    comparison (the order `Array.prototype.sort` uses when it is given no
    comparator) and the first piece of `String.prototype.split`. */
module Strings {

  /** `a < b` on JavaScript strings: `a` is a proper prefix of `b`, or at the
      first position where they differ `a` has the smaller character. */
  predicate Below(a: string, b: string): (r: bool)
    ensures a < b ==> r
    ensures b <= a ==> !r
    decreases |a|
  {
    if |a| == 0 then |b| > 0
    else |b| > 0 && (a[0] < b[0] || (a[0] == b[0] && Below(a[1..], b[1..])))
  }

  /** Past a common prefix, the first differing character decides. */
  lemma {:induction false} BelowAtDifference(a: string, b: string, i: nat)
    requires i < |a| && i < |b| && a[..i] == b[..i] && a[i] != b[i]
    ensures Below(a, b) <==> a[i] < b[i]
    decreases i
  {
    if i > 0 {
      assert a[0] == a[..i][0] == b[..i][0] == b[0];
      assert a[1..][..i - 1] == a[..i][1..] == b[..i][1..] == b[1..][..i - 1];
      BelowAtDifference(a[1..], b[1..], i - 1);
    }
  }

  lemma {:induction false} BelowTransitive(a: string, b: string, c: string)
    requires Below(a, b) && Below(b, c)
    ensures Below(a, c)
    decreases |a|
  {
    if |a| > 0 && a[0] == b[0] && b[0] == c[0] {
      BelowTransitive(a[1..], b[1..], c[1..]);
    }
  }

  lemma {:induction false} BelowTotal(a: string, b: string)
    ensures a == b || Below(a, b) || Below(b, a)
    decreases |a|
  {
    if |a| > 0 && |b| > 0 && a[0] == b[0] {
      BelowTotal(a[1..], b[1..]);
      if a[1..] == b[1..] {
        assert a == [a[0]] + a[1..] && b == [b[0]] + b[1..];
      }
    }
  }

  /** A corollary of transitivity and of `Below`'s own contract, which rules
      out `Below(a, a)`. */
  lemma BelowAsymmetric(a: string, b: string)
    requires Below(a, b)
    ensures !Below(b, a)
  {
    if Below(b, a) {
      BelowTransitive(a, b, a);
    }
  }

  /** "Not after" is transitive too: if `b` is not before `a` and `c` is not
      before `b`, then `c` is not before `a`. */
  lemma NotBelowTransitive(a: string, b: string, c: string)
    requires !Below(b, a) && !Below(c, b)
    ensures !Below(c, a)
  {
    BelowTotal(a, b);
    if Below(c, a) && Below(a, b) {
      BelowTransitive(c, a, b);
    }
  }

  /** `s.split(sep)[0]`: everything before the first `sep`, or all of `s`
      when it has none. */
  function UpToFirst(s: string, sep: char): (r: string)
    ensures r <= s
    ensures sep !in r
    ensures |r| < |s| ==> s[|r|] == sep
  {
    if |s| == 0 || s[0] == sep then [] else [s[0]] + UpToFirst(s[1..], sep)
  }
}
