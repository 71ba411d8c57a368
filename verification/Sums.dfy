/** Sums over the values of a map, in whatever order they are visited. */
module Sums {

  ghost function SumValues<K>(m: map<K, real>): real {
    if m == map[] then 0.0
    else
      var k :| k in m;
      m[k] + SumValues(m - {k})
  }

  function ValueOr<K>(m: map<K, real>, k: K, default: real): real {
    if k in m then m[k] else default
  }

  /** Any key may be taken out first. */
  lemma {:induction false} SumWithout<K>(m: map<K, real>, k: K)
    requires k in m
    ensures SumValues(m) == m[k] + SumValues(m - {k})
    decreases |m|
  {
    var first :| first in m && SumValues(m) == m[first] + SumValues(m - {first});
    if first != k {
      var rest := m - {first};
      assert |rest| < |m| by { assert rest.Keys == m.Keys - {first}; }
      SumWithout(rest, k);
      var other := m - {k};
      assert |other| < |m| by { assert other.Keys == m.Keys - {k}; }
      SumWithout(other, first);
      assert rest - {k} == other - {first};
    }
  }

  /** Setting one entry changes the sum by the difference of the values. */
  lemma SumUpdate<K>(m: map<K, real>, k: K, v: real)
    ensures SumValues(m[k := v]) == SumValues(m) - ValueOr(m, k, 0.0) + v
  {
    SumWithout(m[k := v], k);
    assert m[k := v] - {k} == m - {k};
    if k in m {
      SumWithout(m, k);
    } else {
      assert m - {k} == m;
    }
  }

  function Fraction(part: real, whole: real): real
    requires whole != 0.0
  {
    part / whole
  }

  /** Every value as a part of a whole. */
  function Parts<K>(m: map<K, real>, whole: real): map<K, real>
    requires whole != 0.0
  {
    map k | k in m :: Fraction(m[k], whole)
  }

  lemma SplitFraction(a: real, b: real, whole: real)
    requires whole != 0.0
    ensures Fraction(a + b, whole) == Fraction(a, whole) + Fraction(b, whole)
  {
  }

  lemma PartsWithout<K>(m: map<K, real>, whole: real, k: K)
    requires whole != 0.0 && k in m
    ensures k in Parts(m, whole) && Parts(m, whole)[k] == Fraction(m[k], whole)
    ensures Parts(m, whole) - {k} == Parts(m - {k}, whole)
  {
  }

  lemma PartsOfNothing<K>(whole: real)
    requires whole != 0.0
    ensures SumValues<K>(Parts(map[], whole)) == Fraction(SumValues<K>(map[]), whole)
  {
    assert Parts<K>(map[], whole) == map[];
  }

  lemma Fewer<K, V>(m: map<K, V>, k: K)
    requires k in m
    ensures |m - {k}| < |m|
  {
    assert (m - {k}).Keys == m.Keys - {k};
  }

  lemma {:induction false} SumParts<K>(m: map<K, real>, whole: real)
    requires whole != 0.0
    ensures SumValues(Parts(m, whole)) == Fraction(SumValues(m), whole)
    decreases |m|
  {
    hide Parts, SumValues, Fraction;
    if m == map[] {
      PartsOfNothing<K>(whole);
    } else {
      var k :| k in m;
      Fewer(m, k);
      SumParts(m - {k}, whole);
      PartsWithout(m, whole, k);
      SumWithout(Parts(m, whole), k);
      SumWithout(m, k);
      SplitFraction(m[k], SumValues(m - {k}), whole);
    }
  }
}
