/**
 * Go's integer division, the counting maps the aggregators keep, and the
 * nanosecond unit of `time.Duration`.
 *
 * Go's `/` on integers truncates toward zero, whereas Dafny's `/` is
 * Euclidean; `Quo` is the Go operator written out.  A Go map read of a
 * missing key yields the zero value, and `m[k]++` therefore inserts 1.
 */
module GoInt {

  /** time.Second: a Go `time.Duration` counts nanoseconds. */
  const Second: int := 1_000_000_000

  /** Go's `a / b` for a positive divisor: the quotient truncated toward zero. */
  function Quo(a: int, b: int): (q: int)
    requires b > 0
    ensures a >= 0 ==> 0 <= q * b <= a < q * b + b
    ensures a < 0 ==> q * b - b < a <= q * b <= 0
  {
    if a >= 0 then DivBounds(a, b); a / b
    else DivBounds(-a, b); -((-a) / b)
  }

  /** Euclidean division of a natural number, as bounds on the quotient. */
  lemma DivBounds(a: nat, b: int)
    requires b > 0
    ensures 0 <= (a / b) * b <= a < (a / b) * b + b
  {
    var q, r := a / b, a % b;
    assert a == q * b + r && 0 <= r < b;
    assert q >= 0;
  }

  /**
   * An integer average guarded against an empty count, as both aggregators
   * compute it: 0 when there is nothing to average, otherwise Go's quotient.
   */
  function Average(total: int, count: int): (avg: int)
    ensures count <= 0 ==> avg == 0
    ensures count > 0 && total >= 0 ==> 0 <= avg * count <= total < avg * count + count
  {
    if count > 0 then Quo(total, count) else 0
  }

  /** Reading `m[k]` in Go: the stored count, or 0 when `k` is absent. */
  function Get<K>(m: map<K, int>, k: K): int
  {
    if k in m then m[k] else 0
  }

  /** Go's `m[k]++` on a counting map. */
  function Inc<K>(m: map<K, int>, k: K): (m': map<K, int>)
    ensures m'.Keys == m.Keys + {k}
    ensures m'[k] == Get(m, k) + 1
    ensures forall j :: j in m && j != k ==> m'[j] == m[j]
  {
    m[k := Get(m, k) + 1]
  }

  /** The sum of the values stored in a map. */
  ghost function Sum<K>(m: map<K, int>): int
    decreases |m|
  {
    if |m| == 0 then 0
    else
      var k :| k in m;
      m[k] + Sum(m - {k})
  }

  /** Any key can be taken out first when summing. */
  lemma {:induction false} SumRemove<K>(m: map<K, int>, k: K)
    requires k in m
    ensures Sum(m) == m[k] + Sum(m - {k})
    decreases |m|
  {
    assert |m| != 0;
    var j :| j in m && Sum(m) == m[j] + Sum(m - {j});
    if j != k {
      RemoveSize(m, j);
      RemoveSize(m, k);
      assert (m - {j}) - {k} == (m - {k}) - {j};
      SumRemove(m - {j}, k);
      SumRemove(m - {k}, j);
    }
  }

  /** Removing a present key shrinks a map by one. */
  lemma RemoveSize<K>(m: map<K, int>, k: K)
    requires k in m
    ensures |m - {k}| == |m| - 1
  {
    assert (m - {k}).Keys == m.Keys - {k};
  }

  /** One `m[k]++` raises the sum of the values by exactly one. */
  lemma SumInc<K>(m: map<K, int>, k: K)
    ensures Sum(Inc(m, k)) == Sum(m) + 1
  {
    var m' := Inc(m, k);
    SumRemove(m', k);
    if k in m {
      SumRemove(m, k);
      assert m' - {k} == m - {k};
    } else {
      assert m' - {k} == m;
    }
  }
}
