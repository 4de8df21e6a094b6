/** The sum of the values of a counter map, and how updating one key changes it. */
module Sums {
  import opened Wrappers

  /** Some key of a non-empty map. */
  ghost function Pick<K>(m: map<K, int>): (k: K)
    requires |m| > 0
    ensures k in m
  {
    assert exists k :: k in m by { var k :| k in m.Keys; }
    var k :| k in m; k
  }

  ghost function SumValues<K>(m: map<K, int>): int
    decreases |m|
  {
    if |m| == 0 then 0 else m[Pick(m)] + SumValues(m - {Pick(m)})
  }

  /** Any key can be taken out first. */
  lemma {:induction false} SumValuesRemove<K>(m: map<K, int>, k: K)
    requires k in m
    ensures SumValues(m) == m[k] + SumValues(m - {k})
    decreases |m|
  {
    var j := Pick(m);
    if j != k {
      SumValuesRemove(m - {j}, k);
      SumValuesRemove(m - {k}, j);
      assert (m - {j}) - {k} == (m - {k}) - {j};
    }
  }

  /** Setting key `k` to `v` changes the sum by `v` minus what `k` held (nothing when absent). */
  lemma SumValuesUpdate<K>(m: map<K, int>, k: K, v: int)
    ensures SumValues(m[k := v]) == SumValues(m) - Get0(m, k) + v
  {
    SumValuesRemove(m[k := v], k);
    if k in m {
      SumValuesRemove(m, k);
      assert m[k := v] - {k} == m - {k};
    } else {
      assert m[k := v] - {k} == m;
    }
  }

  /** `m[k] = (m[k] || 0) + d`: a missing key counts as 0 and is created. */
  function AddTo<K>(m: map<K, int>, k: K, d: int): map<K, int> {
    m[k := Get0(m, k) + d]
  }

  /** Adding to one counter adds the same amount to the sum. */
  lemma SumValuesAdd<K>(m: map<K, int>, k: K, d: int)
    ensures SumValues(AddTo(m, k, d)) == SumValues(m) + d
  {
    SumValuesUpdate(m, k, Get0(m, k) + d);
  }

  /** Only the counter of `k` changes, and it is created when missing. */
  lemma AddToMeaning<K>(m: map<K, int>, k: K, d: int)
    ensures var r := AddTo(m, k, d);
      && k in r && r[k] == Get0(m, k) + d
      && r.Keys == m.Keys + {k}
      && (forall j :: j in m && j != k ==> r[j] == m[j])
  {
  }
}
