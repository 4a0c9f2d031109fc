/**
 * Python's `dict` from text keys to amounts, as far as the application uses it:
 * insertion order, `d.get(k, default)`, `d[k] = v` (which keeps an existing key
 * in place and appends a new one at the end) and `sum(d.values())`.
 */
module Dict {

  datatype Entry = Entry(key: string, value: real)

  /** The entries in insertion order. */
  type Dict = seq<Entry>

  /** `list(d.keys())`. */
  function Keys(d: Dict): (ks: seq<string>)
    ensures |ks| == |d|
    ensures forall i :: 0 <= i < |d| ==> ks[i] == d[i].key
  {
    seq(|d|, i requires 0 <= i < |d| => d[i].key)
  }

  /** `list(d.values())`. */
  function Values(d: Dict): (vs: seq<real>)
    ensures |vs| == |d|
    ensures forall i :: 0 <= i < |d| ==> vs[i] == d[i].value
  {
    seq(|d|, i requires 0 <= i < |d| => d[i].value)
  }

  /** No key occurs twice: what a Python dict always satisfies. */
  predicate DistinctKeys(d: Dict) {
    forall i, j :: 0 <= i < j < |d| ==> d[i].key != d[j].key
  }

  predicate HasKey(d: Dict, k: string) {
    exists i :: 0 <= i < |d| && d[i].key == k
  }

  /** `d.get(k, default)`. */
  function Get(d: Dict, k: string, default: real): real {
    if d == [] then default
    else if d[0].key == k then d[0].value
    else Get(d[1..], k, default)
  }

  /** `d[k] = v`. */
  function Put(d: Dict, k: string, v: real): Dict {
    if d == [] then [Entry(k, v)]
    else if d[0].key == k then [Entry(k, v)] + d[1..]
    else [d[0]] + Put(d[1..], k, v)
  }

  /** `sum(d.values())`. */
  function Total(d: Dict): real {
    if d == [] then 0.0 else d[0].value + Total(d[1..])
  }

  /** `d.get` of a present key is the value stored under it. */
  lemma {:induction false} GetPresent(d: Dict, i: nat, default: real)
    requires DistinctKeys(d) && i < |d|
    ensures Get(d, d[i].key, default) == d[i].value
  {
    if i > 0 {
      GetPresent(d[1..], i - 1, default);
    }
  }

  /** `d.get` of a missing key is the default. */
  lemma {:induction false} GetAbsent(d: Dict, k: string, default: real)
    requires !HasKey(d, k)
    ensures Get(d, k, default) == default
  {
    if d != [] {
      assert d[0].key != k;
      assert !HasKey(d[1..], k) by {
        forall i | 0 <= i < |d| - 1 ensures d[1..][i].key != k {
          assert d[1..][i] == d[i + 1];
        }
      }
      GetAbsent(d[1..], k, default);
    }
  }

  lemma HasKeyCons(d: Dict, k: string)
    requires d != []
    ensures HasKey(d, k) <==> d[0].key == k || HasKey(d[1..], k)
  {
    if HasKey(d[1..], k) {
      var i :| 0 <= i < |d| - 1 && d[1..][i].key == k;
      assert d[i + 1] == d[1..][i];
    }
    if HasKey(d, k) && d[0].key != k {
      var i :| 0 <= i < |d| && d[i].key == k;
      assert d[1..][i - 1] == d[i];
    }
  }

  /**
   * `d[k] = v` leaves every key where it was when `k` is present, and appends
   * `k` at the end when it is not.
   */
  lemma {:induction false} PutShape(d: Dict, k: string, v: real)
    ensures HasKey(d, k) ==> |Put(d, k, v)| == |d| && forall i :: 0 <= i < |d| ==> Put(d, k, v)[i].key == d[i].key
    ensures !HasKey(d, k) ==> Put(d, k, v) == d + [Entry(k, v)]
  {
    if d != [] {
      HasKeyCons(d, k);
      if d[0].key != k {
        PutShape(d[1..], k, v);
        var p := Put(d, k, v);
        if HasKey(d, k) {
          forall i | 0 <= i < |d| ensures p[i].key == d[i].key {
            if i > 0 { assert p[i] == Put(d[1..], k, v)[i - 1]; }
          }
        }
      }
    }
  }

  /** The keys after `d[k] = v`: unchanged if `k` was there, else `k` appended. */
  lemma PutKeys(d: Dict, k: string, v: real)
    ensures HasKey(d, k) ==> Keys(Put(d, k, v)) == Keys(d)
    ensures !HasKey(d, k) ==> Keys(Put(d, k, v)) == Keys(d) + [k]
  {
    PutShape(d, k, v);
    var p := Put(d, k, v);
    if HasKey(d, k) {
      assert forall i :: 0 <= i < |d| ==> p[i].key == d[i].key;
    }
  }

  /** `d[k] = v` keeps the keys distinct. */
  lemma {:induction false} PutDistinct(d: Dict, k: string, v: real)
    requires DistinctKeys(d)
    ensures DistinctKeys(Put(d, k, v))
  {
    PutKeys(d, k, v);
    var p := Put(d, k, v);
    assert forall i :: 0 <= i < |p| ==> Keys(p)[i] == p[i].key;
    if !HasKey(d, k) {
      forall i, j | 0 <= i < j < |p| ensures p[i].key != p[j].key {
        if j == |d| {
          assert Keys(p)[i] == Keys(d)[i] == d[i].key;
        } else {
          assert Keys(p)[i] == d[i].key && Keys(p)[j] == d[j].key;
        }
      }
    } else {
      forall i, j | 0 <= i < j < |p| ensures p[i].key != p[j].key {
        assert Keys(p)[i] == d[i].key && Keys(p)[j] == d[j].key;
      }
    }
  }

  /** After `d[k] = v`, `k` maps to `v` and every other key to what it mapped to before. */
  lemma {:induction false} GetPut(d: Dict, k: string, v: real, q: string, default: real)
    ensures Get(Put(d, k, v), q, default) == if q == k then v else Get(d, q, default)
  {
    if d != [] && d[0].key != k {
      GetPut(d[1..], k, v, q, default);
    }
  }

  /** `d[k] = d.get(k, 0.0) + a` raises the sum of the values by `a`. */
  lemma {:induction false} TotalAccumulate(d: Dict, k: string, a: real)
    ensures Total(Put(d, k, Get(d, k, 0.0) + a)) == Total(d) + a
  {
    if d != [] && d[0].key != k {
      TotalAccumulate(d[1..], k, a);
    }
  }
}
