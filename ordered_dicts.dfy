/** A Python `dict` from item names to values: keys keep the position of
    their first insertion, and assigning to a present key replaces its value
    in place. */
module OrderedDicts {
  import opened Lists

  datatype Dict = Dict(keys: seq<string>, vals: map<string, real>)

  /** Keys in insertion order, each once, and exactly the keys of the mapping. */
  ghost predicate Valid(d: Dict) {
    Distinct(d.keys) && forall k :: k in d.vals <==> k in d.keys
  }

  /** `{}` */
  const Empty: Dict := Dict([], map[])

  lemma EmptyValid()
    ensures Valid(Empty)
  {
  }

  /** `d[k] = v`: a new key goes to the end; a present key keeps its place. */
  function Put(d: Dict, k: string, v: real): (r: Dict)
    requires Valid(d)
    ensures Valid(r)
    ensures k in r.vals && r.vals[k] == v
    ensures forall k' :: k' != k ==> (k' in r.vals <==> k' in d.vals)
    ensures forall k' :: k' != k && k' in d.vals ==> r.vals[k'] == d.vals[k']
    ensures d.keys <= r.keys
    ensures |r.keys| == if k in d.vals then |d.keys| else |d.keys| + 1
  {
    if k in d.vals then Dict(d.keys, d.vals[k := v])
    else
      DistinctAppend(d.keys, k);
      Dict(d.keys + [k], d.vals[k := v])
  }

  /** `d.items()`: the (name, value) pairs in key order. */
  function Items(d: Dict): (r: seq<(string, real)>)
    requires Valid(d)
    ensures |r| == |d.keys|
    ensures forall i :: 0 <= i < |r| ==> r[i].0 == d.keys[i] && r[i].1 == d.vals[d.keys[i]]
  {
    seq(|d.keys|, i requires 0 <= i < |d.keys| => (d.keys[i], d.vals[d.keys[i]]))
  }

  /** Sum of the second components, in order. */
  function SumValues(items: seq<(string, real)>): real {
    if items == [] then 0.0 else SumValues(items[..|items| - 1]) + items[|items| - 1].1
  }

  lemma SumValuesOne(a: (string, real))
    ensures SumValues([a]) == a.1
  {
    assert [a][..0] == [];
  }

  lemma SumValuesTwo(a: (string, real), b: (string, real))
    ensures SumValues([a, b]) == a.1 + b.1
  {
    assert [a, b][..1] == [a];
    SumValuesOne(a);
  }

  /** `sum(d.values())` */
  function Sum(d: Dict): real
    requires Valid(d)
  {
    SumValues(Items(d))
  }

  /** A new key adds one pair at the end of the items. */
  lemma ItemsPutNew(d: Dict, k: string, v: real)
    requires Valid(d) && k !in d.vals
    ensures Items(Put(d, k, v)) == Items(d) + [(k, v)]
  {
  }

  /** `d[k] = v` adds `v` to the sum and, when `k` was present, takes its
      old value out. */
  lemma SumPut(d: Dict, k: string, v: real)
    requires Valid(d)
    ensures Sum(Put(d, k, v)) == Sum(d) + v - (if k in d.vals then d.vals[k] else 0.0)
  {
    if k in d.vals {
      var p := IndexOf(d.keys, k);
      SumReplaceAt(Items(d), Items(Put(d, k, v)), p, v);
    } else {
      ItemsPutNew(d, k, v);
      assert (Items(d) + [(k, v)])[..|Items(d)|] == Items(d);
    }
  }

  /** Two item lists that differ only at position `p` have sums that differ
      by the change at `p`. */
  lemma {:induction false} SumReplaceAt(a: seq<(string, real)>, b: seq<(string, real)>, p: nat, v: real)
    requires |a| == |b| && p < |a| && b[p].1 == v
    requires forall i :: 0 <= i < |a| && i != p ==> a[i].1 == b[i].1
    ensures SumValues(b) == SumValues(a) - a[p].1 + v
  {
    var n := |a|;
    if p == n - 1 {
      SumEqual(a[..n - 1], b[..n - 1]);
    } else {
      SumReplaceAt(a[..n - 1], b[..n - 1], p, v);
    }
  }

  /** Item lists with the same values in the same positions have the same sum. */
  lemma {:induction false} SumEqual(a: seq<(string, real)>, b: seq<(string, real)>)
    requires |a| == |b|
    requires forall i :: 0 <= i < |a| ==> a[i].1 == b[i].1
    ensures SumValues(a) == SumValues(b)
  {
    if a != [] {
      SumEqual(a[..|a| - 1], b[..|b| - 1]);
    }
  }
}
