/**
 * Python's `dict` from strings to integers, as the income and expense
 * dictionaries of the period store use it: the items in insertion order,
 * no key twice. Order matters to the model because the Sankey chart lists
 * `keys()` and `values()` in that order.
 */
module PyDict {
  import opened Text

  /** No key occurs in two items. */
  predicate UniqueKeys(items: seq<(string, int)>) {
    forall i, j :: 0 <= i < j < |items| ==> items[i].0 != items[j].0
  }

  /** A dict is the sequence of its items in insertion order. */
  type Dict = items: seq<(string, int)> | UniqueKeys(items)

  /** `list(d.keys())` */
  function Keys(d: Dict): seq<string> {
    seq(|d|, i requires 0 <= i < |d| => d[i].0)
  }

  /** `list(d.values())` */
  function Values(d: Dict): seq<int> {
    seq(|d|, i requires 0 <= i < |d| => d[i].1)
  }

  /** The dict as a mathematical map, forgetting the order. */
  function ToMap(d: seq<(string, int)>): map<string, int> {
    if d == [] then map[] else ToMap(d[..|d| - 1])[d[|d| - 1].0 := d[|d| - 1].1]
  }

  /** `m.get(k, default)` */
  function GetOr<K, V>(m: map<K, V>, k: K, default: V): V {
    if k in m then m[k] else default
  }

  /** The position of key `k` in `d`, or `|d|` when `d` has no such key. */
  function Position(d: Dict, k: string): (p: nat)
    ensures p <= |d|
    ensures p < |d| ==> d[p].0 == k
    ensures forall i :: 0 <= i < p ==> d[i].0 != k
    decreases |d|
  {
    if d == [] then 0
    else if d[0].0 == k then 0
    else 1 + Position(d[1..], k)
  }

  lemma {:induction false} KeysAreDistinct(d: Dict)
    ensures Distinct(Keys(d))
  {
  }

  /** Each item's value is what the map view holds for its key. */
  lemma {:induction false} ToMapAt(d: Dict, i: nat)
    requires i < |d|
    ensures d[i].0 in ToMap(d) && ToMap(d)[d[i].0] == d[i].1
  {
    if i < |d| - 1 {
      ToMapAt(d[..|d| - 1], i);
    }
  }

  /** The map view has exactly the dict's keys. */
  lemma {:induction false} InMapIffInKeys(d: Dict, k: string)
    ensures k in ToMap(d) <==> k in Keys(d)
  {
    if d != [] {
      InMapIffInKeys(d[..|d| - 1], k);
      assert Keys(d) == Keys(d[..|d| - 1]) + [d[|d| - 1].0];
    }
  }

  /** Overwriting the value of the item at `p` overwrites its key in the map view. */
  lemma {:induction false} ToMapReplace(d: Dict, p: nat, v: int)
    requires p < |d|
    ensures UniqueKeys(d[p := (d[p].0, v)])
    ensures ToMap(d[p := (d[p].0, v)]) == ToMap(d)[d[p].0 := v]
  {
    var r := d[p := (d[p].0, v)];
    if p < |d| - 1 {
      ToMapReplace(d[..|d| - 1], p, v);
      assert r[..|r| - 1] == d[..|d| - 1][p := (d[p].0, v)];
    } else {
      assert r[..|r| - 1] == d[..|d| - 1];
    }
  }

  /** `d[k] = v`: an existing key keeps its place and takes the new value,
      a new key is appended. */
  function Set(d: Dict, k: string, v: int): (r: Dict)
    ensures ToMap(r) == ToMap(d)[k := v]
    ensures Keys(r) == if k in ToMap(d) then Keys(d) else Keys(d) + [k]
  {
    var p := Position(d, k);
    InMapIffInKeys(d, k);
    if p < |d| then
      ToMapReplace(d, p, v);
      assert Keys(d)[p] == k;
      var r := d[p := (k, v)];
      assert Keys(r) == Keys(d);
      r
    else
      var r := d + [(k, v)];
      assert Keys(r) == Keys(d) + [k];
      assert r[..|r| - 1] == d;
      r
  }

  /** The elements of `es` that are not in `ks`, in the order of `es`. */
  function NewKeys(ks: seq<string>, es: seq<string>): (r: seq<string>)
    ensures forall x :: x in r <==> x in es && x !in ks
  {
    if es == [] then []
    else NewKeys(ks, es[..|es| - 1]) + (if es[|es| - 1] in ks then [] else [es[|es| - 1]])
  }

  /** The last key of a dict is not among the keys before it. */
  lemma {:induction false} LastKeyIsNew(e: Dict)
    requires e != []
    ensures e[|e| - 1].0 !in ToMap(e[..|e| - 1])
  {
    InMapIffInKeys(e[..|e| - 1], e[|e| - 1].0);
  }

  /**
   * `for key, value in e.items(): d[key] = value`, the merge loop of the
   * period store. The map view is `d` overridden by `e`; the old keys keep
   * their order and the keys new to `d` follow in the order of `e`.
   */
  function Update(d: Dict, e: Dict): (r: Dict)
    ensures ToMap(r) == ToMap(d) + ToMap(e)
    ensures Keys(r) == Keys(d) + NewKeys(Keys(d), Keys(e))
    decreases |e|
  {
    if e == [] then d
    else
      var prev := Update(d, e[..|e| - 1]);
      UpdateStep(d, e, prev);
      Set(prev, e[|e| - 1].0, e[|e| - 1].1)
  }

  /** One more iteration of the merge loop of `Update`. */
  lemma {:induction false} UpdateStep(d: Dict, e: Dict, prev: Dict)
    requires e != []
    requires ToMap(prev) == ToMap(d) + ToMap(e[..|e| - 1])
    requires Keys(prev) == Keys(d) + NewKeys(Keys(d), Keys(e[..|e| - 1]))
    ensures ToMap(Set(prev, e[|e| - 1].0, e[|e| - 1].1)) == ToMap(d) + ToMap(e)
    ensures Keys(Set(prev, e[|e| - 1].0, e[|e| - 1].1)) == Keys(d) + NewKeys(Keys(d), Keys(e))
  {
    var init, last := e[..|e| - 1], e[|e| - 1];
    var r := Set(prev, last.0, last.1);
    assert ToMap(e) == ToMap(init)[last.0 := last.1];
    assert ToMap(r) == ToMap(prev)[last.0 := last.1];
    UnionThenStore(ToMap(d), ToMap(init), last.0, last.1);
    StepKeys(d, e, prev);
  }

  lemma {:induction false} UnionThenStore<K, V>(a: map<K, V>, b: map<K, V>, k: K, v: V)
    ensures (a + b)[k := v] == a + b[k := v]
  {
  }

  lemma {:induction false} EmptyUnion<K, V>(m: map<K, V>)
    ensures map[] + m == m
  {
  }

  lemma {:induction false} StepKeys(d: Dict, e: Dict, prev: Dict)
    requires e != []
    requires ToMap(prev) == ToMap(d) + ToMap(e[..|e| - 1])
    requires Keys(prev) == Keys(d) + NewKeys(Keys(d), Keys(e[..|e| - 1]))
    ensures Keys(Set(prev, e[|e| - 1].0, e[|e| - 1].1)) == Keys(d) + NewKeys(Keys(d), Keys(e))
  {
    var init: Dict, k, v := e[..|e| - 1], e[|e| - 1].0, e[|e| - 1].1;
    var ks := Keys(d);
    SetLastKey(d, e, prev);
    NewKeysOfLast(ks, e);
    Regroup(Keys(Set(prev, k, v)), Keys(prev), ks, NewKeys(ks, Keys(init)), if k in ks then [] else [k],
            NewKeys(ks, Keys(e)));
  }

  /** The sequence algebra behind `StepKeys`. */
  lemma {:induction false} Regroup(after: seq<string>, current: seq<string>, ks: seq<string>,
                before: seq<string>, added: seq<string>, news: seq<string>)
    requires after == current + added
    requires current == ks + before
    requires news == before + added
    ensures after == ks + news
  {
  }

  /** Storing the last item of `e` appends its key exactly when `d` lacks it. */
  lemma {:induction false} SetLastKey(d: Dict, e: Dict, prev: Dict)
    requires e != []
    requires ToMap(prev) == ToMap(d) + ToMap(e[..|e| - 1])
    ensures var k := e[|e| - 1].0;
            Keys(Set(prev, k, e[|e| - 1].1)) == Keys(prev) + (if k in Keys(d) then [] else [k])
  {
    LastKeyIsNew(e);
    InMapIffInKeys(d, e[|e| - 1].0);
  }

  /** `NewKeys` over the keys of `e`, unfolded at its last item. */
  lemma {:induction false} NewKeysOfLast(ks: seq<string>, e: Dict)
    requires e != []
    ensures var k := e[|e| - 1].0;
            NewKeys(ks, Keys(e)) == NewKeys(ks, Keys(e[..|e| - 1])) + (if k in ks then [] else [k])
  {
    KeysOfPrefix(e);
    NewKeysSnoc(ks, Keys(e));
  }

  /** Unfolds `NewKeys` at the last element. */
  lemma {:induction false} NewKeysSnoc(ks: seq<string>, es: seq<string>)
    requires es != []
    ensures var last := es[|es| - 1];
            NewKeys(ks, es) == NewKeys(ks, es[..|es| - 1]) + (if last in ks then [] else [last])
  {
  }

  lemma {:induction false} KeysOfPrefix(e: Dict)
    requires e != []
    ensures var ks := Keys(e); ks[..|ks| - 1] == Keys(e[..|e| - 1]) && ks[|ks| - 1] == e[|e| - 1].0
  {
  }

  /** A dict is determined by its keys in order and its map view. */
  lemma {:induction false} Extensionality(a: Dict, b: Dict)
    requires Keys(a) == Keys(b) && ToMap(a) == ToMap(b)
    ensures a == b
  {
    assert |a| == |Keys(a)| == |b|;
    forall i | 0 <= i < |a| ensures a[i] == b[i] {
      assert a[i].0 == Keys(a)[i] == b[i].0;
      ToMapAt(a, i);
      ToMapAt(b, i);
    }
  }

  /** Merging into an empty dict copies the argument, order included. */
  lemma {:induction false} UpdateEmpty(e: Dict)
    ensures Update([], e) == e
  {
    assert NewKeys([], Keys(e)) == Keys(e) by {
      NewKeysOfNothing(Keys(e));
    }
    var r := Update([], e);
    assert ToMap(r) == ToMap(e) by {
      assert ToMap([]) == map[];
      EmptyUnion(ToMap(e));
    }
    Extensionality(r, e);
  }

  lemma {:induction false} NewKeysOfNothing(es: seq<string>)
    ensures NewKeys([], es) == es
  {
    if es != [] {
      NewKeysOfNothing(es[..|es| - 1]);
      assert es == es[..|es| - 1] + [es[|es| - 1]];
    }
  }
}
