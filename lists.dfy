/** Order-preserving filtering of a list, the shape of every
    "for x in xs: if cond: kept.append(x)" loop in the scripts: the kept
    elements and the dropped ones, each in their original order. */
module Lists {
  import opened Wrappers

  /** `[x for x in xs if keep(x)]` */
  function Filter<T>(keep: T -> bool, xs: seq<T>): (r: seq<T>)
    ensures |r| <= |xs|
    decreases |xs|
  {
    if xs == [] then []
    else Filter(keep, xs[..|xs| - 1]) + (if keep(xs[|xs| - 1]) then [xs[|xs| - 1]] else [])
  }

  /** `[x for x in xs if not keep(x)]` */
  function Reject<T>(keep: T -> bool, xs: seq<T>): (r: seq<T>)
    ensures |r| <= |xs|
    decreases |xs|
  {
    if xs == [] then []
    else Reject(keep, xs[..|xs| - 1]) + (if keep(xs[|xs| - 1]) then [] else [xs[|xs| - 1]])
  }

  /** One more element processed by the loop. */
  lemma FilterSnoc<T>(keep: T -> bool, xs: seq<T>, x: T)
    ensures Filter(keep, xs + [x]) == Filter(keep, xs) + (if keep(x) then [x] else [])
    ensures Reject(keep, xs + [x]) == Reject(keep, xs) + (if keep(x) then [] else [x])
  {
    assert (xs + [x])[..|xs + [x]| - 1] == xs;
  }

  /** Kept and dropped elements together are the input, each exactly once. */
  lemma {:induction false} FilterPartition<T>(keep: T -> bool, xs: seq<T>)
    ensures multiset(Filter(keep, xs)) + multiset(Reject(keep, xs)) == multiset(xs)
    decreases |xs|
  {
    if xs != [] {
      var init := xs[..|xs| - 1];
      FilterPartition(keep, init);
      assert xs == init + [xs[|xs| - 1]];
      PartitionSnoc(keep, init, xs[|xs| - 1]);
    }
  }

  lemma PartitionSnoc<T>(keep: T -> bool, xs: seq<T>, x: T)
    requires multiset(Filter(keep, xs)) + multiset(Reject(keep, xs)) == multiset(xs)
    ensures multiset(Filter(keep, xs + [x])) + multiset(Reject(keep, xs + [x])) == multiset(xs + [x])
  {
    FilterSnoc(keep, xs, x);
  }

  /** Filtering distributes over concatenation, so it keeps the input order. */
  lemma FilterAppend<T>(keep: T -> bool, xs: seq<T>, ys: seq<T>)
    ensures Filter(keep, xs + ys) == Filter(keep, xs) + Filter(keep, ys)
    ensures Reject(keep, xs + ys) == Reject(keep, xs) + Reject(keep, ys)
  {
    FilterAppendKept(keep, xs, ys);
    RejectAppend(keep, xs, ys);
  }

  /** A non-empty list is its prefix and its last element, also after a
      prefix of its own. */
  lemma SnocSplit<T>(xs: seq<T>, ys: seq<T>)
    requires ys != []
    ensures ys == ys[..|ys| - 1] + [ys[|ys| - 1]]
    ensures xs + ys == (xs + ys[..|ys| - 1]) + [ys[|ys| - 1]]
  {
  }

  lemma AppendAssoc<T>(a: seq<T>, b: seq<T>, c: seq<T>)
    ensures a + b + c == a + (b + c)
  {
  }

  lemma {:induction false} FilterAppendKept<T>(keep: T -> bool, xs: seq<T>, ys: seq<T>)
    ensures Filter(keep, xs + ys) == Filter(keep, xs) + Filter(keep, ys)
    decreases |ys|
  {
    if ys == [] {
      assert xs + ys == xs;
    } else {
      var ys' := ys[..|ys| - 1];
      var last := ys[|ys| - 1];
      var extra := if keep(last) then [last] else [];
      FilterAppendKept(keep, xs, ys');
      SnocSplit(xs, ys);
      FilterSnoc(keep, xs + ys', last);
      assert Filter(keep, xs + ys) == Filter(keep, xs + ys') + extra;
      FilterSnoc(keep, ys', last);
      assert Filter(keep, ys) == Filter(keep, ys') + extra;
      AppendAssoc(Filter(keep, xs), Filter(keep, ys'), extra);
    }
  }

  lemma {:induction false} RejectAppend<T>(keep: T -> bool, xs: seq<T>, ys: seq<T>)
    ensures Reject(keep, xs + ys) == Reject(keep, xs) + Reject(keep, ys)
    decreases |ys|
  {
    if ys == [] {
      assert xs + ys == xs;
    } else {
      var ys' := ys[..|ys| - 1];
      var last := ys[|ys| - 1];
      var extra := if keep(last) then [] else [last];
      RejectAppend(keep, xs, ys');
      SnocSplit(xs, ys);
      FilterSnoc(keep, xs + ys', last);
      assert Reject(keep, xs + ys) == Reject(keep, xs + ys') + extra;
      FilterSnoc(keep, ys', last);
      assert Reject(keep, ys) == Reject(keep, ys') + extra;
      AppendAssoc(Reject(keep, xs), Reject(keep, ys'), extra);
    }
  }

  /** Filtering a list given by its first element. */
  lemma FilterCons<T>(keep: T -> bool, x: T, xs: seq<T>)
    ensures Filter(keep, [x] + xs) == (if keep(x) then [x] else []) + Filter(keep, xs)
  {
    FilterAppend(keep, [x], xs);
    assert [x] == [] + [x];
    FilterSnoc(keep, [], x);
  }

  /** What is kept satisfies the condition, what is dropped does not, and
      both come from the input. */
  lemma {:induction false} FilterElems<T>(keep: T -> bool, xs: seq<T>)
    ensures forall y :: y in Filter(keep, xs) ==> y in xs && keep(y)
    ensures forall y :: y in Reject(keep, xs) ==> y in xs && !keep(y)
    decreases |xs|
  {
    if xs != [] {
      var init := xs[..|xs| - 1];
      FilterElems(keep, init);
      assert xs == init + [xs[|xs| - 1]];
    }
  }

  /** An element of the input is kept iff the condition holds of it. */
  lemma {:induction false} FilterMember<T>(keep: T -> bool, xs: seq<T>, x: T)
    requires x in xs
    ensures x in Filter(keep, xs) <==> keep(x)
    ensures x in Reject(keep, xs) <==> !keep(x)
    decreases |xs|
  {
    FilterElems(keep, xs);
    var last := xs[|xs| - 1];
    if x != last {
      var init := xs[..|xs| - 1];
      assert xs == init + [last];
      assert x in init;
      FilterMember(keep, init, x);
    }
  }

  /** When nothing is dropped, everything is kept. */
  lemma {:induction false} NothingRejected<T>(keep: T -> bool, xs: seq<T>)
    requires Reject(keep, xs) == []
    ensures Filter(keep, xs) == xs
    decreases |xs|
  {
    if xs != [] {
      var init := xs[..|xs| - 1];
      NothingRejected(keep, init);
      assert xs == init + [xs[|xs| - 1]];
    }
  }

  /** Everything is kept exactly when the kept part is as long as the input. */
  lemma {:induction false} FilterKeepsAll<T>(keep: T -> bool, xs: seq<T>)
    ensures |Filter(keep, xs)| == |xs| <==> forall x :: x in xs ==> keep(x)
    decreases |xs|
  {
    if xs != [] {
      var init := xs[..|xs| - 1];
      var last := xs[|xs| - 1];
      FilterKeepsAll(keep, init);
      assert xs == init + [last];
      assert forall x :: x in xs <==> x in init || x == last;
    }
  }

  /** Nothing is kept exactly when no element satisfies the condition. */
  lemma {:induction false} FilterKeepsNone<T>(keep: T -> bool, xs: seq<T>)
    ensures Filter(keep, xs) == [] <==> forall x :: x in xs ==> !keep(x)
    decreases |xs|
  {
    if xs != [] {
      var init := xs[..|xs| - 1];
      var last := xs[|xs| - 1];
      FilterKeepsNone(keep, init);
      assert xs == init + [last];
      assert forall x :: x in xs <==> x in init || x == last;
    }
  }

  // A Python dict is modelled by its items in insertion order, keys distinct.

  /** `list(d.keys())` for a dictionary given by its items. */
  function Keys<V>(entries: seq<(string, V)>): (r: seq<string>)
    ensures |r| == |entries|
    ensures forall i :: 0 <= i < |entries| ==> r[i] == entries[i].0
  {
    if entries == [] then [] else [entries[0].0] + Keys(entries[1..])
  }

  lemma KeysAppend<V>(xs: seq<(string, V)>, ys: seq<(string, V)>)
    ensures Keys(xs + ys) == Keys(xs) + Keys(ys)
  {
    assert forall i :: 0 <= i < |xs + ys| ==> Keys(xs + ys)[i] == (Keys(xs) + Keys(ys))[i];
  }

  /** `{k: f(k) for k in keys}`, as items in key order. */
  function Tabulate<V>(keys: seq<string>, f: string -> V): seq<(string, V)>
    decreases |keys|
  {
    if keys == [] then []
    else Tabulate(keys[..|keys| - 1], f) + [(keys[|keys| - 1], f(keys[|keys| - 1]))]
  }

  lemma {:induction false} TabulateEntries<V>(keys: seq<string>, f: string -> V)
    ensures Keys(Tabulate(keys, f)) == keys
    ensures forall i :: 0 <= i < |keys| ==> Tabulate(keys, f)[i].1 == f(keys[i])
    decreases |keys|
  {
    if keys != [] {
      var init := keys[..|keys| - 1];
      TabulateEntries(init, f);
      KeysAppend(Tabulate(init, f), [(keys[|keys| - 1], f(keys[|keys| - 1]))]);
      assert keys == init + [keys[|keys| - 1]];
    }
  }

  /** One more key, as seen by `FilterTabulate`. */
  lemma FilterTabulateSnoc<V>(init: seq<string>, last: string, f: string -> V,
                              keepItem: ((string, V)) -> bool, keep: bool)
    requires keep == keepItem((last, f(last)))
    ensures Keys(Filter(keepItem, Tabulate(init + [last], f))) ==
      Keys(Filter(keepItem, Tabulate(init, f))) + (if keep then [last] else [])
  {
    var item := (last, f(last));
    var keys := init + [last];
    var before := Tabulate(init, f);
    var kept: seq<(string, V)> := if keep then [item] else [];
    assert keys[..|keys| - 1] == init && keys[|keys| - 1] == last;
    assert Tabulate(keys, f) == before + [item];
    FilterSnoc(keepItem, before, item);
    assert Filter(keepItem, Tabulate(keys, f)) == Filter(keepItem, before) + kept;
    KeysAppend(Filter(keepItem, before), kept);
    assert Keys(kept) == if keep then [last] else [];
  }

  /** Filtering the items on their values selects the keys whose values
      pass. */
  lemma {:induction false} FilterTabulate<V>(keys: seq<string>, f: string -> V,
                                             keepItem: ((string, V)) -> bool, keepKey: string -> bool)
    requires forall k :: keepKey(k) == keepItem((k, f(k)))
    ensures Keys(Filter(keepItem, Tabulate(keys, f))) == Filter(keepKey, keys)
    decreases |keys|
  {
    if keys != [] {
      var init := keys[..|keys| - 1];
      var last := keys[|keys| - 1];
      FilterTabulate(init, f, keepItem, keepKey);
      assert keys == init + [last];
      FilterTabulateSnoc(init, last, f, keepItem, keepKey(last));
      FilterSnoc(keepKey, init, last);
    }
  }

  /** Filtering items on their keys keeps the keys that pass, in order. */
  lemma {:induction false} FilterKeys<V>(entries: seq<(string, V)>,
                                         keepItem: ((string, V)) -> bool, keepKey: string -> bool)
    requires forall e :: keepItem(e) == keepKey(e.0)
    ensures Keys(Filter(keepItem, entries)) == Filter(keepKey, Keys(entries))
    decreases |entries|
  {
    if entries != [] {
      var init := entries[..|entries| - 1];
      var last := entries[|entries| - 1];
      var kept: seq<(string, V)> := if keepItem(last) then [last] else [];
      var keptKey: seq<string> := if keepKey(last.0) then [last.0] else [];
      FilterKeys(init, keepItem, keepKey);
      SnocSplit([], entries);
      FilterSnoc(keepItem, init, last);
      KeysAppend(Filter(keepItem, init), kept);
      assert Keys(kept) == keptKey;
      KeysAppend(init, [last]);
      assert Keys([last]) == [last.0];
      FilterSnoc(keepKey, Keys(init), last.0);
    }
  }

  /** `d.get(key)` for a dictionary given by its items (keys are distinct). */
  function Lookup<V>(entries: seq<(string, V)>, key: string): (r: Option<V>)
    ensures r.Some? <==> key in Keys(entries)
    ensures r.Some? ==> exists i :: 0 <= i < |entries| && entries[i] == (key, r.value)
  {
    if entries == [] then None
    else if entries[0].0 == key then Some(entries[0].1)
    else
      var r := Lookup(entries[1..], key);
      assert r.Some? ==> exists i :: 0 <= i < |entries[1..]| && entries[1..][i] == (key, r.value);
      r
  }

  /** `d[key] = value`: an existing key keeps its place, a new one is
      appended. */
  function DictSet<V>(entries: seq<(string, V)>, key: string, value: V): (r: seq<(string, V)>)
    ensures Lookup(r, key) == Some(value)
    ensures forall k :: k != key ==> Lookup(r, k) == Lookup(entries, k)
    ensures forall e :: e in r ==> e in entries || e == (key, value)
  {
    if entries == [] then [(key, value)]
    else if entries[0].0 == key then [(key, value)] + entries[1..]
    else [entries[0]] + DictSet(entries[1..], key, value)
  }
}
