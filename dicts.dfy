/**
 * Python dictionaries as ordered lists of (key, value) items with distinct
 * keys: iteration follows insertion order, assigning an existing key keeps
 * its position, assigning a new key appends it, and `del` removes the item.
 * Argparse namespaces (`vars(args)`) and decoded JSON objects are dicts.
 */
module Dicts {
  import opened Types

  type Items<V> = seq<(string, V)>

  ghost predicate DistinctKeys<V>(d: Items<V>)
  {
    forall i, j :: 0 <= i < j < |d| ==> d[i].0 != d[j].0
  }


  function Keys<V>(d: Items<V>): set<string>
  {
    set i | 0 <= i < |d| :: d[i].0
  }

  lemma KeysCons<V>(x: (string, V), s: Items<V>)
    ensures Keys([x] + s) == {x.0} + Keys(s)
  {
    var t := [x] + s;
    assert t[0] == x;
    forall y | y in Keys(s) ensures y in Keys(t) {
      var i :| 0 <= i < |s| && s[i].0 == y;
      assert t[i + 1] == s[i];
    }
  }

  /** `d.get(k)` */
  function Get<V>(d: Items<V>, k: string): (r: Option<V>)
    ensures r.None? <==> k !in Keys(d)
    ensures r.Some? ==> exists i :: 0 <= i < |d| && d[i] == (k, r.value)
  {
    if d == [] then None
    else if d[0].0 == k then Some(d[0].1)
    else
      var r := Get(d[1..], k);
      KeysCons(d[0], d[1..]);
      assert d == [d[0]] + d[1..];
      r
  }

  /** `d[k] = v`: the item holding `k` gets the new value in place, or a new
      item is appended when there is none. */
  function Assign<V>(d: Items<V>, k: string, v: V): (r: Items<V>)
    ensures k in Keys(d) ==> |r| == |d|
    ensures k !in Keys(d) ==> r == d + [(k, v)]
    ensures forall i :: 0 <= i < |d| ==> r[i] == if d[i].0 == k then (k, v) else d[i]
    ensures Keys(r) == Keys(d) + {k}
  {
    if k in Keys(d) then
      var r := seq(|d|, i requires 0 <= i < |d| => if d[i].0 == k then (k, v) else d[i]);
      assert forall i :: 0 <= i < |d| ==> r[i].0 == d[i].0;
      assert Keys(r) == Keys(d) by {
        forall x | x in Keys(d) ensures x in Keys(r) {
          var i :| 0 <= i < |d| && d[i].0 == x;
          assert r[i].0 == x;
        }
      }
      r
    else
      var r := d + [(k, v)];
      assert r[|d|].0 == k;
      assert Keys(r) == Keys(d) + {k} by {
        forall x | x in Keys(d) ensures x in Keys(r) {
          var i :| 0 <= i < |d| && d[i].0 == x;
          assert r[i].0 == x;
        }
      }
      r
  }

  lemma AssignDistinct<V>(d: Items<V>, k: string, v: V)
    requires DistinctKeys(d)
    ensures DistinctKeys(Assign(d, k, v))
  {
  }

  /** `del d[k]`, or a no-op when `k` is absent. */
  function Remove<V>(d: Items<V>, k: string): (r: Items<V>)
    ensures Keys(r) == Keys(d) - {k}
    ensures forall x :: x != k ==> Get(r, x) == Get(d, x)
  {
    if d == [] then []
    else
      KeysCons(d[0], d[1..]);
      var r' := Remove(d[1..], k);
      if d[0].0 == k then
        assert forall x :: x != k ==> Get(d, x) == Get(d[1..], x);
        r'
      else
        var r := [d[0]] + r';
        KeysCons(d[0], r');
        assert r[1..] == r';
        r
  }

  lemma {:induction false} RemoveDistinct<V>(d: Items<V>, k: string)
    requires DistinctKeys(d)
    ensures DistinctKeys(Remove(d, k))
  {
    if d != [] {
      RemoveDistinct(d[1..], k);
      KeysCons(d[0], d[1..]);
      var r' := Remove(d[1..], k);
      if d[0].0 != k {
        assert d[0].0 !in Keys(d[1..]);
        KeysCons(d[0], r');
        var r := [d[0]] + r';
        forall i, j | 0 <= i < j < |r| ensures r[i].0 != r[j].0 {
          if i == 0 { assert r[j] == r'[j - 1]; assert r'[j - 1].0 in Keys(r'); }
          else { assert r[i] == r'[i - 1] && r[j] == r'[j - 1]; }
        }
      }
    }
  }

  /** The dict as a mapping; for repeated keys the last item wins, which is
      how a dict display or comprehension builds a dict from its items. */
  function ToMap<V>(d: Items<V>): (m: map<string, V>)
    ensures m.Keys == Keys(d)
  {
    if d == [] then map[]
    else
      var init := d[..|d| - 1];
      assert Keys(d) == Keys(init) + {d[|d| - 1].0};
      ToMap(init)[d[|d| - 1].0 := d[|d| - 1].1]
  }

  /** Appending an item sets its key in the mapping. */
  lemma ToMapSnoc<V>(d: Items<V>, x: (string, V))
    ensures ToMap(d + [x]) == ToMap(d)[x.0 := x.1]
  {
    assert (d + [x])[..|d|] == d;
  }

  /** An item no later item shadows keeps its value in `ToMap`. */
  lemma {:induction false} ToMapLastWins<V>(d: Items<V>, i: nat)
    requires i < |d|
    requires forall j :: i < j < |d| ==> d[j].0 != d[i].0
    ensures d[i].0 in ToMap(d) && ToMap(d)[d[i].0] == d[i].1
  {
    if i < |d| - 1 {
      ToMapLastWins(d[..|d| - 1], i);
    }
  }

  /** Every value of `ToMap` comes from an item with that key. */
  lemma {:induction false} ToMapValueFrom<V>(d: Items<V>, k: string)
    requires k in ToMap(d)
    ensures exists i :: 0 <= i < |d| && d[i] == (k, ToMap(d)[k])
  {
    var last := d[|d| - 1];
    if last.0 != k {
      ToMapValueFrom(d[..|d| - 1], k);
      var i :| 0 <= i < |d| - 1 && d[..|d| - 1][i] == (k, ToMap(d[..|d| - 1])[k]);
      assert d[i] == (k, ToMap(d)[k]);
    }
  }

  /** For a dict, `ToMap` and `Get` agree. */
  lemma ToMapGet<V>(d: Items<V>, k: string)
    requires DistinctKeys(d)
    ensures Get(d, k) == if k in ToMap(d) then Some(ToMap(d)[k]) else None
  {
    if k in Keys(d) {
      var r := Get(d, k);
      var i :| 0 <= i < |d| && d[i] == (k, r.value);
      ToMapLastWins(d, i);
    }
  }

  /** Every item of a dict is what its mapping holds for that key. */
  lemma DictAt<V>(d: Items<V>, i: nat)
    requires DistinctKeys(d)
    requires i < |d|
    ensures d[i].0 in ToMap(d) && ToMap(d)[d[i].0] == d[i].1
  {
    ToMapLastWins(d, i);
  }

  /** After `d[k] = v` the mapping holds `v` at `k`. */
  lemma ToMapAssignAt<V>(d: Items<V>, k: string, v: V)
    requires DistinctKeys(d)
    ensures k in ToMap(Assign(d, k, v)) && ToMap(Assign(d, k, v))[k] == v
  {
    var r := Assign(d, k, v);
    AssignDistinct(d, k, v);
    if k in Keys(d) {
      var i :| 0 <= i < |d| && d[i].0 == k;
      assert r[i] == (k, v);
      DictAt(r, i);
    } else {
      assert r[|d|] == (k, v);
      DictAt(r, |d|);
    }
  }

  /** After `d[k] = v` every other key keeps its value. */
  lemma ToMapAssignElsewhere<V>(d: Items<V>, k: string, v: V, x: string)
    requires DistinctKeys(d)
    requires x != k && x in Keys(d)
    ensures x in ToMap(Assign(d, k, v)) && ToMap(Assign(d, k, v))[x] == ToMap(d)[x]
  {
    var r := Assign(d, k, v);
    AssignDistinct(d, k, v);
    var i :| 0 <= i < |d| && d[i].0 == x;
    assert r[i] == d[i];
    DictAt(d, i);
    DictAt(r, i);
  }

  /** Assigning a key of a dict updates exactly that key of its mapping. */
  lemma ToMapAssign<V>(d: Items<V>, k: string, v: V)
    requires DistinctKeys(d)
    ensures ToMap(Assign(d, k, v)) == ToMap(d)[k := v]
  {
    var r := Assign(d, k, v);
    var want := ToMap(d)[k := v];
    assert ToMap(r).Keys == want.Keys;
    ToMapAssignAt(d, k, v);
    forall x | x in want && x != k
      ensures ToMap(r)[x] == want[x]
    {
      ToMapAssignElsewhere(d, k, v, x);
    }
  }

  /** After `d[k] = v`, `d.get(k)` is `v` and every other key reads as before. */
  lemma GetAssign<V>(d: Items<V>, k: string, v: V, x: string)
    requires DistinctKeys(d)
    ensures Get(Assign(d, k, v), x) == if x == k then Some(v) else Get(d, x)
  {
    AssignDistinct(d, k, v);
    ToMapGet(Assign(d, k, v), x);
    ToMapGet(d, x);
    ToMapAssign(d, k, v);
  }

  /** `d[k] = v` followed by `del d[j]` for another key `j`. */
  lemma AssignThenRemove<V>(d: Items<V>, k: string, v: V, j: string)
    requires DistinctKeys(d)
    requires k != j
    ensures Keys(Remove(Assign(d, k, v), j)) == Keys(d) + {k} - {j}
    ensures Get(Remove(Assign(d, k, v), j), k) == Some(v)
    ensures forall x :: x != k && x != j ==> Get(Remove(Assign(d, k, v), j), x) == Get(d, x)
  {
    GetAssign(d, k, v, k);
    forall x | x != k && x != j
      ensures Get(Remove(Assign(d, k, v), j), x) == Get(d, x)
    {
      GetAssign(d, k, v, x);
    }
  }

  /** Deleting a key of a dict deletes exactly that key of its mapping. */
  lemma ToMapRemove<V>(d: Items<V>, k: string)
    requires DistinctKeys(d)
    ensures ToMap(Remove(d, k)) == ToMap(d) - {k}
  {
    var r := Remove(d, k);
    RemoveDistinct(d, k);
    forall x | x in ToMap(r)
      ensures ToMap(r)[x] == ToMap(d)[x]
    {
      ToMapGet(r, x);
      ToMapGet(d, x);
    }
  }

  /** An argparse namespace, whose attributes `vars(args)` shows as a dict;
      the entry points assign and delete its attributes in place. */
  class Namespace<C> {
    var attrs: Items<Attr<C>>

    constructor(attrs: Items<Attr<C>>)
      ensures this.attrs == attrs
    {
      this.attrs := attrs;
    }
  }
}
