/**
 * emailworker/util.py: binding a mapping of named arguments to a callable's
 * declared parameters (`bind_and_call`) and dropping keys from a mapping
 * (`stripkeys`). A callable is represented by its parameter list; the
 * binder returns the keyword mapping the callable is then invoked with.
 */
module Util {
  import opened Types
  import opened Dicts

  /** `key.replace('-', '_')` */
  function NormalizeKey(key: string): (r: string)
    ensures |r| == |key|
    ensures forall i :: 0 <= i < |key| ==> r[i] == (if key[i] == '-' then '_' else key[i])
  {
    if key == [] then []
    else [if key[0] == '-' then '_' else key[0]] + NormalizeKey(key[1..])
  }

  /** After normalisation no key contains `-`. */
  lemma NormalizeKeyNoDash(key: string)
    ensures '-' !in NormalizeKey(key)
  {
    var r := NormalizeKey(key);
    forall i | 0 <= i < |r| ensures r[i] != '-' {
    }
  }

  /** Normalising twice is normalising once. */
  lemma NormalizeKeyIdempotent(key: string)
    ensures NormalizeKey(NormalizeKey(key)) == NormalizeKey(key)
  {
  }

  /** Keys without `-` pass through unchanged. */
  lemma NormalizeKeyUnchanged(key: string)
    requires '-' !in key
    ensures NormalizeKey(key) == key
  {
    var r := NormalizeKey(key);
    forall i | 0 <= i < |key| ensures r[i] == key[i] {
      assert key[i] != '-';
    }
  }

  /** A name with neither `-` nor `_` is the normal form of itself only. */
  lemma NormalizeKeyExact(key: string, name: string)
    requires '-' !in name && '_' !in name
    ensures NormalizeKey(key) == name <==> key == name
  {
    if NormalizeKey(key) == name {
      forall i | 0 <= i < |key| ensures key[i] == name[i] {
        assert NormalizeKey(key)[i] == name[i];
        assert name[i] != '_';
      }
    } else {
      if key == name { NormalizeKeyUnchanged(key); }
    }
  }

  /** The items of `data` with every key normalised, in iteration order. */
  function RenameKeys<V>(data: Items<V>): (r: Items<V>)
    ensures |r| == |data|
    ensures forall i :: 0 <= i < |data| ==> r[i] == (NormalizeKey(data[i].0), data[i].1)
  {
    seq(|data|, i requires 0 <= i < |data| => (NormalizeKey(data[i].0), data[i].1))
  }

  /** Some key of `data` normalises to `k`. */
  ghost predicate NormalizesTo<V>(data: Items<V>, k: string)
  {
    exists i :: 0 <= i < |data| && NormalizeKey(data[i].0) == k
  }

  /** The dict comprehension of util.py:18-19: every key normalised, a later
      item overwriting an earlier one that normalises to the same key. No key
      of the result holds a `-`. */
  function NormalizedArguments<V>(data: Items<V>): (m: map<string, V>)
    ensures forall k :: k in m ==> '-' !in k
  {
    var renamed := RenameKeys(data);
    var m := ToMap(renamed);
    assert forall k :: k in m ==> '-' !in k by {
      forall k | k in m ensures '-' !in k {
        var i :| 0 <= i < |renamed| && renamed[i].0 == k;
        NormalizeKeyNoDash(data[i].0);
      }
    }
    m
  }

  /** The keys of the result are exactly the normalised keys of `data`. */
  lemma NormalizedKeys<V>(data: Items<V>)
    ensures forall k :: k in NormalizedArguments(data) <==> NormalizesTo(data, k)
  {
    var renamed := RenameKeys(data);
    var m := NormalizedArguments(data);
    forall k | k in m ensures NormalizesTo(data, k) {
      var i :| 0 <= i < |renamed| && renamed[i].0 == k;
    }
    forall i | 0 <= i < |data| ensures NormalizeKey(data[i].0) in m {
      assert renamed[i].0 == NormalizeKey(data[i].0);
    }
  }

  /** When two keys normalise to the same name, the later item's value is kept. */
  lemma NormalizedLastWins<V>(data: Items<V>, i: nat)
    requires i < |data|
    requires forall j :: i < j < |data| ==> NormalizeKey(data[j].0) != NormalizeKey(data[i].0)
    ensures NormalizedArguments(data)[NormalizeKey(data[i].0)] == data[i].1
  {
    ToMapLastWins(RenameKeys(data), i);
  }

  /** Values are carried over unchanged: each comes from an item whose key
      normalises to its key. */
  lemma NormalizedValueFrom<V>(data: Items<V>, k: string)
    requires k in NormalizedArguments(data)
    ensures exists i :: 0 <= i < |data| && NormalizeKey(data[i].0) == k && data[i].1 == NormalizedArguments(data)[k]
  {
    var renamed := RenameKeys(data);
    ToMapValueFrom(renamed, k);
    var i :| 0 <= i < |renamed| && renamed[i] == (k, ToMap(renamed)[k]);
  }

  /** For a dict whose keys hold no `-`, normalisation changes nothing. */
  lemma NormalizedWithoutDashes<V>(data: Items<V>)
    requires forall i :: 0 <= i < |data| ==> '-' !in data[i].0
    ensures NormalizedArguments(data) == ToMap(data)
  {
    var renamed := RenameKeys(data);
    forall i | 0 <= i < |data| ensures renamed[i] == data[i] {
      NormalizeKeyUnchanged(data[i].0);
    }
    assert renamed == data;
  }

  /** Two item lists that agree on where key `x` occurs, and with which
      values, give `x` the same entry in their mappings. */
  lemma {:induction false} ToMapAgreeOn<V>(e: Items<V>, f: Items<V>, x: string)
    requires |e| <= |f|
    requires forall i :: 0 <= i < |e| ==> (e[i].0 == x <==> f[i].0 == x)
    requires forall i :: 0 <= i < |e| && e[i].0 == x ==> e[i].1 == f[i].1
    requires forall i :: |e| <= i < |f| ==> f[i].0 != x
    ensures x in ToMap(e) <==> x in ToMap(f)
    ensures x in ToMap(e) ==> ToMap(e)[x] == ToMap(f)[x]
    decreases |f|
  {
    if |f| == 0 {
    } else if |e| < |f| {
      ToMapAgreeOn(e, f[..|f| - 1], x);
    } else {
      ToMapAgreeOn(e[..|e| - 1], f[..|f| - 1], x);
    }
  }

  /** Where the items of `Assign(d, k, v)` normalise to `k`: exactly at the
      item holding `k`, when `k` is its own normal form. */
  lemma NormalizeAssignHits<V>(d: Items<V>, k: string, v: V, j: nat)
    requires DistinctKeys(d)
    requires '-' !in k && '_' !in k
    requires j < |Assign(d, k, v)|
    ensures NormalizeKey(Assign(d, k, v)[j].0) == k <==> Assign(d, k, v)[j] == (k, v)
  {
    var a := Assign(d, k, v);
    NormalizeKeyExact(a[j].0, k);
    if j < |d| {
      assert a[j] == if d[j].0 == k then (k, v) else d[j];
    }
  }

  /** Setting a key that is its own normal form, then normalising, is the
      same as normalising and then setting that key. */
  lemma NormalizeAssign<V>(d: Items<V>, k: string, v: V)
    requires DistinctKeys(d)
    requires '-' !in k && '_' !in k
    ensures NormalizedArguments(Assign(d, k, v)) == NormalizedArguments(d)[k := v]
  {
    var lhs, rhs := NormalizedArguments(Assign(d, k, v)), NormalizedArguments(d)[k := v];
    NormalizeAssignAtKey(d, k, v);
    forall x
      ensures x in lhs <==> x in rhs
      ensures x in lhs ==> lhs[x] == rhs[x]
    {
      if x != k {
        NormalizeAssignElsewhere(d, k, v, x);
      }
    }
  }

  lemma NormalizeAssignAtKey<V>(d: Items<V>, k: string, v: V)
    requires DistinctKeys(d)
    requires '-' !in k && '_' !in k
    ensures k in NormalizedArguments(Assign(d, k, v))
    ensures NormalizedArguments(Assign(d, k, v))[k] == v
  {
    var a := Assign(d, k, v);
    assert k in Keys(a);
    var at :| 0 <= at < |a| && a[at].0 == k;
    NormalizeKeyUnchanged(k);
    NormalizeAssignHits(d, k, v, at);
    forall j | at < j < |a| ensures NormalizeKey(a[j].0) != NormalizeKey(a[at].0) {
      NormalizeAssignHits(d, k, v, j);
    }
    NormalizedLastWins(a, at);
  }

  lemma NormalizeAssignElsewhere<V>(d: Items<V>, k: string, v: V, x: string)
    requires DistinctKeys(d)
    requires '-' !in k && '_' !in k
    requires x != k
    ensures x in NormalizedArguments(Assign(d, k, v)) <==> x in NormalizedArguments(d)
    ensures x in NormalizedArguments(d) ==>
              NormalizedArguments(Assign(d, k, v))[x] == NormalizedArguments(d)[x]
  {
    var a := Assign(d, k, v);
    var e, f := RenameKeys(d), RenameKeys(a);
    forall i | 0 <= i < |d| ensures (e[i].0 == x <==> f[i].0 == x) && (e[i].0 == x ==> e[i].1 == f[i].1) {
      NormalizeAssignHits(d, k, v, i);
    }
    forall i | |d| <= i < |a| ensures f[i].0 != x {
      NormalizeAssignHits(d, k, v, i);
    }
    ToMapAgreeOn(e, f, x);
  }

  /** A declared parameter of a callable, without `*args` or `**kwargs`. */
  datatype Param = Param(name: string, required: bool)

  type Signature = seq<Param>

  function ParamNames(sig: Signature): set<string>
  {
    set i | 0 <= i < |sig| :: sig[i].name
  }

  /** The first required parameter, in declaration order, with no key. */
  function FirstMissing(sig: Signature, given: set<string>): (r: Option<string>)
    ensures r.None? <==> forall i :: 0 <= i < |sig| && sig[i].required ==> sig[i].name in given
    ensures r.Some? ==> exists i :: 0 <= i < |sig| && sig[i] == Param(r.value, true) && r.value !in given &&
                                    forall j :: 0 <= j < i && sig[j].required ==> sig[j].name in given
  {
    if sig == [] then None
    else if sig[0].required && sig[0].name !in given then Some(sig[0].name)
    else
      var r := FirstMissing(sig[1..], given);
      assert forall i :: 0 < i < |sig| ==> sig[i] == sig[1..][i - 1];
      assert r.Some? ==> exists i :: 0 < i < |sig| && sig[i] == Param(r.value, true) && r.value !in given &&
                                     forall j :: 0 <= j < i && sig[j].required ==> sig[j].name in given by {
        if r.Some? {
          var k :| 0 <= k < |sig[1..]| && sig[1..][k] == Param(r.value, true) && r.value !in given &&
                   forall j :: 0 <= j < k && sig[1..][j].required ==> sig[1..][j].name in given;
          assert sig[k + 1] == Param(r.value, true);
          assert forall j :: 0 < j < k + 1 && sig[j].required ==> sig[j].name in given by {
            forall j | 0 < j < k + 1 && sig[j].required
              ensures sig[j].name in given
            {
              assert sig[j] == sig[1..][j - 1];
            }
          }
        }
      }
      r
  }

  /** `inspect.signature(func).bind(**args)`: a required parameter without a
      key is reported first, then any key naming no parameter. */
  function Bind<V>(sig: Signature, args: map<string, V>): (r: Result<map<string, V>, BindError>)
    ensures r.Ok? <==>
              (forall i :: 0 <= i < |sig| && sig[i].required ==> sig[i].name in args) &&
              args.Keys <= ParamNames(sig)
    ensures r.Ok? ==> r.value == args
    ensures (exists i :: 0 <= i < |sig| && sig[i].required && sig[i].name !in args) ==>
              r.Err? && r.error.MissingArgument?
    ensures r.Err? && r.error.MissingArgument? ==>
              r.error.name !in args &&
              exists i :: 0 <= i < |sig| && sig[i] == Param(r.error.name, true) &&
                          forall j :: 0 <= j < i && sig[j].required ==> sig[j].name in args
    ensures r.Err? && r.error.UnexpectedKeywords? ==>
              r.error.keys == args.Keys - ParamNames(sig) && r.error.keys != {}
  {
    match FirstMissing(sig, args.Keys)
    case Some(n) => Err(MissingArgument(n))
    case None =>
      if args.Keys <= ParamNames(sig) then Ok(args)
      else
        var extra :| extra in args.Keys && extra !in ParamNames(sig);
        assert extra in args.Keys - ParamNames(sig);
        Err(UnexpectedKeywords(args.Keys - ParamNames(sig)))
  }

  /** Every required parameter of `sig` is named by a key of `data` and every
      key of `data` names a parameter, once normalised. */
  ghost predicate Bindable<V>(sig: Signature, data: Items<V>)
  {
    && (forall i :: 0 <= i < |sig| && sig[i].required ==> NormalizesTo(data, sig[i].name))
    && (forall j :: 0 <= j < |data| ==> NormalizeKey(data[j].0) in ParamNames(sig))
  }

  /** `bind_and_call(func, data)` up to the call: the keyword mapping `func`
      is invoked with, or the TypeError that `bind` raises instead. */
  function BindAndCall<V>(sig: Signature, data: Items<V>): (r: Result<map<string, V>, BindError>)
    ensures r.Ok? ==> r.value == NormalizedArguments(data)
  {
    Bind(sig, NormalizedArguments(data))
  }

  /** Binding succeeds exactly when every required parameter is named by a
      normalised key and every normalised key names a parameter: a missing
      argument and an unknown key both fail. */
  lemma BindAndCallSucceedsIff<V>(sig: Signature, data: Items<V>)
    ensures BindAndCall(sig, data).Ok? <==> Bindable(sig, data)
  {
    NormalizedKeys(data);
  }

  /** A callable with required parameters `a`, `b` and optional `c`. */
  function ExampleSignature(): (sig: Signature)
    ensures ParamNames(sig) == {"a", "b", "c"}
  {
    var sig := [Param("a", true), Param("b", true), Param("c", false)];
    assert sig[0].name == "a" && sig[1].name == "b" && sig[2].name == "c";
    sig
  }

  /** Binding `{a, b}` to `(a, b, c=None)` succeeds with both values. */
  lemma BindAllRequired(x: int, y: int)
    ensures BindAndCall(ExampleSignature(), [("a", x), ("b", y)]) == Ok(map["a" := x, "b" := y])
  {
    var data := [("a", x), ("b", y)];
    NormalizeKeyUnchanged("a");
    NormalizeKeyUnchanged("b");
    assert RenameKeys(data) == data;
    assert data[..1] == [("a", x)];
    assert ToMap([("a", x)]) == map["a" := x] by { assert [("a", x)][..0] == []; }
  }

  /** Binding `{a}` to `(a, b, c=None)` fails: `b` is missing. */
  lemma BindMissingB(x: int)
    ensures BindAndCall(ExampleSignature(), [("a", x)]) == Err(MissingArgument("b"))
  {
    NormalizeKeyUnchanged("a");
    assert RenameKeys([("a", x)]) == [("a", x)];
    assert ToMap([("a", x)]) == map["a" := x] by { assert [("a", x)][..0] == []; }
  }

  /** Binding `{a, b, d}` to `(a, b, c=None)` fails: `d` names no parameter. */
  lemma BindUnknownD(x: int)
    ensures BindAndCall(ExampleSignature(), [("a", x), ("b", x), ("d", x)]) == Err(UnexpectedKeywords({"d"}))
  {
    var data := [("a", x), ("b", x), ("d", x)];
    NormalizeKeyUnchanged("a");
    NormalizeKeyUnchanged("b");
    NormalizeKeyUnchanged("d");
    assert RenameKeys(data) == data;
    assert NormalizedArguments(data).Keys == {"a", "b", "d"} by {
      assert NormalizeKey(data[0].0) == "a" && NormalizeKey(data[1].0) == "b" && NormalizeKey(data[2].0) == "d";
    }
    BindExtraKey(NormalizedArguments(data));
  }

  /** Any mapping with keys `a`, `b` and `d` is rejected by `(a, b, c=None)`
      for its key `d`. */
  lemma BindExtraKey(m: map<string, int>)
    requires m.Keys == {"a", "b", "d"}
    ensures Bind(ExampleSignature(), m) == Err(UnexpectedKeywords({"d"}))
  {
    var sig := ExampleSignature();
    assert FirstMissing(sig, m.Keys) == None;
    assert m.Keys - ParamNames(sig) == {"d"};
  }

  /** A key spelled `a-b` binds the parameter `a_b`. */
  lemma BindDashedKey(x: int)
    ensures BindAndCall([Param("a_b", true)], [("a-b", x)]) == Ok(map["a_b" := x])
  {
    assert NormalizeKey("a-b") == "a_b";
    assert RenameKeys([("a-b", x)]) == [("a_b", x)];
    assert ToMap([("a_b", x)]) == map["a_b" := x] by { assert [("a_b", x)][..0] == []; }
    assert ParamNames([Param("a_b", true)]) == {"a_b"} by {
      assert [Param("a_b", true)][0].name == "a_b";
    }
  }

  /** `stripkeys(dict_, *keys)` */
  function StripKeys<V>(d: map<string, V>, keys: set<string>): (r: map<string, V>)
    ensures forall k :: k in r ==> k !in keys
    ensures forall k :: k in d && k !in keys ==> k in r && r[k] == d[k]
    ensures r.Keys <= d.Keys
  {
    map k | k in d && k !in keys :: d[k]
  }
}
