/** The Monte Carlo chain store of eeyore/mcmc/mcchain.py: a dictionary from
    field name to the list of values recorded for that field, one value per
    recorded step. */
module MCChains {
  import opened Numerics

  /** A value the samplers record: a 1-D tensor (`theta`, `grad_val`), a
      0-dim tensor (`target_val`) or a Python int (`accepted`). */
  datatype Value = Tensor(elems: Vec) | Scalar(x: real) | Int(i: int)

  /** The field-to-list dictionary `self.vals`. */
  type Store = map<string, seq<Value>>

  /** One step's field-to-value dictionary, as passed to `update`. */
  type Record = map<string, Value>

  /** The constructor's default key list. */
  const DefaultKeys: seq<string> := ["theta", "target_val", "accepted"]

  function KeySet(keys: seq<string>): set<string>
  {
    set k | k in keys
  }

  predicate Distinct(keys: seq<string>)
  {
    forall i, j :: 0 <= i < j < |keys| ==> keys[i] != keys[j]
  }

  /** The number of occurrences of `k` in `keys`. */
  function Count(keys: seq<string>, k: string): (n: nat)
    ensures n <= |keys|
    ensures n == 0 <==> k !in keys
  {
    if keys == [] then 0
    else Count(keys[..|keys| - 1], k) + (if keys[|keys| - 1] == k then 1 else 0)
  }

  /** A key listed once is counted once. */
  lemma {:induction false} CountDistinct(keys: seq<string>, k: string)
    requires Distinct(keys) && k in keys
    ensures Count(keys, k) == 1
  {
    var init := keys[..|keys| - 1];
    if keys[|keys| - 1] == k {
      assert k !in init by {
        forall i | 0 <= i < |init| ensures init[i] != k {
          assert keys[i] != keys[|keys| - 1];
        }
      }
    } else {
      assert k in init by {
        var i :| 0 <= i < |keys| && keys[i] == k;
        assert init[i] == k;
      }
      CountDistinct(init, k);
    }
  }

  /** `n` copies of `v`. */
  function Repeat(v: Value, n: nat): (r: seq<Value>)
    ensures |r| == n
    ensures forall i :: 0 <= i < n ==> r[i] == v
  {
    if n == 0 then [] else Repeat(v, n - 1) + [v]
  }

  /** The store `reset` builds: every declared key maps to an empty list. */
  function Empty(keys: seq<string>): (r: Store)
    ensures r.Keys == KeySet(keys)
    ensures forall k :: k in r ==> r[k] == []
  {
    map k | k in keys :: []
  }

  /** The store after `update(s)`: the loop over `keys` appends `s[k]` to the
      list of each listed key in turn, so a key listed twice gets two copies. */
  function Appended(vals: Store, keys: seq<string>, s: Record): (r: Store)
    requires forall k :: k in keys ==> k in s
    ensures r.Keys == vals.Keys
  {
    if keys == [] then vals
    else
      var m := Appended(vals, keys[..|keys| - 1], s);
      var key := keys[|keys| - 1];
      if key in m then m[key := m[key] + [s[key]]] else m
  }

  /** `update(s)` leaves the lists of undeclared keys alone and appends to the
      list of a declared key one copy of `s[k]` per listing. */
  lemma {:induction false} AppendedAt(vals: Store, keys: seq<string>, s: Record, k: string)
    requires forall k :: k in keys ==> k in s
    requires k in vals
    ensures k !in keys ==> Appended(vals, keys, s)[k] == vals[k]
    ensures k in keys ==> Appended(vals, keys, s)[k] == vals[k] + Repeat(s[k], Count(keys, k))
  {
    if keys != [] {
      var init := keys[..|keys| - 1];
      AppendedAt(vals, init, s, k);
      if k in init {
        assert k in keys;
      }
    }
  }

  /** One more key in the loop of `update(s)` appends `s[key]` to its list. */
  lemma AppendedOneMore(vals: Store, keys: seq<string>, s: Record, i: nat)
    requires forall k :: k in keys ==> k in s
    requires i < |keys| && keys[i] in vals
    ensures keys[i] in Appended(vals, keys[..i], s)
    ensures Appended(vals, keys[..i + 1], s)
         == Appended(vals, keys[..i], s)[keys[i] := Appended(vals, keys[..i], s)[keys[i]] + [s[keys[i]]]]
  {
    assert keys[..i + 1][..i] == keys[..i];
  }

  /** With distinct keys, `update(s)` appends exactly `s[k]` to every list. */
  lemma AppendedOnce(vals: Store, keys: seq<string>, s: Record)
    requires Distinct(keys) && vals.Keys == KeySet(keys)
    requires forall k :: k in keys ==> k in s
    ensures forall k :: k in vals ==> Appended(vals, keys, s)[k] == vals[k] + [s[k]]
  {
    forall k | k in vals ensures Appended(vals, keys, s)[k] == vals[k] + [s[k]] {
      CountDistinct(keys, k);
      AppendedAt(vals, keys, s, k);
    }
  }

  /** All lists of the store have the same length. */
  predicate EqualLengths(vals: Store)
  {
    forall k, k' :: k in vals && k' in vals ==> |vals[k]| == |vals[k']|
  }

  /** With distinct keys, `update` keeps the lists of equal length and makes
      each one exactly one longer. */
  lemma UpdateKeepsEqualLengths(vals: Store, keys: seq<string>, s: Record)
    requires Distinct(keys) && vals.Keys == KeySet(keys) && EqualLengths(vals)
    requires forall k :: k in keys ==> k in s
    ensures EqualLengths(Appended(vals, keys, s))
    ensures forall k :: k in vals ==> |Appended(vals, keys, s)[k]| == |vals[k]| + 1
  {
    AppendedOnce(vals, keys, s);
  }

  /** The dictionary `state()` returns: the last value of every non-empty list. */
  function LastValues(vals: Store): (r: Record)
    ensures forall k :: k in r <==> k in vals && vals[k] != []
    ensures forall k :: k in r ==> r[k] == vals[k][|vals[k]| - 1]
  {
    map k | k in vals && vals[k] != [] :: vals[k][|vals[k]| - 1]
  }

  /** The keys `state()` warns about: those whose list is empty. */
  function EmptyKeys(vals: Store): (r: set<string>)
    ensures forall k :: k in r <==> k in vals && vals[k] == []
  {
    set k | k in vals && vals[k] == []
  }

  /** Restricting a record to the key set of `keys` is restricting it to `keys`. */
  lemma RestrictToKeySet(s: Record, dom: set<string>, keys: seq<string>)
    requires dom == KeySet(keys) && dom <= s.Keys
    ensures (map k | k in dom :: s[k]) == (map k | k in keys :: s[k])
  {
    var m, m' := map k | k in dom :: s[k], map k | k in keys :: s[k];
    assert m.Keys == m'.Keys;
  }

  /** Right after `update(s)`, `state()` is `s` restricted to the declared keys
      and warns about nothing: a key listed several times gets several copies
      of `s[k]`, so its list still ends in `s[k]`. */
  lemma StateAfterUpdate(vals: Store, keys: seq<string>, s: Record)
    requires vals.Keys == KeySet(keys)
    requires forall k :: k in keys ==> k in s
    ensures LastValues(Appended(vals, keys, s)) == map k | k in keys :: s[k]
    ensures EmptyKeys(Appended(vals, keys, s)) == {}
  {
    var after := Appended(vals, keys, s);
    forall k | k in vals ensures after[k] != [] && after[k][|after[k]| - 1] == s[k] {
      AppendedAt(vals, keys, s, k);
    }
    var last, expected := LastValues(after), map k | k in vals :: s[k];
    assert last.Keys == expected.Keys;
    RestrictToKeySet(s, vals.Keys, keys);
    forall k | k in EmptyKeys(after) ensures false {
    }
  }

  /** The store after one `update` per record, in order. */
  function AppendRecords(vals: Store, keys: seq<string>, recs: seq<Record>): (r: Store)
    requires forall i, k :: 0 <= i < |recs| && k in keys ==> k in recs[i]
    ensures r.Keys == vals.Keys
  {
    if recs == [] then vals
    else Appended(AppendRecords(vals, keys, recs[..|recs| - 1]), keys, recs[|recs| - 1])
  }

  /** One more record is one more `update`. */
  lemma AppendRecordsOneMore(vals: Store, keys: seq<string>, recs: seq<Record>, s: Record)
    requires forall i, k :: 0 <= i < |recs| && k in keys ==> k in recs[i]
    requires forall k :: k in keys ==> k in s
    ensures AppendRecords(vals, keys, recs + [s]) == Appended(AppendRecords(vals, keys, recs), keys, s)
  {
    assert (recs + [s])[..|recs|] == recs;
  }

  /** The values of field `k` in a sequence of records. */
  function Field(recs: seq<Record>, k: string): (r: seq<Value>)
    requires forall i :: 0 <= i < |recs| ==> k in recs[i]
    ensures |r| == |recs|
    ensures forall i :: 0 <= i < |recs| ==> r[i] == recs[i][k]
  {
    if recs == [] then [] else Field(recs[..|recs| - 1], k) + [recs[|recs| - 1][k]]
  }

  /** With distinct keys, a run of updates appends to the list of key `k` the
      field `k` of each record in turn and leaves the earlier entries as they
      were. */
  lemma {:induction false} AppendRecordsFieldAt(vals: Store, keys: seq<string>, recs: seq<Record>, k: string)
    requires Distinct(keys) && vals.Keys == KeySet(keys)
    requires forall i, k :: 0 <= i < |recs| && k in keys ==> k in recs[i]
    requires k in vals
    ensures AppendRecords(vals, keys, recs)[k] == vals[k] + Field(recs, k)
  {
    if recs != [] {
      var init, last := recs[..|recs| - 1], recs[|recs| - 1];
      AppendRecordsFieldAt(vals, keys, init, k);
      var mid := AppendRecords(vals, keys, init);
      assert AppendRecords(vals, keys, recs) == Appended(mid, keys, last);
      CountDistinct(keys, k);
      AppendedAt(mid, keys, last, k);
      assert Repeat(last[k], 1) == [last[k]];
      var before := Field(init, k);
      assert Field(recs, k) == before + [last[k]];
      ConcatAssociative(vals[k], before, [last[k]]);
    }
  }

  /** The same for every key at once. */
  lemma AppendRecordsFields(vals: Store, keys: seq<string>, recs: seq<Record>)
    requires Distinct(keys) && vals.Keys == KeySet(keys)
    requires forall i, k :: 0 <= i < |recs| && k in keys ==> k in recs[i]
    ensures forall k :: k in vals ==> AppendRecords(vals, keys, recs)[k] == vals[k] + Field(recs, k)
  {
    forall k | k in vals ensures AppendRecords(vals, keys, recs)[k] == vals[k] + Field(recs, k) {
      AppendRecordsFieldAt(vals, keys, recs, k);
    }
  }

  /** Python indexing `s[i]`, where a negative `i` counts from the end. */
  function PyIndex(s: Vec, i: int): real
    requires -|s| <= i < |s|
  {
    if i >= 0 then s[i] else s[|s| + i]
  }

  /** Every value is a tensor that can be indexed at `i`. */
  predicate Indexable(ts: seq<Value>, i: int)
  {
    forall j :: 0 <= j < |ts| ==> ts[j].Tensor? && -|ts[j].elems| <= i < |ts[j].elems|
  }

  /** `[theta[i].item() for theta in ts]`: coordinate `i` of every tensor, in order. */
  function Column(ts: seq<Value>, i: int): (r: seq<real>)
    requires Indexable(ts, i)
    ensures |r| == |ts|
    ensures forall j :: 0 <= j < |ts| ==> r[j] == PyIndex(ts[j].elems, i)
  {
    if ts == [] then [] else Column(ts[..|ts| - 1], i) + [PyIndex(ts[|ts| - 1].elems, i)]
  }

  /** Every value is a tensor of length `d`, so that `torch.stack` accepts them. */
  predicate SameShape(ts: seq<Value>, d: nat)
  {
    forall j :: 0 <= j < |ts| ==> ts[j].Tensor? && |ts[j].elems| == d
  }

  /** The coordinate-wise sum of tensors of length `d`. */
  function VecSum(ts: seq<Value>, d: nat): (r: Vec)
    requires SameShape(ts, d)
    ensures |r| == d
  {
    if ts == [] then Zeros(d) else Add(VecSum(ts[..|ts| - 1], d), ts[|ts| - 1].elems)
  }

  /** Coordinate `j` of the sum is the sum of coordinate `j` of every tensor. */
  lemma {:induction false} VecSumColumn(ts: seq<Value>, d: nat)
    requires SameShape(ts, d)
    ensures forall j :: 0 <= j < d ==> VecSum(ts, d)[j] == Sum(Column(ts, j))
  {
    if ts != [] {
      var init := ts[..|ts| - 1];
      VecSumColumn(init, d);
      forall j | 0 <= j < d ensures VecSum(ts, d)[j] == Sum(Column(ts, j)) {
        assert Column(ts, j)[..|ts| - 1] == Column(init, j);
      }
    }
  }

  /** A value `torch.tensor(..., dtype=torch.float)` turns into a float. */
  predicate IsNumber(v: Value)
  {
    v.Int? || v.Scalar?
  }

  function ToReal(v: Value): real
    requires IsNumber(v)
  {
    if v.Int? then v.i as real else v.x
  }

  /** The values as reals, in order. */
  function Numbers(vs: seq<Value>): (r: seq<real>)
    requires forall j :: 0 <= j < |vs| ==> IsNumber(vs[j])
    ensures |r| == |vs|
    ensures forall j :: 0 <= j < |vs| ==> r[j] == ToReal(vs[j])
  {
    if vs == [] then [] else Numbers(vs[..|vs| - 1]) + [ToReal(vs[|vs| - 1])]
  }

  /** Every value is the int 0 or the int 1. */
  predicate AllFlags(vs: seq<Value>)
  {
    forall j :: 0 <= j < |vs| ==> vs[j] == Int(0) || vs[j] == Int(1)
  }

  /** The mean of a non-empty list of 0/1 flags lies in [0, 1]. */
  lemma FlagAverageBounds(vs: seq<Value>)
    requires |vs| > 0 && forall j :: 0 <= j < |vs| ==> IsNumber(vs[j])
    ensures AllFlags(vs) ==> 0.0 <= Average(Numbers(vs)) <= 1.0
  {
    if AllFlags(vs) {
      AverageBounds(Numbers(vs));
    }
  }

  class MCChain {
    /** The declared field names, in order. */
    const keys: seq<string>
    /** `self.vals`: one list per declared key. */
    var vals: Store

    /** The lists are exactly those of the declared keys. */
    ghost predicate Valid()
      reads this
    {
      vals.Keys == KeySet(keys)
    }

    /** `MCChain(keys)`: declares the keys and resets. */
    constructor (keys: seq<string> := DefaultKeys)
      ensures Valid()
      ensures this.keys == keys && vals == Empty(keys)
    {
      this.keys := keys;
      new;
      Reset();
    }

    /** `len(chain)`: the length of the `theta` list. */
    function Length(): (n: nat)
      reads this
      requires "theta" in vals
      ensures EqualLengths(vals) ==> forall k :: k in vals ==> |vals[k]| == n
    {
      |vals["theta"]|
    }

    /** Gives every declared key an empty list. */
    method Reset()
      modifies this
      ensures Valid()
      ensures vals == Empty(keys)
      ensures "theta" in keys ==> Length() == 0
    {
      vals := Empty(keys);
    }

    /** `get_theta(i)`: coordinate `i` of every stored theta, in chain order. */
    function GetTheta(i: int): (r: seq<real>)
      reads this
      requires "theta" in vals && Indexable(vals["theta"], i)
      ensures |r| == Length()
      ensures forall j :: 0 <= j < |r| ==> r[j] == PyIndex(vals["theta"][j].elems, i)
    {
      Column(vals["theta"], i)
    }

    /** `state()`: the last value of every non-empty list; `missing` holds the
        keys whose list is empty, for which the source prints a warning. */
    method State() returns (current: Record, missing: set<string>)
      ensures current == LastValues(vals)
      ensures missing == EmptyKeys(vals)
    {
      current, missing := map[], {};
      var todo := vals.Keys;
      while todo != {}
        invariant todo <= vals.Keys
        invariant current == LastValues(vals - todo)
        invariant missing == EmptyKeys(vals - todo)
        decreases todo
      {
        var key :| key in todo;
        var val := vals[key];
        if val != [] {
          current := current[key := val[|val| - 1]];
        } else {
          missing := missing + {key};
        }
        todo := todo - {key};
      }
      assert vals - {} == vals;
    }

    /** `update(s)`: appends `s[key]` to the list of every declared key. The
        source raises on a declared key missing from `s`. */
    method Update(s: Record)
      requires Valid()
      requires forall k :: k in keys ==> k in s
      modifies this
      ensures Valid()
      ensures vals == Appended(old(vals), keys, s)
    {
      var i := 0;
      assert keys[..0] == [];
      while i < |keys|
        invariant 0 <= i <= |keys|
        invariant vals == Appended(old(vals), keys[..i], s)
      {
        var key := keys[i];
        AppendedOneMore(old(vals), keys, s, i);
        vals := vals[key := vals[key] + [s[key]]];
        i := i + 1;
      }
      assert keys[..|keys|] == keys;
    }

    /** `mean()`: the coordinate-wise mean of the stored thetas; coordinate `j`
        is the mean of `get_theta(j)`. `torch.stack` needs at least one theta,
        all of one shape. */
    function Mean(): (r: Vec)
      reads this
      requires "theta" in vals && |vals["theta"]| > 0 && vals["theta"][0].Tensor?
      requires SameShape(vals["theta"], |vals["theta"][0].elems|)
      ensures |r| == |vals["theta"][0].elems|
      ensures forall j :: 0 <= j < |r| ==> r[j] == Average(Column(vals["theta"], j))
    {
      var ts := vals["theta"];
      var d := |ts[0].elems|;
      VecSumColumn(ts, d);
      Divide(VecSum(ts, d), |ts| as real)
    }

    /** `acceptance_rate()`: the mean of the `accepted` list, or `None` where
        the mean of an empty tensor is NaN. */
    function AcceptanceRate(): (r: Option<real>)
      reads this
      requires "accepted" in vals
      requires forall j :: 0 <= j < |vals["accepted"]| ==> IsNumber(vals["accepted"][j])
      ensures r.None? <==> vals["accepted"] == []
      ensures r.Some? ==> r.value == Average(Numbers(vals["accepted"]))
      ensures r.Some? && AllFlags(vals["accepted"]) ==> 0.0 <= r.value <= 1.0
    {
      var acc := vals["accepted"];
      if acc == [] then None
      else
        FlagAverageBounds(acc);
        Some(Average(Numbers(acc)))
    }
  }

  /** A chain holding one theta `v` has mean `v`. */
  lemma MeanOfOne(c: MCChain, v: Vec)
    requires "theta" in c.vals && c.vals["theta"] == [Tensor(v)]
    ensures c.Mean() == v
  {
    MeanOfConstant(c, v);
  }

  /** A chain whose every theta is `v` has mean `v`. */
  lemma MeanOfConstant(c: MCChain, v: Vec)
    requires "theta" in c.vals && |c.vals["theta"]| > 0
    requires forall j :: 0 <= j < |c.vals["theta"]| ==> c.vals["theta"][j] == Tensor(v)
    ensures c.Mean() == v
  {
    var ts := c.vals["theta"];
    forall j | 0 <= j < |v| ensures c.Mean()[j] == v[j] {
      AverageConstant(Column(ts, j), v[j]);
    }
  }

  /** A chain in which every step was accepted has acceptance rate exactly 1. */
  lemma AllAcceptedRate(c: MCChain)
    requires "accepted" in c.vals && c.vals["accepted"] != []
    requires forall j :: 0 <= j < |c.vals["accepted"]| ==> c.vals["accepted"][j] == Int(1)
    ensures c.AcceptanceRate() == Some(1.0)
  {
    AverageConstant(Numbers(c.vals["accepted"]), 1.0);
  }

  /** A chain with distinct keys filled from empty by a run of updates holds,
      for every key, that field of each record in turn. */
  lemma FilledFromEmpty(c: MCChain, recs: seq<Record>)
    requires Distinct(c.keys)
    requires forall i, k :: 0 <= i < |recs| && k in c.keys ==> k in recs[i]
    requires c.vals == AppendRecords(Empty(c.keys), c.keys, recs)
    ensures forall k :: k in c.keys ==> k in c.vals && c.vals[k] == Field(recs, k)
  {
    AppendRecordsFields(Empty(c.keys), c.keys, recs);
  }

  /** A chain in which every step was rejected has acceptance rate exactly 0. */
  lemma AllRejectedRate(c: MCChain)
    requires "accepted" in c.vals && c.vals["accepted"] != []
    requires forall j :: 0 <= j < |c.vals["accepted"]| ==> c.vals["accepted"][j] == Int(0)
    ensures c.AcceptanceRate() == Some(0.0)
  {
    AverageConstant(Numbers(c.vals["accepted"]), 0.0);
  }
}
