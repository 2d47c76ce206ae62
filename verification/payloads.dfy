/**
  The sample-request builders of the two payload scripts: one request with
  every feature set to 0, and a batch of two rows, all 0s and all 1s.
  The first script uses the resolved names as dict keys directly; the second
  converts each name with `str` first.
 */
module Payloads {
  import opened Wrappers
  import opened Values

  /**
    `es` is a dict holding one entry per distinct name (up to key equality),
    every entry mapping to `v`.
   */
  predicate IsRowFor(es: seq<(Value, Value)>, names: seq<Value>, v: Value) {
    && DistinctKeys(es)
    && (forall i :: 0 <= i < |names| ==> HasKey(es, names[i]))
    && (forall j :: 0 <= j < |es| ==> es[j].1 == v && es[j].0 in names)
  }

  /** Some name in `ks` equals `k` as a dict key. */
  predicate KeyIn(ks: seq<Value>, k: Value) {
    exists i :: 0 <= i < |ks| && KeyEq(ks[i], k)
  }

  /** `k in ks` over a dict's key list is `k in d`. */
  lemma KeyInKeys(es: seq<(Value, Value)>, k: Value)
    ensures KeyIn(Keys(es), k) <==> HasKey(es, k)
  {
    var ks := Keys(es);
    if KeyIn(ks, k) {
      var i :| 0 <= i < |ks| && KeyEq(ks[i], k);
      assert KeyEq(es[i].0, k);
    }
    if HasKey(es, k) {
      var i :| 0 <= i < |es| && KeyEq(es[i].0, k);
      assert KeyEq(ks[i], k);
    }
  }

  /**
    The keys a dict comprehension over `names` ends up with: each name is
    inserted unless an equal key is already present, so the first occurrence
    of every name survives, in order.
   */
  function KeyOrder(names: seq<Value>): (ks: seq<Value>)
    decreases |names|
  {
    if |names| == 0 then []
    else
      var ks := KeyOrder(names[..|names| - 1]);
      var last := names[|names| - 1];
      if KeyIn(ks, last) then ks else ks + [last]
  }

  /** Every name is represented among the keys. */
  lemma {:induction false} KeyOrderCovers(names: seq<Value>)
    ensures forall i :: 0 <= i < |names| ==> KeyIn(KeyOrder(names), names[i])
    decreases |names|
  {
    if |names| > 0 {
      var init := names[..|names| - 1];
      var last := names[|names| - 1];
      KeyOrderCovers(init);
      var ks := KeyOrder(init);
      var r := KeyOrder(names);
      forall i | 0 <= i < |names|
        ensures KeyIn(r, names[i])
      {
        if i < |init| {
          assert names[i] == init[i];
          var j :| 0 <= j < |ks| && KeyEq(ks[j], init[i]);
          assert r[j] == ks[j];
        } else if !KeyIn(ks, last) {
          assert r[|ks|] == last;
        }
      }
    }
  }

  /** Only names appear among the keys. */
  lemma {:induction false} KeyOrderFromNames(names: seq<Value>)
    ensures forall j :: 0 <= j < |KeyOrder(names)| ==> KeyOrder(names)[j] in names
    decreases |names|
  {
    if |names| > 0 {
      var init := names[..|names| - 1];
      KeyOrderFromNames(init);
      var ks := KeyOrder(init);
      var r := KeyOrder(names);
      forall j | 0 <= j < |r|
        ensures r[j] in names
      {
        if j < |ks| {
          var i :| 0 <= i < |init| && init[i] == ks[j];
          assert names[i] == r[j];
        } else {
          assert r[j] == names[|names| - 1];
        }
      }
    }
  }

  /** No key appears twice. */
  lemma {:induction false} KeyOrderDistinct(names: seq<Value>)
    ensures forall i, j :: 0 <= i < j < |KeyOrder(names)| ==> !KeyEq(KeyOrder(names)[i], KeyOrder(names)[j])
    decreases |names|
  {
    if |names| > 0 {
      var init := names[..|names| - 1];
      var last := names[|names| - 1];
      KeyOrderDistinct(init);
      var ks := KeyOrder(init);
      var r := KeyOrder(names);
      forall i, j | 0 <= i < j < |r|
        ensures !KeyEq(r[i], r[j])
      {
        if j == |ks| {
          assert r[i] == ks[i];
          assert r[j] == last;
        } else {
          assert r[i] == ks[i] && r[j] == ks[j];
        }
      }
    }
  }

  /** The position of the first unhashable name. */
  function FirstUnhashable(names: seq<Value>): (r: Option<nat>)
    ensures r.None? <==> forall i :: 0 <= i < |names| ==> Hashable(names[i])
    ensures r.Some? ==> r.value < |names| && !Hashable(names[r.value])
    ensures r.Some? ==> forall j :: 0 <= j < r.value ==> Hashable(names[j])
    decreases |names|
  {
    if |names| == 0 then None
    else if !Hashable(names[0]) then Some(0)
    else
      match FirstUnhashable(names[1..])
      case Some(i) => Some(i + 1)
      case None =>
        assert forall j :: 1 <= j < |names| ==> names[j] == names[1..][j - 1];
        None
  }

  /** The dict whose keys are `ks`, in order, each mapping to `v`. */
  function RowOver(ks: seq<Value>, v: Value): (es: seq<(Value, Value)>)
    ensures |es| == |ks|
    ensures forall j :: 0 <= j < |ks| ==> es[j] == (ks[j], v)
  {
    seq(|ks|, j requires 0 <= j < |ks| => (ks[j], v))
  }

  /** Every name has an equal key in the row a comprehension builds. */
  lemma KeyOrderRowCovers(names: seq<Value>, v: Value)
    ensures forall i :: 0 <= i < |names| ==> HasKey(RowOver(KeyOrder(names), v), names[i])
  {
    KeyOrderCovers(names);
    var ks := KeyOrder(names);
    var es := RowOver(ks, v);
    forall i | 0 <= i < |names|
      ensures HasKey(es, names[i])
    {
      var j :| 0 <= j < |ks| && KeyEq(ks[j], names[i]);
      assert es[j].0 == ks[j];
    }
  }

  /** Filling the keys a comprehension keeps with `v` gives a row over the names. */
  lemma KeyOrderRow(names: seq<Value>, v: Value)
    ensures IsRowFor(RowOver(KeyOrder(names), v), names, v)
    ensures Keys(RowOver(KeyOrder(names), v)) == KeyOrder(names)
  {
    KeyOrderRowCovers(names, v);
    KeyOrderFromNames(names);
    KeyOrderDistinct(names);
    var ks := KeyOrder(names);
    var es := RowOver(ks, v);
    assert Keys(es) == ks;
  }

  /** `{name: v for name in names}`, raising at the first unhashable name. */
  function FromKeys(names: seq<Value>, v: Value): (r: Result<seq<(Value, Value)>, Exc>)
    ensures r.Err? <==> exists i :: 0 <= i < |names| && !Hashable(names[i])
    ensures r.Err? ==> r.error.TypeError?
    ensures r.Ok? ==> IsRowFor(r.value, names, v)
    ensures r.Ok? ==> Keys(r.value) == KeyOrder(names)
  {
    match FirstUnhashable(names)
    case Some(i) => Err(TypeError("unhashable type: '" + TypeName(names[i]) + "'"))
    case None =>
      KeyOrderRow(names, v);
      Ok(RowOver(KeyOrder(names), v))
  }

  /** With no two equal names, the keys are the names themselves, in order. */
  lemma {:induction false} DistinctNamesKeepOrder(names: seq<Value>)
    requires forall i, j :: 0 <= i < j < |names| ==> !KeyEq(names[i], names[j])
    ensures KeyOrder(names) == names
    decreases |names|
  {
    if |names| > 0 {
      var init := names[..|names| - 1];
      var last := names[|names| - 1];
      DistinctNamesKeepOrder(init);
      assert !KeyIn(init, last) by {
        forall j | 0 <= j < |init|
          ensures !KeyEq(init[j], last)
        {
          assert init[j] == names[j];
        }
      }
      assert init + [last] == names;
    }
  }

  /** `build_single_payload` of the first script. */
  function BuildSinglePayloadV1(names: seq<Value>): (r: Result<Value, Exc>)
    ensures r.Err? <==> exists i :: 0 <= i < |names| && !Hashable(names[i])
    ensures r.Ok? ==> IsSingleFor(r.value, names)
  {
    var row :- FromKeys(names, Num(0));
    Ok(Dict([(Str("features"), Dict(row))]))
  }

  /** `build_batch_payload` of the first script. */
  function BuildBatchPayloadV1(names: seq<Value>): (r: Result<Value, Exc>)
    ensures r.Err? <==> exists i :: 0 <= i < |names| && !Hashable(names[i])
    ensures r.Ok? ==> IsBatchFor(r.value, names)
  {
    match FromKeys(names, Num(0))
    case Err(e) => Err(e)
    case Ok(row1) =>
      var row2 := FromKeys(names, Num(1)).value;
      Ok(Dict([(Str("instances"), List([Dict(row1), Dict(row2)]))]))
  }

  /** A single request: one key "features" holding a row of 0s over `names`. */
  predicate IsSingleFor(p: Value, names: seq<Value>) {
    && p.Dict? && |p.entries| == 1
    && p.entries[0].0 == Str("features")
    && p.entries[0].1.Dict?
    && IsRowFor(p.entries[0].1.entries, names, Num(0))
  }

  /** A batch request: one key "instances" holding a row of 0s and then a row of 1s over `names`. */
  predicate IsBatchFor(p: Value, names: seq<Value>) {
    && p.Dict? && |p.entries| == 1
    && p.entries[0].0 == Str("instances")
    && p.entries[0].1.List? && |p.entries[0].1.items| == 2
    && p.entries[0].1.items[0].Dict? && p.entries[0].1.items[1].Dict?
    && IsRowFor(p.entries[0].1.items[0].entries, names, Num(0))
    && IsRowFor(p.entries[0].1.items[1].entries, names, Num(1))
    && Keys(p.entries[0].1.items[0].entries) == Keys(p.entries[0].1.items[1].entries)
  }

  /** Two rows over the same key order make a batch request. */
  lemma BatchOfTwoRows(row1: seq<(Value, Value)>, row2: seq<(Value, Value)>, names: seq<Value>)
    requires IsRowFor(row1, names, Num(0)) && IsRowFor(row2, names, Num(1))
    requires Keys(row1) == Keys(row2)
    ensures IsBatchFor(Dict([(Str("instances"), List([Dict(row1), Dict(row2)]))]), names)
  {
  }

  /** `[str(name) for name in names]` */
  function StrNames(names: seq<Value>): (ss: seq<Value>)
    ensures |ss| == |names|
    ensures forall i :: 0 <= i < |names| ==> ss[i].Str?
    ensures forall i :: 0 <= i < |names| ==> ss[i] == Str(PyStr(names[i]))
  {
    seq(|names|, i requires 0 <= i < |names| => Str(PyStr(names[i])))
  }

  /** Every key of every row is a string. */
  predicate StringKeys(es: seq<(Value, Value)>) {
    forall j :: 0 <= j < |es| ==> es[j].0.Str?
  }

  /** A row over string names has string keys only. */
  lemma RowOverStringsHasStringKeys(es: seq<(Value, Value)>, names: seq<Value>)
    requires forall j :: 0 <= j < |es| ==> es[j].0 in names
    requires forall i :: 0 <= i < |names| ==> names[i].Str?
    ensures StringKeys(es)
  {
    forall j | 0 <= j < |es|
      ensures es[j].0.Str?
    {
      var i :| 0 <= i < |names| && names[i] == es[j].0;
    }
  }

  /** `{str(name): v for name in names}`: every key a string, and it cannot fail. */
  function StrRow(names: seq<Value>, v: Value): (es: seq<(Value, Value)>)
    ensures IsRowFor(es, StrNames(names), v)
    ensures StringKeys(es)
    ensures Keys(es) == KeyOrder(StrNames(names))
  {
    var ns := StrNames(names);
    KeyOrderRow(ns, v);
    RowOverStringsHasStringKeys(RowOver(KeyOrder(ns), v), ns);
    RowOver(KeyOrder(ns), v)
  }

  /** `build_single_payload` of the second script. */
  function BuildSinglePayloadV2(names: seq<Value>): (r: Value)
    ensures IsSingleFor(r, StrNames(names))
    ensures StringKeys(r.entries[0].1.entries)
  {
    Dict([(Str("features"), Dict(StrRow(names, Num(0))))])
  }

  /** `build_batch_payload` of the second script. */
  function BuildBatchPayloadV2(names: seq<Value>): (r: Value)
    ensures IsBatchFor(r, StrNames(names))
    ensures StringKeys(r.entries[0].1.items[0].entries) && StringKeys(r.entries[0].1.items[1].entries)
  {
    var row1 := StrRow(names, Num(0));
    var row2 := StrRow(names, Num(1));
    BatchOfTwoRows(row1, row2, StrNames(names));
    Dict([(Str("instances"), List([Dict(row1), Dict(row2)]))])
  }

  /** `str` leaves string names unchanged. */
  lemma StrNamesOfStrings(names: seq<Value>)
    requires forall i :: 0 <= i < |names| ==> names[i].Str?
    ensures StrNames(names) == names
  {
  }

  /** On string names the comprehension of the second script is that of the first. */
  lemma StrRowOnStrings(names: seq<Value>, v: Value)
    requires forall i :: 0 <= i < |names| ==> names[i].Str?
    ensures FromKeys(names, v) == Ok(StrRow(names, v))
  {
    StrNamesOfStrings(names);
    assert FirstUnhashable(names).None?;
  }

  /** On string names the two scripts build the same single request. */
  lemma SingleV2MatchesV1OnStrings(names: seq<Value>)
    requires forall i :: 0 <= i < |names| ==> names[i].Str?
    ensures BuildSinglePayloadV1(names) == Ok(BuildSinglePayloadV2(names))
  {
    StrRowOnStrings(names, Num(0));
  }

  /** On string names the two scripts build the same batch request. */
  lemma BatchV2MatchesV1OnStrings(names: seq<Value>)
    requires forall i :: 0 <= i < |names| ==> names[i].Str?
    ensures BuildBatchPayloadV1(names) == Ok(BuildBatchPayloadV2(names))
  {
    StrRowOnStrings(names, Num(0));
    StrRowOnStrings(names, Num(1));
  }
}
