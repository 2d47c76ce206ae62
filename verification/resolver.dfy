/**
  The feature-list resolver of the two payload scripts (`load_features`):
  turns the parsed feature artifact into the ordered list of feature names.

  Both versions run the same algorithm: a top-level list is the answer; a dict
  is searched for the first recognised key whose value is a sequence; failing
  that, the dict's own keys are the answer; anything else is refused. The
  first script recognises only "features", the second a fixed priority list.
 */
module FeatureResolver {
  import opened Wrappers
  import opened Values

  const UNRECOGNIZED: string := "Unrecognized model_features.json format"

  /** The keys the second script tries, in priority order. */
  const CANDIDATE_KEYS: seq<string> :=
    ["features", "feature_names", "columns", "feature_names_in", "feature_names_in_"]

  /**
    `key in data and isinstance(data[key], Sequence)`. With `strict`, only a
    list is accepted (the corrected test, which refuses a string).
   */
  predicate Holds(entries: seq<(Value, Value)>, key: string, strict: bool) {
    var v := Get(entries, Str(key));
    v.Some? && (if strict then v.value.List? else IsSequence(v.value))
  }

  /** The position in `keys` of the first key that holds. */
  function FirstHeld(entries: seq<(Value, Value)>, keys: seq<string>, strict: bool): (r: Option<nat>)
    ensures r.Some? ==> r.value < |keys| && Holds(entries, keys[r.value], strict)
    ensures r.Some? ==> forall j :: 0 <= j < r.value ==> !Holds(entries, keys[j], strict)
    ensures r.None? <==> forall j :: 0 <= j < |keys| ==> !Holds(entries, keys[j], strict)
    decreases |keys|
  {
    if |keys| == 0 then None
    else if Holds(entries, keys[0], strict) then Some(0)
    else
      match FirstHeld(entries, keys[1..], strict)
      case Some(i) => Some(i + 1)
      case None =>
        assert forall j :: 1 <= j < |keys| ==> keys[j] == keys[1..][j - 1];
        None
  }

  /** A key that holds, with none holding before it, is the one found. */
  lemma {:induction false} FirstHeldAt(entries: seq<(Value, Value)>, keys: seq<string>, strict: bool, i: nat)
    requires i < |keys| && Holds(entries, keys[i], strict)
    requires forall j :: 0 <= j < i ==> !Holds(entries, keys[j], strict)
    ensures FirstHeld(entries, keys, strict) == Some(i)
    decreases i
  {
    if i > 0 {
      assert !Holds(entries, keys[0], strict);
      assert forall j :: 0 <= j < i - 1 ==> keys[1..][j] == keys[j + 1];
      FirstHeldAt(entries, keys[1..], strict, i - 1);
    }
  }

  /** The first key that holds is the one found. */
  lemma FirstHeldIsFirst(entries: seq<(Value, Value)>, keys: seq<string>, strict: bool)
    ensures forall i :: 0 <= i < |keys| && Holds(entries, keys[i], strict)
                        && (forall j :: 0 <= j < i ==> !Holds(entries, keys[j], strict))
                        ==> FirstHeld(entries, keys, strict) == Some(i)
  {
    forall i | 0 <= i < |keys| && Holds(entries, keys[i], strict)
               && (forall j :: 0 <= j < i ==> !Holds(entries, keys[j], strict))
      ensures FirstHeld(entries, keys, strict) == Some(i)
    {
      FirstHeldAt(entries, keys, strict, i);
    }
  }

  /** The sequence stored under a key that holds, as a list. */
  function HeldList(entries: seq<(Value, Value)>, key: string, strict: bool): seq<Value>
    requires Holds(entries, key, strict)
  {
    AsList(Get(entries, Str(key)).value)
  }

  /** The shared resolution algorithm, searching `keys` in order. */
  function Resolve(data: Value, keys: seq<string>, strict: bool): (r: Result<seq<Value>, Exc>)
    ensures r.Err? <==> !data.List? && !data.Dict?
    ensures r.Err? ==> r.error == ValueError(UNRECOGNIZED)
    ensures data.List? ==> r == Ok(data.items)
    ensures data.Dict? ==>
      forall i :: 0 <= i < |keys| && Holds(data.entries, keys[i], strict)
                  && (forall j :: 0 <= j < i ==> !Holds(data.entries, keys[j], strict))
                  ==> r == Ok(HeldList(data.entries, keys[i], strict))
    ensures data.Dict? && (forall j :: 0 <= j < |keys| ==> !Holds(data.entries, keys[j], strict))
      ==> r == Ok(Keys(data.entries))
  {
    if data.List? then Ok(data.items)
    else if data.Dict? then
      FirstHeldIsFirst(data.entries, keys, strict);
      match FirstHeld(data.entries, keys, strict)
      case Some(i) => Ok(HeldList(data.entries, keys[i], strict))
      case None => Ok(Keys(data.entries))
    else Err(ValueError(UNRECOGNIZED))
  }

  /** `load_features` of the first script, once the file is parsed. */
  function LoadFeaturesV1(data: Value): (r: Result<seq<Value>, Exc>)
    ensures r.Err? <==> !data.List? && !data.Dict?
    ensures r.Err? ==> r.error == ValueError(UNRECOGNIZED)
    ensures data.List? ==> r == Ok(data.items)
    ensures data.Dict? && Holds(data.entries, "features", false)
      ==> r == Ok(AsList(Get(data.entries, Str("features")).value))
    ensures data.Dict? && !Holds(data.entries, "features", false) ==> r == Ok(Keys(data.entries))
  {
    Resolve(data, ["features"], false)
  }

  /** `load_features` of the second script, once the file is parsed. */
  function LoadFeaturesV2(data: Value): (r: Result<seq<Value>, Exc>)
    ensures r.Err? <==> !data.List? && !data.Dict?
    ensures r.Err? ==> r.error == ValueError(UNRECOGNIZED)
    ensures data.List? ==> r == Ok(data.items)
    ensures data.Dict? ==>
      forall i :: 0 <= i < |CANDIDATE_KEYS| && Holds(data.entries, CANDIDATE_KEYS[i], false)
                  && (forall j :: 0 <= j < i ==> !Holds(data.entries, CANDIDATE_KEYS[j], false))
                  ==> r == Ok(AsList(Get(data.entries, Str(CANDIDATE_KEYS[i])).value))
    ensures data.Dict? && (forall j :: 0 <= j < |CANDIDATE_KEYS| ==> !Holds(data.entries, CANDIDATE_KEYS[j], false))
      ==> r == Ok(Keys(data.entries))
  {
    Resolve(data, CANDIDATE_KEYS, false)
  }

  /** A key of another length is not in a one-entry dict of string keys. */
  lemma AbsentFromSingle(a: string, va: Value, key: string)
    requires |key| != |a|
    ensures !HasKey([(Str(a), va)], Str(key))
  {
    assert !KeyEq([(Str(a), va)][0].0, Str(key));
  }

  /** A key of another length than both keys is not in a two-entry dict of string keys. */
  lemma AbsentFromPair(a: string, va: Value, b: string, vb: Value, key: string)
    requires |key| != |a| && |key| != |b|
    ensures !HasKey([(Str(a), va), (Str(b), vb)], Str(key))
  {
    var es := [(Str(a), va), (Str(b), vb)];
    assert !KeyEq(es[0].0, Str(key)) && !KeyEq(es[1].0, Str(key));
  }

  /** A dict whose "features" value is not a sequence resolves to its keys, "features" among them. */
  lemma NonSequenceFeaturesListsItsKey(entries: seq<(Value, Value)>)
    requires HasKey(entries, Str("features"))
    requires !IsSequence(Get(entries, Str("features")).value)
    ensures LoadFeaturesV1(Dict(entries)) == Ok(Keys(entries))
    ensures Str("features") in LoadFeaturesV1(Dict(entries)).value
  {
    var i :| 0 <= i < |entries| && KeyEq(entries[i].0, Str("features"));
    assert Keys(entries)[i] == Str("features");
  }

  /** Only "features" is recognised by the first script; the second also knows "columns". */
  lemma ColumnsRecognisedOnlyByV2(names: seq<Value>)
    ensures LoadFeaturesV1(Dict([(Str("columns"), List(names))])) == Ok([Str("columns")])
    ensures LoadFeaturesV2(Dict([(Str("columns"), List(names))])) == Ok(names)
  {
    var entries := [(Str("columns"), List(names))];
    AbsentFromSingle("columns", List(names), CANDIDATE_KEYS[0]);
    AbsentFromSingle("columns", List(names), CANDIDATE_KEYS[1]);
    GetFirstMatch(entries, Str(CANDIDATE_KEYS[2]), 0);
    assert forall j :: 0 <= j < 2 ==> !Holds(entries, CANDIDATE_KEYS[j], false);
    assert Holds(entries, CANDIDATE_KEYS[2], false);
    assert !Holds(entries, "features", false);
    assert Keys(entries) == [Str("columns")];
  }

  /**
    When "features" holds a sequence, the second script takes it, whatever
    else the dict holds ("columns" included) and in whatever order.
   */
  lemma FeaturesBeatsColumns(entries: seq<(Value, Value)>)
    requires Holds(entries, "features", false)
    ensures LoadFeaturesV2(Dict(entries)) == Ok(AsList(Get(entries, Str("features")).value))
  {
    assert CANDIDATE_KEYS[0] == "features";
  }

  /** A candidate key whose value is not a sequence is skipped, and the search goes on. */
  lemma NonSequenceCandidateSkipped(n: int, names: seq<Value>)
    ensures LoadFeaturesV2(Dict([(Str("features"), Num(n)), (Str("columns"), List(names))])) == Ok(names)
  {
    var entries := [(Str("features"), Num(n)), (Str("columns"), List(names))];
    GetFirstMatch(entries, Str(CANDIDATE_KEYS[0]), 0);
    AbsentFromPair("features", Num(n), "columns", List(names), CANDIDATE_KEYS[1]);
    GetFirstMatch(entries, Str(CANDIDATE_KEYS[2]), 1);
    assert forall j :: 0 <= j < 2 ==> !Holds(entries, CANDIDATE_KEYS[j], false);
    assert Holds(entries, CANDIDATE_KEYS[2], false);
  }

  /** The two scripts agree on every list and on every dict whose "features" value is a sequence. */
  lemma V2AgreesWithV1(data: Value)
    requires data.List? || (data.Dict? && Holds(data.entries, "features", false))
    ensures LoadFeaturesV2(data) == LoadFeaturesV1(data)
  {
    if data.Dict? {
      assert CANDIDATE_KEYS[0] == "features";
    }
  }

  /** Feature names as JSON strings. */
  function StrValues(names: seq<string>): (vs: seq<Value>)
    ensures |vs| == |names|
    ensures forall i :: 0 <= i < |names| ==> vs[i] == Str(names[i])
  {
    seq(|names|, i requires 0 <= i < |names| => Str(names[i]))
  }

  /**
    The second script resolves the same names from a plain list, from a dict
    holding that list under any candidate key alone, and from a dict of
    name-to-metadata whose candidate keys hold no sequence.
   */
  lemma {:induction false} SameNamesFromEveryShape(names: seq<string>, key: string, entries: seq<(Value, Value)>)
    requires key in CANDIDATE_KEYS
    requires Keys(entries) == StrValues(names)
    requires forall j :: 0 <= j < |CANDIDATE_KEYS| ==> !Holds(entries, CANDIDATE_KEYS[j], false)
    ensures LoadFeaturesV2(List(StrValues(names))) == Ok(StrValues(names))
    ensures LoadFeaturesV2(Dict([(Str(key), List(StrValues(names)))])) == Ok(StrValues(names))
    ensures LoadFeaturesV2(Dict(entries)) == Ok(StrValues(names))
  {
    var single := [(Str(key), List(StrValues(names)))];
    var i :| 0 <= i < |CANDIDATE_KEYS| && CANDIDATE_KEYS[i] == key;
    assert Holds(single, CANDIDATE_KEYS[i], false);
    forall j | 0 <= j < i
      ensures !Holds(single, CANDIDATE_KEYS[j], false)
    {
      assert CANDIDATE_KEYS[j] != key;
    }
  }

  /** The first script, with the corrected key test that refuses a string. */
  function LoadFeaturesV1Strict(data: Value): (r: Result<seq<Value>, Exc>)
    ensures data.Dict? && (forall i :: 0 <= i < |data.entries| ==> data.entries[i].1.Str?)
      ==> r == Ok(Keys(data.entries))
    ensures data.Dict? && HasKey(data.entries, Str("features")) && Get(data.entries, Str("features")).value.List?
      ==> r == LoadFeaturesV1(data)
    ensures !data.Dict? ==> r == LoadFeaturesV1(data)
  {
    Resolve(data, ["features"], true)
  }

  /** The second script, with the corrected key test that refuses a string. */
  function LoadFeaturesV2Strict(data: Value): (r: Result<seq<Value>, Exc>)
    ensures data.Dict? && (forall i :: 0 <= i < |data.entries| ==> data.entries[i].1.Str?)
      ==> r == Ok(Keys(data.entries))
    ensures !data.Dict? ==> r == LoadFeaturesV2(data)
  {
    Resolve(data, CANDIDATE_KEYS, true)
  }

  /** The correction changes nothing unless a candidate key holds a string. */
  lemma StrictAgreesWithoutStringCandidates(data: Value)
    requires data.Dict?
    requires forall j :: 0 <= j < |CANDIDATE_KEYS| ==> !StrAt(data.entries, CANDIDATE_KEYS[j])
    ensures LoadFeaturesV2Strict(data) == LoadFeaturesV2(data)
  {
    var es := data.entries;
    assert forall j :: 0 <= j < |CANDIDATE_KEYS| ==> Holds(es, CANDIDATE_KEYS[j], true) == Holds(es, CANDIDATE_KEYS[j], false);
    assert FirstHeld(es, CANDIDATE_KEYS, true) == FirstHeld(es, CANDIDATE_KEYS, false) by {
      FirstHeldIsFirst(es, CANDIDATE_KEYS, true);
      FirstHeldIsFirst(es, CANDIDATE_KEYS, false);
    }
  }

  /** The value under `key` is a string. */
  predicate StrAt(entries: seq<(Value, Value)>, key: string) {
    var v := Get(entries, Str(key));
    v.Some? && v.value.Str?
  }

  /**
    As written, the first script reads a name-to-type dict with a feature
    called "features" as the characters of that feature's type tag.
   */
  lemma V1MisreadsTypeMap()
    ensures LoadFeaturesV1(Dict([(Str("features"), Str("num")), (Str("age"), Str("num"))]))
      == Ok([Str("n"), Str("u"), Str("m")])
    ensures LoadFeaturesV1Strict(Dict([(Str("features"), Str("num")), (Str("age"), Str("num"))]))
      == Ok([Str("features"), Str("age")])
  {
    var entries := [(Str("features"), Str("num")), (Str("age"), Str("num"))];
    GetFirstMatch(entries, Str("features"), 0);
    assert AsList(Str("num")) == [Str("n"), Str("u"), Str("m")];
    assert Keys(entries) == [Str("features"), Str("age")];
  }

  /** No candidate key holds in the name-to-type dict of the examples below, except "columns" as written. */
  lemma TypeMapCandidates(strict: bool)
    ensures var es := [(Str("columns"), Str("cat")), (Str("age"), Str("num"))];
      && Get(es, Str(CANDIDATE_KEYS[2])) == Some(Str("cat"))
      && (forall j :: 0 <= j < |CANDIDATE_KEYS| && j != 2 ==> !Holds(es, CANDIDATE_KEYS[j], strict))
  {
    var es := [(Str("columns"), Str("cat")), (Str("age"), Str("num"))];
    GetFirstMatch(es, Str(CANDIDATE_KEYS[2]), 0);
    forall j | 0 <= j < |CANDIDATE_KEYS| && j != 2
      ensures !Holds(es, CANDIDATE_KEYS[j], strict)
    {
      AbsentFromPair("columns", Str("cat"), "age", Str("num"), CANDIDATE_KEYS[j]);
    }
  }

  /**
    As written, the second script reads a name-to-type dict with a feature
    called "columns" as the characters of that feature's type tag.
   */
  lemma V2MisreadsTypeMap()
    ensures LoadFeaturesV2(Dict([(Str("columns"), Str("cat")), (Str("age"), Str("num"))]))
      == Ok([Str("c"), Str("a"), Str("t")])
  {
    var entries := [(Str("columns"), Str("cat")), (Str("age"), Str("num"))];
    TypeMapCandidates(false);
    assert forall j :: 0 <= j < 2 ==> !Holds(entries, CANDIDATE_KEYS[j], false);
    assert Holds(entries, CANDIDATE_KEYS[2], false);
    assert AsList(Str("cat")) == [Str("c"), Str("a"), Str("t")];
  }

  /** With the corrected test, the same dict resolves to its keys. */
  lemma V2StrictReadsTypeMap()
    ensures LoadFeaturesV2Strict(Dict([(Str("columns"), Str("cat")), (Str("age"), Str("num"))]))
      == Ok([Str("columns"), Str("age")])
  {
    var entries := [(Str("columns"), Str("cat")), (Str("age"), Str("num"))];
    TypeMapCandidates(true);
    assert forall j :: 0 <= j < |CANDIDATE_KEYS| ==> !Holds(entries, CANDIDATE_KEYS[j], true);
    assert Keys(entries) == [Str("columns"), Str("age")];
  }
}
