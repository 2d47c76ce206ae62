/**
  The sample requests the second payload script writes, sent to the
  prediction service whose schema lists the same names: both are accepted,
  and the model sees rows of 0s (and 1s) in schema order.
 */
module Samples {
  import opened Wrappers
  import opened Values
  import opened Payloads
  import opened Service
  import FeatureResolver

  /** A row of `n` copies of `v`. */
  function Constant(n: nat, v: Value): (r: Row)
    ensures |r| == n
    ensures forall i :: 0 <= i < n ==> r[i] == v
  {
    seq(n, i requires 0 <= i < n => v)
  }

  /** A row built over the schema names holds every schema name. */
  lemma RowHoldsSchema(features: seq<string>, es: seq<(Value, Value)>, v: Value)
    requires IsRowFor(es, FeatureResolver.StrValues(features), v)
    ensures forall i :: 0 <= i < |features| ==> HasKey(es, Str(features[i]))
  {
    var names := FeatureResolver.StrValues(features);
    forall i | 0 <= i < |features|
      ensures HasKey(es, Str(features[i]))
    {
      assert names[i] == Str(features[i]);
      assert HasKey(es, names[i]);
    }
  }

  /** A row built over the schema names is accepted, and yields the filled-in value for each name. */
  lemma RowOverSchemaAccepted(features: seq<string>, es: seq<(Value, Value)>, v: Value)
    requires IsRowFor(es, FeatureResolver.StrValues(features), v)
    ensures DfFromPayload(features, Dict(es)) == Ok(Constant(|features|, v))
  {
    RowHoldsSchema(features, es, v);
    var r := DfFromPayload(features, Dict(es));
    assert r.Ok?;
    var row := r.value;
    forall i | 0 <= i < |features|
      ensures row[i] == v
    {
      var g := Get(es, Str(features[i]));
      assert g == Some(row[i]);
      var j :| 0 <= j < |es| && KeyEq(es[j].0, Str(features[i])) && es[j].1 == g.value;
      assert es[j].1 == v;
    }
    assert row == Constant(|features|, v);
  }

  /** Any single request over the schema names reaches the model as one row of 0s. */
  lemma SingleRequestReachesModel<L, P>(ctx: Context<L, P>, p: Value)
    requires IsSingleFor(p, FeatureResolver.StrValues(ctx.features))
    ensures Predict(ctx, p.entries) == Infer(ctx.model, [Constant(|ctx.features|, Num(0))])
  {
    RowOverSchemaAccepted(ctx.features, p.entries[0].1.entries, Num(0));
    GetFirstMatch(p.entries, Str("features"), 0);
  }

  /** The second script's single sample reaches the model as one row of 0s. */
  lemma SingleSampleReachesModel<L, P>(ctx: Context<L, P>)
    ensures Predict(ctx, BuildSinglePayloadV2(FeatureResolver.StrValues(ctx.features)).entries)
      == Infer(ctx.model, [Constant(|ctx.features|, Num(0))])
  {
    StrNamesOfStrings(FeatureResolver.StrValues(ctx.features));
    SingleRequestReachesModel(ctx, BuildSinglePayloadV2(FeatureResolver.StrValues(ctx.features)));
  }

  /** Two accepted rows make a two-row frame. */
  lemma TwoRowsBuild(features: seq<string>, a: Value, b: Value, ra: Row, rb: Row)
    requires DfFromPayload(features, a) == Ok(ra) && DfFromPayload(features, b) == Ok(rb)
    ensures BuildRows(features, [a, b]) == Ok([ra, rb])
  {
    var r := BuildRows(features, [a, b]);
    assert DfFromPayload(features, [a, b][0]).Ok? && DfFromPayload(features, [a, b][1]).Ok?;
    assert r.Ok?;
    assert r.value[0] == ra && r.value[1] == rb;
    assert r.value == [ra, rb];
  }

  /** A body without "features" whose "instances" list builds a frame reaches the model with that frame. */
  lemma InstancesReachModel<L, P>(ctx: Context<L, P>, body: seq<(Value, Value)>, rows: seq<Value>, frame: Frame)
    requires !HasKey(body, Str("features"))
    requires Get(body, Str("instances")) == Some(List(rows))
    requires BuildRows(ctx.features, rows) == Ok(frame) && |rows| > 0
    ensures Predict(ctx, body) == Infer(ctx.model, frame)
  {
    assert ReadInput(ctx, body) == Built(frame);
  }

  /** Any batch request over the schema names reaches the model as a row of 0s followed by a row of 1s. */
  lemma BatchRequestReachesModel<L, P>(ctx: Context<L, P>, p: Value)
    requires IsBatchFor(p, FeatureResolver.StrValues(ctx.features))
    ensures Predict(ctx, p.entries)
      == Infer(ctx.model, [Constant(|ctx.features|, Num(0)), Constant(|ctx.features|, Num(1))])
  {
    var rows := p.entries[0].1.items;
    assert rows == [rows[0], rows[1]];
    GetFirstMatch(p.entries, Str("instances"), 0);
    assert !HasKey(p.entries, Str("features")) by {
      assert !KeyEq(p.entries[0].0, Str("features"));
    }
    var c0 := Constant(|ctx.features|, Num(0));
    var c1 := Constant(|ctx.features|, Num(1));
    RowOverSchemaAccepted(ctx.features, rows[0].entries, Num(0));
    RowOverSchemaAccepted(ctx.features, rows[1].entries, Num(1));
    TwoRowsBuild(ctx.features, rows[0], rows[1], c0, c1);
    InstancesReachModel(ctx, p.entries, rows, [c0, c1]);
  }

  /**
    From artifact to reply: the corrected second script, given a name-to-type
    map over the schema, resolves the schema names, and its single sample
    reaches the model as one row of 0s.
   */
  lemma TypeMapSampleReachesModel<L, P>(ctx: Context<L, P>, entries: seq<(Value, Value)>)
    requires forall i :: 0 <= i < |entries| ==> entries[i].1.Str?
    requires Keys(entries) == FeatureResolver.StrValues(ctx.features)
    ensures FeatureResolver.LoadFeaturesV2Strict(Dict(entries)) == Ok(FeatureResolver.StrValues(ctx.features))
    ensures Predict(ctx, BuildSinglePayloadV2(FeatureResolver.LoadFeaturesV2Strict(Dict(entries)).value).entries)
      == Infer(ctx.model, [Constant(|ctx.features|, Num(0))])
  {
    SingleSampleReachesModel(ctx);
  }
}
