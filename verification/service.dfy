/**
  The prediction service: request validation against the feature schema,
  construction of the model input in schema order, dispatch between a
  single row ("features") and a batch ("instances"), probability shaping,
  and the mapping of exceptions to HTTP status codes.

  The trained model and pandas' concatenation of an empty batch are not
  visible; they are parameters of the service context.
 */
module Service {
  import opened Wrappers
  import opened Values

  const GUIDANCE: string := "Provide 'features' (dict) or 'instances' (list of dicts)."
  const FAILURE_PREFIX: string := "Prediction failed: "

  /** One model input row, aligned with the schema. */
  type Row = seq<Value>

  /** The model input: one row per request row. */
  type Frame = seq<Row>

  /** A 2-D array of probabilities, `cols` wide. */
  datatype Matrix<P> = Matrix(cols: nat, rows: seq<seq<P>>)

  /** numpy arrays are rectangular. */
  type Matrix2<P> = m: Matrix<P> | forall i :: 0 <= i < |m.rows| ==> |m.rows[i]| == m.cols
    witness Matrix(0, [])

  /** `.tolist()` of an array: nested lists of scalars. */
  datatype Nested<P> = Scalar(p: P) | Nest(items: seq<Nested<P>>)

  /** The result of `predict_proba`: a 2-D array, or an array of any other dimension given by its `.tolist()`. */
  datatype NdArray<P> = Array2(m: Matrix2<P>) | ArrayOther(tolist: Nested<P>)

  /**
    The loaded model: `predict` yields one label per row or raises;
    `predictProba` is None when the model has no `predict_proba`.
   */
  datatype Model<L, P> = Model(
    predict: Frame -> Result<seq<L>, Exc>,
    predictProba: Option<Frame -> Result<NdArray<P>, Exc>>)

  /**
    The process-wide state: the schema (the parsed feature file), the model,
    and what `pd.concat` does with an empty list of frames (raise, or yield
    an empty frame).
   */
  datatype Context<L, P> = Context(features: seq<string>, model: Model<L, P>, emptyConcat: Option<Exc>)

  /** The model labels every row it is given, in order. */
  ghost predicate LengthPreserving<L, P>(model: Model<L, P>) {
    forall f: Frame :: model.predict(f).Ok? ==> |model.predict(f).value| == |f|
  }

  /** The body of an error reply: a plain message, or the missing-features message built from its list. */
  datatype ErrorBody = Message(text: string) | MissingList(names: seq<string>)

  /** The reply to POST /predict. */
  datatype Response<L, P> =
    | Predicted(predictions: seq<L>, probabilities: Option<Nested<P>>)
    | Rejected(status: int, error: ErrorBody)

  /** The HTTP status of a reply. */
  function Status<L, P>(r: Response<L, P>): int {
    if r.Predicted? then 200 else r.status
  }

  /** The reply to GET /health. */
  datatype Health = Health(status: string, nFeatures: nat)

  /** GET /health */
  function HealthCheck(features: seq<string>): (h: Health)
    ensures h.status == "ok"
    ensures h.nFeatures == |features|
  {
    Health("ok", |features|)
  }

  /** `k in x` can be evaluated: dicts, lists and strings. */
  predicate IsContainer(x: Value) {
    x.Dict? || x.List? || x.Str?
  }

  /** `k in x`: a dict key, a list element, or a substring; anything else raises. */
  function Contains(x: Value, k: string): (r: Result<bool, Exc>)
    ensures r.Ok? <==> IsContainer(x)
    ensures x.Dict? ==> r == Ok(HasKey(x.entries, Str(k)))
  {
    match x
    case Dict(es) => Ok(HasKey(es, Str(k)))
    case List(items) => Ok(Str(k) in items)
    case Str(s) => Ok(IsSubstring(k, s))
    case _ => Err(TypeError("argument of type '" + TypeName(x) + "' is not iterable"))
  }

  /** `k in x` holds. */
  predicate Present(x: Value, k: string) {
    Contains(x, k) == Ok(true)
  }

  /** `a` is `b` with some elements left out, order kept. */
  ghost predicate Subsequence(a: seq<string>, b: seq<string>)
    decreases |b|
  {
    if |a| == 0 then true
    else if |b| == 0 then false
    else Subsequence(a, b[1..]) || (a[0] == b[0] && Subsequence(a[1..], b[1..]))
  }

  /** `[k for k in features if k not in x]` */
  function MissingNames(features: seq<string>, x: Value): (r: Result<seq<string>, Exc>)
    ensures r.Err? <==> |features| > 0 && !IsContainer(x)
    ensures r.Err? ==> r.error.TypeError?
    ensures r.Ok? ==> forall k :: k in r.value <==> k in features && !Present(x, k)
    ensures r.Ok? ==> Subsequence(r.value, features)
    ensures r.Ok? ==> forall k :: multiset(r.value)[k] == (if Present(x, k) then 0 else multiset(features)[k])
    decreases |features|
  {
    if |features| == 0 then Ok([])
    else
      var found :- Contains(x, features[0]);
      var rest := MissingNames(features[1..], x).value;
      assert forall k :: k in features <==> k == features[0] || k in features[1..];
      assert features == [features[0]] + features[1..];
      assert multiset(features) == multiset([features[0]]) + multiset(features[1..]);
      Ok(if found then rest else [features[0]] + rest)
  }

  /** When no schema name is in a container, every schema name is reported, in schema order. */
  lemma {:induction false} NothingPresentAllMissing(features: seq<string>, x: Value)
    requires IsContainer(x)
    requires forall i :: 0 <= i < |features| ==> !Present(x, features[i])
    ensures MissingNames(features, x) == Ok(features)
    decreases |features|
  {
    if |features| > 0 {
      NothingPresentAllMissing(features[1..], x);
      assert features == [features[0]] + features[1..];
    }
  }

  /** `x[k]` for a string key. */
  function Subscript(x: Value, k: string): (r: Result<Value, Exc>)
    ensures x.Dict? && HasKey(x.entries, Str(k)) ==> r == Ok(Get(x.entries, Str(k)).value)
    ensures !x.Dict? ==> r.Err? && r.error.TypeError?
  {
    match x
    case Dict(es) =>
      (match Get(es, Str(k))
       case Some(v) => Ok(v)
       case None => Err(OtherError(Repr(Str(k)))))
    case List(_) => Err(TypeError("list indices must be integers or slices, not str"))
    case Str(_) => Err(TypeError("string indices must be integers"))
    case _ => Err(TypeError("'" + TypeName(x) + "' object is not subscriptable"))
  }

  /** `[x[k] for k in features]` */
  function SelectRow(features: seq<string>, x: Value): (r: Result<Row, Exc>)
    ensures x.Dict? && (forall i :: 0 <= i < |features| ==> HasKey(x.entries, Str(features[i])))
      ==> r.Ok? && |r.value| == |features|
          && forall i :: 0 <= i < |features| ==> Get(x.entries, Str(features[i])) == Some(r.value[i])
    ensures !x.Dict? ==> (r.Ok? <==> |features| == 0)
    ensures !x.Dict? && r.Err? ==> r.error.TypeError?
    decreases |features|
  {
    if |features| == 0 then Ok([])
    else
      var v :- Subscript(x, features[0]);
      var rest :- SelectRow(features[1..], x);
      Ok([v] + rest)
  }

  /**
    `df_from_payload`: check the row against the schema, then take its
    values in schema order.
   */
  function DfFromPayload(features: seq<string>, x: Value): (r: Result<Row, Exc>)
    ensures r.Ok? ==> |r.value| == |features|
    ensures r.Err? ==> r.error.MissingFeatures? || r.error.TypeError?
    ensures x.Dict? ==> (r.Ok? <==> forall i :: 0 <= i < |features| ==> HasKey(x.entries, Str(features[i])))
    ensures x.Dict? && r.Ok? ==>
      forall i :: 0 <= i < |features| ==> Get(x.entries, Str(features[i])) == Some(r.value[i])
    ensures x.Dict? && r.Err? ==>
      && r.error.MissingFeatures?
      && (forall k :: k in r.error.names <==> k in features && !HasKey(x.entries, Str(k)))
      && Subsequence(r.error.names, features)
    ensures r.Err? && r.error.MissingFeatures? ==>
      forall k :: multiset(r.error.names)[k] == (if Present(x, k) then 0 else multiset(features)[k])
    ensures !x.Dict? ==> (r.Ok? <==> |features| == 0)
    ensures IsContainer(x) ==>
      (r.Err? && r.error.MissingFeatures? <==> exists i :: 0 <= i < |features| && !Present(x, features[i]))
    ensures r.Err? && r.error.MissingFeatures? ==>
      && (forall k :: k in r.error.names <==> k in features && !Present(x, k))
      && Subsequence(r.error.names, features)
    ensures !IsContainer(x) && r.Err? ==> r.error.TypeError?
  {
    var missing :- MissingNames(features, x);
    if |missing| > 0 then
      assert missing[0] in missing;
      assert x.Dict? ==> !HasKey(x.entries, Str(missing[0]));
      Err(MissingFeatures(missing))
    else
      assert x.Dict? ==> forall i :: 0 <= i < |features| ==> HasKey(x.entries, Str(features[i])) by {
        if x.Dict? {
          forall i | 0 <= i < |features|
            ensures HasKey(x.entries, Str(features[i]))
          {
            assert features[i] !in missing;
          }
        }
      }
      SelectRow(features, x)
  }

  /**
    A list comprehension whose element expression may raise: the results in
    order, unless one raises, and then the first error.
   */
  function Collect<T>(results: seq<Result<T, Exc>>): (r: Result<seq<T>, Exc>)
    ensures r.Ok? ==> |r.value| == |results|
    ensures r.Ok? ==> forall i :: 0 <= i < |results| ==> results[i] == Ok(r.value[i])
    ensures r.Ok? <==> forall i :: 0 <= i < |results| ==> results[i].Ok?
    ensures forall i :: 0 <= i < |results| && results[i].Err?
                        && (forall j :: 0 <= j < i ==> results[j].Ok?)
                        ==> r == Err(results[i].error)
    decreases |results|
  {
    if |results| == 0 then Ok([])
    else
      var first :- results[0];
      var rest :- Collect(results[1..]);
      assert forall i :: 1 <= i < |results| ==> results[i] == results[1..][i - 1];
      Ok([first] + rest)
  }

  /**
    `[df_from_payload(row) for row in rows]`: the first row that raises
    aborts the whole batch.
   */
  function BuildRows(features: seq<string>, rows: seq<Value>): (r: Result<Frame, Exc>)
    ensures r.Ok? ==> |r.value| == |rows|
    ensures r.Ok? ==> forall i :: 0 <= i < |rows| ==> DfFromPayload(features, rows[i]) == Ok(r.value[i])
    ensures r.Ok? <==> forall i :: 0 <= i < |rows| ==> DfFromPayload(features, rows[i]).Ok?
    ensures forall i :: 0 <= i < |rows| && DfFromPayload(features, rows[i]).Err?
                        && (forall j :: 0 <= j < i ==> DfFromPayload(features, rows[j]).Ok?)
                        ==> r == Err(DfFromPayload(features, rows[i]).error)
  {
    var results := seq(|rows|, i requires 0 <= i < |rows| => DfFromPayload(features, rows[i]));
    assert forall i :: 0 <= i < |rows| ==> results[i] == DfFromPayload(features, rows[i]);
    Collect(results)
  }

  /** What the request body asks for, once read. */
  datatype Input = Guidance | Raised(e: Exc) | Built(frame: Frame)

  /** The dispatch at the head of `predict`: "features" first, then a list under "instances". */
  function ReadInput(ctx: Context, body: seq<(Value, Value)>): (r: Input)
    ensures r.Guidance? <==>
      !HasKey(body, Str("features"))
      && !(HasKey(body, Str("instances")) && Get(body, Str("instances")).value.List?)
    ensures r.Built? ==> forall i :: 0 <= i < |r.frame| ==> |r.frame[i]| == |ctx.features|
  {
    if HasKey(body, Str("features")) then
      match DfFromPayload(ctx.features, Get(body, Str("features")).value)
      case Ok(row) => Built([row])
      case Err(e) => Raised(e)
    else if HasKey(body, Str("instances")) && Get(body, Str("instances")).value.List? then
      var rows := Get(body, Str("instances")).value.items;
      match BuildRows(ctx.features, rows)
      case Err(e) => Raised(e)
      case Ok(frame) =>
        if |rows| == 0 && ctx.emptyConcat.Some? then Raised(ctx.emptyConcat.value) else Built(frame)
    else Guidance
  }

  /** The `except` clauses of `predict`: ValueError is the client's fault, anything else the server's. */
  function Classify<L, P>(e: Exc): (r: Response<L, P>)
    ensures r.Rejected?
    ensures r.status == 400 <==> IsValueError(e)
    ensures r.status == 500 <==> !IsValueError(e)
    ensures e.MissingFeatures? ==> r.error == MissingList(e.names)
    ensures e.ValueError? ==> r.error == Message(e.message)
    ensures !IsValueError(e) ==> r.error.Message? && r.error.text == FAILURE_PREFIX + e.message
  {
    match e
    case MissingFeatures(names) => Rejected(400, MissingList(names))
    case ValueError(msg) => Rejected(400, Message(msg))
    case TypeError(msg) => Rejected(500, Message(FAILURE_PREFIX + msg))
    case OtherError(msg) => Rejected(500, Message(FAILURE_PREFIX + msg))
  }

  /** `.tolist()` of a probability array. */
  function ToList<P>(a: NdArray<P>): Nested<P> {
    match a
    case Array2(m) =>
      Nest(seq(|m.rows|, i requires 0 <= i < |m.rows| =>
        Nest(seq(|m.rows[i]|, j requires 0 <= j < |m.rows[i]| => Scalar(m.rows[i][j])))))
    case ArrayOther(t) => t
  }

  /**
    The shaping of `predict_proba`'s result: a two-column matrix gives its
    second column, one value per row; anything else is returned as is.
   */
  function ShapeProbabilities<P>(a: NdArray<P>): (r: Nested<P>)
    ensures a.Array2? && a.m.cols == 2 ==>
      && r.Nest? && |r.items| == |a.m.rows|
      && forall i :: 0 <= i < |r.items| ==> r.items[i] == ToList(a).items[i].items[1]
    ensures !(a.Array2? && a.m.cols == 2) ==> r == ToList(a)
  {
    match a
    case Array2(m) =>
      if m.cols == 2 then Nest(seq(|m.rows|, i requires 0 <= i < |m.rows| => Scalar(m.rows[i][1])))
      else ToList(a)
    case ArrayOther(t) => t
  }

  /** The optional "probabilities" field: absent when the model has no `predict_proba` or it raises. */
  function Probabilities<L, P>(model: Model<L, P>, frame: Frame): (r: Option<Nested<P>>)
    ensures r.Some? <==> model.predictProba.Some? && model.predictProba.value(frame).Ok?
    ensures r.Some? ==> r.value == ShapeProbabilities(model.predictProba.value(frame).value)
  {
    match model.predictProba
    case None => None
    case Some(proba) =>
      match proba(frame)
      case Ok(a) => Some(ShapeProbabilities(a))
      case Err(_) => None
  }

  /** The model call and the reply built from it. */
  function Infer<L, P>(model: Model<L, P>, frame: Frame): (r: Response<L, P>)
    ensures model.predict(frame).Err? ==> r == Classify(model.predict(frame).error)
    ensures model.predict(frame).Ok? ==> r == Predicted(model.predict(frame).value, Probabilities(model, frame))
    ensures LengthPreserving(model) && r.Predicted? ==> |r.predictions| == |frame|
  {
    match model.predict(frame)
    case Err(e) => Classify(e)
    case Ok(labels) => Predicted(labels, Probabilities(model, frame))
  }

  /** POST /predict on an already-parsed JSON object. */
  function Predict<L, P>(ctx: Context<L, P>, body: seq<(Value, Value)>): (r: Response<L, P>)
    ensures Status(r) == 200 || Status(r) == 400 || Status(r) == 500
    ensures Status(r) == 500 ==> r.error.Message? && FAILURE_PREFIX <= r.error.text
    ensures r.Rejected? && r.error.MissingList? ==> r.status == 400
  {
    match ReadInput(ctx, body)
    case Guidance => Rejected(400, Message(GUIDANCE))
    case Raised(e) => Classify(e)
    case Built(frame) => Infer(ctx.model, frame)
  }

  /** Two dicts that agree on every schema name. */
  predicate AgreeOn(features: seq<string>, x: Value, y: Value)
    requires x.Dict? && y.Dict?
  {
    forall i :: 0 <= i < |features| ==> Get(x.entries, Str(features[i])) == Get(y.entries, Str(features[i]))
  }

  /** Rows that agree on the schema names report the same missing names. */
  lemma {:induction false} MissingNamesIgnoreExtraKeys(features: seq<string>, x: Value, y: Value)
    requires x.Dict? && y.Dict? && AgreeOn(features, x, y)
    ensures MissingNames(features, x) == MissingNames(features, y)
    decreases |features|
  {
    if |features| > 0 {
      assert Get(x.entries, Str(features[0])) == Get(y.entries, Str(features[0]));
      assert AgreeOn(features[1..], x, y) by {
        assert forall i :: 1 <= i < |features| ==> features[1..][i - 1] == features[i];
      }
      MissingNamesIgnoreExtraKeys(features[1..], x, y);
    }
  }

  /** Rows that agree on the schema names give the same values. */
  lemma {:induction false} SelectRowIgnoresExtraKeys(features: seq<string>, x: Value, y: Value)
    requires x.Dict? && y.Dict? && AgreeOn(features, x, y)
    ensures SelectRow(features, x) == SelectRow(features, y)
    decreases |features|
  {
    if |features| > 0 {
      assert Get(x.entries, Str(features[0])) == Get(y.entries, Str(features[0]));
      assert AgreeOn(features[1..], x, y) by {
        assert forall i :: 1 <= i < |features| ==> features[1..][i - 1] == features[i];
      }
      SelectRowIgnoresExtraKeys(features[1..], x, y);
    }
  }

  /** Keys outside the schema have no effect: rows that agree on the schema get the same outcome. */
  lemma ExtraKeysIgnored(features: seq<string>, x: Value, y: Value)
    requires x.Dict? && y.Dict? && AgreeOn(features, x, y)
    ensures DfFromPayload(features, x) == DfFromPayload(features, y)
  {
    MissingNamesIgnoreExtraKeys(features, x, y);
    SelectRowIgnoresExtraKeys(features, x, y);
  }

  /** "features" takes priority: the rest of the body, "instances" included, is not looked at. */
  lemma FeaturesTakePriority<L, P>(ctx: Context<L, P>, body: seq<(Value, Value)>)
    requires HasKey(body, Str("features"))
    ensures Predict(ctx, body) == Predict(ctx, [(Str("features"), Get(body, Str("features")).value)])
  {
    var single := [(Str("features"), Get(body, Str("features")).value)];
    GetFirstMatch(single, Str("features"), 0);
  }

  /** A body with neither "features" nor a list under "instances" gets the guidance message. */
  lemma GuidanceWithoutInput<L, P>(ctx: Context<L, P>, body: seq<(Value, Value)>)
    requires !HasKey(body, Str("features"))
    requires !(HasKey(body, Str("instances")) && Get(body, Str("instances")).value.List?)
    ensures Predict(ctx, body) == Rejected(400, Message(GUIDANCE))
  {
  }

  /** A body that names an input never gets the guidance message from the dispatch. */
  lemma InputNeverGetsGuidance<L, P>(ctx: Context<L, P>, body: seq<(Value, Value)>)
    requires HasKey(body, Str("features")) || (HasKey(body, Str("instances")) && Get(body, Str("instances")).value.List?)
    ensures !ReadInput(ctx, body).Guidance?
  {
  }

  /** A single row with every schema name reaches the model as a one-row frame. */
  lemma SingleRowOnePrediction<L, P>(ctx: Context<L, P>, body: seq<(Value, Value)>)
    requires HasKey(body, Str("features"))
    requires DfFromPayload(ctx.features, Get(body, Str("features")).value).Ok?
    ensures Predict(ctx, body) == Infer(ctx.model, [DfFromPayload(ctx.features, Get(body, Str("features")).value).value])
    ensures LengthPreserving(ctx.model) && Predict(ctx, body).Predicted? ==> |Predict(ctx, body).predictions| == 1
  {
  }

  /**
    A single row that `df_from_payload` rejects is answered with that error,
    classified; a dict row lacking schema names gets 400 listing exactly those names.
   */
  lemma SingleRowErrorClassified<L, P>(ctx: Context<L, P>, body: seq<(Value, Value)>)
    requires HasKey(body, Str("features"))
    requires DfFromPayload(ctx.features, Get(body, Str("features")).value).Err?
    ensures Predict(ctx, body) == Classify(DfFromPayload(ctx.features, Get(body, Str("features")).value).error)
    ensures Get(body, Str("features")).value.Dict? ==>
      var row := Get(body, Str("features")).value;
      && Predict(ctx, body).Rejected?
      && Predict(ctx, body).status == 400
      && Predict(ctx, body).error.MissingList?
      && forall k :: k in Predict(ctx, body).error.names <==> k in ctx.features && !HasKey(row.entries, Str(k))
    ensures
      var row := Get(body, Str("features")).value;
      IsContainer(row) && (exists i :: 0 <= i < |ctx.features| && !Present(row, ctx.features[i])) ==>
        && Predict(ctx, body).Rejected?
        && Predict(ctx, body).status == 400
        && Predict(ctx, body).error.MissingList?
        && forall k :: k in Predict(ctx, body).error.names <==> k in ctx.features && !Present(row, k)
  {
  }

  /**
    A list of values without names (or a batch sent under "features") is a
    client error: `"age" in [34, 5]` is false, so every schema name is reported
    missing with 400.
   */
  lemma ListOfValuesIsClientError<L, P>(ctx: Context<L, P>, items: seq<Value>)
    requires |ctx.features| > 0
    requires forall j :: 0 <= j < |items| ==> !items[j].Str?
    ensures Predict(ctx, [(Str("features"), List(items))]) == Rejected(400, MissingList(ctx.features))
  {
    var row := List(items);
    forall i | 0 <= i < |ctx.features|
      ensures !Present(row, ctx.features[i])
    {
      assert Str(ctx.features[i]) !in items;
    }
    NothingPresentAllMissing(ctx.features, row);
    GetFirstMatch([(Str("features"), row)], Str("features"), 0);
    SingleRowErrorClassified(ctx, [(Str("features"), row)]);
  }

  /** The batch stops at the first row that raises, and only that row's error is reported. */
  lemma BatchAbortsOnFirstBadRow<L, P>(ctx: Context<L, P>, body: seq<(Value, Value)>, rows: seq<Value>, i: nat)
    requires !HasKey(body, Str("features"))
    requires Get(body, Str("instances")) == Some(List(rows))
    requires i < |rows| && DfFromPayload(ctx.features, rows[i]).Err?
    requires forall j :: 0 <= j < i ==> DfFromPayload(ctx.features, rows[j]).Ok?
    ensures Predict(ctx, body) == Classify(DfFromPayload(ctx.features, rows[i]).error)
  {
  }

  /** A valid, non-empty batch reaches the model as one row per instance, in order. */
  lemma BatchOnePredictionPerRow<L, P>(ctx: Context<L, P>, body: seq<(Value, Value)>, rows: seq<Value>)
    requires !HasKey(body, Str("features"))
    requires Get(body, Str("instances")) == Some(List(rows))
    requires |rows| > 0
    requires forall i :: 0 <= i < |rows| ==> DfFromPayload(ctx.features, rows[i]).Ok?
    ensures var frame := BuildRows(ctx.features, rows).value;
      && |frame| == |rows|
      && (forall i :: 0 <= i < |rows| ==> frame[i] == DfFromPayload(ctx.features, rows[i]).value)
      && Predict(ctx, body) == Infer(ctx.model, frame)
    ensures LengthPreserving(ctx.model) && Predict(ctx, body).Predicted? ==> |Predict(ctx, body).predictions| == |rows|
  {
  }

  /** GET /health counts exactly the values every accepted row carries. */
  lemma HealthMatchesRowWidth<L, P>(ctx: Context<L, P>, body: seq<(Value, Value)>)
    ensures ReadInput(ctx, body).Built? ==>
      forall i :: 0 <= i < |ReadInput(ctx, body).frame| ==>
        |ReadInput(ctx, body).frame[i]| == HealthCheck(ctx.features).nFeatures
  {
  }

  /** With schema ["age", "tenure"], {"features": {"age": 34}} is refused, naming "tenure" only. */
  lemma MissingTenureScenario<L, P>(ctx: Context<L, P>)
    requires ctx.features == ["age", "tenure"]
    ensures Predict(ctx, [(Str("features"), Dict([(Str("age"), Num(34))]))])
      == Rejected(400, MissingList(["tenure"]))
  {
    var x := Dict([(Str("age"), Num(34))]);
    var body := [(Str("features"), x)];
    GetFirstMatch(body, Str("features"), 0);
    assert KeyEq(x.entries[0].0, Str("age"));
    assert !HasKey(x.entries, Str("tenure"));
    assert ["tenure"][1..] == [];
    assert Contains(x, "tenure") == Ok(false);
    assert MissingNames([], x) == Ok([]);
    var t: seq<string> := ["tenure"];
    assert t + [] == t;
    assert MissingNames(["tenure"], x) == Ok(["tenure"]);
    assert ctx.features[1..] == ["tenure"];
    assert MissingNames(ctx.features, x) == Ok(["tenure"]);
  }

  /** With an empty schema any "features" value, even a number, is accepted as an empty row. */
  lemma EmptySchemaAcceptsAnyRow<L, P>(ctx: Context<L, P>, x: Value)
    requires ctx.features == []
    ensures Predict(ctx, [(Str("features"), x)]) == Infer(ctx.model, [[]])
  {
    GetFirstMatch([(Str("features"), x)], Str("features"), 0);
  }

  /** A "features" value that is a number, with a non-empty schema, is a server error, not a client one. */
  lemma NonContainerRowIsServerError<L, P>(ctx: Context<L, P>, n: int)
    requires |ctx.features| > 0
    ensures Status(Predict(ctx, [(Str("features"), Num(n))])) == 500
  {
    GetFirstMatch([(Str("features"), Num(n))], Str("features"), 0);
  }
}
