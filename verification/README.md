# Churn-model prediction service and its payload scripts, in Dafny

This project models a small churn-prediction deployment. It has three parts.

- **The payload scripts** (`make_payload.py`, `make_payload_v2.py`). Each reads the feature
  artifact `model_features.json` and resolves it to an ordered list of feature names
  (`load_features`). It then builds two sample requests from that list: one row with every
  feature set to 0, and a batch of two rows, all 0s then all 1s.
  - The first script recognises a list, or a dict with a `"features"` sequence; any other dict
    gives its own keys.
  - The second script searches a priority list of candidate keys, and converts every name with
    `str` before using it as a key.
- **The prediction service** (`app.py`). `POST /predict` does the following:
  - it checks each request row against the feature schema, and reports the missing names in
    schema order;
  - it builds the model input in schema order, ignoring extra keys;
  - it dispatches between a single row under `"features"` and a batch under `"instances"`
    (`"features"` wins);
  - it calls the model, and adds probabilities when the model can produce them. A two-column
    probability matrix is reduced to its second column.
  - Exceptions are mapped to replies: a `ValueError` is a 400 carrying its message; any other
    exception is a 500 with a `"Prediction failed: "` prefix.

  `GET /health` reports the schema size.
- **End to end.** The sample requests the second script builds are accepted by the service
  whose schema holds the same names. They reach the model as rows of 0s (and 1s), in schema order.

Python objects are one datatype, `Values.Value`. A dict is its insertion-ordered list of
entries, and lookups use Python's key equality, under which `True == 1`. Exceptions are
`Values.Exc`. Python's `Sequence` test accepts strings, and `list()` splits a string into
characters; both are modelled, because the finding below depends on them. The trained model is
a parameter of the service context: a `predict` function and an optional `predict_proba`
function, either of which may raise. So is pandas' behaviour on an empty batch: `pd.concat([])`
either raises or yields an empty frame.

Three behaviours of the code worth stating:
- The resolved names are not converted to strings by `load_features`. Only the second script's
  builders apply `str`; the first script uses the names as keys unchanged, so an unhashable name
  raises `TypeError`.
- An empty `"instances"` list does not get the guidance reply. It reaches `pd.concat`, and the
  outcome depends on that call (the `emptyConcat` parameter).
- A body carrying both `"features"` and `"instances"` is not refused: `"features"` is used and
  the rest is ignored (`Service.FeaturesTakePriority`).

Files: `wrappers.dfy` (Option/Result), `values.dfy` (Python objects), `resolver.dfy`
(`load_features`), `payloads.dfy` (the payload builders), `service.dfy` (`app.py`),
`samples.dfy` (the scripts' requests sent to the service).

## Model

| member | source | states |
|---|---|---|
| Values.IndexOf | app.py:20 | the position found is the first entry whose key equals the one sought under Python key equality; none exactly when no key is equal |
| Values.Get | app.py:20 | a lookup succeeds exactly when some key is equal to the one sought, and returns that entry's value |
| Values.GetFirstMatch | app.py:20 | when entry i is the first with an equal key, the lookup returns entry i's value |
| FeatureResolver.FirstHeld | make_payload_v2.py:31-33 | the key found holds a sequence and no earlier candidate does; none found exactly when no candidate holds |
| FeatureResolver.FirstHeldAt | make_payload_v2.py:31-33 | a candidate that holds a sequence, with none holding before it, is the one the loop returns |
| FeatureResolver.FirstHeldIsFirst | make_payload_v2.py:31-33 | the same, for every candidate position at once |
| FeatureResolver.Resolve | make_payload_v2.py:21-37 | the shared algorithm: a list is returned as is; the first candidate holding a sequence gives that sequence as a list; no candidate holding gives the dict's keys; anything else raises ValueError with the fixed message |
| FeatureResolver.LoadFeaturesV1 | make_payload.py:19-34 | a list is returned; a dict whose "features" is a sequence gives that sequence; any other dict gives its keys; a string, number or null is refused with "Unrecognized model_features.json format" |
| FeatureResolver.LoadFeaturesV2 | make_payload_v2.py:21-37 | as above with the five candidate keys tried in priority order; the earliest that holds a sequence wins |
| FeatureResolver.NonSequenceFeaturesListsItsKey | make_payload.py:29-32 | a dict whose "features" value is not a sequence resolves to its keys, "features" included |
| FeatureResolver.ColumnsRecognisedOnlyByV2 | make_payload_v2.py:29-35 | {"columns": names} gives ["columns"] to the first script and the names to the second |
| FeatureResolver.FeaturesBeatsColumns | make_payload_v2.py:19 | when "features" holds a sequence, the second script returns its items, whatever else the dict holds ("columns" included) and in whatever order |
| FeatureResolver.NonSequenceCandidateSkipped | make_payload_v2.py:32 | a candidate holding a number is skipped and the search continues to the next candidate |
| FeatureResolver.V2AgreesWithV1 | make_payload_v2.py:25-33 | the two scripts resolve every list and every dict whose "features" holds a sequence identically |
| FeatureResolver.SameNamesFromEveryShape | make_payload_v2.py:9-15 | the same names are resolved from a plain list, from any single candidate key holding the list, and from a name-to-metadata dict |
| FeatureResolver.StrictAgreesWithoutStringCandidates | make_payload_v2.py:32 | the corrected test changes nothing unless a candidate key holds a string |
| FeatureResolver.V1MisreadsTypeMap | make_payload.py:29-30 | as written, the type map {"features": "num", "age": "num"} resolves to ['n', 'u', 'm']; corrected, to its keys |
| FeatureResolver.V2MisreadsTypeMap | make_payload_v2.py:31-33 | as written, the type map {"columns": "cat", "age": "num"} resolves to ['c', 'a', 't'] |
| FeatureResolver.V2StrictReadsTypeMap | make_payload_v2.py:15 | with the corrected test, that type map resolves to its keys, as the documented shape promises |
| FeatureResolver.LoadFeaturesV1Strict | make_payload.py:12 | corrected first script: a dict of name-to-type strings resolves to its keys; it agrees with the original whenever "features" holds a list, and on every non-dict |
| FeatureResolver.LoadFeaturesV2Strict | make_payload_v2.py:15 | corrected second script: a dict of name-to-type strings resolves to its keys; it agrees with the original on every non-dict |
| Payloads.KeyOrderCovers | make_payload.py:37 | every name has an equal key among the comprehension's keys |
| Payloads.KeyOrderFromNames | make_payload.py:37 | every key of the comprehension is one of the names |
| Payloads.KeyOrderDistinct | make_payload.py:37 | no two keys of the comprehension are equal |
| Payloads.KeyOrderRow | make_payload.py:37 | the row a comprehension builds holds one entry per distinct name, each set to the fill value |
| Payloads.FromKeys | make_payload.py:37 | the comprehension raises TypeError exactly when some name is unhashable; otherwise every name is a key, every key is a name, no key repeats, and every value is the fill value |
| Payloads.DistinctNamesKeepOrder | make_payload.py:37 | with pairwise distinct names, the row's keys are exactly the names in order |
| Payloads.BuildSinglePayloadV1 | make_payload.py:36-37 | raises exactly when a name is unhashable; otherwise {"features": row of 0s over the names} |
| Payloads.BuildBatchPayloadV1 | make_payload.py:39-42 | raises exactly when a name is unhashable; otherwise {"instances": [row of 0s, row of 1s]}, both rows with the same key order |
| Payloads.StrNames | make_payload_v2.py:40 | every name becomes a string: strings unchanged, anything else its repr |
| Payloads.StrRow | make_payload_v2.py:43 | the converted comprehension never raises and has string keys only |
| Payloads.BuildSinglePayloadV2 | make_payload_v2.py:39-40 | {"features": row of 0s over the string-converted names}, with string keys |
| Payloads.BuildBatchPayloadV2 | make_payload_v2.py:42-45 | {"instances": [row of 0s, row of 1s]} over the string-converted names, with string keys and one key order |
| Payloads.StrRowOnStrings | make_payload_v2.py:43 | on string names the converted comprehension is the plain one |
| Payloads.SingleV2MatchesV1OnStrings | make_payload_v2.py:39-40 | on string names both scripts build the same single request |
| Payloads.BatchV2MatchesV1OnStrings | make_payload_v2.py:42-45 | on string names both scripts build the same batch request |
| Service.HealthCheck | app.py:22-24 | status "ok" and the number of schema names |
| Service.Contains | app.py:17 | `k in x` works on dicts, lists and strings and raises on anything else; on a dict it is key membership |
| Service.MissingNames | app.py:17 | a name is listed exactly when it is in the schema and not in the row, as many times as the schema repeats it; the list keeps schema order; a row that is not a container raises TypeError unless the schema is empty |
| Service.Subscript | app.py:20 | a present key gives its value; indexing a non-dict with a string raises TypeError |
| Service.SelectRow | app.py:20 | when every schema name is present, the row's values in schema order |
| Service.NothingPresentAllMissing | app.py:17 | when no schema name is in a container row, the missing list is the whole schema, in order |
| Service.DfFromPayload | app.py:16-20 | a dict row is accepted exactly when it has every schema name; the built row has one value per schema name, the row's value for that name; otherwise the error lists exactly the absent names, each as often as the schema repeats it, in schema order; a list or string row lacking a schema name is rejected with that missing-features error (400), one holding every name fails with TypeError (500), and any other row raises TypeError |
| Service.Collect | app.py:33 | a comprehension whose element may raise gives every element in order when none raises, and otherwise the first error |
| Service.BuildRows | app.py:33 | the batch succeeds exactly when every row does, giving each row's values in order; the first failing row's error is the batch's error |
| Service.ReadInput | app.py:30-36 | the guidance reply is given exactly when the body has no "features" and no list under "instances"; every built row is as wide as the schema |
| Service.Classify | app.py:53-56 | status 400 exactly for a ValueError, carrying its message; anything else is 500 with the "Prediction failed: " prefix |
| Service.ShapeProbabilities | app.py:45-48 | a two-column matrix gives its second column, one value per row; any other shape is returned unchanged |
| Service.Probabilities | app.py:42-50 | probabilities appear exactly when the model has `predict_proba` and it does not raise; they are the shaped result |
| Service.Infer | app.py:38-52 | a raising model is classified like any other exception; otherwise the labels and the optional probabilities are returned, one label per row for a model that labels every row |
| Service.Predict | app.py:26-56 | every reply is 200, 400 or 500; a 500 always carries the failure prefix; a missing-features reply is always 400 |
| Service.MissingNamesIgnoreExtraKeys | app.py:17 | rows that agree on the schema names report the same missing names |
| Service.SelectRowIgnoresExtraKeys | app.py:20 | rows that agree on the schema names give the same values |
| Service.ExtraKeysIgnored | app.py:16-20 | keys outside the schema do not affect a row's outcome |
| Service.FeaturesTakePriority | app.py:30-31 | a body with "features" is answered as if it held "features" alone |
| Service.GuidanceWithoutInput | app.py:35-36 | a body with neither input gets the 400 guidance reply |
| Service.InputNeverGetsGuidance | app.py:30-34 | the dispatch never takes the guidance branch for a body naming either input |
| Service.SingleRowOnePrediction | app.py:30-38 | an accepted single row reaches the model as a one-row frame and gets one prediction |
| Service.SingleRowErrorClassified | app.py:30-56 | a single "features" row that is rejected is answered with its classified error; a dict, list or string row lacking schema names gets 400 listing exactly the absent names |
| Service.ListOfValuesIsClientError | app.py:17-19 | a list of values without names under "features" (numbers, or a batch of dicts) gets 400 listing every schema name |
| Service.BatchAbortsOnFirstBadRow | app.py:33 | a batch is answered with the error of its first failing row |
| Service.BatchOnePredictionPerRow | app.py:32-38 | an accepted non-empty batch reaches the model as one row per instance, in order, and gets one prediction per instance |
| Service.HealthMatchesRowWidth | app.py:24 | the health count equals the width of every row the model is given |
| Service.MissingTenureScenario | app.py:17-19 | with schema ["age", "tenure"], {"features": {"age": 34}} is a 400 naming only "tenure" |
| Service.EmptySchemaAcceptsAnyRow | app.py:17-20 | with an empty schema any "features" value, even a number, becomes one empty row |
| Service.NonContainerRowIsServerError | app.py:55-56 | a number under "features", with a non-empty schema, is a 500 and not a 400 |
| Samples.RowOverSchemaAccepted | app.py:16-20 | a row built over the schema names is accepted and yields its fill value for every name |
| Samples.SingleRequestReachesModel | app.py:30-38 | every single request the second script can build for the schema reaches the model as one row of 0s |
| Samples.SingleSampleReachesModel | make_payload_v2.py:39-40 | the second script's single sample for the schema reaches the model as one row of 0s |
| Samples.TwoRowsBuild | app.py:33 | two accepted rows make a two-row frame, in order |
| Samples.InstancesReachModel | app.py:32-38 | a body with a non-empty list under "instances" and no "features" reaches the model with the frame its rows build |
| Samples.TypeMapSampleReachesModel | make_payload_v2.py:15 | the corrected second script resolves a name-to-type map over the schema to the schema names, and the single request it then builds reaches the model as one row of 0s |
| Samples.BatchRequestReachesModel | app.py:32-38 | every batch request the second script can build for the schema reaches the model as a row of 0s then a row of 1s |

## Left out

- File and console I/O and the `main` functions of both scripts (make_payload.py:44-60, make_payload_v2.py:47-57): these are side effects. The model starts from the parsed artifact and ends at the built request value.
- JSON parsing and serialisation (`json.load`, `json.dump`, `jsonify`). These are library code. Requests and replies are structured values (`Response`, `Health`), not JSON text.
- `request.get_json(silent=True) or {}` (app.py:28). The body is modelled as a JSON object's entries. A body that is not an object, and an unparsable body, are left out.
- Duplicate keys inside one JSON object. The parser keeps the last one; bodies are taken as already parsed.
- Loading the model and the schema at start-up (app.py:12-14), and the server start (app.py:58-59). The model is a parameter, and so is the schema, assumed to be a list of strings.
- pandas: `pd.DataFrame` is modelled as the list of values in schema order, without column labels. `pd.concat` is modelled as concatenation, and its behaviour on an empty list is the `emptyConcat` parameter.
- Floating-point numbers: JSON numbers are integers. Probabilities and labels are opaque type parameters.
- numpy arrays of dimension other than 2 are given only by their `tolist()` result.
- Values.Repr: for a list or dict name holding a string with a quote, a backslash or a non-printable character, `str(name)` differs from Python, which escapes such characters and may switch to double quotes; string names are unaffected, since `str` returns them unchanged.
- Service.Subscript: the `KeyError` for an absent key is a generic error carrying the key's repr. The guard before it rules this case out for dicts.
- Service.Classify: the missing-features reply keeps the list of names (`MissingList`) instead of the formatted text `Missing required features: [...]`. The wording of CPython's `TypeError` messages is approximate, as it varies between versions.
- Service.Infer: the label count is tied to the frame only for a model satisfying `LengthPreserving`, since the model is not visible.
- Service.Predict: the status rules are stated for every body; the reply contents are stated per input shape by the lemmas below it (accepted or rejected single row, guidance, failing or valid batch).
- The resolver's result is not fed into the service's schema. The service reads the artifact with `json.load` alone, and the end-to-end lemmas take the schema as a list of strings.

## Findings

| source | as written | input that shows it | evidently intended | confidence | as-written member | corrected member |
|---|---|---|---|---|---|---|
| make_payload.py:29-30 | `isinstance(data["features"], Sequence)` accepts a string, and `list()` then splits it into characters | `{"features": "num", "age": "num"}`, a name-to-type map (the third documented shape) with a feature called "features", resolves to `['n', 'u', 'm']` | only a list of names under "features" is taken; such a map resolves to its keys `['features', 'age']` | medium, not executed | FeatureResolver.V1MisreadsTypeMap | FeatureResolver.LoadFeaturesV1Strict |
| make_payload_v2.py:31-33 | the same test on every candidate key accepts a string type tag | `{"columns": "cat", "age": "num"}` resolves to `['c', 'a', 't']` | only a list under a candidate key is taken; the map resolves to `['columns', 'age']` | medium, not executed | FeatureResolver.V2MisreadsTypeMap | FeatureResolver.LoadFeaturesV2Strict |
