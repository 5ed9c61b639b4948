/** The prediction run triggered by the Predict button: one feature row and
    one score per crime type in the type encoder's vocabulary, then the top
    five, their labels and the banner. The model's `predict` is a parameter:
    an arbitrary function from an aligned feature row to a score, applied to
    each row on its own. */
module Pipeline {
  import opened Values
  import opened Encoders
  import opened Rows
  import opened Ranking
  import opened Risk

  /** The UI selections. */
  datatype Request = Request(state: string, category: string, year: int)

  /** The loaded artifacts: the encoders, the defaults mapping and the
      model's ordered `feature_name_`. */
  datatype Artifacts = Artifacts(encoders: EncoderBank, defaults: map<string, Value>, featureNames: seq<string>)

  /** What the page shows: the ranked entries, their labels and the banner. */
  datatype Report = Report(top: seq<Prediction>, levels: seq<Level>, alert: Alert)

  /** The aligned feature row the page builds for one candidate crime type:
      base columns, then defaults, then encoding, then alignment. */
  function CandidateFeatures(req: Request, art: Artifacts, crimeType: string): Result<seq<Value>>
  {
    var encoded :- Encoded(BaseRow(req.state, req.category, crimeType, req.year) + art.defaults, art.encoders);
    Aligned(encoded, art.featureNames)
  }

  /** When the UI labels come from the encoders' vocabularies and no default
      shadows a categorical column, the row is built without error exactly
      when every feature the model names is a UI column or a default; each
      aligned cell is then the code of the chosen label, the default value,
      or the year (unless a default replaced it). */
  lemma CandidateFeaturesContents(req: Request, art: Artifacts, crimeType: string)
    requires req.state in art.encoders.state.classes
    requires req.category in art.encoders.category.classes
    requires crimeType in art.encoders.crimeType.classes
    requires art.defaults.Keys !! CategoricalColumns
    ensures CandidateFeatures(req, art, crimeType).Ok? <==>
      forall i :: 0 <= i < |art.featureNames| ==> art.featureNames[i] in UiColumns + art.defaults.Keys
    ensures CandidateFeatures(req, art, crimeType).Ok? ==>
      var v := CandidateFeatures(req, art, crimeType).value;
      && |v| == |art.featureNames|
      && forall i :: 0 <= i < |art.featureNames| ==>
        var f := art.featureNames[i];
        && (f == "state" ==> Encodes(art.encoders.state, Str(req.state), v[i]))
        && (f == "category" ==> Encodes(art.encoders.category, Str(req.category), v[i]))
        && (f == "type" ==> Encodes(art.encoders.crimeType, Str(crimeType), v[i]))
        && (f == "year" && f !in art.defaults ==> v[i] == Int(req.year))
        && (f in art.defaults ==> v[i] == art.defaults[f])
  {
    var row := BaseRow(req.state, req.category, crimeType, req.year) + art.defaults;
    assert row.Keys == UiColumns + art.defaults.Keys;
    EncodedFields(row, art.encoders);
  }

  /** A state or category label outside its encoder's vocabulary is reported
      as an UnknownLabel error, never replaced by some other code. */
  lemma CandidateUnknownLabel(req: Request, art: Artifacts, crimeType: string)
    requires art.defaults.Keys !! CategoricalColumns
    ensures req.state !in art.encoders.state.classes ==>
      CandidateFeatures(req, art, crimeType) == Err(UnknownLabel("state", Str(req.state)))
    ensures req.state in art.encoders.state.classes && req.category !in art.encoders.category.classes ==>
      CandidateFeatures(req, art, crimeType) == Err(UnknownLabel("category", Str(req.category)))
  {
    var row := BaseRow(req.state, req.category, crimeType, req.year) + art.defaults;
    assert row["state"] == Str(req.state) && row["category"] == Str(req.category);
    if req.state in art.encoders.state.classes {
      var s := EncodeColumn(row, "state", art.encoders.state).value;
      assert s["category"] == row["category"];
    }
  }

  /** app.py:137-153 for one crime type, with the frame updated in place:
      build, assign defaults, encode three columns, align, predict. */
  method ScoreCandidate(req: Request, art: Artifacts, predict: seq<Value> -> real, crimeType: string)
    returns (r: Result<real>)
    ensures r.Ok? <==> CandidateFeatures(req, art, crimeType).Ok?
    ensures r.Ok? ==> r.value == predict(CandidateFeatures(req, art, crimeType).value)
    ensures r.Err? ==> r.error == CandidateFeatures(req, art, crimeType).error
  {
    var inputDf := BaseRow(req.state, req.category, crimeType, req.year);
    inputDf := AssignDefaults(inputDf, art.defaults);
    var encoded :- EncodeColumn(inputDf, "state", art.encoders.state);
    inputDf := encoded;
    encoded :- EncodeColumn(inputDf, "category", art.encoders.category);
    inputDf := encoded;
    encoded :- EncodeColumn(inputDf, "type", art.encoders.crimeType);
    inputDf := encoded;
    var aligned :- Aligned(inputDf, art.featureNames);
    r := Ok(predict(aligned));
  }

  /** The candidate rows as one function of the crime type. */
  function Candidates(req: Request, art: Artifacts): string -> Result<seq<Value>>
  {
    t => CandidateFeatures(req, art, t)
  }

  /** The `results` list for the crime types `types`, each row built by
      `rows`: one pair per type, in order, each holding its own type and the
      score of its own row alone; the first row that fails aborts the whole
      list with that row's error. */
  function ScoreAll(rows: string -> Result<seq<Value>>, predict: seq<Value> -> real, types: seq<string>)
    : (r: Result<seq<Prediction>>)
    ensures r.Ok? <==> forall i :: 0 <= i < |types| ==> rows(types[i]).Ok?
    ensures r.Ok? ==> |r.value| == |types| && forall i :: 0 <= i < |types| ==>
      r.value[i] == Prediction(types[i], predict(rows(types[i]).value))
    ensures r.Err? ==>
      exists i :: 0 <= i < |types| && rows(types[i]) == Err(r.error)
        && forall j :: 0 <= j < i ==> rows(types[j]).Ok?
  {
    if types == [] then Ok([])
    else
      assert forall i :: 1 <= i < |types| ==> types[i] == types[1..][i - 1];
      var features :- rows(types[0]);
      var rest :- ScoreAll(rows, predict, types[1..]);
      Ok([Prediction(types[0], predict(features))] + rest)
  }

  /** The loop of app.py:132-154 over the type encoder's vocabulary,
      appending one pair per crime type. */
  method PredictAll(req: Request, art: Artifacts, predict: seq<Value> -> real) returns (r: Result<seq<Prediction>>)
    ensures r == ScoreAll(Candidates(req, art), predict, art.encoders.crimeType.classes)
  {
    var crimeTypes := art.encoders.crimeType.classes;
    ghost var rows := Candidates(req, art);
    var results: seq<Prediction> := [];
    for i := 0 to |crimeTypes|
      invariant ScoreAll(rows, predict, crimeTypes[..i]) == Ok(results)
    {
      var pred := ScoreCandidate(req, art, predict, crimeTypes[i]);
      if pred.Err? {
        r := Err(pred.error);
        ScoreAllStops(rows, predict, crimeTypes, i);
        return;
      }
      ScoreAllExtends(rows, predict, crimeTypes, i);
      results := results + [Prediction(crimeTypes[i], pred.value)];
    }
    assert crimeTypes[..|crimeTypes|] == crimeTypes;
    r := Ok(results);
  }

  /** Scoring one more type appends its pair to the list. */
  lemma ScoreAllExtends(rows: string -> Result<seq<Value>>, predict: seq<Value> -> real, types: seq<string>, i: nat)
    requires i < |types| && ScoreAll(rows, predict, types[..i]).Ok? && rows(types[i]).Ok?
    ensures ScoreAll(rows, predict, types[..i + 1])
      == Ok(ScoreAll(rows, predict, types[..i]).value + [Prediction(types[i], predict(rows(types[i]).value))])
  {
    var prefix, longer := types[..i], types[..i + 1];
    assert forall j :: 0 <= j < i ==> longer[j] == prefix[j];
    assert longer[i] == types[i];
    var scored := ScoreAll(rows, predict, longer);
    assert scored.value == ScoreAll(rows, predict, prefix).value + [Prediction(types[i], predict(rows(types[i]).value))];
  }

  /** The first failing row decides the error of the whole list. */
  lemma {:induction false} ScoreAllStops(rows: string -> Result<seq<Value>>, predict: seq<Value> -> real,
                                         types: seq<string>, i: nat)
    requires i < |types| && ScoreAll(rows, predict, types[..i]).Ok? && rows(types[i]).Err?
    ensures ScoreAll(rows, predict, types) == Err(rows(types[i]).error)
  {
    if i > 0 {
      assert types[..i][0] == types[0] && types[..i][1..] == types[1..][..i - 1];
      assert types[1..][i - 1] == types[i];
      ScoreAllStops(rows, predict, types[1..], i - 1);
    }
  }

  /** The whole Predict action: score every crime type, keep the top five,
      label them and choose the banner. */
  method RunPrediction(req: Request, art: Artifacts, predict: seq<Value> -> real) returns (r: Result<Report>)
    ensures r.Ok? <==> ScoreAll(Candidates(req, art), predict, art.encoders.crimeType.classes).Ok?
    ensures r.Err? ==> r.error == ScoreAll(Candidates(req, art), predict, art.encoders.crimeType.classes).error
    ensures r.Ok? ==>
      && r.value.top == Top5(ScoreAll(Candidates(req, art), predict, art.encoders.crimeType.classes).value)
      && |r.value.levels| == |r.value.top|
      && (forall i :: 0 <= i < |r.value.top| ==> r.value.levels[i] == Classify(r.value.top[i].score))
      && r.value.alert == AlertFor(r.value.top)
  {
    var results :- PredictAll(req, art, predict);
    var top5 := Top5(results);
    var levels, alert := ScanTop(top5);
    r := Ok(Report(top5, levels, alert));
  }
}
