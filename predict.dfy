/** The daily scoring job (ml/predict.py). It loads the saved classifier and
    builds yesterday's features with the same join as ml/features.py. It
    scores every repository and flags those at probability 0.7 or above,
    adds the repository's GitHub URL, ranks the rows by probability from the
    highest, and stores the table as predictions/latest.parquet. */
module Predict {
  import opened Wrappers
  import opened Text
  import opened Dates
  import opened Tables
  import opened Store
  import Features
  import Sorting

  const ViralThreshold: real := 0.7
  const GithubBase := "https://github.com/"
  const PredictionsKey := "predictions/latest.parquet"

  /** "https://github.com/" + repo_name on one row: pandas leaves a NaN name
      NaN, and adding a name that is not a string raises TypeError. The joined
      rows never hold a null name: fillna(0) has made it 0 (see NullNameFails). */
  function GithubUrl(name: Json): (u: Result<Json>)
    ensures u.Ok? <==> name.JStr? || name.JNull?
  {
    match name
    case JStr(s) => Ok(JStr(GithubBase + s))
    case JNull => Ok(JNull)
    case _ => Err(TypeError)
  }

  /** The repository's name can be read back from its URL. */
  lemma GithubUrlNamesRepo(name: Json)
    ensures name.JStr? ==> var u := GithubUrl(name);
      u.Ok? && u.value.JStr? && IsPrefix(GithubBase, u.value.s) && u.value.s[|GithubBase|..] == name.s
    ensures name.JNull? ==> GithubUrl(name) == Ok(JNull)
    ensures !name.JStr? && !name.JNull? ==> GithubUrl(name) == Err(TypeError)
  {
  }

  /** Every row's name can be added to the URL base. */
  predicate UrlsOk(rows: seq<Joined>) {
    forall i :: 0 <= i < |rows| ==> GithubUrl(rows[i].gold.metrics.repoName).Ok?
  }

  /** The three new columns: viral_prob from the classifier, viral_pred when
      it reaches the threshold, and github_url. scaler_viral.transform raises
      ValueError on a table without rows, before anything is scored; the whole
      URL column raises TypeError when any row's name cannot be added. */
  function Scored(rows: seq<Joined>, classify: Joined -> real): (r: Result<seq<PredictionRow>>)
    ensures rows == [] ==> r == Err(ValueError)
    ensures rows != [] ==> (r.Ok? <==> UrlsOk(rows)) && (r.Err? ==> r.error == TypeError)
    ensures r.Ok? ==> |r.value| == |rows| && forall i :: 0 <= i < |rows| ==> ScoredRow(r.value[i], rows[i], classify)
  {
    if rows == [] then Err(ValueError)
    else if !UrlsOk(rows) then Err(TypeError)
    else Ok(seq(|rows|, i requires 0 <= i < |rows| =>
      var prob := classify(rows[i]);
      PredictionRow(rows[i], prob, if prob >= ViralThreshold then 1 else 0,
                    GithubUrl(rows[i].gold.metrics.repoName).value)))
  }

  /** One prediction row as the classifier and the threshold define it. */
  predicate ScoredRow(p: PredictionRow, row: Joined, classify: Joined -> real) {
    p.features == row && p.viralProb == classify(row) &&
    (p.viralPred == 1 <==> p.viralProb >= ViralThreshold) && p.viralPred <= 1 &&
    GithubUrl(row.gold.metrics.repoName) == Ok(p.githubUrl)
  }

  /** `viral_prob` descending. */
  predicate ProbGe(a: PredictionRow, b: PredictionRow) {
    a.viralProb >= b.viralProb
  }

  lemma ProbGeOrder()
    ensures Sorting.TotalPreorder(ProbGe)
  {
  }

  /** sort_values("viral_prob", ascending=False). */
  function Ranked(rows: seq<PredictionRow>): (r: seq<PredictionRow>)
    ensures multiset(r) == multiset(rows)
    ensures forall i, j :: 0 <= i < j < |r| ==> r[i].viralProb >= r[j].viralProb
  {
    ProbGeOrder();
    Sorting.SortSorted(rows, ProbGe);
    var r := Sorting.Sort(rows, ProbGe);
    assert forall i, j :: 0 <= i < j < |r| ==> ProbGe(r[i], r[j]);
    r
  }

  /** The prediction table for a clock reading: yesterday's joined features,
      scored, then ranked. Stepping back from the first representable day
      raises OverflowError. */
  function PredictTable(objects: map<string, Blob>, now: Date, classify: Joined -> real): (r: Result<seq<PredictionRow>>)
    requires Valid(now)
    ensures Prev(now).None? ==> r == Err(OverflowError)
    ensures Prev(now).Some? && Features.JoinedTable(objects, Format(Prev(now).value)).Err? ==>
      r == Err(Features.JoinedTable(objects, Format(Prev(now).value)).error)
    ensures r.Ok? ==> r.value != []
  {
    match Prev(now)
    case None => Err(OverflowError)
    case Some(yesterday) =>
      var joined :- Features.JoinedTable(objects, Format(yesterday));
      var rows :- Scored(joined, classify);
      Ok(Ranked(rows))
  }

  /** The table is yesterday's joined features, one scored row per repository
      row of yesterday's gold table, ranked from the highest probability. */
  lemma PredictionRows(objects: map<string, Blob>, now: Date, classify: Joined -> real)
    requires Valid(now) && PredictTable(objects, now, classify).Ok?
    ensures Prev(now).Some? && Features.JoinedTable(objects, Format(Prev(now).value)).Ok?
    ensures var out := PredictTable(objects, now, classify).value;
      var joined := Features.JoinedTable(objects, Format(Prev(now).value)).value;
      |out| == |joined| &&
      (forall i :: 0 <= i < |out| ==> exists k :: 0 <= k < |joined| && ScoredRow(out[i], joined[k], classify)) &&
      (forall i, j :: 0 <= i < j < |out| ==> out[i].viralProb >= out[j].viralProb)
  {
    var joined := Features.JoinedTable(objects, Format(Prev(now).value)).value;
    var rows := Scored(joined, classify).value;
    var out := Ranked(rows);
    assert |out| == |multiset(out)| == |multiset(rows)| == |rows|;
    forall i | 0 <= i < |out| ensures exists k :: 0 <= k < |joined| && ScoredRow(out[i], joined[k], classify) {
      assert out[i] in multiset(rows);
      var k :| 0 <= k < |rows| && rows[k] == out[i];
      assert ScoredRow(rows[k], joined[k], classify);
    }
  }

  /** Every scored repository keeps its row: each of yesterday's joined rows
      appears in the table, scored. */
  lemma EveryRepositoryScored(objects: map<string, Blob>, now: Date, classify: Joined -> real, k: nat)
    requires Valid(now) && PredictTable(objects, now, classify).Ok?
    requires Prev(now).Some? && Features.JoinedTable(objects, Format(Prev(now).value)).Ok?
    requires k < |Features.JoinedTable(objects, Format(Prev(now).value)).value|
    ensures var joined := Features.JoinedTable(objects, Format(Prev(now).value)).value;
      exists i :: 0 <= i < |PredictTable(objects, now, classify).value| &&
        ScoredRow(PredictTable(objects, now, classify).value[i], joined[k], classify)
  {
    var joined := Features.JoinedTable(objects, Format(Prev(now).value)).value;
    var rows := Scored(joined, classify).value;
    var out := Ranked(rows);
    assert PredictTable(objects, now, classify).value == out;
    assert ScoredRow(rows[k], joined[k], classify);
    RankedKeepsRow(rows, k);
    var i :| 0 <= i < |out| && out[i] == rows[k];
  }

  /** Ranking loses no row. */
  lemma RankedKeepsRow(rows: seq<PredictionRow>, k: nat)
    requires k < |rows|
    ensures exists i :: 0 <= i < |Ranked(rows)| && Ranked(rows)[i] == rows[k]
  {
    assert rows[k] in multiset(rows);
    assert rows[k] in multiset(Ranked(rows));
  }

  /** A yesterday whose gold table has no rows is never scored: the scaler
      raises ValueError once the join has succeeded. */
  lemma EmptyYesterdayFails(objects: map<string, Blob>, now: Date, classify: Joined -> real)
    requires Valid(now) && Prev(now).Some?
    requires Features.LoadGoldDay(objects, Format(Prev(now).value)) == Ok([])
    ensures PredictTable(objects, now, classify).Err?
    ensures Features.JoinedTable(objects, Format(Prev(now).value)).Ok? ==> PredictTable(objects, now, classify) == Err(ValueError)
  {
    if Features.JoinedTable(objects, Format(Prev(now).value)).Ok? {
      Features.JoinedRows(objects, Format(Prev(now).value));
    }
  }

  /** A repository of yesterday's table without a name gets the name 0 from
      fillna(0), so building the URL column raises TypeError. */
  lemma NullNameFails(objects: map<string, Blob>, now: Date, classify: Joined -> real, k: nat)
    requires Valid(now) && Prev(now).Some?
    requires Features.JoinedTable(objects, Format(Prev(now).value)).Ok?
    requires k < |Features.LoadGoldDay(objects, Format(Prev(now).value)).value|
    requires Features.LoadGoldDay(objects, Format(Prev(now).value)).value[k].metrics.repoName == JNull
    ensures PredictTable(objects, now, classify) == Err(TypeError)
  {
    var joined := Features.JoinedTable(objects, Format(Prev(now).value)).value;
    Features.JoinedRows(objects, Format(Prev(now).value));
    assert GithubUrl(joined[k].gold.metrics.repoName).Err?;
    assert !UrlsOk(joined);
  }

  /** A table whose names are all strings is scored whenever the join succeeds
      and yesterday has a row. */
  lemma NamedYesterdayScored(objects: map<string, Blob>, now: Date, classify: Joined -> real)
    requires Valid(now) && Prev(now).Some?
    requires Features.JoinedTable(objects, Format(Prev(now).value)).Ok?
    requires var today := Features.LoadGoldDay(objects, Format(Prev(now).value)).value;
      today != [] && forall k :: 0 <= k < |today| ==> today[k].metrics.repoName.JStr?
    ensures PredictTable(objects, now, classify).Ok?
  {
    var joined := Features.JoinedTable(objects, Format(Prev(now).value)).value;
    Features.JoinedRows(objects, Format(Prev(now).value));
    assert UrlsOk(joined);
  }

  /** The store after make_predictions: the ranked table under
      predictions/latest.parquet, or nothing written when anything raised. */
  function AfterPredict(objects: map<string, Blob>, rejected: set<string>, now: Date, model: Result<Joined -> real>): map<string, Blob>
    requires Valid(now)
  {
    if model.Err? then objects
    else match PredictTable(objects, now, model.value)
      case Err(_) => objects
      case Ok(rows) => if PredictionsKey in rejected then objects else objects[PredictionsKey := PredictionBlob(rows)]
  }

  /** make_predictions: the two joblib.load calls come first, as `model`
      (FileNotFound when a file is absent); the clock is the parameter `now`. */
  method MakePredictions(store: ObjectStore, now: Date, model: Result<Joined -> real>) returns (r: Result<()>)
    requires Valid(now)
    modifies store
    ensures store.objects == AfterPredict(old(store.objects), store.rejected, now, model)
    ensures r.Ok? <==> model.Ok? && PredictTable(old(store.objects), now, model.value).Ok? && PredictionsKey !in store.rejected
    ensures model.Err? ==> r == Err(model.error)
    ensures model.Ok? && PredictTable(old(store.objects), now, model.value).Err? ==>
      r == Err(PredictTable(old(store.objects), now, model.value).error)
    ensures model.Ok? && PredictTable(old(store.objects), now, model.value).Ok? && PredictionsKey in store.rejected ==>
      r == Err(WriteRejected(PredictionsKey))
    ensures store.journal == if r.Ok? then old(store.journal) + [Wrote(PredictionsKey)] else old(store.journal)
  {
    if model.Err? {
      return Err(model.error);
    }
    var classify := model.value;
    var yesterday := Prev(now);
    if yesterday.None? {
      return Err(OverflowError);
    }
    var today := Format(yesterday.value);
    var features := Features.BuildJoined(store, today);
    if features.Err? {
      return Err(features.error);
    }
    var scored := Scored(features.value, classify);
    if scored.Err? {
      return Err(scored.error);
    }
    var top := Ranked(scored.value);
    var w := store.Put(PredictionsKey, PredictionBlob(top));
    r := if w.Ok? then Ok(()) else Err(w.error);
  }
}
