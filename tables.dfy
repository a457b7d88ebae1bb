/** The values the pipeline moves around: decoded JSON, the silver, gold,
    feature and prediction rows, and the blobs the object store holds.
    A Parquet file is modelled by the table it encodes (encoding is lossless). */
module Tables {

  newtype byte = x: int | 0 <= x < 256

  /** A value returned by json.loads. Numbers are kept as integers. */
  datatype Json =
    | JNull
    | JBool(b: bool)
    | JNum(n: int)
    | JStr(s: string)
    | JArr(items: seq<Json>)
    | JObj(fields: map<string, Json>)

  /** One normalised event: the five columns of the silver table (ingest/silver.py:25-31). */
  datatype SilverRow = SilverRow(eventType: string, repoId: Json, repoName: Json, actorId: Json, createdAt: Json)

  /** What pd.DataFrame(all_records) gives: a frame without any column when
      there are no records, otherwise the five-column table. */
  datatype SilverFrame = NoColumns | Table(rows: seq<SilverRow>)

  /** One row of build_daily_metrics (ingest/gold.py:11-23). */
  datatype RepoMetrics = RepoMetrics(repoId: Json, repoName: Json, stars: nat, forks: nat, pushes: nat, prs: nat, issues: nat)

  /** One gold row: the metrics plus the processing date column. */
  datatype GoldRow = GoldRow(metrics: RepoMetrics, date: string)

  /** A target-day gold row joined with its history averages and the two ratio columns. */
  datatype Joined = Joined(gold: GoldRow, avgStars: real, avgForks: real, avgPushes: real,
                           starVelocity: real, forkRatio: real)

  /** A row of ml/features.py's output: Joined plus activity_score. */
  datatype FeatureRow = FeatureRow(joined: Joined, activityScore: int)

  /** A row of the labelled training table (ml/labels.py:45-50): the feature row
      with its viral and trending flags; the helper columns are gone. */
  datatype LabeledRow = LabeledRow(features: FeatureRow, viral: nat, trending: nat)

  /** A row of the prediction table (ml/predict.py:67-70). */
  datatype PredictionRow = PredictionRow(features: Joined, viralProb: real, viralPred: nat, githubUrl: Json)

  /** What one object-store key holds. */
  datatype Blob =
    | Bytes(data: seq<byte>)
    | SilverBlob(frame: SilverFrame)
    | GoldBlob(gold: seq<GoldRow>)
    | FeatureBlob(features: seq<FeatureRow>)
    | TrainingBlob(training: seq<LabeledRow>)
    | PredictionBlob(predictions: seq<PredictionRow>)
}
