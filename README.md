# GitPulse in Dafny

GitPulse turns the public GH Archive event stream into a daily table of
repository activity. From that table it trains and applies a classifier that
flags repositories about to go viral. As the source does, this model keeps all
data in one S3-compatible object store, in three layers:

- **bronze.** One object per (date, hour), holding the archive's compressed
  bytes verbatim (`bronze/year=…/month=…/day=…/hour=HH/events.json.gz`).
- **silver.** One table per day of normalised events of six kept kinds,
  with five columns (`silver/…/events.parquet`).
- **gold.** One table per day with one row per repository: its name, its
  counts of stars, forks, pushes, pull requests and issues, and the processing
  date (`gold/…/metrics.parquet`).

The model covers:

- The three stages (`Bronze`, `Silver`, `Gold`).
- The daily driver, which prunes the gold partition of eight days ago, then
  fetches, writes silver and gold, and deletes the day's bronze and silver
  (`Orchestration`).
- The historical backfill (`Backfill`).
- The name resolution of the two drivers' import lines (`Imports`).
- The ML jobs:
  - feature building: the target day's gold row, left-joined with 7-day
    means, plus ratio columns (`Features`);
  - labelling with the stars of the next two days (`Labels`);
  - weekly retraining (`Retrain`). It lists the gold partitions and builds
    training features for every date with seven listed dates before it and
    two after. It labels the rows, keeps the better model, and deletes every
    gold partition outside the current month;
  - daily scoring of yesterday's repositories, ranked by probability
    (`Predict`).

Shared modules:

- `Store`: the bucket is a class whose `objects` map the methods update. Keys
  in `rejected` refuse every put and delete. A ghost `journal` records each
  mutation in order. The archive is a class whose `requested` log records each
  URL fetched.
- `Text`, `Dates` and `Partitions`: Python's `str.split`, `in`, `str(n)`,
  `f"{n:02d}"`, string `<`, `datetime`, `timedelta` and `strftime`/`strptime`
  on `"%Y-%m-%d"`, and the `year, month, day = date.split("-")` unpacking.
- `Sorting`: `sorted()` / `sort_values`.

Each stage is an imperative method proved equal to a run function over the
store. What the scripts promise is proved about those functions as lemmas:
- stage order in the journal;
- which keys are removed;
- partition-key round trips and uniqueness;
- per-repository counts;
- the 7-day means;
- the labelling rule;
- the sorted, duplicate-free listing of dates;
- the month-keeping cleanup;
- the ranking of predictions.

Python exceptions are a `Result` failure, so every error path of the source
appears in the contracts.

Models, I/O and the clock are parameters:
- gzip and `json.loads` are given functions (`Silver.Codecs`);
- the archive's answers are the `Archive`'s function `respond`;
- the current date is a `now`/`today` parameter;
- the store listing is a sequence of keys;
- the classifier pipeline of `retrain` is a function `train` from the
  labelled rows to a new F1 score, or a failure;
- the loaded model of `predict` is a function `classify` from a joined row
  to a probability.

## Model

| member | source | states |
|---|---|---|
| Text.Split | ingest/bronze.py:14 | `str.split` gives at least one piece, no piece holds the separator, and joining the pieces with it gives the string back |
| Text.NatToString | ingest/bronze.py:7 | `str(hour)` is a non-empty string of decimal digits |
| Text.NatToStringValue | ingest/bronze.py:7 | the digits of `str(n)` denote n |
| Text.Pad | ingest/bronze.py:15 | `f"{hour:02d}"` has at least the width and only digits |
| Text.Pad2Digits | ingest/bronze.py:15 | below 100 the padded hour is exactly its two decimal digits |
| Text.PadValue | ingest/bronze.py:15 | a zero-padded field denotes the number it was made from |
| Text.ContainsSuffix | ml/retrain.py:26 | a key ending in `metrics.parquet` passes the `in` test |
| Text.LexLessIrreflexive | ml/retrain.py:32 | no string is `<` itself |
| Text.LexLessTotal | ml/retrain.py:32 | string `<` relates any two distinct strings one way |
| Text.LexLessTransitive | ml/retrain.py:32 | string `<` is transitive |
| Text.LexLessAsymmetric | ml/retrain.py:32 | string `<` never holds both ways |
| Text.LexLessConcat | ml/retrain.py:32 | strings with equal-length heads compare by the heads first, then by the rests |
| Text.LexLessDigits | ml/retrain.py:32 | digit strings of one length compare as strings exactly as their numbers compare |
| Dates.DaysInMonth | ingest/gold.py:55 | every month has 28 to 31 days |
| Dates.RankOrder | ingest/gold.py:49 | the rank grows exactly with chronological order, so a date loop terminates |
| Dates.Next | ml/labels.py:25 | `+ timedelta(days=1)` is a later valid date, and overflows exactly on 9999-12-31 |
| Dates.NextInDecember | ingest/gold.py:55 | a December day before the 31st steps to the next day of the month |
| Dates.Prev | ml/predict.py:57 | `- timedelta(days=1)` is an earlier valid date, and overflows exactly on 0001-01-01 |
| Dates.NextPrev | ml/features.py:23 | stepping forward one day and back one day undo each other |
| Dates.NextIsImmediate | ml/labels.py:25-26 | no valid date lies strictly between a date and the next one |
| Dates.AddDays | ingest/daily_ingest.py:15 | `today - timedelta(days=8)` is a valid date when it does not overflow |
| Dates.Format | ingest/daily_ingest.py:13 | `strftime("%Y-%m-%d")` has ten characters |
| Dates.FormatMonth | ml/retrain.py:80 | `strftime("%Y-%m")` has seven characters and is the start of the full date |
| Dates.Parse | ml/features.py:17 | `strptime` yields only calendar dates |
| Dates.ParseFormat | ml/features.py:17 | parsing a formatted date gives the date back |
| Dates.FormatParse | ml/features.py:17 | a string that parses is the formatted form of its date |
| Dates.FormatInjective | ingest/daily_ingest.py:13 | distinct dates have distinct text forms |
| Dates.FormatSplit | ingest/daily_ingest.py:16-17 | splitting a formatted date on `-` gives its zero-padded year, month and day |
| Dates.PadOrder | ml/retrain.py:32 | zero-padded numbers of equal width compare as strings as the numbers do |
| Dates.FormatOrder | ml/retrain.py:32 | formatted dates compare as strings exactly as the dates compare in time |
| Dates.SameMonth | ml/retrain.py:80-83 | a date starts with the `"%Y-%m"` of now exactly when it lies in now's month |
| Partitions.DateFields | ingest/bronze.py:14 | the unpacking succeeds exactly on three `-`-fields (ValueError otherwise), and the fields rejoin to the date |
| Partitions.FormattedFields | ingest/daily_ingest.py:16-17 | a formatted date always unpacks, into its padded year, month and day |
| Partitions.SplitJoin | ml/retrain.py:27 | splitting a joined key on `/` gives back its segments when none holds `/` |
| Partitions.PadDigits | ingest/bronze.py:15 | a padded field holds no `/`, `=` or `-` |
| Partitions.PadInjective | ingest/bronze.py:15 | equal padded fields come from equal numbers |
| Store.ObjectStore.constructor | ingest/config.py:9-15 | a client over the given bucket contents, with an empty journal |
| Store.ObjectStore.Get | ingest/silver.py:13-14 | `get_object` returns the stored blob, or NoSuchKey exactly when the key is absent |
| Store.ObjectStore.Put | ingest/bronze.py:16 | `put_object` overwrites the key and journals the write, or raises on a rejected key and changes nothing |
| Store.ObjectStore.Delete | ingest/silver.py:65-69 | a swallowed `delete_object` removes the key unless it is rejected, and an absent key is no error |
| Store.Archive.constructor | ingest/bronze.py:8 | an archive that answers with the given responses and has been asked nothing |
| Store.Archive.Fetch | ingest/bronze.py:8 | `requests.get` returns the archive's answer for the URL and logs the request |
| Bronze.DownloadUrl | ingest/bronze.py:7 | the URL starts with the archive base, the date and `-`, and is long enough for exactly the unpadded hour and `.json.gz` |
| Bronze.DownloadUrlUnpadded | ingest/bronze.py:7 | hours below ten appear as one digit |
| Bronze.DownloadOutcome | ingest/bronze.py:8-10 | a failed GET raises ConnectionError, a 400..599 status raises HttpError, anything else returns the content |
| Bronze.DownloadHour | ingest/bronze.py:6-10 | one GET of the hour's URL, with the outcome above |
| Bronze.BronzeKey | ingest/bronze.py:14-15 | the key exists exactly when the date unpacks |
| Bronze.BronzeKeySegments | ingest/bronze.py:15 | the key of a formatted date splits on `/` into its six segments |
| Bronze.BronzeKeyInjective | ingest/bronze.py:15 | distinct (date, hour) pairs get distinct bronze keys |
| Bronze.IngestOutcome | ingest/bronze.py:19-22 | a success names the hour's bronze key, which accepts writes, and the downloaded content; a failed download always fails it |
| Bronze.IngestIdempotent | ingest/bronze.py:16 | re-ingesting an hour whose archive answer is unchanged leaves the store as one ingest did |
| Bronze.UploadToBronze | ingest/bronze.py:12-17 | ValueError and no change on a bad date; otherwise the bytes are put verbatim under the bronze key, or the write is refused |
| Bronze.IngestHour | ingest/bronze.py:19-22 | download then upload: the archive log gains the hour's URL, and the store and journal change as IngestOutcome says |
| Silver.Subscript | ingest/silver.py:23-30 | `v[k]` gives the field of a dict that has it, raises KeyError on a dict that lacks it, and raises TypeError otherwise |
| Silver.Project | ingest/silver.py:25-31 | the record exists exactly when the event is a dict holding `repo` (a dict with `id` and `name`), `actor` (a dict with `id`) and `created_at`; its five columns are those fields; a failure is KeyError or TypeError |
| Silver.ClassifyLine | ingest/silver.py:19-34 | empty and malformed lines are skipped; an undecodable one escapes the loop; a kept line is of a kept kind and its five columns are the event's fields; other kinds are skipped |
| Silver.Kept | ingest/silver.py:17-35 | the loop keeps at most one record per line |
| Silver.KeptKinds | ingest/silver.py:23-24 | every kept record is of one of the six kept kinds |
| Silver.KeptConcat | ingest/silver.py:18 | each line is judged on its own: filtering distributes over concatenation |
| Silver.DroppedLine | ingest/silver.py:33-34 | a skipped line removes only itself, and the lines around it are still processed |
| Silver.NoEscapeConcat | ingest/silver.py:21-34 | an exception escapes a + b exactly when it escapes a or b |
| Silver.FirstEscape | ingest/silver.py:18-34 | the first line that escapes: it escapes and no line before it does |
| Silver.FirstEscapeAt | ingest/silver.py:18-34 | an escaping line with no escaping line before it is the first one |
| Silver.RecordsOfLines | ingest/silver.py:17-35 | the loop returns the kept records exactly when no line escapes, and otherwise the exception of the first line that escapes |
| Silver.ReadsBronzeKey | ingest/silver.py:11 | silver reads character for character the key bronze wrote for the same hour |
| Silver.HourRecords | ingest/silver.py:9-35 | NoSuchKey for an absent hour key; a result comes from a stored key and holds only kept kinds; a failing line loop raises the exception of its first escaping line |
| Silver.ProcessHourToRecords | ingest/silver.py:9-35 | the method returns HourRecords exactly: the same records, or the same exception |
| Silver.DayRecords | ingest/silver.py:41-48 | hours are appended in hour order: the records of the hours before any hour are a prefix of the day's records |
| Silver.DayRecordsKinds | ingest/silver.py:41-48 | every record of the day is of a kept kind |
| Silver.NoReadableHourNoRecords | ingest/silver.py:42-48 | when no hour can be read the day has no records |
| Silver.FrameOf | ingest/silver.py:50 | `pd.DataFrame` of no records has no columns; otherwise it is the records in order |
| Silver.SilverKey | ingest/silver.py:56 | the silver key exists exactly when the date unpacks |
| Silver.ProcessDayToSilver | ingest/silver.py:37-59 | every hour is tried, failures are absorbed, and one table is written even when no hour could be read (ValueError on a bad date) |
| Silver.DeleteSilverDay | ingest/silver.py:61-69 | the unpacking raises outside the try; the delete of the day's silver key is swallowed |
| Gold.LoadSilverDay | ingest/gold.py:5-9 | ValueError on a bad date, NoSuchKey on an absent silver key, otherwise the stored table |
| Gold.RepoIds | ingest/gold.py:18 | the groups are the distinct non-null repo_ids, each once |
| Gold.CountKind | ingest/gold.py:12-16 | the count of one kind never exceeds the repository's number of rows |
| Gold.FirstName | ingest/gold.py:18-20 | the name is never null: it is a name some row of the repository carries, or 0 (`fillna(0)`), and it is 0 when no row of the repository has a name |
| Gold.MetricsOf | ingest/gold.py:18-21 | a metrics row carries its repo_id, a non-null name, and five counts that together never exceed the repository's rows |
| Gold.BuildDailyMetrics | ingest/gold.py:11-23 | a frame without columns raises KeyError; otherwise there is one metrics row per group |
| Gold.MetricsUnique | ingest/gold.py:18-23 | no two metrics rows share a repo_id |
| Gold.MetricsCover | ingest/gold.py:18-20 | a repo_id has a row exactly when a silver row with that non-null id exists |
| Gold.MetricsCounts | ingest/gold.py:12-18 | each metrics row holds its repository's count of each of the five kinds and its first non-null name |
| Gold.CountsBounded | ingest/gold.py:12-16 | the five counts together never exceed the repository's rows |
| Gold.CreateOnlyZero | ingest/gold.py:20 | a repository seen only in CreateEvents has every count 0 (`fillna(0)`) |
| Gold.FirstNameOfFirstRow | ingest/gold.py:18 | the name is the one on the repository's first row, when that row has one |
| Gold.CountKindConcat | ingest/gold.py:12 | counts over two runs of rows add up |
| Gold.TagDate | ingest/gold.py:31 | every gold row carries the processing date and its metrics row |
| Gold.GoldKey | ingest/gold.py:37 | the gold key exists exactly when the date unpacks |
| Gold.GoldKeySegments | ingest/gold.py:37 | the key of a formatted date splits on `/` into its five segments |
| Gold.GoldKeyInjective | ingest/gold.py:37 | distinct dates get distinct gold keys |
| Gold.LayersDisjoint | ingest/gold.py:37 | bronze, silver and gold keys never coincide |
| Gold.GoldTable | ingest/gold.py:29-34 | a gold table comes only from a stored silver table with columns, and every row carries the date |
| Gold.NoSilverNoGold | ingest/gold.py:29-30 | a missing or column-less silver table gives no gold |
| Gold.GoldTableOfRows | ingest/gold.py:29-34 | for a loaded silver table, the gold table is the date-tagged metrics, or ParquetError when the name column mixes kinds |
| Gold.UnnamedRepoFails | ingest/gold.py:18-34 | a day with a repository named by a string and another without a name in any event fails with ParquetError: `fillna(0)` leaves str and int in repo_name |
| Gold.MixedNames | ingest/gold.py:18-20 | on the metrics alone: a string name beside the filled-in 0 makes the name column unencodable |
| Gold.NamedDayEncodes | ingest/gold.py:18-34 | a day whose events all carry string names gives the date-tagged metrics table |
| Gold.NamedRowsEncodable | ingest/gold.py:18 | on the metrics alone: then every name is a string |
| Gold.FirstNameNamed | ingest/gold.py:18 | a group with a named row gets a name that one of its rows carries |
| Gold.ProcessDayToGold | ingest/gold.py:25-40 | the store ends as AfterGold says; every exception of GoldTable is returned with nothing written or journalled, ParquetError for a name column `to_parquet` cannot encode included; otherwise the gold key is overwritten and journalled, or WriteRejected when the key refuses the write |
| Gold.MainDates | ingest/gold.py:45-49 | the main loop's dates are 2025-12-01 .. 2025-12-18 |
| Gold.GoldMain | ingest/gold.py:42-55 | the loop visits the 18 dates in order, and the store ends as the gold stage leaves it applied to each in turn, whatever fails |
| Imports.ImportNames | ingest/daily_ingest.py:5 | a from-import succeeds exactly when the module binds every name; otherwise it raises ImportError naming the first missing one |
| Imports.RunImports | ingest/daily_ingest.py:5-7 | a script's import lines succeed exactly when each does |
| Imports.DailyCannotStart | ingest/daily_ingest.py:5 | the daily script stops with ImportError("delete_bronze_day") |
| Imports.BackfillCannotStart | ingest/backfill.py:3 | the backfill stops with ImportError("delete_bronze_day") |
| Imports.CorrectedDailyStarts | ingest/daily_ingest.py:5-7 | with delete_bronze_day defined in bronze, every import line of the daily script resolves |
| Imports.CorrectedBackfillStarts | ingest/backfill.py:2-3 | the same for the backfill importing it from bronze |
| Orchestration.DayUrls | ingest/daily_ingest.py:27-29 | a day has 24 archive URLs |
| Orchestration.FetchHours | ingest/daily_ingest.py:27-32 | the hour loop never fails, requests hours 0..n-1 in order, and writes only that date's bronze keys |
| Orchestration.FetchHoursStep | ingest/daily_ingest.py:28-32 | one more hour ingests that hour on the store so far |
| Orchestration.FetchDay | ingest/daily_ingest.py:27-32 | the method does what FetchHours describes to the store, the journal and the archive log |
| Orchestration.BronzeDayKeys | ingest/daily_ingest.py:36 | the 24 bronze keys of the date, hour by hour |
| Orchestration.RemovalLog | ingest/daily_ingest.py:36-37 | deletions journal only listed, non-rejected keys |
| Orchestration.RemoveKeysSnoc | ingest/daily_ingest.py:36 | one deletion more removes that key unless it is rejected |
| Orchestration.RemoveKeysEffect | ingest/daily_ingest.py:36-37 | removing keys takes away exactly the listed non-rejected keys and leaves every other entry unchanged |
| Orchestration.RemoveBronzeDay | ingest/daily_ingest.py:36 | delete_bronze_day removes the date's 24 bronze keys (ValueError on a bad date) |
| Orchestration.Prune | ingest/daily_ingest.py:19-23 | the old gold key is gone unless the store refuses the deletion, nothing is added, and every other key keeps its blob |
| Orchestration.WriteDay | ingest/daily_ingest.py:34-35 | the write step requests no URL and only writes, at most twice; a refused silver key changes nothing; a completed step wrote the silver key, then the gold key |
| Orchestration.PublishDay | ingest/daily_ingest.py:34-37 | the deletions never fail, so the result is the write step's; a failed write step is returned as it is; a completed publish leaves no silver key for the day |
| Orchestration.WriteSilverGold | ingest/daily_ingest.py:34-35 | the silver write then the gold write, stopping at the first exception |
| Orchestration.Publish | ingest/daily_ingest.py:34-37 | the two writes, then the two deletions, which happen only when both writes succeeded |
| Orchestration.RemoveDay | ingest/daily_ingest.py:36-37 | the day's non-rejected bronze keys are deleted, then its silver key; it runs only after the silver write succeeded, so that key accepts changes |
| Orchestration.DailyIngest | ingest/daily_ingest.py:10-37 | the script equals DailyRun on result, store, journal and requested URLs |
| Orchestration.DailyRun | ingest/daily_ingest.py:12-37 | OverflowError and no change when today minus 8 days leaves the calendar; otherwise the run requests the 24 hour URLs of today in order; a completed run leaves no silver key for today |
| Orchestration.KeyLayers | ingest/daily_ingest.py:20 | bronze, silver and gold keys sit under their own top-level prefixes |
| Orchestration.PublishLog | ingest/daily_ingest.py:34-37 | the only deletions of the publish step are of the day's bronze and silver keys, after both writes |
| Orchestration.WriteDayLog | ingest/daily_ingest.py:34-35 | the write step logs silver then gold, or stops at the first failure |
| Orchestration.PublishDayShape | ingest/daily_ingest.py:34-37 | the publish step is the writes followed by the removals |
| Orchestration.DailyRunShape | ingest/daily_ingest.py:15-37 | a run is the prune, then the fetch, then the publish step |
| Orchestration.PublishKeepsGold | ingest/daily_ingest.py:36-37 | the publish step never deletes a gold key |
| Orchestration.DailyPrunesOneGoldKey | ingest/daily_ingest.py:15-23 | the first mutation prunes the gold key of today minus 8 days, and no other gold key is ever deleted |
| Orchestration.DailyStageOrder | ingest/daily_ingest.py:34-37 | in a completed run, the silver write comes right before the gold write, and every bronze or silver deletion comes after both |
| Orchestration.DailyFailureKeepsData | ingest/daily_ingest.py:34-37 | a failed write deletes nothing but the prune |
| Orchestration.WriteDayGold | ingest/daily_ingest.py:34-35 | a completed write step leaves the metrics of the silver table it wrote under the gold key |
| Orchestration.GoldSurvives | ingest/daily_ingest.py:36-37 | deleting bronze keys and the silver key never touches a gold key |
| Orchestration.DailyGoldFromSilver | ingest/daily_ingest.py:27-37 | after a completed day, gold holds the metrics of the fetched hours, and the day's silver and deletable bronze keys are gone |
| Backfill.BackfillDates | ingest/backfill.py:5-9 | the dates are 2025-12-03 .. 2025-12-18 |
| Backfill.WriteSilver | ingest/backfill.py:20 | the silver write of one date |
| Backfill.SilverAndDrop | ingest/backfill.py:20-21 | the silver write, then the bronze deletion, which happens only when the write succeeded |
| Backfill.DropBronze | ingest/backfill.py:21 | the date's 24 bronze keys are removed |
| Backfill.BackfillOneDay | ingest/backfill.py:10-21 | one date: fetch, silver, drop bronze, as BackfillDay |
| Backfill.BackfillDay | ingest/backfill.py:10-21 | a date requests its 24 URLs in hour order whatever fails, and the only exception that escapes it is the refused silver write |
| Backfill.BackfillRun | ingest/backfill.py:9-23 | a completed backfill requested 24 URLs per date |
| Backfill.BackfillRunSnoc | ingest/backfill.py:9-23 | extending a run that has not stopped runs the next date on its store |
| Backfill.BackfillStops | ingest/backfill.py:20 | a run that has stopped stays stopped |
| Backfill.BackfillStep | ingest/backfill.py:9-23 | one iteration of the date loop extends the run so far by one date |
| Backfill.RunBackfill | ingest/backfill.py:1-25 | the script equals BackfillRun over the 16 dates |
| Backfill.FetchDayUrls | ingest/backfill.py:13-18 | a date's fetch requests its 24 URLs in hour order |
| Backfill.BackfillDayOrder | ingest/backfill.py:20-21 | within a date every deletion is of that date's bronze keys and follows its silver write |
| Backfill.BackfillNeverGold | ingest/backfill.py:9-23 | no backfill mutation touches a gold key |
| Backfill.BackfillDayNoGold | ingest/backfill.py:10-21 | no mutation of one date touches a gold key |
| Backfill.BackfillUrlsOk | ingest/backfill.py:9-23 | a completed backfill fetched every date once, in order |
| Backfill.StoppedAtExtends | ingest/backfill.py:9-23 | a stop at date k stays a stop at k when later dates are added |
| Backfill.BackfillStopsAtFirstFailure | ingest/backfill.py:20 | an uncaught silver failure ends the backfill at the first failing date, and later dates are untouched |
| Features.ReadsGoldKey | ml/features.py:11 | the reader's key is the gold stage's key |
| Features.LoadGoldDay | ml/features.py:9-13 | a load succeeds only with the gold table stored under the date's key |
| Features.LoadGoldDayOutcome | ml/features.py:10-13 | ValueError on a bad date, NoSuchKey on an absent key, and success exactly on a stored gold table |
| Features.LoadsWhatGoldWrote | ml/features.py:11-13 | after a successful gold write, the load returns exactly the written table |
| Features.Window | ml/features.py:22-23 | seven look-back dates, target-1 first |
| Features.Look | ml/features.py:24-27 | an out-of-calendar date overflows, a load that raises is skipped, and otherwise the table is loaded |
| Features.History | ml/features.py:21-27 | the loop fails only with OverflowError and gathers at most one table per day |
| Features.HistoryOverflow | ml/features.py:23 | the loop raises exactly when a looked-back date leaves the calendar |
| Features.HistoryKeepsLoaded | ml/features.py:24-25 | every loadable day's table is in the history |
| Features.HistoryOnlyLoaded | ml/features.py:24-27 | every table in the history is a loadable day of the window |
| Features.NothingLoadable | ml/features.py:26-27 | with no loadable day the history is empty |
| Features.HistoryErrStays | ml/features.py:23 | an overflow ends the loop |
| Features.LoadPastDays | ml/features.py:22-27 | the loop over a window's dates computes History: OverflowError at the first date outside the calendar, otherwise the tables of the days that load, in order |
| Features.LoadHistory | ml/features.py:21-27 | the `past_7_days` loop computes History over the window |
| Features.ConcatSnoc | ml/features.py:32 | concatenating one more day appends its rows |
| Features.Average | ml/features.py:33-43 | the mean is non-negative, 0 for a repository without history or with a null id, and times the row count equals the total |
| Features.AppearancesConcat | ml/features.py:32-33 | row counts over concatenated histories add up |
| Features.AppearancesAbsent | ml/features.py:43 | a repository has no history rows exactly when no history row names it |
| Features.AppearancesUnique | ml/features.py:33 | in a one-row-per-repository table a repository appears at most once |
| Features.AppearancesCountDays | ml/features.py:32-36 | a repository's history rows are as many as the days it appears in |
| Features.AveragePerDayPresent | ml/features.py:33-41 | `avg_*_7d` is the history total divided by the days present, not by 7 |
| Features.HistoryRows | ml/features.py:29-32 | the concatenation exists only for a loop that succeeded with at least one table; an empty history raises ValueError |
| Features.FillNull | ml/features.py:43 | a filled cell is never null, and a non-null cell is unchanged |
| Features.JoinRow | ml/features.py:43-46 | a joined row keeps the date and the five counts, fills a null repo_id or repo_name with 0, takes avg_stars_7d of the original repo_id, and computes star_velocity and fork_ratio from the counts |
| Features.JoinedTable | ml/features.py:15-46 | a joined table exists only for a parsed target, a loaded target day and a non-empty history |
| Features.JoinedTableErrors | ml/features.py:17-30 | the exceptions come in statement order: strptime, then the target load, then the history |
| Features.JoinedRows | ml/features.py:33-46 | the left join is one row per target-day row, in order. `fillna(0)` on the merged frame turns a null repo_id or repo_name into 0, and a row without nulls is the gold row unchanged; its three averages are those of the row's original repo_id |
| Features.OneRowPerRepo | ml/features.py:43 | the join keeps one row per repository, except that a null repo_id filled in as 0 can meet a repository whose id is 0 |
| Features.NoHistoryZero | ml/features.py:33-43 | a repository absent from the history, or a row whose repo_id is null (groupby drops it), gets averages of 0 (`fillna(0)`) |
| Features.Features | ml/features.py:15-49 | the feature table fails exactly as the join does, and has one row per row of the target day |
| Features.FeatureColumns | ml/features.py:47 | the feature rows are the joined rows plus `activity_score = pushes + prs + issues`, with the same errors |
| Features.BuildJoined | ml/features.py:15-46 | the method computes the joined table |
| Features.BuildFeatures | ml/features.py:15-49 | the method computes the feature table |
| Features.MainTargetsDates | ml/features.py:58-59 | the target strings are the formatted dates 2025-12-08 .. 2025-12-16 |
| Features.Gather | ml/features.py:58-64 | gathering succeeds exactly when every target does |
| Features.GatherSnoc | ml/features.py:58-61 | one more result extends the gathered rows or stops at its error |
| Features.GatherFirstFailure | ml/features.py:60 | a failure is the error of the first failing target |
| Features.MainAbortsAtFirstFailure | ml/features.py:58-64 | the script fails exactly when some target fails; it then fails with the first failing target's error, after every earlier target succeeded |
| Features.FeaturesMain | ml/features.py:51-71 | the script writes the concatenated features exactly when every target builds and the key accepts the write |
| Labels.FutureDays | ml/labels.py:11-19 | at most one tagged table per listed date |
| Labels.LoadFutureDays | ml/labels.py:11-19 | the future-days loop computes FutureDays |
| Labels.NothingLoads | ml/labels.py:18-19 | when no day loads, future_days is empty |
| Labels.MatchesConcat | ml/labels.py:22 | a (repo, date) match in a concatenation is a match in one part |
| Labels.StarsOn | ml/labels.py:30-35 | 0 when no future row matches (`fillna(0)`), otherwise the stars of a matching future row |
| Labels.SingleMatchConcat | ml/labels.py:22 | two parts with at most one row per key, only one of which matches it, concatenate to at most one row per key |
| Labels.TaggedSingle | ml/labels.py:15-17 | a tagged table with one row per repository has at most one row per key |
| Labels.FutureSingle | ml/labels.py:11-22 | with distinct dates and one row per repository in every loaded day, no key (repo_id, date) has two future rows |
| Labels.LoadedMatches | ml/labels.py:11-22 | a listed day that loads and holds the repository puts a matching row in the future table |
| Labels.TaggedMatches | ml/labels.py:16-17 | a tagged day matches every repository it holds on its own date |
| Labels.TwoPartsMatch | ml/labels.py:22 | a key matched in both parts has two rows in their concatenation |
| Labels.NotSingleExtends | ml/labels.py:22 | a key with two rows keeps them when more rows follow |
| Labels.RepeatedDate | ml/labels.py:11-22 | a date listed twice whose day holds the repository gives that key two future rows |
| Labels.StarsOnNoMatch | ml/labels.py:35 | a row without a match gets 0 stars (`fillna(0)`) |
| Labels.StarsOnSkipFront | ml/labels.py:30-35 | rows without a match in front do not change the lookup |
| Labels.StarsOnSkipBack | ml/labels.py:30-35 | rows without a match behind do not change the lookup |
| Labels.StarsOnTagged | ml/labels.py:16-17 | a tagged day answers its own date with the stars in its table |
| Labels.TaggedOtherDate | ml/labels.py:16 | a tagged day has no row for any other date |
| Labels.FutureLookup | ml/labels.py:30-42 | for a listed date the lookup gives the stars in that day's gold table (0 when absent); an unlisted date has no match |
| Labels.NextTwo | ml/labels.py:25-28 | day1 and day2 exist only for a parsable date with two calendar days after it, and are the formatted dates one and two days later |
| Labels.Label | ml/labels.py:45-49 | viral is 1 iff future_stars >= 20; trending is 1 iff future_stars >= 3 * avg_stars_7d and >= 5 |
| Labels.LabelRules | ml/labels.py:10-52 | each feature row gets exactly one labelled row, with viral and trending given by the stars of the two following days in the gold tables |
| Labels.NoFutureDays | ml/labels.py:22 | with no loadable future day, labelling raises ValueError |
| Labels.AddLabels | ml/labels.py:10-52 | a failed concat is the error; after it only ValueError can occur; a result has one labelled row per feature row, carrying it, with 0/1 labels |
| Labels.DuplicateMatchFails | ml/labels.py:30-44 | two future rows on a row's day-1 or day-2 key make labelling raise ValueError (the merge grows, and the `.values` sum cannot align) |
| Labels.LabelsSucceed | ml/labels.py:11-44 | labelling succeeds when some day loads, every date shifts, the dates are distinct and every loaded day holds one row per repository |
| Labels.RepeatedDateFails | ml/labels.py:11-44 | a date list that repeats a row's next day, when that day holds the row's repository, makes labelling raise ValueError |
| Labels.AddLabelsVectorized | ml/labels.py:10-52 | the method computes AddLabels, every error included: the empty concat, a date that does not shift, and a merge key with two future rows |
| Labels.LabelDatesDistinct | ml/labels.py:12-13 | the fixed future dates are ten distinct dates |
| Labels.LabelsRun | ml/labels.py:54-61 | NoSuchKey without the features key; a result has one labelled row per stored feature row, carrying it |
| Labels.LabelsMain | ml/labels.py:54-71 | the script writes the labelled table exactly when reading and labelling succeed and the key accepts the write |
| Retrain.KeyDate | ml/retrain.py:27-31 | reading a date from a key fails only with IndexError |
| Retrain.MetricsKeys | ml/retrain.py:24-26 | the filtered keys are exactly the listed keys that contain `metrics.parquet` |
| Retrain.ListedDates | ml/retrain.py:23-31 | the loop fails only with IndexError |
| Retrain.ListedDatesMeaning | ml/retrain.py:24-31 | the loop succeeds exactly when every metrics key names a date, and then yields one date per metrics key, in order |
| Retrain.ListedDatesPrefixErr | ml/retrain.py:27-30 | an IndexError on an earlier key is the loop's error |
| Retrain.StrLeOrder | ml/retrain.py:32 | `<=` on str is an antisymmetric total preorder |
| Retrain.AvailableDates | ml/retrain.py:20-32 | `sorted(dates)` is in string order and a permutation of the listed dates; it fails exactly when the loop does |
| Retrain.AvailableDatesUnique | ml/retrain.py:32 | any sorted permutation of the listed dates is the result |
| Retrain.GetAvailableDates | ml/retrain.py:20-32 | the method computes AvailableDates |
| Retrain.SortedChronological | ml/retrain.py:32 | sorted canonical dates are in calendar order |
| Retrain.FieldSplit | ml/retrain.py:28 | `name=value` splits at `=` into its two halves |
| Retrain.FieldValueOf | ml/retrain.py:28-30 | `parts[i].split("=")[1]` is the segment's value |
| Retrain.GoldKeyIsMetrics | ml/retrain.py:26 | every gold key passes the `metrics.parquet` filter |
| Retrain.KeyDateOfSegments | ml/retrain.py:27-31 | a key with the gold segments names the date of its three values |
| Retrain.KeyDateOfGoldKey | ml/retrain.py:26-31 | the date read back from a date's gold key is that date |
| Retrain.GoldKeyOf | ml/retrain.py:85 | the gold partition key of a calendar date |
| Retrain.GoldListing | ml/retrain.py:22 | one gold key per date |
| Retrain.FormatAll | ml/retrain.py:31 | the formatted dates, one per date, in order |
| Retrain.ListingRoundTrip | ml/retrain.py:22-31 | a listing of gold keys reads back as the formatted dates, in listing order |
| Retrain.ListedDatesSnoc | ml/retrain.py:31 | one more metrics key appends its date |
| Retrain.ListedFromGold | ml/retrain.py:20-32 | every available date of a gold listing parses back to one of its calendar dates |
| Retrain.Builds | ml/retrain.py:113 | one build result per listed date |
| Retrain.Stamped | ml/retrain.py:106-118 | at most one table per visited date |
| Retrain.StampedFrom | ml/retrain.py:106-118 | every training table is the date-stamped table of a window date that builds |
| Retrain.StampedKeep | ml/retrain.py:112-115 | every window date that builds contributes its stamped table |
| Retrain.TrainingTablesMeaning | ml/retrain.py:106-118 | a table is in all_features exactly when it is the date-stamped features of a date with seven listed dates before it and two after |
| Retrain.BuildTrainingFeatures | ml/retrain.py:104-118 | the feature loop computes TrainingTables |
| Retrain.AddViralLabels | ml/retrain.py:34-76 | a failed concat is the error; after it only ValueError can occur; a result has one row per feature row, carrying it, with a 0/1 viral label |
| Retrain.ViralLabel | ml/retrain.py:73 | viral is 1 exactly when future_stars >= 20, and 0 otherwise |
| Retrain.ViralAgreesWithLabels | ml/retrain.py:34-76 | the retraining labels have the same errors, rows and viral values as the labelling job over the same dates |
| Retrain.ViralRule | ml/retrain.py:72-73 | a row is viral iff its stars on the two following days sum to 20 or more |
| Retrain.RepeatedListedDateFails | ml/retrain.py:36-72 | a listing that names one day twice (".../metrics.parquet" and ".../metrics.parquet.bak", say) makes labelling raise ValueError for a row whose next day it is and whose repository that day holds |
| Retrain.AddViralLabelsVectorized | ml/retrain.py:34-76 | the method computes AddViralLabels, every error included: no future day, a date that does not shift, and a merge key with two future rows |
| Retrain.DecideKeepsBest | ml/retrain.py:151-166 | the saved model scores at least both F1s, and a tie keeps the old model |
| Retrain.ZeroScoreSavesNothing | ml/retrain.py:157-161 | with no saved model, a new model with F1 0 is not saved |
| Retrain.Decide | ml/retrain.py:151-166 | the new model is saved exactly when its F1 exceeds the old model's, or exceeds 0 when there is none |
| Retrain.CleanupKey | ml/retrain.py:84-85 | a cleanup key lies under `gold/` |
| Retrain.CleanupKeyIsGoldKey | ml/retrain.py:84-85 | the cleanup rebuilds the gold stage's key |
| Retrain.CleanupStep | ml/retrain.py:82-90 | one iteration skips the current month, stops at a ValueError, or deletes the date's key |
| Retrain.CleanupCalls | ml/retrain.py:82-90 | at most one deletion per date, and a loop that stops does so with ValueError |
| Retrain.CleanupDeletesGold | ml/retrain.py:82-87 | the cleanup deletes only keys of the gold layer |
| Retrain.CleanupErrStays | ml/retrain.py:84 | a ValueError ends the cleanup loop |
| Retrain.CleanupDeletes | ml/retrain.py:82-87 | when every date unpacks, the loop gets through and deletes exactly the keys of the dates outside the current month |
| Retrain.CleanupKeepsMonth | ml/retrain.py:83 | the gold partition of a current-month day is neither removed nor changed |
| Retrain.CleanupRemovesOldMonths | ml/retrain.py:83-87 | the gold partition of a listed day of another month is gone unless the store refuses the delete |
| Retrain.DeleteOutsideMonth | ml/retrain.py:82-90 | the loop deletes, in order, the keys CleanupCalls lists for the month, and returns its outcome |
| Retrain.DeleteOldMonth | ml/retrain.py:78-90 | the current month is the clock's `%Y-%m`; the method deletes the keys CleanupCalls lists for it and returns its outcome |
| Retrain.Prepare | ml/retrain.py:97-148 | a run reaches training only with at least ten sorted available dates |
| Retrain.DeletesOnlyAfterDecision | ml/retrain.py:151-169 | nothing is deleted before the model decision, and a run that fails earlier changes nothing |
| Retrain.RetrainRun | ml/retrain.py:92-171 | a model decision is taken exactly when the preparation succeeds; otherwise the run fails with its error and deletes nothing; every deleted key is a gold key |
| Retrain.TooFewDates | ml/retrain.py:98-101 | fewer than ten dates end the run, with IndexError for none (`available_dates[0]`) and ValueError otherwise |
| Retrain.RetrainKeepsCurrentMonth | ml/retrain.py:169 | a run never removes or changes a gold partition of the current month |
| Retrain.RetrainRemovesOldMonths | ml/retrain.py:169 | once training succeeded, the gold partition of every listed day of another month is deleted |
| Retrain.PrepareTraining | ml/retrain.py:93-148 | the method computes Prepare and only reads the store |
| Retrain.RunRetrain | ml/retrain.py:92-171 | the method equals RetrainRun on result, decision, store and journal |
| Predict.GithubUrlNamesRepo | ml/predict.py:70 | a string name gives the GitHub base followed by the name, which can be read back from the URL; pandas leaves a NaN name NaN; any other value raises TypeError |
| Predict.GithubUrl | ml/predict.py:70 | the URL column can be built for a row exactly when its name is a string or missing |
| Predict.ProbGeOrder | ml/predict.py:72 | descending probability is a total preorder |
| Predict.Ranked | ml/predict.py:72 | the ranked rows are a permutation of the scored rows with probabilities non-increasing |
| Predict.RankedKeepsRow | ml/predict.py:72 | ranking loses no row |
| Predict.Scored | ml/predict.py:64-70 | a table without rows raises ValueError at `scaler_viral.transform`; otherwise it is scored exactly when every name can be added (TypeError otherwise), each row by the classifier with viral_pred = (prob >= 0.7) and its URL |
| Predict.PredictTable | ml/predict.py:57-72 | OverflowError for a clock on the first representable day; the join's exception when it fails; a table is never empty |
| Predict.PredictionRows | ml/predict.py:57-72 | the table has one row per joined row of yesterday, each scored by the classifier with viral_pred = (prob >= 0.7) and its URL, ranked from the highest probability |
| Predict.EveryRepositoryScored | ml/predict.py:61-72 | every joined row of yesterday appears in the table, scored |
| Predict.EmptyYesterdayFails | ml/predict.py:61-66 | a yesterday with an empty gold table never yields a table, and raises ValueError once the join has succeeded |
| Predict.NullNameFails | ml/predict.py:43-70 | a repository of yesterday without a name gets the name 0 from `fillna(0)`, so the URL column raises TypeError |
| Predict.NamedYesterdayScored | ml/predict.py:57-72 | a non-empty yesterday whose names are all strings yields a table whenever the join succeeds |
| Predict.MakePredictions | ml/predict.py:49-80 | predictions/latest.parquet is written and journalled exactly when the model loads, the table builds and the write is accepted; otherwise nothing is written and the error is that of the model load, of the first step of the table that raised, or WriteRejected |
| Sorting.Insert | ml/retrain.py:32 | insertion adds exactly one occurrence of the element |
| Sorting.Sort | ml/retrain.py:32 | the sort is a permutation of its input |
| Sorting.InsertSorted | ml/retrain.py:32 | inserting into a sorted sequence keeps it sorted |
| Sorting.SortSorted | ml/retrain.py:32 | the sort is sorted and a permutation under any total preorder |
| Sorting.SortedUnique | ml/retrain.py:32 | under an antisymmetric total preorder, two sorted permutations of one multiset are equal |

## Left out

- Compression, JSON decoding and Parquet: gzip and `json.loads` are given functions. A Parquet blob is the table it encodes, so encoding is lossless.
- Concurrency and network timing: every call is sequential, and the archive's answers are a fixed function.
- The wall clock: `datetime.now()` is the `today`/`now` parameter.
- Console output (`print`) is left out; it changes no state.
- The S3 listing is a sequence of keys. The 1000-key page limit of `list_objects_v2` is not modelled, nor is the order S3 lists keys in.
- `sys.path` and the locating of module files are not modelled: every imported module named is taken to load.
- The classifier pipeline of ml/retrain.py:130-148 is the opaque function `train`: balancing by sampling, the train/test split, MinMaxScaler, MLPClassifier fitting and F1 scoring. The old model's score of ml/retrain.py:151-159 is the parameter `oldF1`, with None when loading or scoring raised.
- joblib model files: they live outside the bucket. retrain returns its decision instead of writing them. predict receives the loaded model as a `Result`, and it is FileNotFound when a file is absent.
- Floating point: means, ratios and probabilities are reals, with no rounding.
- Timestamp bounds: pandas' timestamp range (1677..2262) is not modelled. Dates are Python dates, years 1..9999, and a step outside them fails as ValueError in labelling.
- `strptime` and `pd.to_datetime` are modelled on the canonical zero-padded `%Y-%m-%d` form only. The looser forms Python also accepts (unpadded month or day) are rejected.
- Gold.BuildDailyMetrics: rows come in first-appearance order of repo_id, not in the sorted group order pandas gives. The contracts state the contents and the uniqueness, not that order.
- Features.JoinedTable: a merge that matches several rows is not modelled. The history averages have one row per repository, so the left join matches at most once.
- Features.OneRowPerRepo: the distinct repo_ids of the target day stay distinct, except for a null repo_id, which `fillna(0)` makes equal to a repository whose id is 0. The contract states that exception instead of plain distinctness.
- Parquet encoding is checked only for the gold stage's repo_name column (Gold.NamesEncodable). Other columns, and the feature, training and prediction tables, are taken to encode. A features file that concatenates a day of unnamed repositories (all names 0) with a day of string names would fail to encode, and the model does not capture that.
- Predict.Ranked: the relative order of rows with equal probability is not stated, because `sort_values` does not promise one. The model breaks ties stably; the contracts state the permutation and the descending order.
- ml/predict.py:16-47 repeats the join of ml/features.py:15-46 without activity_score. Both are modelled by the one Features.JoinedTable / Features.BuildJoined.
- In-place column assignment on DataFrames (`features_df["day1"] = …`) is modelled on values: each function returns the new table.
- The `__main__` blocks of ingest/bronze.py and ingest/silver.py are left out: they are ad-hoc single-hour runs.
- Bronze.DownloadOutcome follows the code, not the written description of the archive: `raise_for_status` raises only on status 400..599. Any other non-2xx status (a 3xx left unfollowed, say) returns the content.
- Gold.NamesEncodable: pyarrow's type inference is reduced to one rule, that a column's values share one JSON kind. Mixing ints and floats, or nested values, follows finer rules that are not modelled.

## Findings

| source | as written | input that shows it | evidently intended | confidence | as-written member | corrected member |
|---|---|---|---|---|---|---|
| ingest/daily_ingest.py:5 | imports `delete_bronze_day` from ingest/bronze.py, which defines no such name | any run of the daily script: the first import line raises ImportError before any statement runs | delete_bronze_day is defined in bronze as removing the date's 24 hourly keys; the script then runs (Orchestration.DailyIngest uses Orchestration.RemoveBronzeDay) | not executed | Imports.DailyCannotStart | Imports.CorrectedDailyStarts |
| ingest/backfill.py:3 | imports `delete_bronze_day` from ingest/silver.py, which defines no such name | any run of the backfill: the second import line raises ImportError | the name comes from the bronze module, as in the daily script (Backfill.RunBackfill uses Orchestration.RemoveBronzeDay) | not executed | Imports.BackfillCannotStart | Imports.CorrectedBackfillStarts |
