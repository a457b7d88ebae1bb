/** ml/features.py: load one day's gold table, gather the loadable gold days of
    the week before, average each repository's counts over the days it appears
    in, left-join those averages onto the target day and add the derived columns. */
module Features {
  import opened Wrappers
  import opened Text
  import opened Dates
  import opened Tables
  import opened Store
  import opened Partitions
  import Gold

  /** The key load_gold_day reads, f"gold/year={year}/month={month}/day={day}/metrics.parquet". */
  function DayKey(date: string): Result<string>
  {
    var fields :- DateFields(date);
    var (year, month, day) := fields;
    Ok("gold/year=" + year + "/month=" + month + "/day=" + day + "/metrics.parquet")
  }

  /** The reader's key is character for character the key the gold stage writes. */
  lemma ReadsGoldKey(date: string)
    ensures DayKey(date) == Gold.GoldKey(date)
  {
  }

  /** load_gold_day: ValueError on a date that does not split into three fields,
      NoSuchKey on an absent key, ParquetError when the blob is not a gold table. */
  function LoadGoldDay(objects: map<string, Blob>, date: string): (r: Result<seq<GoldRow>>)
    ensures r.Ok? ==> DayKey(date).Ok? && DayKey(date).value in objects && objects[DayKey(date).value] == GoldBlob(r.value)
  {
    var key :- DayKey(date);
    if key !in objects then Err(NoSuchKey(key))
    else match objects[key]
      case GoldBlob(rows) => Ok(rows)
      case _ => Err(ParquetError)
  }

  /** The three ways load_gold_day fails, and when it succeeds. */
  lemma LoadGoldDayOutcome(objects: map<string, Blob>, date: string)
    ensures DayKey(date).Err? ==> LoadGoldDay(objects, date) == Err(ValueError)
    ensures DayKey(date).Ok? && DayKey(date).value !in objects ==> LoadGoldDay(objects, date) == Err(NoSuchKey(DayKey(date).value))
    ensures LoadGoldDay(objects, date).Ok? <==> DayKey(date).Ok? && DayKey(date).value in objects && objects[DayKey(date).value].GoldBlob?
  {
  }

  /** Writer and reader agree: after process_day_to_gold succeeds, load_gold_day
      of the same date returns exactly the table that was written. */
  lemma LoadsWhatGoldWrote(objects: map<string, Blob>, rejected: set<string>, date: string)
    requires Gold.GoldTable(objects, date).Ok?
    requires Gold.GoldKey(date).Ok? && Gold.GoldKey(date).value !in rejected
    ensures LoadGoldDay(Gold.AfterGold(objects, rejected, date), date) == Gold.GoldTable(objects, date)
  {
    ReadsGoldKey(date);
  }

  // ---------------------------------------------------------------- history window

  /** The loop `for i in range(1, 8)` looks back this many days. */
  const HistoryDays: nat := 7

  /** (target - timedelta(days=i)).strftime("%Y-%m-%d"); None where Python raises OverflowError. */
  function PastDate(target: Date, i: nat): Option<string>
    requires Valid(target)
  {
    match AddDays(target, -(i as int))
    case None => None
    case Some(p) => Some(Format(p))
  }

  /** The dates the loop looks back to, target-1 .. target-7, nearest first. */
  function Window(target: Date): (w: seq<Option<string>>)
    requires Valid(target)
    ensures |w| == HistoryDays
    ensures forall i :: 0 <= i < HistoryDays ==> w[i] == PastDate(target, i + 1)
  {
    seq(HistoryDays, i requires 0 <= i < HistoryDays => PastDate(target, i + 1))
  }

  /** What one iteration finds: a date outside the calendar, a day whose load
      raised (skipped by the bare except), or a loaded table. */
  datatype LookBack = Overflow | Skipped | Loaded(rows: seq<GoldRow>)

  function Look(objects: map<string, Blob>, past: Option<string>): (l: LookBack)
    ensures l.Overflow? <==> past.None?
    ensures l.Loaded? ==> LoadGoldDay(objects, past.value) == Ok(l.rows)
    ensures l.Skipped? ==> LoadGoldDay(objects, past.value).Err?
  {
    match past
    case None => Overflow
    case Some(p) =>
      match LoadGoldDay(objects, p)
      case Ok(rows) => Loaded(rows)
      case Err(_) => Skipped
  }

  /** past_7_days after the first n iterations over the window: the tables of
      the loadable days, nearest first, the others skipped; OverflowError when
      a looked-back date leaves the calendar. */
  function History(objects: map<string, Blob>, window: seq<Option<string>>, n: nat): (r: Result<seq<seq<GoldRow>>>)
    requires n <= |window|
    ensures r.Err? ==> r.error == OverflowError
    ensures r.Ok? ==> |r.value| <= n
  {
    if n == 0 then Ok([])
    else
      var prev :- History(objects, window, n - 1);
      match Look(objects, window[n - 1])
      case Overflow => Err(OverflowError)
      case Skipped => Ok(prev)
      case Loaded(rows) => Ok(prev + [rows])
  }

  /** The loop raises exactly when one of the looked-back dates leaves the calendar. */
  lemma {:induction false} HistoryOverflow(objects: map<string, Blob>, window: seq<Option<string>>, n: nat)
    requires n <= |window|
    ensures History(objects, window, n).Err? <==> exists k :: 0 <= k < n && window[k].None?
  {
    if n > 0 {
      HistoryOverflow(objects, window, n - 1);
      var prev := History(objects, window, n - 1);
      if prev.Err? {
        var k :| 0 <= k < n - 1 && window[k].None?;
        assert 0 <= k < n && window[k].None?;
      } else if window[n - 1].None? {
        assert Look(objects, window[n - 1]).Overflow?;
      } else {
        assert !Look(objects, window[n - 1]).Overflow?;
        assert forall k :: 0 <= k < n && window[k].None? ==> k < n - 1;
      }
    }
  }

  /** Every loadable day of the window is in the history. */
  lemma {:induction false} HistoryKeepsLoaded(objects: map<string, Blob>, window: seq<Option<string>>, n: nat, k: nat)
    requires n <= |window| && History(objects, window, n).Ok?
    requires k < n && Look(objects, window[k]).Loaded?
    ensures Look(objects, window[k]).rows in History(objects, window, n).value
  {
    if k < n - 1 {
      HistoryKeepsLoaded(objects, window, n - 1, k);
    }
  }

  /** Every table in the history is a loadable day of the window. */
  lemma {:induction false} HistoryOnlyLoaded(objects: map<string, Blob>, window: seq<Option<string>>, n: nat, x: seq<GoldRow>)
    requires n <= |window| && History(objects, window, n).Ok?
    requires x in History(objects, window, n).value
    ensures exists k :: 0 <= k < n && Look(objects, window[k]) == Loaded(x)
  {
    var prev := History(objects, window, n - 1);
    if x in prev.value {
      HistoryOnlyLoaded(objects, window, n - 1, x);
      var k :| 0 <= k < n - 1 && Look(objects, window[k]) == Loaded(x);
    } else {
      assert Look(objects, window[n - 1]) == Loaded(x);
    }
  }

  /** When no day of the window loads, the history is empty. */
  lemma NothingLoadable(objects: map<string, Blob>, window: seq<Option<string>>, n: nat)
    requires n <= |window| && History(objects, window, n).Ok?
    requires forall k :: 0 <= k < n ==> !Look(objects, window[k]).Loaded?
    ensures History(objects, window, n).value == []
  {
    var h := History(objects, window, n).value;
    if h != [] {
      HistoryOnlyLoaded(objects, window, n, h[0]);
    }
  }

  /** An overflow at iteration i ends the loop: the later iterations do not run. */
  lemma {:induction false} HistoryErrStays(objects: map<string, Blob>, window: seq<Option<string>>, i: nat, n: nat)
    requires i <= n <= |window| && History(objects, window, i).Err?
    ensures History(objects, window, n) == History(objects, window, i)
    decreases n - i
  {
    if i < n {
      HistoryErrStays(objects, window, i, n - 1);
    }
  }

  /** One iteration: OverflowError for a date outside the calendar, else its table is appended when it loads. */
  lemma HistoryStep(objects: map<string, Blob>, window: seq<Option<string>>, i: nat, acc: seq<seq<GoldRow>>)
    requires 1 <= i <= |window| && History(objects, window, i - 1) == Ok(acc)
    ensures window[i - 1].None? ==> History(objects, window, i) == Err(OverflowError)
    ensures window[i - 1].Some? ==>
              var day := LoadGoldDay(objects, window[i - 1].value);
              History(objects, window, i) == if day.Ok? then Ok(acc + [day.value]) else Ok(acc)
  {
  }

  /** The body of the `past_7_days` loop, run over the dates of a window in order. */
  method LoadPastDays(store: ObjectStore, window: seq<Option<string>>) returns (r: Result<seq<seq<GoldRow>>>)
    ensures r == History(store.objects, window, |window|)
  {
    var acc: seq<seq<GoldRow>> := [];
    for i := 1 to |window| + 1
      invariant History(store.objects, window, i - 1) == Ok(acc)
    {
      HistoryStep(store.objects, window, i, acc);
      if window[i - 1].None? {
        HistoryErrStays(store.objects, window, i, |window|);
        return Err(OverflowError);
      }
      var day := LoadGoldDay(store.objects, window[i - 1].value);
      if day.Ok? {
        acc := acc + [day.value];
      }
    }
    r := Ok(acc);
  }

  /** The `past_7_days` loop: target-1 .. target-7. */
  method LoadHistory(store: ObjectStore, target: Date) returns (r: Result<seq<seq<GoldRow>>>)
    requires Valid(target)
    ensures r == History(store.objects, Window(target), HistoryDays)
  {
    r := LoadPastDays(store, Window(target));
  }

  // ---------------------------------------------------------------- averages

  /** pd.concat(past_7_days): the history rows, day after day. */
  function Concat<T>(days: seq<seq<T>>): (rows: seq<T>)
  {
    if days == [] then [] else days[0] + Concat(days[1..])
  }

  lemma {:induction false} ConcatSnoc<T>(days: seq<seq<T>>, last: seq<T>)
    ensures Concat(days + [last]) == Concat(days) + last
  {
    if days == [] {
      assert [last][1..] == [];
      assert [last][0] == last && last + [] == last;
    } else {
      assert (days + [last])[0] == days[0] && (days + [last])[1..] == days[1..] + [last];
      ConcatSnoc(days[1..], last);
      assert days[0] + (Concat(days[1..]) + last) == (days[0] + Concat(days[1..])) + last;
    }
  }

  /** The three columns that get a 7-day mean. */
  datatype Stat = Stars | Forks | Pushes

  function StatOf(m: RepoMetrics, s: Stat): nat {
    match s
    case Stars => m.stars
    case Forks => m.forks
    case Pushes => m.pushes
  }

  /** The number of rows of repository `id`. */
  function Appearances(rows: seq<GoldRow>, id: Json): nat {
    if rows == [] then 0
    else (if rows[0].metrics.repoId == id then 1 else 0) + Appearances(rows[1..], id)
  }

  /** The sum of column `s` over the rows of repository `id`. */
  function Total(rows: seq<GoldRow>, id: Json, s: Stat): nat {
    if rows == [] then 0
    else (if rows[0].metrics.repoId == id then StatOf(rows[0].metrics, s) else 0) + Total(rows[1..], id, s)
  }

  /** history.groupby("repo_id").agg("mean") as the left join sees it: the mean
      over the repository's history rows, and 0 (fillna) for a repository without
      any, or with a null id, which groupby leaves out. */
  function Average(rows: seq<GoldRow>, id: Json, s: Stat): (avg: real)
    ensures avg >= 0.0
    ensures Appearances(rows, id) == 0 || id == JNull ==> avg == 0.0
    ensures Appearances(rows, id) > 0 && id != JNull ==> avg * Appearances(rows, id) as real == Total(rows, id, s) as real
  {
    if id == JNull || Appearances(rows, id) == 0 then 0.0
    else Total(rows, id, s) as real / Appearances(rows, id) as real
  }

  /** A gold table names each repository at most once. */
  predicate UniqueRepos(rows: seq<GoldRow>) {
    forall i, j :: 0 <= i < j < |rows| ==> rows[i].metrics.repoId != rows[j].metrics.repoId
  }

  predicate HasRepo(rows: seq<GoldRow>, id: Json) {
    exists k :: 0 <= k < |rows| && rows[k].metrics.repoId == id
  }

  /** The number of days whose table has a row for repository `id`. */
  function DaysWith(days: seq<seq<GoldRow>>, id: Json): nat {
    if days == [] then 0 else (if HasRepo(days[0], id) then 1 else 0) + DaysWith(days[1..], id)
  }

  lemma {:induction false} AppearancesConcat(a: seq<GoldRow>, b: seq<GoldRow>, id: Json)
    ensures Appearances(a + b, id) == Appearances(a, id) + Appearances(b, id)
  {
    if a != [] {
      var ab := a + b;
      assert ab[0] == a[0] && ab[1..] == a[1..] + b;
      AppearancesConcat(a[1..], b, id);
      assert Appearances(ab, id) == (if a[0].metrics.repoId == id then 1 else 0) + Appearances(ab[1..], id);
    } else {
      assert a + b == b;
    }
  }

  lemma {:induction false} AppearancesAbsent(rows: seq<GoldRow>, id: Json)
    ensures Appearances(rows, id) == 0 <==> !HasRepo(rows, id)
  {
    if rows != [] {
      AppearancesAbsent(rows[1..], id);
      if HasRepo(rows[1..], id) {
        var k :| 0 <= k < |rows[1..]| && rows[1..][k].metrics.repoId == id;
        assert rows[k + 1].metrics.repoId == id;
      }
      if HasRepo(rows, id) && rows[0].metrics.repoId != id {
        var k :| 0 <= k < |rows| && rows[k].metrics.repoId == id;
        assert rows[1..][k - 1].metrics.repoId == id;
      }
    }
  }

  /** In a table that names each repository once, a repository appears once or not at all. */
  lemma {:induction false} AppearancesUnique(rows: seq<GoldRow>, id: Json)
    requires UniqueRepos(rows)
    ensures Appearances(rows, id) == if HasRepo(rows, id) then 1 else 0
  {
    if rows != [] {
      AppearancesAbsent(rows, id);
      if rows[0].metrics.repoId == id {
        assert !HasRepo(rows[1..], id) by {
          forall k | 0 <= k < |rows[1..]| ensures rows[1..][k].metrics.repoId != id {
            assert rows[1..][k] == rows[k + 1];
          }
        }
        AppearancesAbsent(rows[1..], id);
      } else {
        assert UniqueRepos(rows[1..]) by {
          forall i, j | 0 <= i < j < |rows[1..]| ensures rows[1..][i].metrics.repoId != rows[1..][j].metrics.repoId {
            assert rows[1..][i] == rows[i + 1] && rows[1..][j] == rows[j + 1];
          }
        }
        AppearancesUnique(rows[1..], id);
        AppearancesAbsent(rows[1..], id);
      }
    }
  }

  /** The mean's divisor: with one row per repository per day, a repository's
      history rows are as many as the history days it appears in (not 7). */
  lemma {:induction false} AppearancesCountDays(days: seq<seq<GoldRow>>, id: Json)
    requires forall i :: 0 <= i < |days| ==> UniqueRepos(days[i])
    ensures Appearances(Concat(days), id) == DaysWith(days, id)
  {
    if days != [] {
      AppearancesConcat(days[0], Concat(days[1..]), id);
      AppearancesUnique(days[0], id);
      assert forall i :: 0 <= i < |days[1..]| ==> days[1..][i] == days[i + 1];
      AppearancesCountDays(days[1..], id);
    }
  }

  /** avg_*_7d is the repository's history total divided by the number of
      history days in which it appears. */
  lemma AveragePerDayPresent(days: seq<seq<GoldRow>>, id: Json, s: Stat)
    requires forall i :: 0 <= i < |days| ==> UniqueRepos(days[i])
    requires id != JNull && DaysWith(days, id) > 0
    ensures Average(Concat(days), id, s) == Total(Concat(days), id, s) as real / DaysWith(days, id) as real
  {
    AppearancesCountDays(days, id);
  }

  // ---------------------------------------------------------------- join

  /** fillna(0) on a cell of the merged frame. */
  function FillNull(v: Json): (r: Json)
    ensures r != JNull
    ensures v != JNull ==> r == v
  {
    if v == JNull then JNum(0) else v
  }

  /** One target-day row merged with its averages, with the two ratio columns.
      The merge matches on the row's own repo_id; the fillna(0) after it then
      also turns a null repo_id or repo_name of the row into 0. */
  function JoinRow(history: seq<GoldRow>, row: GoldRow): (j: Joined)
    ensures j.gold.date == row.date
    ensures j.gold.metrics == row.metrics.(repoId := FillNull(row.metrics.repoId), repoName := FillNull(row.metrics.repoName))
    ensures j.avgStars == Average(history, row.metrics.repoId, Stars)
    ensures j.starVelocity == row.metrics.stars as real / (j.avgStars + 1.0)
    ensures j.forkRatio == row.metrics.forks as real / (row.metrics.stars as real + 1.0)
  {
    var m := row.metrics;
    var avgStars := Average(history, m.repoId, Stars);
    var filled := GoldRow(m.(repoId := FillNull(m.repoId), repoName := FillNull(m.repoName)), row.date);
    Joined(filled, avgStars, Average(history, m.repoId, Forks), Average(history, m.repoId, Pushes),
           m.stars as real / (avgStars + 1.0), m.forks as real / (m.stars as real + 1.0))
  }

  /** The history rows build_features averages over: ValueError when no day loaded. */
  function HistoryRows(objects: map<string, Blob>, target: Date): (r: Result<seq<GoldRow>>)
    requires Valid(target)
    ensures r.Ok? ==> History(objects, Window(target), HistoryDays).Ok? && History(objects, Window(target), HistoryDays).value != []
    ensures History(objects, Window(target), HistoryDays) == Ok([]) ==> r == Err(ValueError)
  {
    var days :- History(objects, Window(target), HistoryDays);
    if days == [] then Err(ValueError) else Ok(Concat(days))
  }

  /** The merge and its columns, shared by ml/features.py and ml/predict.py:
      strptime of the target, its gold table, the history, then one joined row
      per target-day row, in the target table's order. */
  function JoinedTable(objects: map<string, Blob>, target: string): (r: Result<seq<Joined>>)
    ensures r.Ok? ==> Parse(target).Some? && LoadGoldDay(objects, target).Ok? && HistoryRows(objects, Parse(target).value).Ok?
  {
    match Parse(target)
    case None => Err(ValueError)
    case Some(t) =>
      var today :- LoadGoldDay(objects, target);
      var history :- HistoryRows(objects, t);
      Ok(seq(|today|, i requires 0 <= i < |today| => JoinRow(history, today[i])))
  }

  /** The exceptions of build_features, in the order the statements raise them. */
  lemma JoinedTableErrors(objects: map<string, Blob>, target: string)
    ensures Parse(target).None? ==> JoinedTable(objects, target) == Err(ValueError)
    ensures Parse(target).Some? && LoadGoldDay(objects, target).Err? ==>
      JoinedTable(objects, target) == Err(LoadGoldDay(objects, target).error)
    ensures Parse(target).Some? && LoadGoldDay(objects, target).Ok? ==>
      (JoinedTable(objects, target).Ok? <==> HistoryRows(objects, Parse(target).value).Ok?)
  {
  }

  /** The left join: one row per target-day row, in order, carrying that row
      (with a null repo_id or repo_name filled in as 0, and otherwise unchanged)
      and the history averages of its repository's original id. */
  lemma JoinedRows(objects: map<string, Blob>, target: string)
    requires JoinedTable(objects, target).Ok?
    ensures var r := JoinedTable(objects, target).value;
      var today := LoadGoldDay(objects, target).value;
      var history := HistoryRows(objects, Parse(target).value).value;
      |r| == |today| && forall i :: 0 <= i < |today| ==>
        r[i].gold.date == today[i].date &&
        r[i].gold.metrics == today[i].metrics.(repoId := FillNull(today[i].metrics.repoId),
                                               repoName := FillNull(today[i].metrics.repoName)) &&
        (today[i].metrics.repoId != JNull && today[i].metrics.repoName != JNull ==> r[i].gold == today[i]) &&
        (today[i].metrics.repoId == JNull ==> r[i].gold.metrics.repoId == JNum(0)) &&
        (today[i].metrics.repoName == JNull ==> r[i].gold.metrics.repoName == JNum(0)) &&
        r[i].avgStars == Average(history, today[i].metrics.repoId, Stars) &&
        r[i].avgForks == Average(history, today[i].metrics.repoId, Forks) &&
        r[i].avgPushes == Average(history, today[i].metrics.repoId, Pushes)
  {
  }

  /** The left join keeps exactly the target day's repositories: a table with one
      row per repository gives one joined row per repository, except that a row
      with a null repo_id, filled in as 0, meets a repository whose id is 0. */
  lemma OneRowPerRepo(objects: map<string, Blob>, target: string)
    requires JoinedTable(objects, target).Ok? && UniqueRepos(LoadGoldDay(objects, target).value)
    ensures var j := JoinedTable(objects, target).value;
      var today := LoadGoldDay(objects, target).value;
      forall a, b :: 0 <= a < b < |j| ==>
        j[a].gold.metrics.repoId != j[b].gold.metrics.repoId ||
        {today[a].metrics.repoId, today[b].metrics.repoId} == {JNull, JNum(0)}
  {
    JoinedRows(objects, target);
  }

  /** A repository absent from every history day, or a row with a null
      repo_id, gets averages of 0. */
  lemma NoHistoryZero(objects: map<string, Blob>, target: string, i: nat)
    requires JoinedTable(objects, target).Ok? && i < |LoadGoldDay(objects, target).value|
    requires var id := LoadGoldDay(objects, target).value[i].metrics.repoId;
      id == JNull || !HasRepo(HistoryRows(objects, Parse(target).value).value, id)
    ensures i < |JoinedTable(objects, target).value|
    ensures var j := JoinedTable(objects, target).value[i];
      j.avgStars == 0.0 && j.avgForks == 0.0 && j.avgPushes == 0.0
  {
    JoinedRows(objects, target);
    AppearancesAbsent(HistoryRows(objects, Parse(target).value).value, LoadGoldDay(objects, target).value[i].metrics.repoId);
  }

  /** build_features of ml/features.py: the joined rows plus activity_score. */
  function Features(objects: map<string, Blob>, target: string): (r: Result<seq<FeatureRow>>)
    ensures r.Err? ==> JoinedTable(objects, target) == Err(r.error)
    ensures r.Ok? ==> LoadGoldDay(objects, target).Ok? && |r.value| == |LoadGoldDay(objects, target).value|
  {
    var joined :- JoinedTable(objects, target);
    JoinedRows(objects, target);
    Ok(seq(|joined|, i requires 0 <= i < |joined| =>
      var m := joined[i].gold.metrics;
      FeatureRow(joined[i], m.pushes + m.prs + m.issues)))
  }

  /** The feature table is the joined table with activity_score = pushes + prs + issues. */
  lemma FeatureColumns(objects: map<string, Blob>, target: string)
    ensures var r := Features(objects, target);
      (r.Ok? <==> JoinedTable(objects, target).Ok?) &&
      (r.Err? ==> r.error == JoinedTable(objects, target).error) &&
      (r.Ok? ==> |r.value| == |JoinedTable(objects, target).value| && forall i :: 0 <= i < |r.value| ==>
        r.value[i].joined == JoinedTable(objects, target).value[i] &&
        r.value[i].activityScore == r.value[i].joined.gold.metrics.pushes + r.value[i].joined.gold.metrics.prs + r.value[i].joined.gold.metrics.issues)
  {
  }

  /** The body of build_features up to the ratio columns, shared with ml/predict.py:
      the target's table, the history loop, then the join. */
  method BuildJoined(store: ObjectStore, target: string) returns (r: Result<seq<Joined>>)
    ensures r == JoinedTable(store.objects, target)
  {
    var t := Parse(target);
    if t.None? {
      return Err(ValueError);
    }
    var today := LoadGoldDay(store.objects, target);
    if today.Err? {
      return Err(today.error);
    }
    var days := LoadHistory(store, t.value);
    if days.Err? {
      return Err(days.error);
    }
    if days.value == [] {
      return Err(ValueError);
    }
    var history := Concat(days.value);
    var rows := today.value;
    r := Ok(seq(|rows|, i requires 0 <= i < |rows| => JoinRow(history, rows[i])));
  }

  /** build_features of ml/features.py: the join, then activity_score. */
  method BuildFeatures(store: ObjectStore, target: string) returns (r: Result<seq<FeatureRow>>)
    ensures r == Features(store.objects, target)
  {
    var joined := BuildJoined(store, target);
    if joined.Err? {
      return Err(joined.error);
    }
    var j := joined.value;
    r := Ok(seq(|j|, i requires 0 <= i < |j| =>
      var m := j[i].gold.metrics;
      FeatureRow(j[i], m.pushes + m.prs + m.issues)));
  }

  // ---------------------------------------------------------------- __main__

  /** f"2025-12-{day:02d}" for day in range(8, 17). */
  function MainTargets(): (dates: seq<string>)
  {
    seq(9, i requires 0 <= i < 9 => "2025-12-" + Pad(i + 8, 2))
  }

  /** The target strings are the formatted dates 2025-12-08 .. 2025-12-16. */
  lemma MainTargetsDates(i: nat)
    requires i < 9
    ensures Format(Date(2025, 12, i + 8)) == MainTargets()[i]
  {
    Pad4Digits(2025);
    assert Pad(2025, 4) == "2025";
    Pad2Digits(12);
    assert Pad(12, 2) == "12";
  }

  /** Results gathered in order until the first exception: the concatenated
      values, or the first error, after which nothing else runs. */
  function Gather<T>(rs: seq<Result<seq<T>>>): (r: Result<seq<T>>)
    ensures r.Ok? <==> forall i :: 0 <= i < |rs| ==> rs[i].Ok?
  {
    if rs == [] then Ok([])
    else
      var first :- rs[0];
      var rest :- Gather(rs[1..]);
      assert forall i :: 1 <= i < |rs| ==> rs[i] == rs[1..][i - 1];
      Ok(first + rest)
  }

  /** The loop's view of GatherSnoc: gathering the first n + 1 results. */
  lemma GatherPrefix<T>(rs: seq<Result<seq<T>>>, n: nat)
    requires n < |rs|
    ensures Gather(rs[..n + 1]) ==
      match Gather(rs[..n])
      case Err(e) => Err(e)
      case Ok(vs) => match rs[n] case Err(e) => Err(e) case Ok(more) => Ok(vs + more)
  {
    assert rs[..n] + [rs[n]] == rs[..n + 1];
    GatherSnoc(rs[..n], rs[n]);
  }

  /** Gathering one result more. */
  lemma {:induction false} GatherSnoc<T>(rs: seq<Result<seq<T>>>, x: Result<seq<T>>)
    ensures Gather(rs + [x]) ==
      match Gather(rs)
      case Err(e) => Err(e)
      case Ok(vs) => match x case Err(e) => Err(e) case Ok(more) => Ok(vs + more)
  {
    if rs == [] {
      assert [x][1..] == [] && Gather([x][1..]) == Ok([]);
      assert rs + [x] == [x] && [x][0] == x;
      if x.Ok? {
        assert x.value + [] == x.value && [] + x.value == x.value;
      }
    } else {
      assert (rs + [x])[1..] == rs[1..] + [x];
      GatherSnoc(rs[1..], x);
      if rs[0].Ok? && Gather(rs[1..]).Ok? && x.Ok? {
        assert rs[0].value + (Gather(rs[1..]).value + x.value) == (rs[0].value + Gather(rs[1..]).value) + x.value;
      }
    }
  }

  /** A failure is the error of the first failing result. */
  lemma {:induction false} GatherFirstFailure<T>(rs: seq<Result<seq<T>>>)
    requires Gather(rs).Err?
    ensures exists k :: 0 <= k < |rs| && (forall j :: 0 <= j < k ==> rs[j].Ok?) && rs[k] == Err(Gather(rs).error)
  {
    if rs[0].Ok? {
      GatherFirstFailure(rs[1..]);
      var k :| 0 <= k < |rs[1..]| && (forall j :: 0 <= j < k ==> rs[1..][j].Ok?) && rs[1..][k] == Err(Gather(rs[1..]).error);
      assert forall j :: 1 <= j < k + 1 ==> rs[j] == rs[1..][j - 1];
      assert rs[k + 1] == rs[1..][k];
    }
  }

  /** The script's result: the features of each target in order, or the first
      target's exception, which aborts the script. */
  function AllFeatures(objects: map<string, Blob>, targets: seq<string>): (r: Result<seq<FeatureRow>>)
  {
    Gather(seq(|targets|, i requires 0 <= i < |targets| => Features(objects, targets[i])))
  }

  /** The script fails exactly when some target fails, and then with the error of
      the first target that fails, every target before it having succeeded. */
  lemma MainAbortsAtFirstFailure(objects: map<string, Blob>, targets: seq<string>)
    ensures AllFeatures(objects, targets).Ok? <==> forall i :: 0 <= i < |targets| ==> Features(objects, targets[i]).Ok?
    ensures AllFeatures(objects, targets).Err? ==>
      exists k :: 0 <= k < |targets| && (forall j :: 0 <= j < k ==> Features(objects, targets[j]).Ok?) &&
        Features(objects, targets[k]) == Err(AllFeatures(objects, targets).error)
  {
    var rs := seq(|targets|, i requires 0 <= i < |targets| => Features(objects, targets[i]));
    assert forall i :: 0 <= i < |targets| ==> rs[i] == Features(objects, targets[i]);
    if Gather(rs).Err? {
      GatherFirstFailure(rs);
    }
  }

  const FeaturesKey := "ml/features.parquet"

  /** The store after the script: the concatenated features under
      ml/features.parquet, or nothing written when any target failed. */
  function AfterMain(objects: map<string, Blob>, rejected: set<string>): map<string, Blob>
  {
    match AllFeatures(objects, MainTargets())
    case Err(_) => objects
    case Ok(rows) => if FeaturesKey in rejected then objects else objects[FeaturesKey := FeatureBlob(rows)]
  }

  /** The `__main__` block. */
  method FeaturesMain(store: ObjectStore) returns (r: Result<()>)
    modifies store
    ensures store.objects == AfterMain(old(store.objects), store.rejected)
    ensures r.Ok? <==> AllFeatures(old(store.objects), MainTargets()).Ok? && FeaturesKey !in store.rejected
  {
    ghost var targets := MainTargets();
    ghost var objects := store.objects;
    ghost var rs := seq(|targets|, i requires 0 <= i < |targets| => Features(objects, targets[i]));
    var all: seq<FeatureRow> := [];
    var day := 8;
    while day <= 16
      invariant 8 <= day <= 17
      invariant Gather(rs[..day - 8]) == Ok(all)
      invariant store.objects == objects
    {
      var target := "2025-12-" + Pad(day, 2);
      assert target == targets[day - 8];
      var df := BuildFeatures(store, target);
      assert rs[day - 8] == df;
      GatherPrefix(rs, day - 8);
      if df.Err? {
        assert !rs[day - 8].Ok?;
        assert Gather(rs).Err?;
        return Err(df.error);
      }
      all := all + df.value;
      day := day + 1;
    }
    assert rs[..9] == rs;
    var w := store.Put(FeaturesKey, FeatureBlob(all));
    r := if w.Ok? then Ok(()) else Err(w.error);
  }
}
