/** Gold stage (ingest/gold.py): group one day's silver events by repository,
    count five event kinds per repository and store one metrics table per day. */
module Gold {
  import opened Wrappers
  import opened Text
  import opened Dates
  import opened Tables
  import opened Store
  import opened Partitions
  import Silver
  import Bronze

  /** load_silver_day: ValueError on a bad date, NoSuchKey when the silver key is absent. */
  function LoadSilverDay(objects: map<string, Blob>, date: string): (r: Result<SilverFrame>)
    ensures Silver.SilverKey(date).Err? ==> r == Err(ValueError)
    ensures Silver.SilverKey(date).Ok? && Silver.SilverKey(date).value !in objects ==>
      r == Err(NoSuchKey(Silver.SilverKey(date).value))
    ensures r.Ok? ==> objects[Silver.SilverKey(date).value] == SilverBlob(r.value)
  {
    var key :- Silver.SilverKey(date);
    if key !in objects then Err(NoSuchKey(key))
    else match objects[key]
      case SilverBlob(frame) => Ok(frame)
      case _ => Err(ParquetError)
  }

  /** groupby("repo_id") leaves out rows whose repo_id is null. */
  predicate Grouped(row: SilverRow) {
    row.repoId != JNull
  }

  /** The distinct non-null repo ids of the rows, in order of first appearance. */
  function RepoIds(rows: seq<SilverRow>): (ids: seq<Json>)
    ensures forall i, j :: 0 <= i < j < |ids| ==> ids[i] != ids[j]
    ensures forall x :: x in ids <==> exists k :: 0 <= k < |rows| && Grouped(rows[k]) && rows[k].repoId == x
  {
    if rows == [] then []
    else
      var front := rows[..|rows| - 1];
      var last := rows[|rows| - 1];
      var ids := RepoIds(front);
      assert forall k :: 0 <= k < |front| ==> front[k] == rows[k];
      if !Grouped(last) || last.repoId in ids then ids else ids + [last.repoId]
  }

  /** The number of rows of repository `id` whose event_type is `kind`. */
  function CountKind(rows: seq<SilverRow>, id: Json, kind: string): (n: nat)
    ensures n <= CountRepo(rows, id)
  {
    if rows == [] then 0
    else CountKind(rows[1..], id, kind) + (if rows[0].repoId == id && rows[0].eventType == kind then 1 else 0)
  }

  /** The number of rows of repository `id`. */
  function CountRepo(rows: seq<SilverRow>, id: Json): nat
  {
    if rows == [] then 0
    else CountRepo(rows[1..], id) + (if rows[0].repoId == id then 1 else 0)
  }

  /** groupby(...)["repo_name"].first(): the first non-null name of the group; a
      group with none gives NaN, which fillna(0) turns into 0. */
  function FirstName(rows: seq<SilverRow>, id: Json): (name: Json)
    ensures name != JNull
    ensures name == JNum(0) || exists k :: 0 <= k < |rows| && rows[k].repoId == id && rows[k].repoName == name
    ensures (forall k :: 0 <= k < |rows| && rows[k].repoId == id ==> rows[k].repoName == JNull) ==> name == JNum(0)
  {
    if rows == [] then JNum(0)
    else if rows[0].repoId == id && rows[0].repoName != JNull then rows[0].repoName
    else FirstName(rows[1..], id)
  }

  /** One repository's row of the metrics table: its id, name and five counts,
      which together never exceed its number of events. */
  function MetricsOf(rows: seq<SilverRow>, id: Json): (m: RepoMetrics)
    ensures m.repoId == id && m.repoName != JNull
    ensures m.stars + m.forks + m.pushes + m.prs + m.issues <= CountRepo(rows, id)
  {
    CountsBounded(rows, id);
    RepoMetrics(id, FirstName(rows, id),
                CountKind(rows, id, "WatchEvent"), CountKind(rows, id, "ForkEvent"),
                CountKind(rows, id, "PushEvent"), CountKind(rows, id, "PullRequestEvent"),
                CountKind(rows, id, "IssuesEvent"))
  }

  /** build_daily_metrics. A frame without columns fails at df["event_type"]. */
  function BuildDailyMetrics(frame: SilverFrame): (r: Result<seq<RepoMetrics>>)
    ensures frame.NoColumns? <==> r == Err(KeyError)
    ensures r.Ok? ==> |r.value| == |RepoIds(frame.rows)|
    ensures r.Ok? ==> forall i :: 0 <= i < |r.value| ==> r.value[i] == MetricsOf(frame.rows, RepoIds(frame.rows)[i])
  {
    match frame
    case NoColumns => Err(KeyError)
    case Table(rows) =>
      var ids := RepoIds(rows);
      Ok(seq(|ids|, i requires 0 <= i < |ids| => MetricsOf(rows, ids[i])))
  }

  /** Uniqueness: no two metrics rows share a repo_id. */
  lemma MetricsUnique(rows: seq<SilverRow>)
    ensures var m := BuildDailyMetrics(Table(rows)).value;
      forall i, j :: 0 <= i < j < |m| ==> m[i].repoId != m[j].repoId
  {
    var m := BuildDailyMetrics(Table(rows)).value;
    var ids := RepoIds(rows);
    assert forall i :: 0 <= i < |m| ==> m[i].repoId == ids[i];
  }

  /** Coverage: a repo_id has a metrics row exactly when some silver row with a
      non-null repo_id carries it. */
  lemma MetricsCover(rows: seq<SilverRow>, x: Json)
    ensures var m := BuildDailyMetrics(Table(rows)).value;
      (exists i :: 0 <= i < |m| && m[i].repoId == x) <==>
      (exists k :: 0 <= k < |rows| && Grouped(rows[k]) && rows[k].repoId == x)
  {
    var m := BuildDailyMetrics(Table(rows)).value;
    var ids := RepoIds(rows);
    if exists k :: 0 <= k < |rows| && Grouped(rows[k]) && rows[k].repoId == x {
      assert x in ids;
      var i :| 0 <= i < |ids| && ids[i] == x;
      assert m[i].repoId == x;
    }
    if exists i :: 0 <= i < |m| && m[i].repoId == x {
      var i :| 0 <= i < |m| && m[i].repoId == x;
      assert ids[i] == x && x in ids;
    }
  }

  /** Each metrics row holds its repository's five counts and first name. */
  lemma MetricsCounts(rows: seq<SilverRow>, i: nat)
    requires i < |BuildDailyMetrics(Table(rows)).value|
    ensures var m := BuildDailyMetrics(Table(rows)).value[i];
      m.stars == CountKind(rows, m.repoId, "WatchEvent") &&
      m.forks == CountKind(rows, m.repoId, "ForkEvent") &&
      m.pushes == CountKind(rows, m.repoId, "PushEvent") &&
      m.prs == CountKind(rows, m.repoId, "PullRequestEvent") &&
      m.issues == CountKind(rows, m.repoId, "IssuesEvent") &&
      m.repoName == FirstName(rows, m.repoId)
  {
  }

  /** The five kinds are distinct, so each row adds to at most one count and the
      counts together never exceed the repository's number of rows. */
  lemma {:induction false} CountsBounded(rows: seq<SilverRow>, id: Json)
    ensures CountKind(rows, id, "WatchEvent") + CountKind(rows, id, "ForkEvent") + CountKind(rows, id, "PushEvent")
      + CountKind(rows, id, "PullRequestEvent") + CountKind(rows, id, "IssuesEvent") <= CountRepo(rows, id)
  {
    if rows != [] {
      CountsBounded(rows[1..], id);
    }
  }

  /** A repository whose rows are all CreateEvents still has a row, with every count 0. */
  lemma {:induction false} CreateOnlyZero(rows: seq<SilverRow>, id: Json, kind: string)
    requires forall k :: 0 <= k < |rows| && rows[k].repoId == id ==> rows[k].eventType == "CreateEvent"
    requires kind != "CreateEvent"
    ensures CountKind(rows, id, kind) == 0
  {
    if rows != [] {
      CreateOnlyZero(rows[1..], id, kind);
    }
  }

  /** The name is the one carried by the repository's first row, when that row has one. */
  lemma {:induction false} FirstNameOfFirstRow(rows: seq<SilverRow>, id: Json, k: nat)
    requires k < |rows| && rows[k].repoId == id && rows[k].repoName != JNull
    requires forall j :: 0 <= j < k ==> rows[j].repoId != id
    ensures FirstName(rows, id) == rows[k].repoName
  {
    if k > 0 {
      FirstNameOfFirstRow(rows[1..], id, k - 1);
    }
  }

  /** Counting depends only on which rows there are, not on their order: the
      counts over two hours' rows add up. */
  lemma {:induction false} CountKindConcat(a: seq<SilverRow>, b: seq<SilverRow>, id: Json, kind: string)
    ensures CountKind(a + b, id, kind) == CountKind(a, id, kind) + CountKind(b, id, kind)
  {
    if a == [] {
      assert a + b == b;
    } else {
      assert (a + b)[1..] == a[1..] + b;
      CountKindConcat(a[1..], b, id, kind);
    }
  }

  /** metrics["date"] = date. */
  function TagDate(metrics: seq<RepoMetrics>, date: string): (rows: seq<GoldRow>)
    ensures |rows| == |metrics|
    ensures forall i :: 0 <= i < |rows| ==> rows[i].metrics == metrics[i] && rows[i].date == date
  {
    seq(|metrics|, i requires 0 <= i < |metrics| => GoldRow(metrics[i], date))
  }

  /** The gold key f"gold/year={year}/month={month}/day={day}/metrics.parquet". */
  function GoldKey(date: string): (r: Result<string>)
    ensures r.Err? <==> DateFields(date).Err?
  {
    var fields :- DateFields(date);
    var (year, month, day) := fields;
    Ok("gold/year=" + year + "/month=" + month + "/day=" + day + "/metrics.parquet")
  }

  /** The segments of the gold key of a formatted date. */
  function GoldSegments(d: Date): seq<string>
    requires Valid(d)
  {
    ["gold", "year=" + Pad(d.year, 4), "month=" + Pad(d.month, 2), "day=" + Pad(d.day, 2), "metrics.parquet"]
  }

  lemma GoldKeyShape(y: string, m: string, dd: string)
    ensures "gold/year=" + y + "/month=" + m + "/day=" + dd + "/metrics.parquet"
      == Join(["gold", "year=" + y, "month=" + m, "day=" + dd, "metrics.parquet"], '/')
  {
    GoldKeyCut(y, m, dd);
    SegmentRegroup3("gold", "year=", y, "month=", m, "day=", dd, "metrics.parquet");
    JoinFive("gold", "year=" + y, "month=" + m, "day=" + dd, "metrics.parquet");
  }

  /** The literal text of the gold key, cut before each '/'. */
  lemma GoldKeyCut(y: string, m: string, dd: string)
    ensures "gold/year=" + y + "/month=" + m + "/day=" + dd + "/metrics.parquet"
      == "gold" + "/" + "year=" + y + ("/" + "month=") + m + ("/" + "day=") + dd + ("/" + "metrics.parquet")
  {
    assert "gold/year=" == "gold" + "/" + "year=";
    assert "/month=" == "/" + "month=" && "/day=" == "/" + "day=";
    assert "/metrics.parquet" == "/" + "metrics.parquet";
  }

  /** Splitting the gold key of a formatted date on '/' gives back its five segments. */
  lemma GoldKeySegments(d: Date)
    requires Valid(d)
    ensures GoldKey(Format(d)) == Ok(Join(GoldSegments(d), '/'))
    ensures Split(GoldKey(Format(d)).value, '/') == GoldSegments(d)
  {
    FormattedFields(d);
    var p := GoldSegments(d);
    GoldKeyShape(Pad(d.year, 4), Pad(d.month, 2), Pad(d.day, 2));
    PadDigits(d.year, 4); PadDigits(d.month, 2); PadDigits(d.day, 2);
    forall i | 0 <= i < |p| ensures '/' !in p[i] {
    }
    SplitJoin(p, '/');
  }

  /** Partition uniqueness: distinct dates get distinct gold keys. */
  lemma GoldKeyInjective(d1: Date, d2: Date)
    requires Valid(d1) && Valid(d2)
    requires GoldKey(Format(d1)) == GoldKey(Format(d2))
    ensures d1 == d2
  {
    GoldKeySegments(d1);
    GoldKeySegments(d2);
    assert GoldSegments(d1) == GoldSegments(d2);
    SegmentValue("year=", Pad(d1.year, 4), Pad(d2.year, 4));
    SegmentValue("month=", Pad(d1.month, 2), Pad(d2.month, 2));
    SegmentValue("day=", Pad(d1.day, 2), Pad(d2.day, 2));
    PadInjective(d1.year, d2.year, 4);
    PadInjective(d1.month, d2.month, 2);
    PadInjective(d1.day, d2.day, 2);
  }

  /** The three layers never share a key: bronze, silver and gold keys begin
      with different first segments. */
  lemma LayersDisjoint(a: string, h: nat, b: string, c: string)
    requires Bronze.BronzeKey(a, h).Ok? && Silver.SilverKey(b).Ok? && GoldKey(c).Ok?
    ensures Bronze.BronzeKey(a, h).value != Silver.SilverKey(b).value
    ensures Bronze.BronzeKey(a, h).value != GoldKey(c).value
    ensures Silver.SilverKey(b).value != GoldKey(c).value
  {
    assert Bronze.BronzeKey(a, h).value[0] == 'b';
    assert Silver.SilverKey(b).value[0] == 's';
    assert GoldKey(c).value[0] == 'g';
  }

  /** The table process_day_to_gold would write, or the exception it raises first. */
  function GoldTable(objects: map<string, Blob>, date: string): (r: Result<seq<GoldRow>>)
    ensures r.Ok? ==> LoadSilverDay(objects, date).Ok? && LoadSilverDay(objects, date).value.Table?
    ensures r.Ok? ==> forall i :: 0 <= i < |r.value| ==> r.value[i].date == date
  {
    var _ :- DateFields(date);
    var frame :- LoadSilverDay(objects, date);
    var metrics :- BuildDailyMetrics(frame);
    if !NamesEncodable(metrics) then Err(ParquetError)
    else Ok(TagDate(metrics, date))
  }

  /** The kind of a JSON value, as far as an Arrow column type tells them apart. */
  function Kind(v: Json): nat
  {
    match v
    case JNull => 0
    case JBool(_) => 1
    case JNum(_) => 2
    case JStr(_) => 3
    case JArr(_) => 4
    case JObj(_) => 5
  }

  /** to_parquet gives the repo_name column one Arrow type, so it encodes only
      names of a single kind: a day on which one repository has a name and
      another has only the 0 fillna(0) put in mixes str and int and raises. */
  predicate NamesEncodable(metrics: seq<RepoMetrics>)
  {
    forall i :: 0 <= i < |metrics| ==> Kind(metrics[i].repoName) == Kind(metrics[0].repoName)
  }

  /** The gold table of a day whose silver table loads: the metrics, or
      ParquetError when their name column cannot be encoded. */
  lemma GoldTableOfRows(objects: map<string, Blob>, date: string, rows: seq<SilverRow>)
    requires DateFields(date).Ok? && LoadSilverDay(objects, date) == Ok(Table(rows))
    ensures var m := BuildDailyMetrics(Table(rows)).value;
      GoldTable(objects, date) == if NamesEncodable(m) then Ok(TagDate(m, date)) else Err(ParquetError)
  {
  }

  /** A day on which one repository has a string name and another has no name
      in any of its events cannot be written: the gold write fails. */
  lemma UnnamedRepoFails(objects: map<string, Blob>, date: string, rows: seq<SilverRow>, a: Json, b: Json)
    requires DateFields(date).Ok? && LoadSilverDay(objects, date) == Ok(Table(rows))
    requires a in RepoIds(rows) && b in RepoIds(rows)
    requires FirstName(rows, a).JStr?
    requires forall k :: 0 <= k < |rows| && rows[k].repoId == b ==> rows[k].repoName == JNull
    ensures GoldTable(objects, date) == Err(ParquetError)
  {
    GoldTableOfRows(objects, date, rows);
    MixedNames(rows, a, b);
  }

  /** The same, on the metrics alone. */
  lemma MixedNames(rows: seq<SilverRow>, a: Json, b: Json)
    requires a in RepoIds(rows) && b in RepoIds(rows)
    requires FirstName(rows, a).JStr?
    requires forall k :: 0 <= k < |rows| && rows[k].repoId == b ==> rows[k].repoName == JNull
    ensures !NamesEncodable(BuildDailyMetrics(Table(rows)).value)
  {
    var ids := RepoIds(rows);
    var m := BuildDailyMetrics(Table(rows)).value;
    var i :| 0 <= i < |ids| && ids[i] == a;
    var j :| 0 <= j < |ids| && ids[j] == b;
    assert Kind(m[i].repoName) == 3 && Kind(m[j].repoName) == 2;
  }

  /** A day on which every event carries a string name is written. */
  lemma NamedDayEncodes(objects: map<string, Blob>, date: string, rows: seq<SilverRow>)
    requires DateFields(date).Ok? && LoadSilverDay(objects, date) == Ok(Table(rows))
    requires forall k :: 0 <= k < |rows| ==> rows[k].repoName.JStr?
    ensures GoldTable(objects, date) == Ok(TagDate(BuildDailyMetrics(Table(rows)).value, date))
  {
    GoldTableOfRows(objects, date, rows);
    NamedRowsEncodable(rows);
  }

  /** The same, on the metrics alone. */
  lemma NamedRowsEncodable(rows: seq<SilverRow>)
    requires forall k :: 0 <= k < |rows| ==> rows[k].repoName.JStr?
    ensures NamesEncodable(BuildDailyMetrics(Table(rows)).value)
  {
    var ids := RepoIds(rows);
    var m := BuildDailyMetrics(Table(rows)).value;
    forall i | 0 <= i < |m| ensures Kind(m[i].repoName) == 3 {
      assert ids[i] in ids;
      var k :| 0 <= k < |rows| && Grouped(rows[k]) && rows[k].repoId == ids[i];
      FirstNameNamed(rows, ids[i], k);
    }
  }

  /** A group with a named event gets a name that some event carries. */
  lemma {:induction false} FirstNameNamed(rows: seq<SilverRow>, id: Json, k: nat)
    requires k < |rows| && rows[k].repoId == id && rows[k].repoName != JNull
    ensures exists j :: 0 <= j < |rows| && rows[j].repoId == id && rows[j].repoName == FirstName(rows, id)
  {
    if rows[0].repoId == id && rows[0].repoName != JNull {
    } else {
      FirstNameNamed(rows[1..], id, k - 1);
      var j :| 0 <= j < |rows[1..]| && rows[1..][j].repoId == id && rows[1..][j].repoName == FirstName(rows[1..], id);
      assert rows[j + 1] == rows[1..][j];
    }
  }

  /** A missing silver table, or a day whose silver table has no columns, gives no gold. */
  lemma NoSilverNoGold(objects: map<string, Blob>, date: string)
    requires Silver.SilverKey(date).Ok?
    requires Silver.SilverKey(date).value !in objects || objects[Silver.SilverKey(date).value] == SilverBlob(NoColumns)
    ensures GoldTable(objects, date).Err?
  {
  }

  /** The store after process_day_to_gold(date). */
  function AfterGold(objects: map<string, Blob>, rejected: set<string>, date: string): map<string, Blob>
  {
    match GoldTable(objects, date)
    case Err(_) => objects
    case Ok(table) =>
      var key := GoldKey(date).value;
      if key in rejected then objects else objects[key := GoldBlob(table)]
  }

  /** process_day_to_gold: load, aggregate, tag with the date, overwrite the gold key. */
  method ProcessDayToGold(store: ObjectStore, date: string) returns (r: Result<string>)
    modifies store
    ensures store.objects == AfterGold(old(store.objects), store.rejected, date)
    ensures GoldTable(old(store.objects), date).Err? ==>
      r == Err(GoldTable(old(store.objects), date).error) && store.journal == old(store.journal)
    ensures GoldTable(old(store.objects), date).Ok? ==>
      var key := GoldKey(date).value;
      r == (if key in store.rejected then Err(WriteRejected(key)) else Ok(key)) &&
      store.journal == (if key in store.rejected then old(store.journal) else old(store.journal) + [Wrote(key)])
  {
    var fields := DateFields(date);
    if fields.Err? {
      return Err(ValueError);
    }
    var frame := LoadSilverDay(store.objects, date);
    if frame.Err? {
      return Err(frame.error);
    }
    var metrics := BuildDailyMetrics(frame.value);
    if metrics.Err? {
      return Err(metrics.error);
    }
    if !NamesEncodable(metrics.value) {
      return Err(ParquetError);
    }
    var table := TagDate(metrics.value, date);
    var key := GoldKey(date).value;
    r := store.Put(key, GoldBlob(table));
  }

  /** The dates ingest/gold.py's main loop visits: 2025-12-01 .. 2025-12-18. */
  function MainDates(): (dates: seq<ValidDate>)
    ensures |dates| == 18
    ensures forall i :: 0 <= i < 18 ==> dates[i] == Date(2025, 12, i + 1)
  {
    seq(18, i requires 0 <= i < 18 => Date(2025, 12, i + 1))
  }

  /** The store after process_day_to_gold on each of the dates in turn. */
  function AfterGoldDays(objects: map<string, Blob>, rejected: set<string>, dates: seq<ValidDate>): map<string, Blob>
  {
    if dates == [] then objects
    else AfterGold(AfterGoldDays(objects, rejected, dates[..|dates| - 1]), rejected, Format(dates[|dates| - 1]))
  }

  lemma AfterGoldDaysSnoc(objects: map<string, Blob>, rejected: set<string>, dates: seq<ValidDate>, d: ValidDate)
    ensures AfterGoldDays(objects, rejected, dates + [d]) == AfterGold(AfterGoldDays(objects, rejected, dates), rejected, Format(d))
  {
    assert (dates + [d])[..|dates|] == dates;
  }

  /** The main loop: each date once, in ascending order; a failing date is
      reported and the loop goes on to the next. */
  method GoldMain(store: ObjectStore) returns (ghost visited: seq<ValidDate>)
    modifies store
    ensures visited == MainDates()
    ensures store.objects == AfterGoldDays(old(store.objects), store.rejected, MainDates())
  {
    var current: ValidDate := Date(2025, 12, 1);
    var endDate := Date(2025, 12, 18);
    visited := [];
    while Before(current, endDate) || current == endDate
      invariant current.year == 2025 && current.month == 12 && 1 <= current.day <= 19
      invariant |visited| == current.day - 1 && forall j :: 0 <= j < |visited| ==> visited[j] == Date(2025, 12, j + 1)
      invariant store.objects == AfterGoldDays(old(store.objects), store.rejected, visited)
      decreases 19 - current.day
    {
      var dateStr := Format(current);
      AfterGoldDaysSnoc(old(store.objects), store.rejected, visited, current);
      var _ := ProcessDayToGold(store, dateStr);
      visited := visited + [current];
      current := NextInDecember(current);
    }
  }
}
