/** ml/labels.py: label each feature row with the stars its repository receives
    on the two following days, read from the gold tables of a list of future
    days. The loader and the star lookup are shared with ml/retrain.py, which runs
    the same steps over its own date list. */
module Labels {
  import opened Wrappers
  import opened Text
  import opened Dates
  import opened Tables
  import opened Store
  import opened Partitions
  import Features

  /** One row of df[["repo_id", "stars", "future_date"]]. */
  datatype FutureRow = FutureRow(repoId: Json, stars: nat, date: string)

  /** df["future_date"] = date on a loaded day, keeping three columns. */
  function Tagged(rows: seq<GoldRow>, date: string): seq<FutureRow>
  {
    seq(|rows|, i requires 0 <= i < |rows| => FutureRow(rows[i].metrics.repoId, rows[i].metrics.stars, date))
  }

  /** future_days after the loop over `dates`: each loadable day's tagged table,
      in list order; a day whose load raises is skipped by the bare except. */
  function FutureDays(objects: map<string, Blob>, dates: seq<string>): (days: seq<seq<FutureRow>>)
    ensures |days| <= |dates|
  {
    if dates == [] then []
    else
      var prev := FutureDays(objects, dates[..|dates| - 1]);
      var d := dates[|dates| - 1];
      match Features.LoadGoldDay(objects, d)
      case Ok(rows) => prev + [Tagged(rows, d)]
      case Err(_) => prev
  }

  /** The loop that fills future_days. */
  method LoadFutureDays(store: ObjectStore, dates: seq<string>) returns (days: seq<seq<FutureRow>>)
    ensures days == FutureDays(store.objects, dates)
  {
    days := [];
    for i := 0 to |dates|
      invariant days == FutureDays(store.objects, dates[..i])
    {
      assert dates[..i + 1][..i] == dates[..i];
      var df := Features.LoadGoldDay(store.objects, dates[i]);
      if df.Ok? {
        days := days + [Tagged(df.value, dates[i])];
      }
    }
    assert dates[..|dates|] == dates;
  }

  /** A list in which no day's load succeeds leaves future_days empty. */
  lemma {:induction false} NothingLoads(objects: map<string, Blob>, dates: seq<string>)
    requires forall i :: 0 <= i < |dates| ==> Features.LoadGoldDay(objects, dates[i]).Err?
    ensures FutureDays(objects, dates) == []
  {
    if dates != [] {
      var front := dates[..|dates| - 1];
      assert forall i :: 0 <= i < |front| ==> front[i] == dates[i];
      NothingLoads(objects, front);
    }
  }

  /** pd.concat(future_days); an empty list raises ValueError. */
  function AllFuture(days: seq<seq<FutureRow>>): Result<seq<FutureRow>>
  {
    if days == [] then Err(ValueError) else Ok(Features.Concat(days))
  }

  // ---------------------------------------------------------------- star lookup

  /** The future table has a row for (repo_id, date). */
  predicate Matches(future: seq<FutureRow>, id: Json, date: string) {
    exists k :: 0 <= k < |future| && future[k].repoId == id && future[k].date == date
  }

  /** The left merge on (repo_id, day) then fillna(0): the stars of the matching
      future row, 0 when there is none. */
  function StarsOn(future: seq<FutureRow>, id: Json, date: string): (n: nat)
    ensures !Matches(future, id, date) ==> n == 0
    ensures Matches(future, id, date) ==>
      exists k :: 0 <= k < |future| && future[k].repoId == id && future[k].date == date && future[k].stars == n
  {
    if future == [] then 0
    else if future[0].repoId == id && future[0].date == date then future[0].stars
    else StarsOn(future[1..], id, date)
  }

  /** At most one future row has (repo_id, date): the left merge on that key
      then yields a single row for it. */
  predicate SingleMatch(future: seq<FutureRow>, id: Json, date: string) {
    forall k, l :: 0 <= k < l < |future| && future[k].repoId == id && future[k].date == date ==>
      !(future[l].repoId == id && future[l].date == date)
  }

  /** The stars of repository `id` in a gold table, 0 when it has no row. */
  function RepoStars(rows: seq<GoldRow>, id: Json): nat
  {
    if rows == [] then 0
    else if rows[0].metrics.repoId == id then rows[0].metrics.stars
    else RepoStars(rows[1..], id)
  }

  /** The repository's stars on `date` as the gold table of that day records
      them, 0 when the day does not load or the repository has no row. */
  function GoldStars(objects: map<string, Blob>, date: string, id: Json): nat
  {
    match Features.LoadGoldDay(objects, date)
    case Ok(rows) => RepoStars(rows, id)
    case Err(_) => 0
  }

  lemma {:induction false} MatchesConcat(a: seq<FutureRow>, b: seq<FutureRow>, id: Json, date: string)
    ensures Matches(a + b, id, date) <==> Matches(a, id, date) || Matches(b, id, date)
  {
    var ab := a + b;
    if Matches(ab, id, date) {
      var k :| 0 <= k < |ab| && ab[k].repoId == id && ab[k].date == date;
      if k < |a| {
        assert a[k] == ab[k];
      } else {
        assert b[k - |a|] == ab[k];
      }
    }
    if Matches(a, id, date) {
      var k :| 0 <= k < |a| && a[k].repoId == id && a[k].date == date;
      assert ab[k] == a[k];
    }
    if Matches(b, id, date) {
      var k :| 0 <= k < |b| && b[k].repoId == id && b[k].date == date;
      assert ab[k + |a|] == b[k];
    }
  }

  lemma {:induction false} StarsOnNoMatch(future: seq<FutureRow>, id: Json, date: string)
    requires !Matches(future, id, date)
    ensures StarsOn(future, id, date) == 0
  {
    if future != [] {
      assert !(future[0].repoId == id && future[0].date == date);
      assert !Matches(future[1..], id, date);
      StarsOnNoMatch(future[1..], id, date);
    }
  }

  /** Rows without a match in front do not change the lookup. */
  lemma {:induction false} StarsOnSkipFront(a: seq<FutureRow>, b: seq<FutureRow>, id: Json, date: string)
    requires !Matches(a, id, date)
    ensures StarsOn(a + b, id, date) == StarsOn(b, id, date)
  {
    if a != [] {
      var ab := a + b;
      assert ab[0] == a[0] && ab[1..] == a[1..] + b;
      assert !(a[0].repoId == id && a[0].date == date);
      assert !Matches(a[1..], id, date);
      StarsOnSkipFront(a[1..], b, id, date);
    } else {
      assert a + b == b;
    }
  }

  /** Rows without a match behind do not change the lookup. */
  lemma {:induction false} StarsOnSkipBack(a: seq<FutureRow>, b: seq<FutureRow>, id: Json, date: string)
    requires !Matches(b, id, date)
    ensures StarsOn(a + b, id, date) == StarsOn(a, id, date)
  {
    if a == [] {
      assert a + b == b;
      StarsOnNoMatch(b, id, date);
    } else {
      var ab := a + b;
      assert ab[0] == a[0] && ab[1..] == a[1..] + b;
      StarsOnSkipBack(a[1..], b, id, date);
    }
  }

  /** A tagged day answers the lookup for its own date from its table. */
  lemma {:induction false} StarsOnTagged(rows: seq<GoldRow>, d: string, id: Json)
    ensures StarsOn(Tagged(rows, d), id, d) == RepoStars(rows, id)
  {
    if rows != [] {
      assert Tagged(rows, d)[1..] == Tagged(rows[1..], d);
      StarsOnTagged(rows[1..], d, id);
    }
  }

  /** A tagged day has no row for any other date. */
  lemma TaggedOtherDate(rows: seq<GoldRow>, d: string, id: Json, date: string)
    requires d != date
    ensures !Matches(Tagged(rows, d), id, date)
  {
  }

  /** Two parts with one match at most each, and a match in only one of them. */
  lemma SingleMatchConcat(a: seq<FutureRow>, b: seq<FutureRow>, id: Json, date: string)
    requires SingleMatch(a, id, date) && SingleMatch(b, id, date)
    requires !(Matches(a, id, date) && Matches(b, id, date))
    ensures SingleMatch(a + b, id, date)
  {
    var ab := a + b;
    forall k, l | 0 <= k < l < |ab| && ab[k].repoId == id && ab[k].date == date
      ensures !(ab[l].repoId == id && ab[l].date == date)
    {
      if l < |a| {
        assert a[k] == ab[k] && a[l] == ab[l];
      } else if k >= |a| {
        assert b[k - |a|] == ab[k] && b[l - |a|] == ab[l];
      } else {
        assert a[k] == ab[k] && b[l - |a|] == ab[l];
      }
    }
  }

  /** A gold table with one row per repository tags at most one row per key. */
  lemma TaggedSingle(rows: seq<GoldRow>, d: string, id: Json, date: string)
    requires Features.UniqueRepos(rows)
    ensures SingleMatch(Tagged(rows, d), id, date)
  {
  }

  predicate Distinct(dates: seq<string>) {
    forall i, j :: 0 <= i < j < |dates| ==> dates[i] != dates[j]
  }

  /** The lookup over the loaded future days gives, for a listed date, the
      repository's stars in that day's gold table (0 when the day does not load
      or lacks the repository), and finds no row for a date not listed. */
  lemma {:induction false} FutureLookup(objects: map<string, Blob>, dates: seq<string>, id: Json, date: string)
    requires Distinct(dates)
    ensures var f := Features.Concat(FutureDays(objects, dates));
      (date !in dates ==> !Matches(f, id, date)) &&
      (date in dates ==> StarsOn(f, id, date) == GoldStars(objects, date, id))
  {
    if dates != [] {
      var front := dates[..|dates| - 1];
      var d := dates[|dates| - 1];
      assert dates == front + [d];
      assert Distinct(front) by {
        forall i, j | 0 <= i < j < |front| ensures front[i] != front[j] {
          assert front[i] == dates[i] && front[j] == dates[j];
        }
      }
      assert d !in front by {
        forall i | 0 <= i < |front| ensures front[i] != d {
          assert front[i] == dates[i];
        }
      }
      assert date in dates <==> date in front || date == d;
      FutureLookup(objects, front, id, date);
      var a := Features.Concat(FutureDays(objects, front));
      var load := Features.LoadGoldDay(objects, d);
      if load.Ok? {
        var t := Tagged(load.value, d);
        Features.ConcatSnoc(FutureDays(objects, front), t);
        MatchesConcat(a, t, id, date);
        if date == d {
          StarsOnSkipFront(a, t, id, date);
          StarsOnTagged(load.value, d, id);
        } else {
          TaggedOtherDate(load.value, d, id, date);
          StarsOnSkipBack(a, t, id, date);
        }
      } else if date == d {
        StarsOnNoMatch(a, id, date);
      }
    }
  }

  /** With distinct dates and one row per repository in every loaded day, no
      (repo_id, date) key has two future rows. */
  lemma {:induction false} FutureSingle(objects: map<string, Blob>, dates: seq<string>, id: Json, date: string)
    requires Distinct(dates)
    requires forall i :: 0 <= i < |dates| && Features.LoadGoldDay(objects, dates[i]).Ok? ==>
      Features.UniqueRepos(Features.LoadGoldDay(objects, dates[i]).value)
    ensures SingleMatch(Features.Concat(FutureDays(objects, dates)), id, date)
  {
    if dates != [] {
      var front := dates[..|dates| - 1];
      var d := dates[|dates| - 1];
      assert Distinct(front) by {
        forall i, j | 0 <= i < j < |front| ensures front[i] != front[j] {
          assert front[i] == dates[i] && front[j] == dates[j];
        }
      }
      assert d !in front by {
        forall i | 0 <= i < |front| ensures front[i] != d {
          assert front[i] == dates[i];
        }
      }
      forall i | 0 <= i < |front| && Features.LoadGoldDay(objects, front[i]).Ok?
        ensures Features.UniqueRepos(Features.LoadGoldDay(objects, front[i]).value)
      {
        assert front[i] == dates[i];
      }
      FutureSingle(objects, front, id, date);
      var a := Features.Concat(FutureDays(objects, front));
      var load := Features.LoadGoldDay(objects, d);
      if load.Ok? {
        var t := Tagged(load.value, d);
        Features.ConcatSnoc(FutureDays(objects, front), t);
        TaggedSingle(load.value, d, id, date);
        if date == d {
          FutureLookup(objects, front, id, date);
        } else {
          TaggedOtherDate(load.value, d, id, date);
        }
        SingleMatchConcat(a, t, id, date);
      }
    }
  }

  // ---------------------------------------------------------------- labels

  /** The two days after a feature row's date: pd.to_datetime(date) plus one and
      two days, formatted "%Y-%m-%d"; a date that does not parse or a step out
      of the calendar raises ValueError (pandas' parse and bounds errors are
      ValueErrors). */
  function NextTwo(date: string): (r: Result<(string, string)>)
    ensures r.Ok? ==> Parse(date).Some? && Next(Parse(date).value).Some? && Next(Next(Parse(date).value).value).Some?
    ensures r.Ok? ==> var d1 := Next(Parse(date).value).value;
      r.value == (Format(d1), Format(Next(d1).value))
  {
    match Parse(date)
    case None => Err(ValueError)
    case Some(d) =>
      match Next(d)
      case None => Err(ValueError)
      case Some(d1) =>
        match Next(d1)
        case None => Err(ValueError)
        case Some(d2) => Ok((Format(d1), Format(d2)))
  }

  /** future_stars of one row: day-1 stars plus day-2 stars, a missing match counting 0. */
  function FutureStars(future: seq<FutureRow>, row: FeatureRow, days: (string, string)): nat
  {
    var id := row.joined.gold.metrics.repoId;
    StarsOn(future, id, days.0) + StarsOn(future, id, days.1)
  }

  /** viral and trending from future_stars (ml/labels.py:45-49). */
  function Label(row: FeatureRow, futureStars: nat): (l: LabeledRow)
    ensures l.features == row
    ensures l.viral == 1 <==> futureStars >= 20
    ensures l.trending == 1 <==> futureStars as real >= row.joined.avgStars * 3.0 && futureStars >= 5
    ensures l.viral <= 1 && l.trending <= 1
  {
    LabeledRow(row,
      if futureStars >= 20 then 1 else 0,
      if futureStars as real >= row.joined.avgStars * 3.0 && futureStars >= 5 then 1 else 0)
  }

  /** Every row's date shifts by one and two days without raising. */
  predicate AllShift(features: seq<FeatureRow>) {
    forall i :: 0 <= i < |features| ==> NextTwo(features[i].joined.gold.date).Ok?
  }

  /** Each row's two merges match one future row at most. A second match adds
      a row to the merged frame, and the `.values` sum then no longer fits the
      feature rows: numpy or the column assignment raises ValueError. */
  predicate MergesAligned(future: seq<FutureRow>, features: seq<FeatureRow>)
    requires AllShift(features)
  {
    forall i :: 0 <= i < |features| ==>
      var days := NextTwo(features[i].joined.gold.date).value;
      SingleMatch(future, features[i].joined.gold.metrics.repoId, days.0) &&
      SingleMatch(future, features[i].joined.gold.metrics.repoId, days.1)
  }

  /** add_labels_vectorized over a list of future dates: concat (ValueError when no
      day loaded), then the two date columns, then the merges, then one labelled
      row per feature row. */
  function AddLabels(objects: map<string, Blob>, features: seq<FeatureRow>, dates: seq<string>): (r: Result<seq<LabeledRow>>)
    ensures AllFuture(FutureDays(objects, dates)).Err? ==> r == Err(AllFuture(FutureDays(objects, dates)).error)
    ensures AllFuture(FutureDays(objects, dates)).Ok? && r.Err? ==> r.error == ValueError
    ensures r.Ok? ==> |r.value| == |features| && forall i :: 0 <= i < |features| ==>
      r.value[i].features == features[i] && r.value[i].viral <= 1 && r.value[i].trending <= 1
  {
    var future :- AllFuture(FutureDays(objects, dates));
    if !AllShift(features) then Err(ValueError)
    else if !MergesAligned(future, features) then Err(ValueError)
    else Ok(seq(|features|, i requires 0 <= i < |features| =>
      Label(features[i], FutureStars(future, features[i], NextTwo(features[i].joined.gold.date).value))))
  }

  /** The stars a listed day contributes, 0 for a day not in the list. */
  function ListedStars(objects: map<string, Blob>, dates: seq<string>, date: string, id: Json): nat
  {
    if date in dates then GoldStars(objects, date, id) else 0
  }

  /** The labelling rule over the gold tables: the row count and the feature
      columns are kept, and with S the repository's stars on date+1 plus its
      stars on date+2 (each read from that day's gold table, 0 when absent),
      viral is 1 iff S >= 20 and trending is 1 iff S >= 3 * avg_stars_7d and S >= 5. */
  lemma LabelRules(objects: map<string, Blob>, features: seq<FeatureRow>, dates: seq<string>, i: nat)
    requires Distinct(dates) && AddLabels(objects, features, dates).Ok? && i < |features|
    ensures var out := AddLabels(objects, features, dates).value;
      var row := features[i];
      var id := row.joined.gold.metrics.repoId;
      var days := NextTwo(row.joined.gold.date).value;
      var s := ListedStars(objects, dates, days.0, id) + ListedStars(objects, dates, days.1, id);
      |out| == |features| && out[i].features == row &&
      (out[i].viral == 1 <==> s >= 20) &&
      (out[i].trending == 1 <==> s as real >= row.joined.avgStars * 3.0 && s >= 5)
  {
    var row := features[i];
    var id := row.joined.gold.metrics.repoId;
    var days := NextTwo(row.joined.gold.date).value;
    var future := AllFuture(FutureDays(objects, dates)).value;
    FutureLookup(objects, dates, id, days.0);
    FutureLookup(objects, dates, id, days.1);
    if days.0 !in dates {
      StarsOnNoMatch(future, id, days.0);
    }
    if days.1 !in dates {
      StarsOnNoMatch(future, id, days.1);
    }
  }

  /** With no loadable future day, labelling raises ValueError. */
  lemma NoFutureDays(objects: map<string, Blob>, features: seq<FeatureRow>, dates: seq<string>)
    requires forall i :: 0 <= i < |dates| ==> Features.LoadGoldDay(objects, dates[i]).Err?
    ensures AddLabels(objects, features, dates) == Err(ValueError)
  {
    NothingLoads(objects, dates);
  }

  /** A row whose day-1 or day-2 key has two future rows makes labelling fail. */
  lemma DuplicateMatchFails(objects: map<string, Blob>, features: seq<FeatureRow>, dates: seq<string>, i: nat, k: nat, l: nat)
    requires AllFuture(FutureDays(objects, dates)).Ok? && AllShift(features) && i < |features|
    requires var future := AllFuture(FutureDays(objects, dates)).value;
      var id := features[i].joined.gold.metrics.repoId;
      var days := NextTwo(features[i].joined.gold.date).value;
      k < l < |future| && future[k].repoId == id && future[l].repoId == id &&
      ((future[k].date == days.0 && future[l].date == days.0) || (future[k].date == days.1 && future[l].date == days.1))
    ensures AddLabels(objects, features, dates) == Err(ValueError)
  {
  }

  /** Labelling succeeds whenever some day loads, every date shifts, the dates
      are distinct and every loaded day holds one row per repository. */
  lemma LabelsSucceed(objects: map<string, Blob>, features: seq<FeatureRow>, dates: seq<string>)
    requires Distinct(dates) && FutureDays(objects, dates) != [] && AllShift(features)
    requires forall i :: 0 <= i < |dates| && Features.LoadGoldDay(objects, dates[i]).Ok? ==>
      Features.UniqueRepos(Features.LoadGoldDay(objects, dates[i]).value)
    ensures AddLabels(objects, features, dates).Ok?
  {
    var future := AllFuture(FutureDays(objects, dates)).value;
    forall i | 0 <= i < |features|
      ensures var days := NextTwo(features[i].joined.gold.date).value;
        SingleMatch(future, features[i].joined.gold.metrics.repoId, days.0) &&
        SingleMatch(future, features[i].joined.gold.metrics.repoId, days.1)
    {
      var days := NextTwo(features[i].joined.gold.date).value;
      FutureSingle(objects, dates, features[i].joined.gold.metrics.repoId, days.0);
      FutureSingle(objects, dates, features[i].joined.gold.metrics.repoId, days.1);
    }
  }

  /** A listed day that loads and holds the repository puts a matching row in
      the future table. */
  lemma {:induction false} LoadedMatches(objects: map<string, Blob>, dates: seq<string>, id: Json, date: string)
    requires date in dates && Features.LoadGoldDay(objects, date).Ok?
    requires Features.HasRepo(Features.LoadGoldDay(objects, date).value, id)
    ensures Matches(Features.Concat(FutureDays(objects, dates)), id, date)
  {
    var front := dates[..|dates| - 1];
    var d := dates[|dates| - 1];
    var a := Features.Concat(FutureDays(objects, front));
    var load := Features.LoadGoldDay(objects, d);
    if date == d {
      TaggedMatches(load.value, d, id);
      Features.ConcatSnoc(FutureDays(objects, front), Tagged(load.value, d));
      MatchesConcat(a, Tagged(load.value, d), id, date);
    } else {
      assert dates == front + [d];
      LoadedMatches(objects, front, id, date);
      if load.Ok? {
        Features.ConcatSnoc(FutureDays(objects, front), Tagged(load.value, d));
        MatchesConcat(a, Tagged(load.value, d), id, date);
      }
    }
  }

  /** A tagged day matches every repository its table holds, on its own date. */
  lemma TaggedMatches(rows: seq<GoldRow>, d: string, id: Json)
    requires Features.HasRepo(rows, id)
    ensures Matches(Tagged(rows, d), id, d)
  {
    var k :| 0 <= k < |rows| && rows[k].metrics.repoId == id;
    assert Tagged(rows, d)[k].repoId == id;
  }

  /** A key matched in two parts has two rows in their concatenation. */
  lemma TwoPartsMatch(a: seq<FutureRow>, b: seq<FutureRow>, id: Json, date: string)
    requires Matches(a, id, date) && Matches(b, id, date)
    ensures !SingleMatch(a + b, id, date)
  {
    var k :| 0 <= k < |a| && a[k].repoId == id && a[k].date == date;
    var l :| 0 <= l < |b| && b[l].repoId == id && b[l].date == date;
    assert (a + b)[k] == a[k] && (a + b)[|a| + l] == b[l];
  }

  /** A key with two rows keeps them when more rows follow. */
  lemma NotSingleExtends(a: seq<FutureRow>, b: seq<FutureRow>, id: Json, date: string)
    requires !SingleMatch(a, id, date)
    ensures !SingleMatch(a + b, id, date)
  {
    var k, l :| 0 <= k < l < |a| && a[k].repoId == id && a[k].date == date && a[l].repoId == id && a[l].date == date;
    assert (a + b)[k] == a[k] && (a + b)[l] == a[l];
  }

  /** A date listed twice whose day holds the repository loads it twice: the
      key (repository, date) then has two future rows. */
  lemma {:induction false} RepeatedDate(objects: map<string, Blob>, dates: seq<string>, i: nat, j: nat, id: Json)
    requires i < j < |dates| && dates[i] == dates[j] && Features.LoadGoldDay(objects, dates[i]).Ok?
    requires Features.HasRepo(Features.LoadGoldDay(objects, dates[i]).value, id)
    ensures !SingleMatch(Features.Concat(FutureDays(objects, dates)), id, dates[i])
  {
    var front := dates[..|dates| - 1];
    var d := dates[|dates| - 1];
    var a := Features.Concat(FutureDays(objects, front));
    var load := Features.LoadGoldDay(objects, d);
    assert front[i] == dates[i];
    if j == |dates| - 1 {
      LoadedMatches(objects, front, id, dates[i]);
      TaggedMatches(load.value, d, id);
      Features.ConcatSnoc(FutureDays(objects, front), Tagged(load.value, d));
      TwoPartsMatch(a, Tagged(load.value, d), id, d);
    } else {
      assert front[j] == dates[j];
      RepeatedDate(objects, front, i, j, id);
      if load.Ok? {
        Features.ConcatSnoc(FutureDays(objects, front), Tagged(load.value, d));
        NotSingleExtends(a, Tagged(load.value, d), id, dates[i]);
      }
    }
  }

  /** Labelling over a list that repeats a row's next day raises ValueError. */
  lemma RepeatedDateFails(objects: map<string, Blob>, features: seq<FeatureRow>, dates: seq<string>, i: nat, j: nat, k: nat)
    requires i < j < |dates| && dates[i] == dates[j]
    requires AllShift(features) && k < |features|
    requires NextTwo(features[k].joined.gold.date).value.0 == dates[i]
    requires Features.LoadGoldDay(objects, dates[i]).Ok?
    requires Features.HasRepo(Features.LoadGoldDay(objects, dates[i]).value, features[k].joined.gold.metrics.repoId)
    ensures AddLabels(objects, features, dates) == Err(ValueError)
  {
    var id := features[k].joined.gold.metrics.repoId;
    RepeatedDate(objects, dates, i, j, id);
    LoadedMatches(objects, dates, id, dates[i]);
    assert FutureDays(objects, dates) != [];
  }

  /** add_labels_vectorized: the loading loop, then the column computations. */
  method AddLabelsVectorized(store: ObjectStore, features: seq<FeatureRow>, dates: seq<string>) returns (r: Result<seq<LabeledRow>>)
    ensures r == AddLabels(store.objects, features, dates)
  {
    var days := LoadFutureDays(store, dates);
    var future := AllFuture(days);
    if future.Err? {
      return Err(future.error);
    }
    if !AllShift(features) {
      return Err(ValueError);
    }
    var f := future.value;
    if !MergesAligned(f, features) {
      return Err(ValueError);
    }
    r := Ok(seq(|features|, i requires 0 <= i < |features| =>
      Label(features[i], FutureStars(f, features[i], NextTwo(features[i].joined.gold.date).value))));
  }

  // ---------------------------------------------------------------- __main__

  /** f"2025-12-{day:02d}" for day in range(9, 19). */
  function LabelDates(): seq<string>
  {
    seq(10, i requires 0 <= i < 10 => "2025-12-" + Pad(i + 9, 2))
  }

  /** The fixed future dates are 2025-12-09 .. 2025-12-18, each once. */
  lemma LabelDatesDistinct()
    ensures |LabelDates()| == 10 && Distinct(LabelDates())
  {
    var ds := LabelDates();
    forall i, j | 0 <= i < j < 10 ensures ds[i] != ds[j] {
      if ds[i] == ds[j] {
        SegmentValue("2025-12-", Pad(i + 9, 2), Pad(j + 9, 2));
        PadInjective(i + 9, j + 9, 2);
      }
    }
  }

  const FeaturesKey := "ml/features.parquet"
  const TrainingKey := "ml/training_data.parquet"

  /** The script's result: the labelled table, or the exception that stops it. */
  function LabelsRun(objects: map<string, Blob>): (r: Result<seq<LabeledRow>>)
    ensures FeaturesKey !in objects ==> r == Err(NoSuchKey(FeaturesKey))
    ensures r.Ok? ==> (FeaturesKey in objects && objects[FeaturesKey].FeatureBlob? &&
      |r.value| == |objects[FeaturesKey].features| &&
      forall i :: 0 <= i < |r.value| ==> r.value[i].features == objects[FeaturesKey].features[i])
  {
    if FeaturesKey !in objects then Err(NoSuchKey(FeaturesKey))
    else match objects[FeaturesKey]
      case FeatureBlob(rows) => AddLabels(objects, rows, LabelDates())
      case _ => Err(ParquetError)
  }

  /** The store after the script: the labelled table under ml/training_data.parquet. */
  function AfterLabels(objects: map<string, Blob>, rejected: set<string>): map<string, Blob>
  {
    match LabelsRun(objects)
    case Err(_) => objects
    case Ok(rows) => if TrainingKey in rejected then objects else objects[TrainingKey := TrainingBlob(rows)]
  }

  /** The `__main__` block: read the features, label them, write the training table. */
  method LabelsMain(store: ObjectStore) returns (r: Result<()>)
    modifies store
    ensures store.objects == AfterLabels(old(store.objects), store.rejected)
    ensures r.Ok? <==> LabelsRun(old(store.objects)).Ok? && TrainingKey !in store.rejected
  {
    var blob := store.Get(FeaturesKey);
    if blob.Err? {
      return Err(blob.error);
    }
    if !blob.value.FeatureBlob? {
      return Err(ParquetError);
    }
    var labeled := AddLabelsVectorized(store, blob.value.features, LabelDates());
    if labeled.Err? {
      return Err(labeled.error);
    }
    var w := store.Put(TrainingKey, TrainingBlob(labeled.value));
    r := if w.Ok? then Ok(()) else Err(w.error);
  }
}
