/** The weekly retraining job (ml/retrain.py). It lists the gold partitions
    and builds training features for every listed date that has seven listed
    dates before it and two after. It labels the rows with the viral rule and
    trains a new classifier, which it keeps only when it scores better than
    the saved one. Last, it deletes the gold partitions of every month but
    the current one. */
module Retrain {
  import opened Wrappers
  import opened Text
  import opened Dates
  import opened Tables
  import opened Store
  import opened Partitions
  import Gold
  import Features
  import Labels
  import Orchestration
  import Sorting

  // ---------------------------------------------------------------- get_available_dates

  const MetricsFile := "metrics.parquet"

  /** parts[i]; IndexError past the end. */
  function Part(parts: seq<string>, i: nat): Result<string> {
    if i < |parts| then Ok(parts[i]) else Err(IndexError)
  }

  /** parts[i].split("=")[1] */
  function FieldValue(parts: seq<string>, i: nat): Result<string> {
    var p :- Part(parts, i);
    Part(Split(p, '='), 1)
  }

  /** The date a listed metrics key names: f"{year}-{month}-{day}" from the values
      of its second, third and fourth '/'-segments. */
  function KeyDate(key: string): (r: Result<string>)
    ensures r.Err? ==> r.error == IndexError
  {
    var parts := Split(key, '/');
    var year :- FieldValue(parts, 1);
    var month :- FieldValue(parts, 2);
    var day :- FieldValue(parts, 3);
    Ok(year + "-" + month + "-" + day)
  }

  /** The listed keys that hold "metrics.parquet", in listing order. */
  function MetricsKeys(listing: seq<string>): (keys: seq<string>)
    ensures forall k :: k in keys <==> k in listing && Contains(k, MetricsFile)
  {
    if listing == [] then []
    else
      var front := listing[..|listing| - 1];
      var last := listing[|listing| - 1];
      assert listing == front + [last];
      var keys := MetricsKeys(front);
      if Contains(last, MetricsFile) then keys + [last] else keys
  }

  /** The loop of get_available_dates: one date per metrics key, in listing
      order. A metrics key with fewer than four segments, or whose second to
      fourth segment holds no '=', raises IndexError. */
  function ListedDates(listing: seq<string>): (r: Result<seq<string>>)
    ensures r.Err? ==> r.error == IndexError
  {
    if listing == [] then Ok([])
    else
      var front := listing[..|listing| - 1];
      var last := listing[|listing| - 1];
      var dates :- ListedDates(front);
      if Contains(last, MetricsFile) then
        var d :- KeyDate(last);
        Ok(dates + [d])
      else Ok(dates)
  }

  /** The listed dates are read from the metrics keys one for one, in order, and
      the loop finishes exactly when every metrics key names a date. */
  lemma {:induction false} ListedDatesMeaning(listing: seq<string>)
    ensures var r := ListedDates(listing);
      (r.Ok? <==> forall k :: k in MetricsKeys(listing) ==> KeyDate(k).Ok?) &&
      (r.Ok? ==> (|r.value| == |MetricsKeys(listing)| &&
        forall i :: 0 <= i < |r.value| ==> KeyDate(MetricsKeys(listing)[i]) == Ok(r.value[i])))
  {
    if listing != [] {
      var front := listing[..|listing| - 1];
      var last := listing[|listing| - 1];
      ListedDatesMeaning(front);
      assert listing == front + [last];
      var keys, r := MetricsKeys(front), ListedDates(front);
      if r.Ok? && Contains(last, MetricsFile) && KeyDate(last).Ok? {
        var all := keys + [last];
        assert MetricsKeys(listing) == all;
        assert forall i :: 0 <= i < |keys| ==> all[i] == keys[i];
      }
    }
  }

  /** An IndexError on a prefix of the listing is an IndexError of the whole. */
  lemma {:induction false} ListedDatesPrefixErr(listing: seq<string>, i: nat)
    requires i <= |listing| && ListedDates(listing[..i]).Err?
    ensures ListedDates(listing).Err?
    decreases |listing| - i
  {
    if i < |listing| {
      var front := listing[..|listing| - 1];
      assert front[..i] == listing[..i];
      ListedDatesPrefixErr(front, i);
    } else {
      assert listing[..i] == listing;
    }
  }

  /** Python's `<=` on str. */
  predicate StrLe(a: string, b: string) {
    LexLe(a, b)
  }

  lemma StrLeOrder()
    ensures Sorting.TotalPreorder(StrLe) && Sorting.Antisymmetric(StrLe)
  {
    forall a, b ensures StrLe(a, b) || StrLe(b, a) {
      LexLessTotal(a, b);
    }
    forall a, b, c | StrLe(a, b) && StrLe(b, c) ensures StrLe(a, c) {
      if a != b && b != c {
        LexLessTransitive(a, b, c);
      }
    }
    forall a, b | StrLe(a, b) && StrLe(b, a) ensures a == b {
      if a != b {
        LexLessAsymmetric(a, b);
      }
    }
  }

  /** get_available_dates: sorted(dates), in string order, holding exactly the listed dates. */
  function AvailableDates(listing: seq<string>): (r: Result<seq<string>>)
    ensures r.Err? <==> ListedDates(listing).Err?
    ensures r.Err? ==> r.error == IndexError
    ensures r.Ok? ==> Sorting.Sorted(r.value, StrLe) && multiset(r.value) == multiset(ListedDates(listing).value)
  {
    var dates :- ListedDates(listing);
    StrLeOrder();
    Sorting.SortSorted(dates, StrLe);
    Ok(Sorting.Sort(dates, StrLe))
  }

  /** Python's sorted() returns the one arrangement of the dates in string
      order, and so does the model. */
  lemma AvailableDatesUnique(listing: seq<string>, other: seq<string>)
    requires ListedDates(listing).Ok?
    requires Sorting.Sorted(other, StrLe) && multiset(other) == multiset(ListedDates(listing).value)
    ensures AvailableDates(listing) == Ok(other)
  {
    StrLeOrder();
    Sorting.SortedUnique(AvailableDates(listing).value, other, StrLe);
  }

  method GetAvailableDates(listing: seq<string>) returns (r: Result<seq<string>>)
    ensures r == AvailableDates(listing)
  {
    var dates: seq<string> := [];
    for i := 0 to |listing|
      invariant ListedDates(listing[..i]) == Ok(dates)
    {
      var key := listing[i];
      assert listing[..i + 1][..i] == listing[..i] && listing[..i + 1][i] == key;
      if Contains(key, MetricsFile) {
        var d := KeyDate(key);
        if d.Err? {
          ListedDatesPrefixErr(listing, i + 1);
          return Err(d.error);
        }
        dates := dates + [d.value];
      }
    }
    assert listing[..|listing|] == listing;
    r := Ok(Sorting.Sort(dates, StrLe));
  }

  /** String order on canonical dates is calendar order, so the sorted dates run
      from the earliest day to the latest. */
  lemma SortedChronological(s: seq<string>)
    requires Sorting.Sorted(s, StrLe)
    requires forall i :: 0 <= i < |s| ==> Parse(s[i]).Some?
    ensures forall i, j :: 0 <= i < j < |s| ==>
      Parse(s[i]) == Parse(s[j]) || Before(Parse(s[i]).value, Parse(s[j]).value)
  {
    forall i, j | 0 <= i < j < |s|
      ensures Parse(s[i]) == Parse(s[j]) || Before(Parse(s[i]).value, Parse(s[j]).value)
    {
      assert StrLe(s[i], s[j]);
      if s[i] != s[j] {
        FormatParse(s[i]);
        FormatParse(s[j]);
        FormatOrder(Parse(s[i]).value, Parse(s[j]).value);
      }
    }
  }

  // ---------------------------------------------------------------- the listing of gold keys

  /** `name=value` splits at '=' into its two halves when neither holds '='. */
  lemma FieldSplit(name: string, v: string)
    requires '=' !in name && '=' !in v
    ensures Split(name + "=" + v, '=') == [name, v]
  {
    SplitCons(name, '=', v);
    SplitNoSep(v, '=');
  }

  /** The value of a `name=value` segment. */
  lemma FieldValueOf(parts: seq<string>, i: nat, name: string, v: string)
    requires i < |parts| && parts[i] == name + "=" + v
    requires '=' !in name && '=' !in v
    ensures FieldValue(parts, i) == Ok(v)
  {
    FieldSplit(name, v);
  }

  /** Every gold key holds "metrics.parquet". */
  lemma GoldKeyIsMetrics(date: string)
    requires Gold.GoldKey(date).Ok?
    ensures Contains(Gold.GoldKey(date).value, MetricsFile)
  {
    var (y, m, dd) := DateFields(date).value;
    var head := "gold/year=" + y + "/month=" + m + "/day=" + dd + "/";
    assert "/metrics.parquet" == "/" + MetricsFile;
    assert Gold.GoldKey(date).value == head + MetricsFile;
    ContainsSuffix(head, MetricsFile);
  }

  /** A key with the gold segments names the date of its three values. */
  lemma KeyDateOfSegments(key: string, y: string, m: string, dd: string)
    requires Split(key, '/') == ["gold", "year=" + y, "month=" + m, "day=" + dd, MetricsFile]
    requires '=' !in y && '=' !in m && '=' !in dd
    ensures KeyDate(key) == Ok(y + "-" + m + "-" + dd)
  {
    var parts := Split(key, '/');
    assert parts[1] == "year" + "=" + y;
    assert parts[2] == "month" + "=" + m;
    assert parts[3] == "day" + "=" + dd;
    FieldValueOf(parts, 1, "year", y);
    FieldValueOf(parts, 2, "month", m);
    FieldValueOf(parts, 3, "day", dd);
  }

  /** Round trip: the date read back from the gold key of a date is that date. */
  lemma KeyDateOfGoldKey(d: Date)
    requires Valid(d)
    ensures Gold.GoldKey(Format(d)).Ok?
    ensures Contains(Gold.GoldKey(Format(d)).value, MetricsFile)
    ensures KeyDate(Gold.GoldKey(Format(d)).value) == Ok(Format(d))
  {
    Gold.GoldKeySegments(d);
    FormattedFields(d);
    GoldKeyIsMetrics(Format(d));
    PadDigits(d.year, 4);
    PadDigits(d.month, 2);
    PadDigits(d.day, 2);
    KeyDateOfSegments(Gold.GoldKey(Format(d)).value, Pad(d.year, 4), Pad(d.month, 2), Pad(d.day, 2));
  }

  /** The gold partition key of a calendar date. */
  function GoldKeyOf(d: Date): (key: string)
    requires Valid(d)
    ensures Gold.GoldKey(Format(d)) == Ok(key)
  {
    FormattedFields(d);
    Gold.GoldKey(Format(d)).value
  }

  /** The gold keys of a list of calendar dates, in that order. */
  function GoldListing(ds: seq<Date>): (keys: seq<string>)
    requires forall i :: 0 <= i < |ds| ==> Valid(ds[i])
    ensures |keys| == |ds|
  {
    if ds == [] then []
    else GoldListing(ds[..|ds| - 1]) + [GoldKeyOf(ds[|ds| - 1])]
  }

  function FormatAll(ds: seq<Date>): (s: seq<string>)
    requires forall i :: 0 <= i < |ds| ==> Valid(ds[i])
    ensures |s| == |ds| && forall i :: 0 <= i < |ds| ==> s[i] == Format(ds[i])
  {
    if ds == [] then [] else FormatAll(ds[..|ds| - 1]) + [Format(ds[|ds| - 1])]
  }

  /** A listing of gold keys reads back as the formatted dates, in listing order. */
  lemma {:induction false} ListingRoundTrip(ds: seq<Date>)
    requires forall i :: 0 <= i < |ds| ==> Valid(ds[i])
    ensures ListedDates(GoldListing(ds)) == Ok(FormatAll(ds))
  {
    if ds != [] {
      var front := ds[..|ds| - 1];
      var last := ds[|ds| - 1];
      ListingRoundTrip(front);
      KeyDateOfGoldKey(last);
      var key := GoldKeyOf(last);
      ListedDatesSnoc(GoldListing(front), key, FormatAll(front), Format(last));
      assert GoldListing(ds) == GoldListing(front) + [key];
    }
  }

  lemma ListedDatesSnoc(listing: seq<string>, key: string, dates: seq<string>, date: string)
    requires ListedDates(listing) == Ok(dates)
    requires Contains(key, MetricsFile) && KeyDate(key) == Ok(date)
    ensures ListedDates(listing + [key]) == Ok(dates + [date])
  {
    assert (listing + [key])[..|listing|] == listing;
  }

  /** Every date listed from gold keys parses back to one of the listed calendar dates. */
  lemma ListedFromGold(ds: seq<Date>, i: nat)
    requires forall i :: 0 <= i < |ds| ==> Valid(ds[i])
    requires AvailableDates(GoldListing(ds)).Ok? && i < |AvailableDates(GoldListing(ds)).value|
    ensures var s := AvailableDates(GoldListing(ds)).value[i];
      Parse(s).Some? && Parse(s).value in ds
  {
    ListingRoundTrip(ds);
    var dates := AvailableDates(GoldListing(ds)).value;
    assert dates[i] in multiset(dates);
    var j :| 0 <= j < |ds| && FormatAll(ds)[j] == dates[i];
    ParseFormat(ds[j]);
  }

  // ---------------------------------------------------------------- the training features

  /** The retraining job needs ten listed dates: seven of history, one target and two of future. */
  const MinDates: nat := 10

  /** The listed dates the feature loop builds: those with seven listed dates
      before them and two after (the two `continue`s of the loop). */
  predicate InWindow(n: nat, i: nat) {
    7 <= i && i + 2 < n
  }

  /** df["date"] = date_str: every row of a feature table stamped with the target date. */
  function WithDate(rows: seq<FeatureRow>, date: string): seq<FeatureRow> {
    seq(|rows|, k requires 0 <= k < |rows| =>
      rows[k].(joined := rows[k].joined.(gold := rows[k].joined.gold.(date := date))))
  }

  /** build_features(date_str) for each listed date: the rows, or the exception it raises. */
  function Builds(objects: map<string, Blob>, dates: seq<string>): (b: seq<Result<seq<FeatureRow>>>)
    ensures |b| == |dates|
  {
    seq(|dates|, i requires 0 <= i < |dates| => Features.Features(objects, dates[i]))
  }

  /** all_features after the loop's first n dates, given each date's build:
      the date-stamped tables of the window dates that build; a date whose
      build raises is skipped. */
  function Stamped(built: seq<Result<seq<FeatureRow>>>, dates: seq<string>, n: nat): (tables: seq<seq<FeatureRow>>)
    requires n <= |built| == |dates|
    ensures |tables| <= n
  {
    if n == 0 then []
    else
      var front := Stamped(built, dates, n - 1);
      if !InWindow(|dates|, n - 1) || built[n - 1].Err? then front
      else front + [WithDate(built[n - 1].value, dates[n - 1])]
  }

  /** Every training table is the stamped table of a window date that builds. */
  lemma {:induction false} StampedFrom(built: seq<Result<seq<FeatureRow>>>, dates: seq<string>, n: nat, x: seq<FeatureRow>)
    requires n <= |built| == |dates| && x in Stamped(built, dates, n)
    ensures exists i :: 0 <= i < n && InWindow(|dates|, i) && built[i].Ok? && x == WithDate(built[i].value, dates[i])
  {
    var front := Stamped(built, dates, n - 1);
    if x in front {
      StampedFrom(built, dates, n - 1, x);
      var i :| 0 <= i < n - 1 && InWindow(|dates|, i) && built[i].Ok? && x == WithDate(built[i].value, dates[i]);
    } else {
      assert x == WithDate(built[n - 1].value, dates[n - 1]);
    }
  }

  /** Every window date that builds contributes its stamped table. */
  lemma {:induction false} StampedKeep(built: seq<Result<seq<FeatureRow>>>, dates: seq<string>, n: nat, i: nat)
    requires n <= |built| == |dates| && i < n && InWindow(|dates|, i) && built[i].Ok?
    ensures WithDate(built[i].value, dates[i]) in Stamped(built, dates, n)
  {
    if i < n - 1 {
      StampedKeep(built, dates, n - 1, i);
    }
  }

  /** The loop's tables are those of the window dates whose features build. */
  function TrainingTables(objects: map<string, Blob>, dates: seq<string>): seq<seq<FeatureRow>> {
    Stamped(Builds(objects, dates), dates, |dates|)
  }

  /** A table is in all_features exactly when it is the stamped feature table of a window date. */
  lemma TrainingTablesMeaning(objects: map<string, Blob>, dates: seq<string>, x: seq<FeatureRow>)
    ensures x in TrainingTables(objects, dates) <==>
      exists i :: 0 <= i < |dates| && InWindow(|dates|, i) && Features.Features(objects, dates[i]).Ok? &&
        x == WithDate(Features.Features(objects, dates[i]).value, dates[i])
  {
    var built := Builds(objects, dates);
    if x in TrainingTables(objects, dates) {
      StampedFrom(built, dates, |dates|, x);
      var i :| 0 <= i < |dates| && InWindow(|dates|, i) && built[i].Ok? && x == WithDate(built[i].value, dates[i]);
      assert built[i] == Features.Features(objects, dates[i]);
    }
    if exists i :: 0 <= i < |dates| && InWindow(|dates|, i) && Features.Features(objects, dates[i]).Ok? &&
        x == WithDate(Features.Features(objects, dates[i]).value, dates[i]) {
      var i :| 0 <= i < |dates| && InWindow(|dates|, i) && Features.Features(objects, dates[i]).Ok? &&
        x == WithDate(Features.Features(objects, dates[i]).value, dates[i]);
      assert built[i] == Features.Features(objects, dates[i]);
      StampedKeep(built, dates, |dates|, i);
    }
  }

  /** The feature loop of retrain(). */
  method BuildTrainingFeatures(store: ObjectStore, dates: seq<string>) returns (tables: seq<seq<FeatureRow>>)
    ensures tables == TrainingTables(store.objects, dates)
  {
    ghost var built := Builds(store.objects, dates);
    tables := [];
    for i := 0 to |dates|
      invariant tables == Stamped(built, dates, i)
    {
      if i < 7 {
        continue;
      }
      if i >= |dates| - 2 {
        continue;
      }
      var df := Features.BuildFeatures(store, dates[i]);
      assert df == built[i];
      if df.Ok? {
        tables := tables + [WithDate(df.value, dates[i])];
      }
    }
  }

  // ---------------------------------------------------------------- the viral labels

  /** A training row: the feature row and its viral label. */
  datatype ViralRow = ViralRow(features: FeatureRow, viral: nat)

  /** retrain.py's add_labels_vectorized: the future days are the listed dates
      that load (ValueError when none does), a merge key with two future rows
      raises ValueError, and each row gets only the viral label. */
  function AddViralLabels(objects: map<string, Blob>, features: seq<FeatureRow>, dates: seq<string>): (r: Result<seq<ViralRow>>)
    ensures Labels.AllFuture(Labels.FutureDays(objects, dates)).Err? ==> r == Err(Labels.AllFuture(Labels.FutureDays(objects, dates)).error)
    ensures Labels.AllFuture(Labels.FutureDays(objects, dates)).Ok? && r.Err? ==> r.error == ValueError
    ensures r.Ok? ==> |r.value| == |features| && forall i :: 0 <= i < |features| ==>
      r.value[i].features == features[i] && r.value[i].viral <= 1
  {
    var future :- Labels.AllFuture(Labels.FutureDays(objects, dates));
    if !Labels.AllShift(features) then Err(ValueError)
    else if !Labels.MergesAligned(future, features) then Err(ValueError)
    else Ok(seq(|features|, i requires 0 <= i < |features| =>
      ViralLabel(features[i], Labels.FutureStars(future, features[i], Labels.NextTwo(features[i].joined.gold.date).value))))
  }

  /** `(df["future_stars"] >= 20).astype(int)` on one row. */
  function ViralLabel(row: FeatureRow, futureStars: nat): (v: ViralRow)
    ensures v.features == row
    ensures v.viral == 1 <==> futureStars >= 20
    ensures v.viral <= 1
  {
    ViralRow(row, if futureStars >= 20 then 1 else 0)
  }

  /** Over the same dates, the retraining labels are the daily labels without
      the trending column: the same errors, rows and viral values. */
  lemma ViralAgreesWithLabels(objects: map<string, Blob>, features: seq<FeatureRow>, dates: seq<string>)
    ensures var v, l := AddViralLabels(objects, features, dates), Labels.AddLabels(objects, features, dates);
      (v.Err? <==> l.Err?) && (v.Err? ==> v.error == l.error) &&
      (v.Ok? ==> (|v.value| == |l.value| &&
        forall i :: 0 <= i < |v.value| ==> v.value[i].features == l.value[i].features && v.value[i].viral == l.value[i].viral))
  {
  }

  /** The viral rule over the gold tables: with S a row's stars on the two
      days after its date (each from that day's gold table when listed, else
      0), the row is viral iff S >= 20. */
  lemma ViralRule(objects: map<string, Blob>, features: seq<FeatureRow>, dates: seq<string>, i: nat)
    requires Labels.Distinct(dates) && AddViralLabels(objects, features, dates).Ok? && i < |features|
    ensures var out := AddViralLabels(objects, features, dates).value;
      var row := features[i];
      var id := row.joined.gold.metrics.repoId;
      var days := Labels.NextTwo(row.joined.gold.date).value;
      var s := Labels.ListedStars(objects, dates, days.0, id) + Labels.ListedStars(objects, dates, days.1, id);
      |out| == |features| && out[i].features == row && (out[i].viral == 1 <==> s >= 20)
  {
    ViralAgreesWithLabels(objects, features, dates);
    Labels.LabelRules(objects, features, dates, i);
  }

  /** A date listed twice (two keys naming one day, say ".../metrics.parquet"
      and ".../metrics.parquet.bak") loads that day twice; a row whose next day
      it is, for a repository the day holds, then raises ValueError. */
  lemma RepeatedListedDateFails(objects: map<string, Blob>, features: seq<FeatureRow>, dates: seq<string>, i: nat, j: nat, k: nat)
    requires i < j < |dates| && dates[i] == dates[j]
    requires Labels.AllShift(features) && k < |features|
    requires Labels.NextTwo(features[k].joined.gold.date).value.0 == dates[i]
    requires Features.LoadGoldDay(objects, dates[i]).Ok?
    requires Features.HasRepo(Features.LoadGoldDay(objects, dates[i]).value, features[k].joined.gold.metrics.repoId)
    ensures AddViralLabels(objects, features, dates) == Err(ValueError)
  {
    Labels.RepeatedDateFails(objects, features, dates, i, j, k);
    ViralAgreesWithLabels(objects, features, dates);
  }

  method AddViralLabelsVectorized(store: ObjectStore, features: seq<FeatureRow>, dates: seq<string>) returns (r: Result<seq<ViralRow>>)
    ensures r == AddViralLabels(store.objects, features, dates)
  {
    var days := Labels.LoadFutureDays(store, dates);
    var future := Labels.AllFuture(days);
    if future.Err? {
      return Err(future.error);
    }
    if !Labels.AllShift(features) {
      return Err(ValueError);
    }
    var f := future.value;
    if !Labels.MergesAligned(f, features) {
      return Err(ValueError);
    }
    r := Ok(seq(|features|, i requires 0 <= i < |features| =>
      ViralLabel(features[i], Labels.FutureStars(f, features[i], Labels.NextTwo(features[i].joined.gold.date).value))));
  }

  // ---------------------------------------------------------------- keeping the better model

  datatype Decision = KeepOld | SaveNew

  /** old_f1: the saved model's F1 on the new test split, 0 when loading or scoring it raised. */
  function OldScore(oldF1: Option<real>): real {
    if oldF1.Some? then oldF1.value else 0.0
  }

  /** `if new_f1 > old_f1`: the new model and scaler are saved together, or neither. */
  function Decide(newF1: real, oldF1: Option<real>): (d: Decision)
    ensures oldF1.None? ==> (d == SaveNew <==> newF1 > 0.0)
    ensures oldF1.Some? ==> (d == SaveNew <==> newF1 > oldF1.value)
  {
    if newF1 > OldScore(oldF1) then SaveNew else KeepOld
  }

  /** The F1 of the pair saved after the decision. */
  function SavedScore(newF1: real, oldF1: Option<real>): real {
    if Decide(newF1, oldF1) == SaveNew then newF1 else OldScore(oldF1)
  }

  /** The saved pair is the better of the two, and a tie keeps the old one. */
  lemma DecideKeepsBest(newF1: real, oldF1: Option<real>)
    ensures SavedScore(newF1, oldF1) >= newF1 && SavedScore(newF1, oldF1) >= OldScore(oldF1)
    ensures SavedScore(newF1, oldF1) == newF1 || SavedScore(newF1, oldF1) == OldScore(oldF1)
    ensures newF1 == OldScore(oldF1) ==> Decide(newF1, oldF1) == KeepOld
  {
  }

  /** With no saved model, a new model scoring 0 is not saved either. */
  lemma ZeroScoreSavesNothing()
    ensures Decide(0.0, None) == KeepOld
  {
  }

  // ---------------------------------------------------------------- delete_old_month

  /** The key the cleanup rebuilds from a listed date; unpacking a date that
      does not split into three fields raises ValueError. */
  function CleanupKey(date: string): (r: Result<string>)
    ensures r.Ok? ==> IsPrefix("gold/", r.value)
  {
    var fields :- DateFields(date);
    var (year, month, day) := fields;
    Ok("gold/year=" + year + "/month=" + month + "/day=" + day + "/metrics.parquet")
  }

  /** It is the gold stage's key. */
  lemma CleanupKeyIsGoldKey(date: string)
    ensures CleanupKey(date) == Gold.GoldKey(date)
  {
  }

  /** The cleanup loop over the first n dates: the keys delete_object is called
      with, in order, and whether the loop got through. A date of the current
      month is skipped; a ValueError from the unpacking ends the loop. */
  function CleanupCalls(dates: seq<string>, month: string, n: nat): (c: (seq<string>, Result<()>))
    requires n <= |dates|
    ensures |c.0| <= n
    ensures c.1.Err? ==> c.1.error == ValueError
  {
    if n == 0 then ([], Ok(()))
    else
      var (keys, r) := CleanupCalls(dates, month, n - 1);
      var d := dates[n - 1];
      if r.Err? || IsPrefix(month, d) then (keys, r)
      else match CleanupKey(d)
        case Err(e) => (keys, Err(e))
        case Ok(key) => (keys + [key], Ok(()))
  }

  /** The cleanup only ever deletes keys of the gold layer. */
  lemma {:induction false} CleanupDeletesGold(dates: seq<string>, month: string, n: nat)
    requires n <= |dates|
    ensures forall i :: 0 <= i < |CleanupCalls(dates, month, n).0| ==> IsPrefix("gold/", CleanupCalls(dates, month, n).0[i])
  {
    if n > 0 {
      CleanupDeletesGold(dates, month, n - 1);
    }
  }

  /** One iteration more of the cleanup loop. */
  lemma CleanupStep(dates: seq<string>, month: string, i: nat, keys: seq<string>)
    requires i < |dates| && CleanupCalls(dates, month, i) == (keys, Ok(()))
    ensures CleanupCalls(dates, month, i + 1) ==
      if IsPrefix(month, dates[i]) then (keys, Ok(()))
      else match CleanupKey(dates[i])
        case Err(e) => (keys, Err(e))
        case Ok(key) => (keys + [key], Ok(()))
  {
  }

  lemma {:induction false} CleanupErrStays(dates: seq<string>, month: string, i: nat, n: nat)
    requires i <= n <= |dates| && CleanupCalls(dates, month, i).1.Err?
    ensures CleanupCalls(dates, month, n) == CleanupCalls(dates, month, i)
    decreases n - i
  {
    if i < n {
      CleanupErrStays(dates, month, i, n - 1);
    }
  }

  /** When every listed date splits into three fields the loop gets through,
      and it deletes exactly the keys of the dates outside the current month. */
  lemma {:induction false} CleanupDeletes(dates: seq<string>, month: string, n: nat, k: string)
    requires n <= |dates|
    requires forall i :: 0 <= i < |dates| ==> DateFields(dates[i]).Ok?
    ensures CleanupCalls(dates, month, n).1.Ok?
    ensures k in CleanupCalls(dates, month, n).0 <==>
      exists i :: 0 <= i < n && !IsPrefix(month, dates[i]) && CleanupKey(dates[i]) == Ok(k)
  {
    if n > 0 {
      CleanupDeletes(dates, month, n - 1, k);
      var d := dates[n - 1];
      if !IsPrefix(month, d) && CleanupKey(d) == Ok(k) {
        assert k in CleanupCalls(dates, month, n).0;
      }
    }
  }

  /** The gold partition of a day in the current month survives the cleanup:
      it is neither removed nor changed. */
  lemma CleanupKeepsMonth(objects: map<string, Blob>, rejected: set<string>, dates: seq<string>, now: Date, d: Date)
    requires Valid(now) && Valid(d) && d.year == now.year && d.month == now.month
    requires forall i :: 0 <= i < |dates| ==> Parse(dates[i]).Some?
    ensures var key := GoldKeyOf(d);
      var m := Orchestration.RemoveKeys(objects, CleanupCalls(dates, FormatMonth(now), |dates|).0, rejected);
      (key in m <==> key in objects) && (key in m ==> m[key] == objects[key])
  {
    var key := GoldKeyOf(d);
    var month := FormatMonth(now);
    forall i | 0 <= i < |dates| ensures DateFields(dates[i]).Ok? {
      FormatParse(dates[i]);
      FormattedFields(Parse(dates[i]).value);
    }
    CleanupDeletes(dates, month, |dates|, key);
    if exists i :: 0 <= i < |dates| && !IsPrefix(month, dates[i]) && CleanupKey(dates[i]) == Ok(key) {
      var i :| 0 <= i < |dates| && !IsPrefix(month, dates[i]) && CleanupKey(dates[i]) == Ok(key);
      var p := Parse(dates[i]).value;
      FormatParse(dates[i]);
      CleanupKeyIsGoldKey(dates[i]);
      Gold.GoldKeyInjective(p, d);
      SameMonth(now, d);
      assert false;
    }
    Orchestration.RemoveKeysEffect(objects, CleanupCalls(dates, month, |dates|).0, rejected, key);
  }

  /** The gold partition of a listed day in another month is gone after the
      cleanup, unless the store refuses the delete. */
  lemma CleanupRemovesOldMonths(objects: map<string, Blob>, rejected: set<string>, dates: seq<string>, now: Date, p: Date)
    requires Valid(now) && Valid(p) && Format(p) in dates
    requires forall i :: 0 <= i < |dates| ==> Parse(dates[i]).Some?
    requires p.year != now.year || p.month != now.month
    requires GoldKeyOf(p) !in rejected
    ensures GoldKeyOf(p) !in Orchestration.RemoveKeys(objects, CleanupCalls(dates, FormatMonth(now), |dates|).0, rejected)
  {
    forall j | 0 <= j < |dates| ensures DateFields(dates[j]).Ok? {
      FormatParse(dates[j]);
      FormattedFields(Parse(dates[j]).value);
    }
    var key := GoldKeyOf(p);
    var month := FormatMonth(now);
    var i :| 0 <= i < |dates| && dates[i] == Format(p);
    SameMonth(now, p);
    CleanupKeyIsGoldKey(dates[i]);
    CleanupDeletes(dates, month, |dates|, key);
    Orchestration.RemoveKeysEffect(objects, CleanupCalls(dates, month, |dates|).0, rejected, key);
  }

  /** The loop of delete_old_month: each date outside the month has its gold key deleted. */
  method DeleteOutsideMonth(store: ObjectStore, dates: seq<string>, month: string) returns (r: Result<()>)
    modifies store
    ensures r == CleanupCalls(dates, month, |dates|).1
    ensures store.objects == Orchestration.RemoveKeys(old(store.objects), CleanupCalls(dates, month, |dates|).0, store.rejected)
    ensures store.journal == old(store.journal) + Orchestration.RemovalLog(CleanupCalls(dates, month, |dates|).0, store.rejected)
  {
    ghost var keys: seq<string> := [];
    for i := 0 to |dates|
      invariant CleanupCalls(dates, month, i) == (keys, Ok(()))
      invariant store.objects == Orchestration.RemoveKeys(old(store.objects), keys, store.rejected)
      invariant store.journal == old(store.journal) + Orchestration.RemovalLog(keys, store.rejected)
    {
      var d := dates[i];
      CleanupStep(dates, month, i, keys);
      if !IsPrefix(month, d) {
        var key := CleanupKey(d);
        if key.Err? {
          CleanupErrStays(dates, month, i + 1, |dates|);
          return Err(key.error);
        }
        store.Delete(key.value);
        Orchestration.RemoveKeysSnoc(old(store.objects), keys, key.value, store.rejected);
        keys := keys + [key.value];
      }
    }
    r := Ok(());
  }

  /** delete_old_month; the current month is FormatMonth(now), the clock a parameter. */
  method DeleteOldMonth(store: ObjectStore, dates: seq<string>, now: Date) returns (r: Result<()>)
    requires Valid(now)
    modifies store
    ensures r == CleanupCalls(dates, FormatMonth(now), |dates|).1
    ensures store.objects == Orchestration.RemoveKeys(old(store.objects), CleanupCalls(dates, FormatMonth(now), |dates|).0, store.rejected)
    ensures store.journal == old(store.journal) + Orchestration.RemovalLog(CleanupCalls(dates, FormatMonth(now), |dates|).0, store.rejected)
  {
    r := DeleteOutsideMonth(store, dates, FormatMonth(now));
  }

  // ---------------------------------------------------------------- retrain()

  /** The steps before the model comparison: the listing, the date checks (an
      empty list raises IndexError where the first date is read, fewer than ten
      dates ValueError), the training features (ValueError when none builds),
      the labels and the training; on success, the dates and the new model's F1.
      Sampling, scaling, fitting and scoring are the opaque `train`. */
  function Prepare(objects: map<string, Blob>, listing: seq<string>, train: seq<ViralRow> -> Result<real>): (r: Result<(seq<string>, real)>)
    ensures r.Ok? ==> AvailableDates(listing) == Ok(r.value.0) && |r.value.0| >= MinDates
  {
    var dates :- AvailableDates(listing);
    if |dates| == 0 then Err(IndexError)
    else if |dates| < MinDates then Err(ValueError)
    else
      var tables := TrainingTables(objects, dates);
      if tables == [] then Err(ValueError)
      else
        var labelled :- AddViralLabels(objects, Features.Concat(tables), dates);
        var f1 :- train(labelled);
        Ok((dates, f1))
  }

  /** How a retrain run ends, the model decision it took, and the keys it asked the store to delete. */
  datatype Outcome = Outcome(result: Result<()>, decision: Option<Decision>, deleted: seq<string>)

  function RetrainRun(objects: map<string, Blob>, listing: seq<string>, now: Date,
                      train: seq<ViralRow> -> Result<real>, oldF1: Option<real>): (out: Outcome)
    requires Valid(now)
    ensures out.decision.None? <==> Prepare(objects, listing, train).Err?
    ensures out.decision.None? ==> out.result == Err(Prepare(objects, listing, train).error) && out.deleted == []
    ensures forall i :: 0 <= i < |out.deleted| ==> IsPrefix("gold/", out.deleted[i])
  {
    match Prepare(objects, listing, train)
    case Err(e) => Outcome(Err(e), None, [])
    case Ok((dates, f1)) =>
      CleanupDeletesGold(dates, FormatMonth(now), |dates|);
      var (keys, r) := CleanupCalls(dates, FormatMonth(now), |dates|);
      Outcome(r, Some(Decide(f1, oldF1)), keys)
  }

  /** Nothing is deleted before a model decision was taken, and a run that
      fails before it leaves the store as it was. */
  lemma DeletesOnlyAfterDecision(objects: map<string, Blob>, rejected: set<string>, listing: seq<string>, now: Date,
                                 train: seq<ViralRow> -> Result<real>, oldF1: Option<real>)
    requires Valid(now)
    ensures var out := RetrainRun(objects, listing, now, train, oldF1);
      (out.decision.None? ==> out.result.Err? && Orchestration.RemoveKeys(objects, out.deleted, rejected) == objects) &&
      (out.deleted != [] ==> out.decision.Some?)
  {
  }

  /** Fewer than ten listed dates end the run before any features are built. */
  lemma TooFewDates(objects: map<string, Blob>, listing: seq<string>, now: Date,
                    train: seq<ViralRow> -> Result<real>, oldF1: Option<real>)
    requires Valid(now) && ListedDates(listing).Ok? && |ListedDates(listing).value| < MinDates
    ensures var out := RetrainRun(objects, listing, now, train, oldF1);
      out.decision.None? && out.deleted == [] &&
      out.result == Err(if ListedDates(listing).value == [] then IndexError else ValueError)
  {
    var ds := ListedDates(listing).value;
    var sorted := AvailableDates(listing).value;
    assert |sorted| == |multiset(sorted)| == |multiset(ds)| == |ds|;
  }

  /** On a store whose gold listing holds the keys of calendar dates, a retrain
      run never removes or changes a gold partition of the current month. */
  lemma RetrainKeepsCurrentMonth(objects: map<string, Blob>, rejected: set<string>, ds: seq<Date>, now: Date,
                                 train: seq<ViralRow> -> Result<real>, oldF1: Option<real>, d: Date)
    requires forall i :: 0 <= i < |ds| ==> Valid(ds[i])
    requires Valid(now) && Valid(d) && d.year == now.year && d.month == now.month
    ensures var out := RetrainRun(objects, GoldListing(ds), now, train, oldF1);
      var key := GoldKeyOf(d);
      var m := Orchestration.RemoveKeys(objects, out.deleted, rejected);
      (key in m <==> key in objects) && (key in m ==> m[key] == objects[key])
  {
    var p := Prepare(objects, GoldListing(ds), train);
    if p.Ok? {
      var dates := p.value.0;
      ListingRoundTrip(ds);
      forall i | 0 <= i < |dates| ensures Parse(dates[i]).Some? {
        ListedFromGold(ds, i);
      }
      CleanupKeepsMonth(objects, rejected, dates, now, d);
    }
  }

  /** ... and once training succeeded, it asks the store to delete the gold
      partition of every listed day of another month. */
  lemma RetrainRemovesOldMonths(objects: map<string, Blob>, rejected: set<string>, ds: seq<Date>, now: Date,
                                train: seq<ViralRow> -> Result<real>, oldF1: Option<real>, j: nat)
    requires forall i :: 0 <= i < |ds| ==> Valid(ds[i])
    requires Valid(now) && j < |ds| && (ds[j].year != now.year || ds[j].month != now.month)
    requires GoldKeyOf(ds[j]) !in rejected && Prepare(objects, GoldListing(ds), train).Ok?
    ensures GoldKeyOf(ds[j]) !in Orchestration.RemoveKeys(objects, RetrainRun(objects, GoldListing(ds), now, train, oldF1).deleted, rejected)
  {
    var dates := Prepare(objects, GoldListing(ds), train).value.0;
    ListingRoundTrip(ds);
    forall i | 0 <= i < |dates| ensures Parse(dates[i]).Some? {
      ListedFromGold(ds, i);
    }
    assert FormatAll(ds)[j] == Format(ds[j]);
    assert Format(ds[j]) in multiset(dates);
    CleanupRemovesOldMonths(objects, rejected, dates, now, ds[j]);
  }

  /** retrain() up to the training: the store is only read. */
  method PrepareTraining(store: ObjectStore, listing: seq<string>, train: seq<ViralRow> -> Result<real>)
    returns (r: Result<(seq<string>, real)>)
    ensures r == Prepare(store.objects, listing, train)
  {
    var dates := GetAvailableDates(listing);
    if dates.Err? {
      return Err(dates.error);
    }
    var available := dates.value;
    if |available| == 0 {
      return Err(IndexError);
    }
    if |available| < MinDates {
      return Err(ValueError);
    }
    var tables := BuildTrainingFeatures(store, available);
    if tables == [] {
      return Err(ValueError);
    }
    var labelled := AddViralLabelsVectorized(store, Features.Concat(tables), available);
    if labelled.Err? {
      return Err(labelled.error);
    }
    var f1 := train(labelled.value);
    if f1.Err? {
      return Err(f1.error);
    }
    r := Ok((available, f1.value));
  }

  /** retrain(): the model files are outside the store, so the method returns
      the decision; the clock, the listing and the training are parameters. */
  method RunRetrain(store: ObjectStore, listing: seq<string>, now: Date,
                    train: seq<ViralRow> -> Result<real>, oldF1: Option<real>)
    returns (result: Result<()>, decision: Option<Decision>)
    requires Valid(now)
    modifies store
    ensures var out := RetrainRun(old(store.objects), listing, now, train, oldF1);
      result == out.result && decision == out.decision &&
      store.objects == Orchestration.RemoveKeys(old(store.objects), out.deleted, store.rejected) &&
      store.journal == old(store.journal) + Orchestration.RemovalLog(out.deleted, store.rejected)
  {
    var prepared := PrepareTraining(store, listing, train);
    if prepared.Err? {
      return Err(prepared.error), None;
    }
    var (dates, f1) := prepared.value;
    decision := Some(Decide(f1, oldF1));
    result := DeleteOldMonth(store, dates, now);
  }
}
