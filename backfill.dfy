/** The multi-day backfill (ingest/backfill.py): fetch, silver, drop bronze,
    for 2025-12-03 .. 2025-12-18; the gold stage is never run. */
module Backfill {
  import opened Wrappers
  import opened Text
  import opened Dates
  import opened Tables
  import opened Store
  import opened Partitions
  import opened Bronze
  import Silver
  import opened Orchestration

  /** Line 20 on the fetched store: the silver write. */
  function SilverWritten(fetched: map<string, Blob>, rejected: set<string>, codecs: Silver.Codecs, ds: string): Run
    requires DateFields(ds).Ok?
  {
    var sk := Silver.SilverKey(ds).value;
    if sk in rejected then Run(Err(WriteRejected(sk)), fetched, [], [])
    else Run(Ok(()), fetched[sk := SilverBlob(Silver.SilverTable(fetched, codecs, ds))], [Wrote(sk)], [])
  }

  /** Lines 20-21: the silver write, then the bronze deletion; a failed silver
      write escapes and ends the backfill. */
  function SilverThenDrop(fetched: map<string, Blob>, rejected: set<string>, codecs: Silver.Codecs, ds: string): Run
    requires DateFields(ds).Ok?
  {
    var w := SilverWritten(fetched, rejected, codecs, ds);
    if w.result.Err? then w
    else
      var keys := BronzeDayKeys(ds);
      Run(Ok(()), RemoveKeys(w.objects, keys, rejected), w.log + RemovalLog(keys, rejected), [])
  }

  /** One date of the backfill loop. */
  function BackfillDay(objects: map<string, Blob>, respond: string -> Response, rejected: set<string>, codecs: Silver.Codecs, d: Date): (run: Run)
    requires Valid(d)
    ensures |run.urls| == HoursPerDay && forall h :: 0 <= h < HoursPerDay ==> run.urls[h] == DownloadUrl(Format(d), h)
    ensures Silver.SilverKey(Format(d)).Ok?
    ensures run.result.Err? ==> run.result == Err(WriteRejected(Silver.SilverKey(Format(d)).value))
  {
    FormattedFields(d);
    var f := FetchHours(objects, respond, rejected, Format(d), HoursPerDay);
    var s := SilverThenDrop(f.objects, rejected, codecs, Format(d));
    Run(s.result, s.objects, f.log + s.log, f.urls)
  }

  /** The backfill over `dates` in order, stopping at the first escaped exception. */
  function BackfillRun(objects: map<string, Blob>, respond: string -> Response, rejected: set<string>, codecs: Silver.Codecs, dates: seq<ValidDate>): (run: Run)
    ensures run.result.Ok? ==> |run.urls| == HoursPerDay * |dates|
  {
    if dates == [] then Run(Ok(()), objects, [], [])
    else
      var p := BackfillRun(objects, respond, rejected, codecs, dates[..|dates| - 1]);
      if p.result.Err? then p
      else
        var q := BackfillDay(p.objects, respond, rejected, codecs, dates[|dates| - 1]);
        Run(q.result, q.objects, p.log + q.log, p.urls + q.urls)
  }

  /** start_date .. end_date inclusive. */
  function BackfillDates(): (dates: seq<ValidDate>)
    ensures |dates| == 16
    ensures forall i :: 0 <= i < 16 ==> dates[i] == Date(2025, 12, i + 3) && Valid(dates[i])
  {
    seq(16, i requires 0 <= i < 16 => Date(2025, 12, i + 3))
  }

  method WriteSilver(store: ObjectStore, codecs: Silver.Codecs, ds: string) returns (r: Result<()>)
    requires DateFields(ds).Ok?
    modifies store
    ensures r == SilverWritten(old(store.objects), store.rejected, codecs, ds).result
    ensures store.objects == SilverWritten(old(store.objects), store.rejected, codecs, ds).objects
    ensures store.journal == old(store.journal) + SilverWritten(old(store.objects), store.rejected, codecs, ds).log
  {
    var s := Silver.ProcessDayToSilver(store, codecs, ds);
    r := if s.Err? then Err(s.error) else Ok(());
  }

  method SilverAndDrop(store: ObjectStore, codecs: Silver.Codecs, ds: string) returns (r: Result<()>)
    requires DateFields(ds).Ok?
    modifies store
    ensures r == SilverThenDrop(old(store.objects), store.rejected, codecs, ds).result
    ensures store.objects == SilverThenDrop(old(store.objects), store.rejected, codecs, ds).objects
    ensures store.journal == old(store.journal) + SilverThenDrop(old(store.objects), store.rejected, codecs, ds).log
  {
    ghost var w := SilverWritten(store.objects, store.rejected, codecs, ds);
    ghost var t := SilverThenDrop(store.objects, store.rejected, codecs, ds);
    r := WriteSilver(store, codecs, ds);
    if r.Err? {
      assert t == w;
      return;
    }
    ghost var keys := BronzeDayKeys(ds);
    assert t == Run(Ok(()), RemoveKeys(w.objects, keys, store.rejected), w.log + RemovalLog(keys, store.rejected), []);
    ghost var written, log1 := store.objects, store.journal;
    assert written == w.objects && log1 == old(store.journal) + w.log;
    DropBronze(store, ds);
    Regroup3(old(store.journal), w.log, RemovalLog(keys, store.rejected));
  }

  method DropBronze(store: ObjectStore, ds: string)
    requires DateFields(ds).Ok?
    modifies store
    ensures store.objects == RemoveKeys(old(store.objects), BronzeDayKeys(ds), store.rejected)
    ensures store.journal == old(store.journal) + RemovalLog(BronzeDayKeys(ds), store.rejected)
  {
    var _ := RemoveBronzeDay(store, ds);
  }

  method BackfillOneDay(store: ObjectStore, archive: Archive, codecs: Silver.Codecs, d: Date) returns (r: Result<()>)
    requires Valid(d)
    modifies store, archive
    ensures r == BackfillDay(old(store.objects), archive.respond, store.rejected, codecs, d).result
    ensures store.objects == BackfillDay(old(store.objects), archive.respond, store.rejected, codecs, d).objects
    ensures store.journal == old(store.journal) + BackfillDay(old(store.objects), archive.respond, store.rejected, codecs, d).log
    ensures archive.requested == old(archive.requested) + BackfillDay(old(store.objects), archive.respond, store.rejected, codecs, d).urls
  {
    var ds := Format(d);
    FormattedFields(d);
    ghost var f := FetchHours(store.objects, archive.respond, store.rejected, ds, HoursPerDay);
    FetchDay(store, archive, ds);
    ghost var log1 := store.journal;
    r := SilverAndDrop(store, codecs, ds);
    ghost var s := SilverThenDrop(f.objects, store.rejected, codecs, ds);
    assert log1 == old(store.journal) + f.log;
    assert store.journal == log1 + s.log;
    Regroup3(old(store.journal), f.log, s.log);
  }

  lemma Regroup3<T>(a: seq<T>, b: seq<T>, c: seq<T>)
    ensures a + (b + c) == a + b + c
  {
  }

  /** Extending a run that has not stopped by one date runs that date on its store. */
  lemma BackfillRunSnoc(objects: map<string, Blob>, respond: string -> Response, rejected: set<string>, codecs: Silver.Codecs, dates: seq<ValidDate>, d: ValidDate)
    requires BackfillRun(objects, respond, rejected, codecs, dates).result.Ok?
    ensures var p := BackfillRun(objects, respond, rejected, codecs, dates);
      var q := BackfillDay(p.objects, respond, rejected, codecs, d);
      BackfillRun(objects, respond, rejected, codecs, dates + [d]) == Run(q.result, q.objects, p.log + q.log, p.urls + q.urls)
  {
    assert (dates + [d])[..|dates|] == dates;
  }

  lemma DatesPrefix(k: nat)
    requires k < 16
    ensures BackfillDates()[..k] + [Date(2025, 12, k + 3)] == BackfillDates()[..k + 1]
  {
  }

  lemma PrefixOfPrefix<T>(s: seq<T>, n: nat, k: nat)
    requires k <= n <= |s|
    ensures s[..n][..k] == s[..k]
  {
  }

  /** A run that has stopped stays stopped: later dates change nothing. */
  lemma {:induction false} BackfillStops(objects: map<string, Blob>, respond: string -> Response, rejected: set<string>, codecs: Silver.Codecs, dates: seq<ValidDate>, k: nat)
    requires k <= |dates|
    requires BackfillRun(objects, respond, rejected, codecs, dates[..k]).result.Err?
    ensures BackfillRun(objects, respond, rejected, codecs, dates) == BackfillRun(objects, respond, rejected, codecs, dates[..k])
    decreases |dates|
  {
    if k < |dates| {
      var front := dates[..|dates| - 1];
      assert front[..k] == dates[..k];
      BackfillStops(objects, respond, rejected, codecs, front, k);
    } else {
      assert dates[..k] == dates;
    }
  }

  /** One iteration of the date loop, stated against the run so far. */
  method BackfillStep(store: ObjectStore, archive: Archive, codecs: Silver.Codecs, ghost o0: map<string, Blob>,
                      ghost j0: seq<Action>, ghost u0: seq<string>, ghost visited: seq<ValidDate>, current: ValidDate) returns (r: Result<()>)
    requires BackfillRun(o0, archive.respond, store.rejected, codecs, visited).result == Ok(())
    requires store.objects == BackfillRun(o0, archive.respond, store.rejected, codecs, visited).objects
    requires store.journal == j0 + BackfillRun(o0, archive.respond, store.rejected, codecs, visited).log
    requires archive.requested == u0 + BackfillRun(o0, archive.respond, store.rejected, codecs, visited).urls
    modifies store, archive
    ensures r == BackfillRun(o0, archive.respond, store.rejected, codecs, visited + [current]).result
    ensures store.objects == BackfillRun(o0, archive.respond, store.rejected, codecs, visited + [current]).objects
    ensures store.journal == j0 + BackfillRun(o0, archive.respond, store.rejected, codecs, visited + [current]).log
    ensures archive.requested == u0 + BackfillRun(o0, archive.respond, store.rejected, codecs, visited + [current]).urls
  {
    ghost var p := BackfillRun(o0, archive.respond, store.rejected, codecs, visited);
    ghost var q := BackfillDay(store.objects, archive.respond, store.rejected, codecs, current);
    r := BackfillOneDay(store, archive, codecs, current);
    BackfillRunSnoc(o0, archive.respond, store.rejected, codecs, visited, current);
    Regroup3(j0, p.log, q.log);
    Regroup3(u0, p.urls, q.urls);
  }

  /** backfill.py with delete_bronze_day resolved to RemoveBronzeDay. */
  method RunBackfill(store: ObjectStore, archive: Archive, codecs: Silver.Codecs) returns (r: Result<()>)
    modifies store, archive
    ensures r == BackfillRun(old(store.objects), archive.respond, store.rejected, codecs, BackfillDates()).result
    ensures store.objects == BackfillRun(old(store.objects), archive.respond, store.rejected, codecs, BackfillDates()).objects
    ensures store.journal == old(store.journal) + BackfillRun(old(store.objects), archive.respond, store.rejected, codecs, BackfillDates()).log
    ensures archive.requested == old(archive.requested) + BackfillRun(old(store.objects), archive.respond, store.rejected, codecs, BackfillDates()).urls
  {
    var current := Date(2025, 12, 3);
    var endDate := Date(2025, 12, 18);
    ghost var all := BackfillDates();
    ghost var k := 0;
    ghost var o0, j0, u0 := store.objects, store.journal, archive.requested;
    while Before(current, endDate) || current == endDate
      invariant 0 <= k <= 16 && current == Date(2025, 12, k + 3)
      invariant BackfillRun(o0, archive.respond, store.rejected, codecs, all[..k]).result == Ok(())
      invariant store.objects == BackfillRun(o0, archive.respond, store.rejected, codecs, all[..k]).objects
      invariant store.journal == j0 + BackfillRun(o0, archive.respond, store.rejected, codecs, all[..k]).log
      invariant archive.requested == u0 + BackfillRun(o0, archive.respond, store.rejected, codecs, all[..k]).urls
      decreases 16 - k
    {
      DatesPrefix(k);
      r := BackfillStep(store, archive, codecs, o0, j0, u0, all[..k], current);
      if r.Err? {
        BackfillStops(o0, archive.respond, store.rejected, codecs, all, k + 1);
        return;
      }
      k := k + 1;
      current := NextInDecember(current);
    }
    assert k == 16 && all[..16] == all;
    r := Ok(());
  }

  /** A fetch covers a date's 24 URLs in hour order. */
  lemma FetchDayUrls(objects: map<string, Blob>, respond: string -> Response, rejected: set<string>, date: string)
    ensures FetchHours(objects, respond, rejected, date, HoursPerDay).urls == DayUrls(date)
  {
  }

  /** Every deletion in `log` is of one of `keys` and comes after the action `w`. */
  predicate DropsAfter(log: seq<Action>, w: Action, keys: seq<string>) {
    forall j :: 0 <= j < |log| && log[j].Removed? ==>
      log[j].key in keys && exists i :: 0 <= i < j && log[i] == w
  }

  lemma DropsAfterShape(a: seq<Action>, w: Action, rl: seq<Action>, keys: seq<string>)
    requires w.Wrote? && forall i :: 0 <= i < |a| ==> a[i].Wrote?
    requires forall i :: 0 <= i < |rl| ==> rl[i].key in keys
    ensures DropsAfter(a, w, keys) && DropsAfter(a + ([w] + rl), w, keys)
  {
    var log := a + ([w] + rl);
    forall j | 0 <= j < |log| && log[j].Removed?
      ensures log[j].key in keys && exists i :: 0 <= i < j && log[i] == w
    {
      assert log[|a|] == w;
      assert log[j] == rl[j - |a| - 1];
    }
  }

  /** Within one date, every deletion is of one of that date's bronze keys and
      comes after the date's silver write. */
  predicate DropsAfterSilver(log: seq<Action>, d: ValidDate) {
    FormattedFields(d);
    DropsAfter(log, Wrote(Silver.SilverKey(Format(d)).value), BronzeDayKeys(Format(d)))
  }

  lemma BackfillDayOrder(objects: map<string, Blob>, respond: string -> Response, rejected: set<string>, codecs: Silver.Codecs, d: ValidDate)
    ensures DropsAfterSilver(BackfillDay(objects, respond, rejected, codecs, d).log, d)
  {
    FormattedFields(d);
    var ds := Format(d);
    var f := FetchHours(objects, respond, rejected, ds, HoursPerDay);
    var t := SilverThenDrop(f.objects, rejected, codecs, ds);
    var rl := RemovalLog(BronzeDayKeys(ds), rejected);
    DropsAfterShape(f.log, Wrote(Silver.SilverKey(ds).value), rl, BronzeDayKeys(ds));
  }

  /** No mutation in `log` touches a gold key. */
  predicate NoGold(log: seq<Action>) {
    forall j :: 0 <= j < |log| ==> !IsPrefix("gold/", log[j].key)
  }

  lemma NoGoldConcat(a: seq<Action>, b: seq<Action>)
    requires NoGold(a) && NoGold(b)
    ensures NoGold(a + b)
  {
    forall j | 0 <= j < |a + b| ensures !IsPrefix("gold/", (a + b)[j].key) {
      if j >= |a| {
        assert (a + b)[j] == b[j - |a|];
      }
    }
  }

  /** The gold stage is never run: no backfill mutation touches a gold key. */
  lemma {:induction false} BackfillNeverGold(objects: map<string, Blob>, respond: string -> Response, rejected: set<string>, codecs: Silver.Codecs, dates: seq<ValidDate>)
    ensures NoGold(BackfillRun(objects, respond, rejected, codecs, dates).log)
  {
    if dates != [] {
      var front := dates[..|dates| - 1];
      BackfillNeverGold(objects, respond, rejected, codecs, front);
      var p := BackfillRun(objects, respond, rejected, codecs, front);
      if p.result.Ok? {
        var d := dates[|dates| - 1];
        BackfillDayNoGold(p.objects, respond, rejected, codecs, d);
        NoGoldConcat(p.log, BackfillDay(p.objects, respond, rejected, codecs, d).log);
      }
    }
  }

  lemma BackfillDayNoGold(objects: map<string, Blob>, respond: string -> Response, rejected: set<string>, codecs: Silver.Codecs, d: ValidDate)
    ensures NoGold(BackfillDay(objects, respond, rejected, codecs, d).log)
  {
    FormattedFields(d);
    var ds := Format(d);
    var f := FetchHours(objects, respond, rejected, ds, HoursPerDay);
    var t := SilverThenDrop(f.objects, rejected, codecs, ds);
    assert BackfillDay(objects, respond, rejected, codecs, d).log == f.log + t.log;
    forall j | 0 <= j < |f.log| ensures !IsPrefix("gold/", f.log[j].key) {
      var h :| 0 <= h < HoursPerDay && BronzeKey(ds, h) == Ok(f.log[j].key);
      KeyLayers(ds, h);
    }
    KeyLayers(ds, 0);
    if t.result.Ok? {
      var keys := BronzeDayKeys(ds);
      var rl := RemovalLog(keys, rejected);
      forall j | 0 <= j < |rl| ensures !IsPrefix("gold/", rl[j].key) {
        var h :| 0 <= h < HoursPerDay && keys[h] == rl[j].key;
        KeyLayers(ds, h);
      }
      NoGoldConcat([Wrote(Silver.SilverKey(ds).value)], rl);
    }
    NoGoldConcat(f.log, t.log);
  }

  /** The archive URLs of `dates`, date by date, each date's hours in order. */
  function AllUrls(dates: seq<ValidDate>): seq<string>
  {
    if dates == [] then [] else AllUrls(dates[..|dates| - 1]) + DayUrls(Format(dates[|dates| - 1]))
  }

  /** A backfill that completes fetched every date once, in the given order. */
  lemma {:induction false} BackfillUrlsOk(objects: map<string, Blob>, respond: string -> Response, rejected: set<string>, codecs: Silver.Codecs, dates: seq<ValidDate>)
    requires BackfillRun(objects, respond, rejected, codecs, dates).result.Ok?
    ensures BackfillRun(objects, respond, rejected, codecs, dates).urls == AllUrls(dates)
  {
    if dates != [] {
      var front := dates[..|dates| - 1];
      BackfillUrlsOk(objects, respond, rejected, codecs, front);
      var p := BackfillRun(objects, respond, rejected, codecs, front);
      FetchDayUrls(p.objects, respond, rejected, Format(dates[|dates| - 1]));
    }
  }

  /** The backfill stopped at date `k`: the dates before it completed, date `k`
      failed in its silver step, and no later date was touched. */
  predicate StoppedAt(objects: map<string, Blob>, respond: string -> Response, rejected: set<string>, codecs: Silver.Codecs, dates: seq<ValidDate>, k: nat)
    requires k < |dates|
  {
    BackfillRun(objects, respond, rejected, codecs, dates[..k]).result.Ok? &&
    BackfillRun(objects, respond, rejected, codecs, dates[..k + 1]).result.Err? &&
    BackfillRun(objects, respond, rejected, codecs, dates) == BackfillRun(objects, respond, rejected, codecs, dates[..k + 1])
  }

  lemma StoppedAtExtends(objects: map<string, Blob>, respond: string -> Response, rejected: set<string>, codecs: Silver.Codecs, dates: seq<ValidDate>, k: nat)
    requires k + 1 < |dates|
    requires StoppedAt(objects, respond, rejected, codecs, dates[..|dates| - 1], k)
    ensures StoppedAt(objects, respond, rejected, codecs, dates, k)
  {
    var front := dates[..|dates| - 1];
    var a, b := dates[..k], dates[..k + 1];
    PrefixOfPrefix(dates, |dates| - 1, k);
    PrefixOfPrefix(dates, |dates| - 1, k + 1);
    assert front[..k] == a && front[..k + 1] == b;
    assert BackfillRun(objects, respond, rejected, codecs, b).result.Err?;
    BackfillStops(objects, respond, rejected, codecs, dates, k + 1);
  }

  /** An uncaught silver failure ends the backfill at the first failing date. */
  lemma {:induction false} BackfillStopsAtFirstFailure(objects: map<string, Blob>, respond: string -> Response, rejected: set<string>, codecs: Silver.Codecs, dates: seq<ValidDate>)
    requires BackfillRun(objects, respond, rejected, codecs, dates).result.Err?
    ensures exists k :: 0 <= k < |dates| && StoppedAt(objects, respond, rejected, codecs, dates, k)
  {
    var front := dates[..|dates| - 1];
    assert dates[..|dates|] == dates;
    if BackfillRun(objects, respond, rejected, codecs, front).result.Err? {
      BackfillStopsAtFirstFailure(objects, respond, rejected, codecs, front);
      var k :| 0 <= k < |front| && StoppedAt(objects, respond, rejected, codecs, front, k);
      StoppedAtExtends(objects, respond, rejected, codecs, dates, k);
    } else {
      assert StoppedAt(objects, respond, rejected, codecs, dates, |dates| - 1);
    }
  }
}

