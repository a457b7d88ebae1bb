/** The two top-level drivers: the daily pipeline (ingest/daily_ingest.py) and
    the multi-day backfill (ingest/backfill.py). Each is a method over the store
    and the archive, proved equal to a run function, and the run functions
    carry the ordering properties as lemmas. */
module Orchestration {
  import opened Wrappers
  import opened Text
  import opened Dates
  import opened Tables
  import opened Store
  import opened Partitions
  import opened Bronze
  import Silver
  import Gold

  /** What a driver did: how it ended, the final store, the store mutations in
      order, and the archive URLs it requested in order. */
  datatype Run = Run(result: Result<()>, objects: map<string, Blob>, log: seq<Action>, urls: seq<string>)

  /** The 24 hourly archive URLs of a date, hour 0 first. */
  function DayUrls(date: string): (urls: seq<string>)
    ensures |urls| == HoursPerDay
  {
    seq(HoursPerDay, h requires 0 <= h < HoursPerDay => DownloadUrl(date, h))
  }

  /** `key` is the bronze key of one of the date's 24 hours. */
  predicate IsBronzeKeyOf(date: string, key: string) {
    exists h :: 0 <= h < HoursPerDay && BronzeKey(date, h) == Ok(key)
  }

  /** for hour in range(n): try ingest_hour(date, hour) except: report. */
  function FetchHours(objects: map<string, Blob>, respond: string -> Response, rejected: set<string>, date: string, n: nat): (run: Run)
    requires n <= HoursPerDay
    ensures run.result == Ok(())
    ensures |run.urls| == n && forall h :: 0 <= h < n ==> run.urls[h] == DownloadUrl(date, h)
    ensures forall i :: 0 <= i < |run.log| ==> run.log[i].Wrote? && IsBronzeKeyOf(date, run.log[i].key)
  {
    if n == 0 then Run(Ok(()), objects, [], [])
    else
      var p := FetchHours(objects, respond, rejected, date, n - 1);
      var out := IngestOutcome(respond, rejected, date, n - 1);
      Run(Ok(()), AfterIngest(p.objects, respond, rejected, date, n - 1),
          p.log + (if out.Ok? then [Wrote(out.value.0)] else []), p.urls + [DownloadUrl(date, n - 1)])
  }

  /** The 24 bronze keys of a date. */
  function BronzeDayKeys(date: string): (keys: seq<string>)
    requires DateFields(date).Ok?
    ensures |keys| == HoursPerDay && forall h :: 0 <= h < HoursPerDay ==> BronzeKey(date, h) == Ok(keys[h])
  {
    seq(HoursPerDay, h requires 0 <= h < HoursPerDay => BronzeKey(date, h).value)
  }

  /** The store after deleting each key in turn (a rejected key stays). */
  function RemoveKeys(objects: map<string, Blob>, keys: seq<string>, rejected: set<string>): map<string, Blob>
  {
    if keys == [] then objects
    else
      var p := RemoveKeys(objects, keys[..|keys| - 1], rejected);
      var last := keys[|keys| - 1];
      if last in rejected then p else p - {last}
  }

  /** The journal entries of those deletions. */
  function RemovalLog(keys: seq<string>, rejected: set<string>): (log: seq<Action>)
    ensures forall i :: 0 <= i < |log| ==> log[i].Removed? && log[i].key in keys && log[i].key !in rejected
  {
    if keys == [] then []
    else
      var last := keys[|keys| - 1];
      RemovalLog(keys[..|keys| - 1], rejected) + (if last in rejected then [] else [Removed(last)])
  }

  lemma TakeSnoc<T>(s: seq<T>, h: nat)
    requires h < |s|
    ensures s[..h + 1] == s[..h] + [s[h]]
  {
  }

  /** One deletion more. */
  lemma RemoveKeysSnoc(objects: map<string, Blob>, keys: seq<string>, k: string, rejected: set<string>)
    ensures RemoveKeys(objects, keys + [k], rejected) ==
      (if k in rejected then RemoveKeys(objects, keys, rejected) else RemoveKeys(objects, keys, rejected) - {k})
    ensures RemovalLog(keys + [k], rejected) ==
      RemovalLog(keys, rejected) + (if k in rejected then [] else [Removed(k)])
  {
    assert (keys + [k])[..|keys|] == keys;
  }

  /** Removing keys takes away exactly the listed keys that are not rejected and
      leaves every other entry as it was. */
  lemma {:induction false} RemoveKeysEffect(objects: map<string, Blob>, keys: seq<string>, rejected: set<string>, k: string)
    ensures k in RemoveKeys(objects, keys, rejected) <==> k in objects && !(k in keys && k !in rejected)
    ensures k in RemoveKeys(objects, keys, rejected) ==> RemoveKeys(objects, keys, rejected)[k] == objects[k]
  {
    if keys != [] {
      var front := keys[..|keys| - 1];
      RemoveKeysEffect(objects, front, rejected, k);
      assert keys == front + [keys[|keys| - 1]];
    }
  }

  /** delete_bronze_day, which neither shown bronze nor silver module defines:
      the abstract removal of the date's 24 bronze keys. A date that does not
      split into three fields raises ValueError like the other deleters. */
  method RemoveBronzeDay(store: ObjectStore, date: string) returns (r: Result<()>)
    modifies store
    ensures DateFields(date).Err? ==> r == Err(ValueError) && store.objects == old(store.objects) && store.journal == old(store.journal)
    ensures DateFields(date).Ok? ==>
      (r == Ok(()) &&
       store.objects == RemoveKeys(old(store.objects), BronzeDayKeys(date), store.rejected) &&
       store.journal == old(store.journal) + RemovalLog(BronzeDayKeys(date), store.rejected))
  {
    if DateFields(date).Err? {
      return Err(ValueError);
    }
    var keys := BronzeDayKeys(date);
    for h := 0 to HoursPerDay
      invariant store.objects == RemoveKeys(old(store.objects), keys[..h], store.rejected)
      invariant store.journal == old(store.journal) + RemovalLog(keys[..h], store.rejected)
    {
      TakeSnoc(keys, h);
      RemoveKeysSnoc(old(store.objects), keys[..h], keys[h], store.rejected);
      store.Delete(keys[h]);
    }
    assert keys[..HoursPerDay] == keys;
    r := Ok(());
  }

  /** The prune of line 24: the old gold key is gone unless the store refuses
      the deletion; every other key keeps its blob. */
  function Prune(objects: map<string, Blob>, rejected: set<string>, key: string): (m: map<string, Blob>)
    ensures key !in rejected ==> key !in m
    ensures key in rejected ==> m == objects
    ensures m.Keys <= objects.Keys
    ensures forall k :: k in objects && k != key ==> k in m && m[k] == objects[k]
  {
    if key in rejected then objects else objects - {key}
  }

  function PruneLog(rejected: set<string>, key: string): seq<Action> {
    if key in rejected then [] else [Removed(key)]
  }

  /** The gold key daily_ingest prunes: the one of today minus 8 days. */
  function PruneKey(pruneDate: Date): string
    requires Valid(pruneDate)
  {
    FormattedFields(pruneDate);
    Gold.GoldKey(Format(pruneDate)).value
  }

  /** Lines 34-35 of daily_ingest.py on the fetched store: the silver write,
      then the gold write; an exception from either ends the run. */
  function WriteDay(fetched: map<string, Blob>, rejected: set<string>, codecs: Silver.Codecs, todayStr: string): (w: Run)
    requires DateFields(todayStr).Ok?
    ensures w.urls == [] && |w.log| <= 2
    ensures forall i :: 0 <= i < |w.log| ==> w.log[i].Wrote?
    ensures Silver.SilverKey(todayStr).value in rejected ==> w.objects == fetched && w.log == []
    ensures w.result.Ok? ==> w.log == [Wrote(Silver.SilverKey(todayStr).value), Wrote(Gold.GoldKey(todayStr).value)]
  {
    var sk := Silver.SilverKey(todayStr).value;
    if sk in rejected then Run(Err(WriteRejected(sk)), fetched, [], [])
    else
      var s := fetched[sk := SilverBlob(Silver.SilverTable(fetched, codecs, todayStr))];
      var g := Gold.GoldTable(s, todayStr);
      var gk := Gold.GoldKey(todayStr).value;
      if g.Err? then Run(Err(g.error), s, [Wrote(sk)], [])
      else if gk in rejected then Run(Err(WriteRejected(gk)), s, [Wrote(sk)], [])
      else Run(Ok(()), s[gk := GoldBlob(g.value)], [Wrote(sk), Wrote(gk)], [])
  }

  /** Lines 34-37 of daily_ingest.py: the two writes, then the two deletions,
      which only happen when both writes succeeded. */
  function PublishDay(fetched: map<string, Blob>, rejected: set<string>, codecs: Silver.Codecs, todayStr: string): (p: Run)
    requires DateFields(todayStr).Ok?
    ensures p.result == WriteDay(fetched, rejected, codecs, todayStr).result
    ensures p.result.Err? ==> p == WriteDay(fetched, rejected, codecs, todayStr)
    ensures p.result.Ok? ==> Silver.SilverKey(todayStr).value !in p.objects
    ensures p.urls == []
  {
    var w := WriteDay(fetched, rejected, codecs, todayStr);
    if w.result.Err? then w
    else
      var sk := Silver.SilverKey(todayStr).value;
      var keys := BronzeDayKeys(todayStr);
      Run(Ok(()), RemoveKeys(w.objects, keys, rejected) - {sk}, w.log + RemovalLog(keys, rejected) + [Removed(sk)], [])
  }

  method WriteSilverGold(store: ObjectStore, codecs: Silver.Codecs, todayStr: string) returns (r: Result<()>)
    requires DateFields(todayStr).Ok?
    modifies store
    ensures r == WriteDay(old(store.objects), store.rejected, codecs, todayStr).result
    ensures store.objects == WriteDay(old(store.objects), store.rejected, codecs, todayStr).objects
    ensures store.journal == old(store.journal) + WriteDay(old(store.objects), store.rejected, codecs, todayStr).log
  {
    var s := Silver.ProcessDayToSilver(store, codecs, todayStr);
    if s.Err? {
      return Err(s.error);
    }
    var g := Gold.ProcessDayToGold(store, todayStr);
    if g.Err? {
      return Err(g.error);
    }
    r := Ok(());
  }

  method Publish(store: ObjectStore, codecs: Silver.Codecs, todayStr: string) returns (r: Result<()>)
    requires DateFields(todayStr).Ok?
    modifies store
    ensures r == PublishDay(old(store.objects), store.rejected, codecs, todayStr).result
    ensures store.objects == PublishDay(old(store.objects), store.rejected, codecs, todayStr).objects
    ensures store.journal == old(store.journal) + PublishDay(old(store.objects), store.rejected, codecs, todayStr).log
  {
    ghost var w := WriteDay(store.objects, store.rejected, codecs, todayStr);
    r := WriteSilverGold(store, codecs, todayStr);
    if r.Err? {
      return;
    }
    ghost var written, log1 := store.objects, store.journal;
    assert written == w.objects && log1 == old(store.journal) + w.log;
    PublishDayShape(old(store.objects), store.rejected, codecs, todayStr);
    RemoveDay(store, todayStr);
    Regroup(old(store.journal), w.log, RemovalLog(BronzeDayKeys(todayStr), store.rejected), [Removed(Silver.SilverKey(todayStr).value)]);
  }

  /** Lines 36-37 of daily_ingest.py: the day's bronze keys, then its silver key. */
  method RemoveDay(store: ObjectStore, todayStr: string)
    requires DateFields(todayStr).Ok?
    requires Silver.SilverKey(todayStr).value !in store.rejected
    modifies store
    ensures store.objects == RemoveKeys(old(store.objects), BronzeDayKeys(todayStr), store.rejected) - {Silver.SilverKey(todayStr).value}
    ensures store.journal == old(store.journal) + RemovalLog(BronzeDayKeys(todayStr), store.rejected) + [Removed(Silver.SilverKey(todayStr).value)]
  {
    var _ := RemoveBronzeDay(store, todayStr);
    var _ := Silver.DeleteSilverDay(store, todayStr);
  }

  lemma Regroup<T>(a: seq<T>, b: seq<T>, c: seq<T>, d: seq<T>)
    ensures a + (b + c + d) == a + b + c + d
  {
  }

  /** One run of daily_ingest.py on `today` (the current UTC date). */
  function DailyRun(objects: map<string, Blob>, respond: string -> Response, rejected: set<string>, codecs: Silver.Codecs, today: Date): (run: Run)
    requires Valid(today)
    ensures AddDays(today, -8).None? ==> run == Run(Err(OverflowError), objects, [], [])
    ensures AddDays(today, -8).Some? ==>
      |run.urls| == HoursPerDay && forall h :: 0 <= h < HoursPerDay ==> run.urls[h] == DownloadUrl(Format(today), h)
    ensures run.result.Ok? ==> Silver.SilverKey(Format(today)).Ok? && Silver.SilverKey(Format(today)).value !in run.objects
  {
    match AddDays(today, -8)
    case None => Run(Err(OverflowError), objects, [], [])
    case Some(pruneDate) =>
      var oldKey := PruneKey(pruneDate);
      var todayStr := Format(today);
      FormattedFields(today);
      var f := FetchHours(Prune(objects, rejected, oldKey), respond, rejected, todayStr, HoursPerDay);
      var p := PublishDay(f.objects, rejected, codecs, todayStr);
      Run(p.result, p.objects, PruneLog(rejected, oldKey) + f.log + p.log, f.urls)
  }

  /** Lines 27-32 of daily_ingest.py (and 13-18 of backfill.py): every hour is
      attempted once, in order, and a failed hour is reported and skipped. */
  method FetchDay(store: ObjectStore, archive: Archive, date: string)
    modifies store, archive
    ensures store.objects == FetchHours(old(store.objects), archive.respond, store.rejected, date, HoursPerDay).objects
    ensures store.journal == old(store.journal) + FetchHours(old(store.objects), archive.respond, store.rejected, date, HoursPerDay).log
    ensures archive.requested == old(archive.requested) + FetchHours(old(store.objects), archive.respond, store.rejected, date, HoursPerDay).urls
  {
    for hour := 0 to HoursPerDay
      invariant store.objects == FetchHours(old(store.objects), archive.respond, store.rejected, date, hour).objects
      invariant store.journal == old(store.journal) + FetchHours(old(store.objects), archive.respond, store.rejected, date, hour).log
      invariant archive.requested == old(archive.requested) + FetchHours(old(store.objects), archive.respond, store.rejected, date, hour).urls
    {
      FetchHoursStep(old(store.objects), archive.respond, store.rejected, date, hour);
      var _ := IngestHour(store, archive, date, hour);
    }
  }

  lemma FetchHoursStep(objects: map<string, Blob>, respond: string -> Response, rejected: set<string>, date: string, hour: nat)
    requires hour < HoursPerDay
    ensures var before := FetchHours(objects, respond, rejected, date, hour);
      var out := IngestOutcome(respond, rejected, date, hour);
      FetchHours(objects, respond, rejected, date, hour + 1) ==
        Run(Ok(()), AfterIngest(before.objects, respond, rejected, date, hour),
            before.log + (if out.Ok? then [Wrote(out.value.0)] else []), before.urls + [DownloadUrl(date, hour)])
  {
  }

  /** daily_ingest.py with delete_bronze_day resolved to RemoveBronzeDay. */
  method DailyIngest(store: ObjectStore, archive: Archive, codecs: Silver.Codecs, today: Date) returns (r: Result<()>)
    requires Valid(today)
    modifies store, archive
    ensures r == DailyRun(old(store.objects), archive.respond, store.rejected, codecs, today).result
    ensures store.objects == DailyRun(old(store.objects), archive.respond, store.rejected, codecs, today).objects
    ensures store.journal == old(store.journal) + DailyRun(old(store.objects), archive.respond, store.rejected, codecs, today).log
    ensures archive.requested == old(archive.requested) + DailyRun(old(store.objects), archive.respond, store.rejected, codecs, today).urls
  {
    var pd := AddDays(today, -8);
    if pd.None? {
      return Err(OverflowError);
    }
    DailyRunShape(store.objects, archive.respond, store.rejected, codecs, today);
    var oldKey := PruneKey(pd.value);
    store.Delete(oldKey);
    var todayStr := Format(today);
    ghost var log0 := store.journal;
    assert log0 == old(store.journal) + PruneLog(store.rejected, oldKey);
    ghost var f := FetchHours(store.objects, archive.respond, store.rejected, todayStr, HoursPerDay);
    FetchDay(store, archive, todayStr);
    ghost var log1 := store.journal;
    assert log1 == log0 + f.log;
    r := Publish(store, codecs, todayStr);
    ghost var p := PublishDay(f.objects, store.rejected, codecs, todayStr);
    assert store.journal == log1 + p.log;
    Regroup(old(store.journal), PruneLog(store.rejected, oldKey), f.log, p.log);
  }

  /** Bronze, silver and gold keys sit under their own top-level prefixes. */
  lemma KeyLayers(date: string, h: nat)
    requires DateFields(date).Ok?
    ensures IsPrefix("bronze/", BronzeKey(date, h).value) && !IsPrefix("gold/", BronzeKey(date, h).value)
    ensures IsPrefix("silver/", Silver.SilverKey(date).value) && !IsPrefix("gold/", Silver.SilverKey(date).value)
    ensures IsPrefix("gold/", Gold.GoldKey(date).value)
  {
    BronzeLayer(date, h);
    SilverLayer(date);
    GoldLayer(date);
  }

  lemma BronzeLayer(date: string, h: nat)
    requires DateFields(date).Ok?
    ensures IsPrefix("bronze/", BronzeKey(date, h).value) && !IsPrefix("gold/", BronzeKey(date, h).value)
  {
    assert BronzeKey(date, h).value[0] == 'b';
  }

  lemma SilverLayer(date: string)
    requires DateFields(date).Ok?
    ensures IsPrefix("silver/", Silver.SilverKey(date).value) && !IsPrefix("gold/", Silver.SilverKey(date).value)
  {
    assert Silver.SilverKey(date).value[0] == 's';
  }

  lemma GoldLayer(date: string)
    requires DateFields(date).Ok?
    ensures IsPrefix("gold/", Gold.GoldKey(date).value)
  {
  }

  /** Inside the publish step, the only deletions are of the day's bronze keys
      and its silver key, and they all follow both writes. */
  lemma PublishLog(fetched: map<string, Blob>, rejected: set<string>, codecs: Silver.Codecs, todayStr: string)
    requires DateFields(todayStr).Ok?
    ensures var p := PublishDay(fetched, rejected, codecs, todayStr);
      forall j :: 0 <= j < |p.log| && p.log[j].Removed? ==>
        p.result.Ok? && 2 <= j && (p.log[j].key in BronzeDayKeys(todayStr) || p.log[j].key == Silver.SilverKey(todayStr).value)
    ensures var p := PublishDay(fetched, rejected, codecs, todayStr);
      p.result.Ok? ==> |p.log| >= 2 && p.log[0] == Wrote(Silver.SilverKey(todayStr).value) && p.log[1] == Wrote(Gold.GoldKey(todayStr).value)
  {
    var w := WriteDay(fetched, rejected, codecs, todayStr);
    var sk, gk := Silver.SilverKey(todayStr).value, Gold.GoldKey(todayStr).value;
    PublishDayShape(fetched, rejected, codecs, todayStr);
    WriteDayLog(fetched, rejected, codecs, todayStr);
    if w.result.Ok? {
      var keys := BronzeDayKeys(todayStr);
      DeletionsAfterWrites(Wrote(sk), Wrote(gk), RemovalLog(keys, rejected), keys, sk);
    }
  }

  /** Two writes, deletions of `keys`, then the deletion of `sk`: every deletion
      comes after both writes and is of one of those keys. */
  lemma DeletionsAfterWrites(x: Action, y: Action, rl: seq<Action>, keys: seq<string>, sk: string)
    requires x.Wrote? && y.Wrote?
    requires forall i :: 0 <= i < |rl| ==> rl[i].key in keys
    ensures var log := [x, y] + rl + [Removed(sk)];
      forall j :: 0 <= j < |log| && log[j].Removed? ==> 2 <= j && (log[j].key in keys || log[j].key == sk)
  {
    var log := [x, y] + rl + [Removed(sk)];
    forall j | 0 <= j < |log| && log[j].Removed? ensures 2 <= j && (log[j].key in keys || log[j].key == sk) {
      if 2 <= j < 2 + |rl| {
        assert log[j] == rl[j - 2];
      }
    }
  }

  /** The write step logs the silver write, then the gold write, and stops at the first failure. */
  lemma WriteDayLog(fetched: map<string, Blob>, rejected: set<string>, codecs: Silver.Codecs, todayStr: string)
    requires DateFields(todayStr).Ok?
    ensures var w := WriteDay(fetched, rejected, codecs, todayStr);
      var sk, gk := Silver.SilverKey(todayStr).value, Gold.GoldKey(todayStr).value;
      (w.result.Ok? ==> w.log == [Wrote(sk), Wrote(gk)]) &&
      (w.result.Err? ==> w.log == [] || w.log == [Wrote(sk)])
  {
  }

  /** The publish step as the writes followed by the deletions. */
  lemma PublishDayShape(fetched: map<string, Blob>, rejected: set<string>, codecs: Silver.Codecs, todayStr: string)
    requires DateFields(todayStr).Ok?
    ensures var w := WriteDay(fetched, rejected, codecs, todayStr);
      var p := PublishDay(fetched, rejected, codecs, todayStr);
      var sk, keys := Silver.SilverKey(todayStr).value, BronzeDayKeys(todayStr);
      (w.result.Err? ==> p == w) &&
      (w.result.Ok? ==> p.result == Ok(()) && p.objects == RemoveKeys(w.objects, keys, rejected) - {sk} &&
                        p.log == w.log + RemovalLog(keys, rejected) + [Removed(sk)])
  {
  }

  /** One daily run as the prune, the fetch and the publish step. */
  lemma DailyRunShape(objects: map<string, Blob>, respond: string -> Response, rejected: set<string>, codecs: Silver.Codecs, today: Date)
    requires Valid(today) && AddDays(today, -8).Some?
    ensures DateFields(Format(today)).Ok?
    ensures var key := PruneKey(AddDays(today, -8).value);
      var f := FetchHours(Prune(objects, rejected, key), respond, rejected, Format(today), HoursPerDay);
      var p := PublishDay(f.objects, rejected, codecs, Format(today));
      DailyRun(objects, respond, rejected, codecs, today) == Run(p.result, p.objects, PruneLog(rejected, key) + f.log + p.log, f.urls)
  {
    FormattedFields(today);
  }

  /** The publish step never deletes a gold key. */
  lemma PublishKeepsGold(fetched: map<string, Blob>, rejected: set<string>, codecs: Silver.Codecs, todayStr: string)
    requires DateFields(todayStr).Ok?
    ensures var p := PublishDay(fetched, rejected, codecs, todayStr);
      forall j :: 0 <= j < |p.log| && p.log[j].Removed? ==> !IsPrefix("gold/", p.log[j].key)
  {
    var p := PublishDay(fetched, rejected, codecs, todayStr);
    PublishLog(fetched, rejected, codecs, todayStr);
    forall j | 0 <= j < |p.log| && p.log[j].Removed? ensures !IsPrefix("gold/", p.log[j].key) {
      if p.log[j].key in BronzeDayKeys(todayStr) {
        var h :| 0 <= h < HoursPerDay && BronzeDayKeys(todayStr)[h] == p.log[j].key;
        KeyLayers(todayStr, h);
      } else {
        KeyLayers(todayStr, 0);
      }
    }
  }

  /** A prune, then writes only, then deletions outside the gold layer: the
      prune is the only gold deletion, and it comes first. */
  lemma OnlyGoldRemovalFirst(pl: seq<Action>, a: seq<Action>, b: seq<Action>, key: string)
    requires pl == [] || pl == [Removed(key)]
    requires forall i :: 0 <= i < |a| ==> a[i].Wrote?
    requires forall i :: 0 <= i < |b| && b[i].Removed? ==> !IsPrefix("gold/", b[i].key)
    ensures pl != [] ==> (pl + a + b)[0] == Removed(key)
    ensures var log := pl + a + b;
      forall j :: 0 <= j < |log| && log[j].Removed? && IsPrefix("gold/", log[j].key) ==> j == 0 && log[j].key == key
  {
    var log := pl + a + b;
    forall j | 0 <= j < |log| && log[j].Removed? && IsPrefix("gold/", log[j].key) ensures j == 0 && log[j].key == key {
    }
  }

  /** Before any fetch, exactly one gold key is pruned: the one of today minus
      8 days. It is the first mutation, and no other gold key is ever deleted. */
  lemma DailyPrunesOneGoldKey(objects: map<string, Blob>, respond: string -> Response, rejected: set<string>, codecs: Silver.Codecs, today: Date)
    requires Valid(today) && AddDays(today, -8).Some?
    ensures var run := DailyRun(objects, respond, rejected, codecs, today);
      var key := PruneKey(AddDays(today, -8).value);
      (key !in rejected ==> run.log[0] == Removed(key)) &&
      (forall j :: 0 <= j < |run.log| && run.log[j].Removed? && IsPrefix("gold/", run.log[j].key) ==> j == 0 && run.log[j].key == key)
  {
    var run := DailyRun(objects, respond, rejected, codecs, today);
    var key := PruneKey(AddDays(today, -8).value);
    var todayStr := Format(today);
    FormattedFields(today);
    var f := FetchHours(Prune(objects, rejected, key), respond, rejected, todayStr, HoursPerDay);
    var p := PublishDay(f.objects, rejected, codecs, todayStr);
    var pl := PruneLog(rejected, key);
    DailyRunShape(objects, respond, rejected, codecs, today);
    PublishKeepsGold(f.objects, rejected, codecs, todayStr);
    OnlyGoldRemovalFirst(pl, f.log, p.log, key);
  }

  /** The silver write at `i` is followed directly by the gold write, and every
      deletion outside the gold layer comes after both. */
  predicate WritesAt(log: seq<Action>, silverKey: string, goldKey: string, i: int) {
    0 <= i < |log| - 1 && log[i] == Wrote(silverKey) && log[i + 1] == Wrote(goldKey) &&
    forall j :: 0 <= j < |log| && log[j].Removed? && !IsPrefix("gold/", log[j].key) ==> i + 1 < j
  }

  /** Stage order of the day `d` in the journal. */
  predicate StageOrdered(log: seq<Action>, d: Date)
    requires Valid(d)
  {
    FormattedFields(d);
    exists i :: 0 <= i < |log| && WritesAt(log, Silver.SilverKey(Format(d)).value, Gold.GoldKey(Format(d)).value, i)
  }

  /** A gold prune, then writes only, then the two writes of the publish step:
      the writes sit right after the fetch. */
  lemma WritesAfterFetch(pl: seq<Action>, a: seq<Action>, b: seq<Action>, sk: string, gk: string)
    requires forall i :: 0 <= i < |pl| ==> IsPrefix("gold/", pl[i].key)
    requires forall i :: 0 <= i < |a| ==> a[i].Wrote?
    requires |b| >= 2 && b[0] == Wrote(sk) && b[1] == Wrote(gk)
    ensures WritesAt(pl + a + b, sk, gk, |pl| + |a|)
  {
    var log := pl + a + b;
    var i := |pl| + |a|;
    assert log[i] == b[0] && log[i + 1] == b[1];
    forall j | 0 <= j < |log| && log[j].Removed? && !IsPrefix("gold/", log[j].key) ensures i + 1 < j {
    }
  }

  /** Stage order: when the run completes, the silver write comes right before the
      gold write, and every deletion of the day's bronze and silver keys comes
      after both. */
  lemma DailyStageOrder(objects: map<string, Blob>, respond: string -> Response, rejected: set<string>, codecs: Silver.Codecs, today: Date)
    requires Valid(today)
    requires DailyRun(objects, respond, rejected, codecs, today).result.Ok?
    ensures StageOrdered(DailyRun(objects, respond, rejected, codecs, today).log, today)
  {
    var run := DailyRun(objects, respond, rejected, codecs, today);
    var pd := AddDays(today, -8).value;
    var key := PruneKey(pd);
    var todayStr := Format(today);
    FormattedFields(today);
    var f := FetchHours(Prune(objects, rejected, key), respond, rejected, todayStr, HoursPerDay);
    var p := PublishDay(f.objects, rejected, codecs, todayStr);
    var pl := PruneLog(rejected, key);
    DailyRunShape(objects, respond, rejected, codecs, today);
    PublishLog(f.objects, rejected, codecs, todayStr);
    FormattedFields(pd);
    KeyLayers(Format(pd), 0);
    var sk, gk := Silver.SilverKey(todayStr).value, Gold.GoldKey(todayStr).value;
    WritesAfterFetch(pl, f.log, p.log, sk, gk);
    assert 0 <= |pl| + |f.log| < |run.log|;
  }

  /** An exception from the silver or the gold write leaves every bronze and
      silver object of the day in place: the only deletion is the prune. */
  lemma DailyFailureKeepsData(objects: map<string, Blob>, respond: string -> Response, rejected: set<string>, codecs: Silver.Codecs, today: Date)
    requires Valid(today) && AddDays(today, -8).Some?
    requires DailyRun(objects, respond, rejected, codecs, today).result.Err?
    ensures var run := DailyRun(objects, respond, rejected, codecs, today);
      forall j :: 0 <= j < |run.log| && run.log[j].Removed? ==> j == 0 && run.log[j].key == PruneKey(AddDays(today, -8).value)
  {
    var run := DailyRun(objects, respond, rejected, codecs, today);
    var key := PruneKey(AddDays(today, -8).value);
    var todayStr := Format(today);
    FormattedFields(today);
    var f := FetchHours(Prune(objects, rejected, key), respond, rejected, todayStr, HoursPerDay);
    var p := PublishDay(f.objects, rejected, codecs, todayStr);
    var pl := PruneLog(rejected, key);
    DailyRunShape(objects, respond, rejected, codecs, today);
    PublishLog(f.objects, rejected, codecs, todayStr);
    OnlyFirstRemoved(pl, f.log, p.log, key);
  }

  /** A prune, then writes only, then no deletion: the prune is the only deletion. */
  lemma OnlyFirstRemoved(pl: seq<Action>, a: seq<Action>, b: seq<Action>, key: string)
    requires pl == [] || pl == [Removed(key)]
    requires forall i :: 0 <= i < |a| ==> a[i].Wrote?
    requires forall i :: 0 <= i < |b| ==> !b[i].Removed?
    ensures var log := pl + a + b;
      forall j :: 0 <= j < |log| && log[j].Removed? ==> j == 0 && log[j].key == key
  {
    var log := pl + a + b;
    forall j | 0 <= j < |log| && log[j].Removed? ensures j == 0 && log[j].key == key {
    }
  }

  /** The store right after the daily hour loop: pruned, then fetched. */
  function DailyFetched(objects: map<string, Blob>, respond: string -> Response, rejected: set<string>, today: Date): map<string, Blob>
    requires Valid(today) && AddDays(today, -8).Some?
  {
    FetchHours(Prune(objects, rejected, PruneKey(AddDays(today, -8).value)), respond, rejected, Format(today), HoursPerDay).objects
  }

  /** After a completed day the gold key holds the metrics built from the silver
      table of the fetched bronze hours, while the day's silver key and every
      deletable bronze key are gone. */
  predicate PublishedFrom(final: map<string, Blob>, fetched: map<string, Blob>, rejected: set<string>, codecs: Silver.Codecs, d: Date)
    requires Valid(d)
  {
    FormattedFields(d);
    var ds := Format(d);
    var table := Silver.SilverTable(fetched, codecs, ds);
    var gk := Gold.GoldKey(ds).value;
    table.Table? && gk in final &&
    final[gk] == GoldBlob(Gold.TagDate(Gold.BuildDailyMetrics(table).value, ds)) &&
    Silver.SilverKey(ds).value !in final &&
    forall h :: 0 <= h < HoursPerDay && BronzeKey(ds, h).value !in rejected ==> BronzeKey(ds, h).value !in final
  }

  /** A completed write step leaves the gold metrics of the silver table it wrote. */
  lemma WriteDayGold(fetched: map<string, Blob>, rejected: set<string>, codecs: Silver.Codecs, ds: string)
    requires DateFields(ds).Ok?
    requires WriteDay(fetched, rejected, codecs, ds).result.Ok?
    ensures var table := Silver.SilverTable(fetched, codecs, ds);
      var w := WriteDay(fetched, rejected, codecs, ds);
      table.Table? && Gold.GoldKey(ds).value in w.objects &&
      w.objects[Gold.GoldKey(ds).value] == GoldBlob(Gold.TagDate(Gold.BuildDailyMetrics(table).value, ds))
  {
  }

  /** Deleting bronze keys and the silver key never touches a gold key. */
  lemma GoldSurvives(m: map<string, Blob>, keys: seq<string>, rejected: set<string>, sk: string, gk: string)
    requires gk in m && gk != sk && gk !in keys
    ensures gk in RemoveKeys(m, keys, rejected) - {sk} && (RemoveKeys(m, keys, rejected) - {sk})[gk] == m[gk]
  {
    RemoveKeysEffect(m, keys, rejected, gk);
  }

  lemma DailyGoldFromSilver(objects: map<string, Blob>, respond: string -> Response, rejected: set<string>, codecs: Silver.Codecs, today: Date)
    requires Valid(today) && AddDays(today, -8).Some?
    requires DailyRun(objects, respond, rejected, codecs, today).result.Ok?
    ensures PublishedFrom(DailyRun(objects, respond, rejected, codecs, today).objects,
                          DailyFetched(objects, respond, rejected, today), rejected, codecs, today)
  {
    var ds := Format(today);
    FormattedFields(today);
    var fetched := DailyFetched(objects, respond, rejected, today);
    var w := WriteDay(fetched, rejected, codecs, ds);
    var sk, gk := Silver.SilverKey(ds).value, Gold.GoldKey(ds).value;
    var keys := BronzeDayKeys(ds);
    var final := DailyRun(objects, respond, rejected, codecs, today).objects;
    DailyRunShape(objects, respond, rejected, codecs, today);
    PublishDayShape(fetched, rejected, codecs, ds);
    assert final == RemoveKeys(w.objects, keys, rejected) - {sk};
    Gold.LayersDisjoint(ds, 0, ds, ds);
    assert gk !in keys by {
      forall h | 0 <= h < HoursPerDay ensures keys[h] != gk {
        Gold.LayersDisjoint(ds, h, ds, ds);
      }
    }
    WriteDayGold(fetched, rejected, codecs, ds);
    GoldSurvives(w.objects, keys, rejected, sk, gk);
    forall h | 0 <= h < HoursPerDay && BronzeKey(ds, h).value !in rejected
      ensures BronzeKey(ds, h).value !in final
    {
      RemoveKeysEffect(w.objects, keys, rejected, keys[h]);
    }
  }
}

