/** Bronze stage (ingest/bronze.py): fetch one hour of the GH Archive and store
    the bytes verbatim under the hour's bronze key. */
module Bronze {
  import opened Wrappers
  import opened Text
  import opened Dates
  import opened Tables
  import opened Store
  import opened Partitions

  const ArchiveBase := "https://data.gharchive.org/"

  /** The archive publishes one file per hour, hours 0 .. 23. */
  const HoursPerDay: nat := 24

  /** The archive URL for (date, hour); the hour is written with str(), unpadded. */
  function DownloadUrl(date: string, hour: nat): (url: string)
    ensures IsPrefix(ArchiveBase + date + "-", url)
    ensures |url| == |ArchiveBase| + |date| + 1 + |NatToString(hour)| + 8
  {
    ArchiveBase + date + "-" + NatToString(hour) + ".json.gz"
  }

  /** Hours below ten appear as a single digit: "…-7.json.gz", never "…-07.json.gz". */
  lemma DownloadUrlUnpadded(date: string, hour: nat)
    requires hour < 10
    ensures DownloadUrl(date, hour) == ArchiveBase + date + "-" + [Digit(hour)] + ".json.gz"
  {
  }

  /** response.raise_for_status() then response.content: requests raises for
      client and server errors (400..599), and a failed GET raises before that. */
  function DownloadOutcome(r: Response): (out: Result<seq<byte>>)
    ensures r.Unreachable? ==> out == Err(ConnectionError)
    ensures r.Response? && 400 <= r.status < 600 ==> out == Err(HttpError(r.status))
    ensures r.Response? && !(400 <= r.status < 600) ==> out == Ok(r.content)
  {
    match r
    case Unreachable => Err(ConnectionError)
    case Response(status, content) =>
      if 400 <= status < 600 then Err(HttpError(status)) else Ok(content)
  }

  /** download_hour: one GET of the hour's URL. */
  method DownloadHour(archive: Archive, date: string, hour: nat) returns (r: Result<seq<byte>>)
    modifies archive
    ensures r == DownloadOutcome(archive.respond(DownloadUrl(date, hour)))
    ensures archive.requested == old(archive.requested) + [DownloadUrl(date, hour)]
  {
    var response := archive.Fetch(DownloadUrl(date, hour));
    r := DownloadOutcome(response);
  }

  /** The bronze key f"bronze/year={year}/month={month}/day={day}/hour={hour:02d}/events.json.gz". */
  function BronzeKey(date: string, hour: nat): (r: Result<string>)
    ensures r.Err? <==> DateFields(date).Err?
  {
    var fields :- DateFields(date);
    var (year, month, day) := fields;
    Ok("bronze/year=" + year + "/month=" + month + "/day=" + day + "/hour=" + Pad(hour, 2) + "/events.json.gz")
  }

  /** The segments of a bronze key of a formatted date. */
  function BronzeSegments(d: Date, hour: nat): seq<string>
    requires Valid(d)
  {
    ["bronze", "year=" + Pad(d.year, 4), "month=" + Pad(d.month, 2), "day=" + Pad(d.day, 2),
     "hour=" + Pad(hour, 2), "events.json.gz"]
  }

  lemma BronzeKeyShape(y: string, m: string, dd: string, hh: string)
    ensures "bronze/year=" + y + "/month=" + m + "/day=" + dd + "/hour=" + hh + "/events.json.gz"
      == Join(["bronze", "year=" + y, "month=" + m, "day=" + dd, "hour=" + hh, "events.json.gz"], '/')
  {
    BronzeKeyCut(y, m, dd, hh);
    SegmentRegroup4("bronze", "year=", y, "month=", m, "day=", dd, "hour=", hh, "events.json.gz");
    JoinSix("bronze", "year=" + y, "month=" + m, "day=" + dd, "hour=" + hh, "events.json.gz");
  }

  /** The literal text of the bronze key, cut before each '/'. */
  lemma BronzeKeyCut(y: string, m: string, dd: string, hh: string)
    ensures "bronze/year=" + y + "/month=" + m + "/day=" + dd + "/hour=" + hh + "/events.json.gz"
      == "bronze" + "/" + "year=" + y + ("/" + "month=") + m + ("/" + "day=") + dd + ("/" + "hour=") + hh + ("/" + "events.json.gz")
  {
    assert "bronze/year=" == "bronze" + "/" + "year=";
    assert "/month=" == "/" + "month=" && "/day=" == "/" + "day=" && "/hour=" == "/" + "hour=";
    assert "/events.json.gz" == "/" + "events.json.gz";
  }

  lemma BronzeKeySegments(d: Date, hour: nat)
    requires Valid(d)
    ensures BronzeKey(Format(d), hour) == Ok(Join(BronzeSegments(d, hour), '/'))
    ensures Split(BronzeKey(Format(d), hour).value, '/') == BronzeSegments(d, hour)
  {
    FormattedFields(d);
    var p := BronzeSegments(d, hour);
    BronzeKeyShape(Pad(d.year, 4), Pad(d.month, 2), Pad(d.day, 2), Pad(hour, 2));
    PadDigits(d.year, 4); PadDigits(d.month, 2); PadDigits(d.day, 2); PadDigits(hour, 2);
    forall i | 0 <= i < |p| ensures '/' !in p[i] {
    }
    SplitJoin(p, '/');
  }

  /** Partition uniqueness: distinct (date, hour) pairs get distinct bronze keys. */
  lemma BronzeKeyInjective(d1: Date, h1: nat, d2: Date, h2: nat)
    requires Valid(d1) && Valid(d2)
    requires BronzeKey(Format(d1), h1) == BronzeKey(Format(d2), h2)
    ensures d1 == d2 && h1 == h2
  {
    BronzeKeySegments(d1, h1);
    BronzeKeySegments(d2, h2);
    var p1, p2 := BronzeSegments(d1, h1), BronzeSegments(d2, h2);
    assert p1 == p2;
    SegmentValue("year=", Pad(d1.year, 4), Pad(d2.year, 4));
    SegmentValue("month=", Pad(d1.month, 2), Pad(d2.month, 2));
    SegmentValue("day=", Pad(d1.day, 2), Pad(d2.day, 2));
    SegmentValue("hour=", Pad(h1, 2), Pad(h2, 2));
    PadInjective(d1.year, d2.year, 4);
    PadInjective(d1.month, d2.month, 2);
    PadInjective(d1.day, d2.day, 2);
    PadInjective(h1, h2, 2);
  }

  /** The key ingest_hour writes, with the bytes it writes there, or the exception it raises. */
  function IngestOutcome(respond: string -> Response, rejected: set<string>, date: string, hour: nat): (r: Result<(string, seq<byte>)>)
    ensures r.Ok? ==> BronzeKey(date, hour) == Ok(r.value.0) && r.value.0 !in rejected
    ensures r.Ok? ==> DownloadOutcome(respond(DownloadUrl(date, hour))) == Ok(r.value.1)
    ensures DownloadOutcome(respond(DownloadUrl(date, hour))).Err? ==> r.Err?
  {
    var data :- DownloadOutcome(respond(DownloadUrl(date, hour)));
    var key :- BronzeKey(date, hour);
    if key in rejected then Err(WriteRejected(key)) else Ok((key, data))
  }

  /** The store after ingest_hour(date, hour): the bytes go to the hour's key
      unchanged, and nothing else changes. */
  function AfterIngest(objects: map<string, Blob>, respond: string -> Response, rejected: set<string>, date: string, hour: nat): map<string, Blob>
  {
    match IngestOutcome(respond, rejected, date, hour)
    case Ok((key, data)) => objects[key := Bytes(data)]
    case Err(_) => objects
  }

  /** Re-ingesting an hour whose archive answer is unchanged leaves the store as one ingest did. */
  lemma IngestIdempotent(objects: map<string, Blob>, respond: string -> Response, rejected: set<string>, date: string, hour: nat)
    ensures var once := AfterIngest(objects, respond, rejected, date, hour);
      AfterIngest(once, respond, rejected, date, hour) == once
  {
  }

  /** upload_to_bronze: unpack the date, then put the bytes under the bronze key. */
  method UploadToBronze(store: ObjectStore, data: seq<byte>, date: string, hour: nat) returns (r: Result<string>)
    modifies store
    ensures BronzeKey(date, hour).Err? ==> r == Err(ValueError) && store.objects == old(store.objects) && store.journal == old(store.journal)
    ensures BronzeKey(date, hour).Ok? ==>
      var key := BronzeKey(date, hour).value;
      r == (if key in store.rejected then Err(WriteRejected(key)) else Ok(key)) &&
      store.objects == (if key in store.rejected then old(store.objects) else old(store.objects)[key := Bytes(data)]) &&
      store.journal == (if key in store.rejected then old(store.journal) else old(store.journal) + [Wrote(key)])
  {
    var key := BronzeKey(date, hour);
    if key.Err? {
      return Err(ValueError);
    }
    r := store.Put(key.value, Bytes(data));
  }

  /** ingest_hour: download, then upload; returns the key it wrote. */
  method IngestHour(store: ObjectStore, archive: Archive, date: string, hour: nat) returns (r: Result<string>)
    modifies store, archive
    ensures archive.requested == old(archive.requested) + [DownloadUrl(date, hour)]
    ensures var out := IngestOutcome(archive.respond, store.rejected, date, hour);
      (r.Ok? <==> out.Ok?) && (r.Ok? ==> r.value == out.value.0) &&
      store.objects == AfterIngest(old(store.objects), archive.respond, store.rejected, date, hour) &&
      store.journal == (if out.Ok? then old(store.journal) + [Wrote(out.value.0)] else old(store.journal))
  {
    var data := DownloadHour(archive, date, hour);
    if data.Err? {
      return Err(data.error);
    }
    r := UploadToBronze(store, data.value, date, hour);
  }
}
