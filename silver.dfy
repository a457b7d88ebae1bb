/** Silver stage (ingest/silver.py): decompress the day's 24 hourly bronze
    blobs, keep the lines that parse to an event of a kept kind with every
    needed field, project them to five columns and store one table per day. */
module Silver {
  import opened Wrappers
  import opened Text
  import opened Dates
  import opened Tables
  import opened Store
  import opened Partitions
  import Bronze

  const KeepEvents: seq<string> := ["WatchEvent", "ForkEvent", "PushEvent", "PullRequestEvent", "IssuesEvent", "CreateEvent"]

  const Newline: byte := 10

  /** What json.loads does with one line: a value, a JSONDecodeError (caught
      by the line loop), or any other exception such as UnicodeDecodeError
      (not caught there). */
  datatype Loaded = Parsed(value: Json) | Malformed | Undecodable

  /** The library calls the stage relies on, taken as given functions. */
  datatype Codecs = Codecs(gunzip: seq<byte> -> Option<seq<byte>>, loads: seq<byte> -> Loaded)

  /** Python's v[k] with a str key: a dict lookup, a KeyError when the key is
      missing, a TypeError on anything that is not a dict. */
  function Subscript(v: Json, k: string): (r: Result<Json>)
    ensures r.Ok? <==> v.JObj? && k in v.fields
    ensures r.Ok? ==> r.value == v.fields[k]
    ensures r.Err? ==> r.error == (if v.JObj? then KeyError else TypeError)
  {
    match v
    case JObj(fields) => if k in fields then Ok(fields[k]) else Err(KeyError)
    case _ => Err(TypeError)
  }

  /** The dict literal of ingest/silver.py:25-31, evaluated field by field in
      source order; `kind` is event["type"], already looked up by the filter. */
  function Project(event: Json, kind: string): (r: Result<SilverRow>)
    ensures r.Ok? <==> (event.JObj? && "repo" in event.fields && "actor" in event.fields && "created_at" in event.fields &&
      event.fields["repo"].JObj? && "id" in event.fields["repo"].fields && "name" in event.fields["repo"].fields &&
      event.fields["actor"].JObj? && "id" in event.fields["actor"].fields)
    ensures r.Ok? ==> r.value == SilverRow(kind, event.fields["repo"].fields["id"], event.fields["repo"].fields["name"],
                                          event.fields["actor"].fields["id"], event.fields["created_at"])
    ensures r.Err? ==> r.error == KeyError || r.error == TypeError
  {
    var repo :- Subscript(event, "repo");
    var repoId :- Subscript(repo, "id");
    var repoName :- Subscript(repo, "name");
    var actor :- Subscript(event, "actor");
    var actorId :- Subscript(actor, "id");
    var createdAt :- Subscript(event, "created_at");
    Ok(SilverRow(kind, repoId, repoName, actorId, createdAt))
  }

  /** What the line loop does with one line. */
  datatype LineOutcome = Keep(row: SilverRow) | Skip | Escape(error: Failure)

  /** `event["type"] not in KEEP_EVENTS`: only a string equal to a kept kind passes. */
  predicate KeptKind(t: Json) {
    t.JStr? && t.s in KeepEvents
  }

  function ClassifyLine(codecs: Codecs, line: seq<byte>): (o: LineOutcome)
    ensures line == [] ==> o == Skip
    ensures line != [] && codecs.loads(line) == Malformed ==> o == Skip
    ensures line != [] && codecs.loads(line) == Undecodable ==> o == Escape(ValueError)
    ensures o.Keep? ==> o.row.eventType in KeepEvents
    ensures o.Keep? ==> (line != [] && codecs.loads(line).Parsed? &&
      var e := codecs.loads(line).value;
      e.JObj? && "type" in e.fields && e.fields["type"] == JStr(o.row.eventType) &&
      Subscript(e, "repo").Ok? && Subscript(e.fields["repo"], "id") == Ok(o.row.repoId) &&
      Subscript(e.fields["repo"], "name") == Ok(o.row.repoName) &&
      Subscript(e, "actor").Ok? && Subscript(e.fields["actor"], "id") == Ok(o.row.actorId) &&
      Subscript(e, "created_at") == Ok(o.row.createdAt))
    ensures (line != [] && codecs.loads(line).Parsed? && Subscript(codecs.loads(line).value, "type").Ok? &&
      !KeptKind(codecs.loads(line).value.fields["type"])) ==> o == Skip
  {
    if line == [] then Skip
    else match codecs.loads(line)
      case Malformed => Skip
      case Undecodable => Escape(ValueError)
      case Parsed(event) =>
        match Subscript(event, "type")
        case Err(e) => if e == KeyError then Skip else Escape(e)
        case Ok(kind) =>
          if !KeptKind(kind) then Skip
          else match Project(event, kind.s)
            case Ok(row) => Keep(row)
            case Err(e) => if e == KeyError then Skip else Escape(e)
  }

  /** No line of the hour raises past the line loop. */
  predicate NoEscape(codecs: Codecs, lines: seq<seq<byte>>) {
    forall i :: 0 <= i < |lines| ==> !ClassifyLine(codecs, lines[i]).Escape?
  }

  /** The index of the first line that raises past the line loop. */
  function FirstEscape(codecs: Codecs, lines: seq<seq<byte>>): (i: nat)
    requires !NoEscape(codecs, lines)
    ensures i < |lines| && ClassifyLine(codecs, lines[i]).Escape? && NoEscape(codecs, lines[..i])
  {
    var front := lines[..|lines| - 1];
    if NoEscape(codecs, front) then
      assert lines[..|lines| - 1] == front;
      |lines| - 1
    else
      var i := FirstEscape(codecs, front);
      assert lines[..i] == front[..i] && lines[i] == front[i];
      i
  }

  /** The first escaping line is the one before which no line escapes. */
  lemma FirstEscapeAt(codecs: Codecs, lines: seq<seq<byte>>, i: nat)
    requires i < |lines| && ClassifyLine(codecs, lines[i]).Escape? && NoEscape(codecs, lines[..i])
    ensures FirstEscape(codecs, lines) == i
  {
    var j := FirstEscape(codecs, lines);
    assert forall k :: 0 <= k < i ==> lines[..i][k] == lines[k];
    assert forall k :: 0 <= k < j ==> lines[..j][k] == lines[k];
  }

  /** The records the kept lines project to, in line order. */
  function Kept(codecs: Codecs, lines: seq<seq<byte>>): (rows: seq<SilverRow>)
    ensures |rows| <= |lines|
  {
    if lines == [] then []
    else
      var rest := Kept(codecs, lines[1..]);
      match ClassifyLine(codecs, lines[0])
      case Keep(row) => [row] + rest
      case _ => rest
  }

  /** Every record the line filter keeps is of a kept kind. */
  lemma {:induction false} KeptKinds(codecs: Codecs, lines: seq<seq<byte>>)
    ensures forall r :: r in Kept(codecs, lines) ==> r.eventType in KeepEvents
  {
    if lines != [] {
      KeptKinds(codecs, lines[1..]);
    }
  }

  /** Filtering distributes over concatenation: each line is judged on its own. */
  lemma {:induction false} KeptConcat(codecs: Codecs, a: seq<seq<byte>>, b: seq<seq<byte>>)
    ensures Kept(codecs, a + b) == Kept(codecs, a) + Kept(codecs, b)
  {
    if a == [] {
      assert a + b == b;
    } else {
      assert (a + b)[1..] == a[1..] + b;
      KeptConcat(codecs, a[1..], b);
    }
  }

  /** A dropped line (malformed, of another kind, missing a field, or empty)
      removes only itself: the lines around it are still processed. */
  lemma DroppedLine(codecs: Codecs, a: seq<seq<byte>>, bad: seq<byte>, b: seq<seq<byte>>)
    requires ClassifyLine(codecs, bad) == Skip
    ensures Kept(codecs, a + [bad] + b) == Kept(codecs, a) + Kept(codecs, b)
    ensures NoEscape(codecs, a + [bad] + b) <==> NoEscape(codecs, a) && NoEscape(codecs, b)
  {
    assert Kept(codecs, [bad]) == [] && NoEscape(codecs, [bad]) by {
      assert [bad][1..] == [];
    }
    var ab := a + [bad];
    KeptConcat(codecs, a, [bad]);
    NoEscapeConcat(codecs, a, [bad]);
    assert Kept(codecs, ab) == Kept(codecs, a) && (NoEscape(codecs, ab) <==> NoEscape(codecs, a));
    KeptConcat(codecs, ab, b);
    NoEscapeConcat(codecs, ab, b);
  }

  /** A line raises past the loop in a + b exactly when it does in a or in b. */
  lemma NoEscapeConcat(codecs: Codecs, a: seq<seq<byte>>, b: seq<seq<byte>>)
    ensures NoEscape(codecs, a + b) <==> NoEscape(codecs, a) && NoEscape(codecs, b)
  {
    var s := a + b;
    if NoEscape(codecs, a) && NoEscape(codecs, b) {
      forall i | 0 <= i < |s| ensures !ClassifyLine(codecs, s[i]).Escape? {
        if i < |a| { assert s[i] == a[i]; }
        else { assert s[i] == b[i - |a|]; }
      }
    }
    if NoEscape(codecs, s) {
      forall i | 0 <= i < |a| ensures !ClassifyLine(codecs, a[i]).Escape? {
        assert s[i] == a[i];
      }
      forall i | 0 <= i < |b| ensures !ClassifyLine(codecs, b[i]).Escape? {
        assert s[i + |a|] == b[i];
      }
    }
  }

  /** The line loop over one decompressed blob: the kept records, or the
      exception of the first line that escapes. */
  method RecordsOfLines(codecs: Codecs, lines: seq<seq<byte>>) returns (r: Result<seq<SilverRow>>)
    ensures r.Ok? <==> NoEscape(codecs, lines)
    ensures r.Ok? ==> r.value == Kept(codecs, lines)
    ensures r.Err? ==> r.error == ClassifyLine(codecs, lines[FirstEscape(codecs, lines)]).error
  {
    var records: seq<SilverRow> := [];
    var i := 0;
    while i < |lines|
      invariant 0 <= i <= |lines|
      invariant NoEscape(codecs, lines[..i])
      invariant records == Kept(codecs, lines[..i])
    {
      var outcome := ClassifyLine(codecs, lines[i]);
      assert lines[..i + 1] == lines[..i] + [lines[i]];
      KeptConcat(codecs, lines[..i], [lines[i]]);
      assert [lines[i]][1..] == [];
      match outcome {
        case Escape(e) =>
          assert !NoEscape(codecs, lines) by {
            assert !ClassifyLine(codecs, lines[i]).Escape? ==> false;
          }
          FirstEscapeAt(codecs, lines, i);
          return Err(e);
        case Skip =>
        case Keep(row) =>
          records := records + [row];
      }
      i := i + 1;
    }
    assert lines[..i] == lines;
    r := Ok(records);
  }

  /** The hourly key of ingest/silver.py:11, the same f-string as the one bronze writes. */
  function BronzeHourKey(date: string, hour: nat): Result<string>
  {
    var fields :- DateFields(date);
    var (year, month, day) := fields;
    Ok("bronze/year=" + year + "/month=" + month + "/day=" + day + "/hour=" + Pad(hour, 2) + "/events.json.gz")
  }

  /** Silver reads character for character the key bronze wrote for the same (date, hour). */
  lemma ReadsBronzeKey(date: string, hour: nat)
    ensures BronzeHourKey(date, hour) == Bronze.BronzeKey(date, hour)
  {
  }

  /** process_hour_to_records as a value: the hour's records, or the exception
      it raises: NoSuchKey for an absent key, DecompressError for a blob gzip
      cannot read, and otherwise the exception of the first line that escapes. */
  function HourRecords(objects: map<string, Blob>, codecs: Codecs, date: string, hour: nat): (r: Result<seq<SilverRow>>)
    ensures BronzeHourKey(date, hour).Ok? && BronzeHourKey(date, hour).value !in objects ==>
      r == Err(NoSuchKey(BronzeHourKey(date, hour).value))
    ensures r.Ok? ==> BronzeHourKey(date, hour).Ok? && BronzeHourKey(date, hour).value in objects
    ensures r.Ok? ==> forall k :: 0 <= k < |r.value| ==> r.value[k].eventType in KeepEvents
  {
    var key :- BronzeHourKey(date, hour);
    if key !in objects then Err(NoSuchKey(key))
    else match objects[key]
      case Bytes(compressed) =>
        (match codecs.gunzip(compressed)
         case None => Err(DecompressError)
         case Some(decompressed) =>
           var lines := Split(decompressed, Newline);
           if NoEscape(codecs, lines) then
             KeptKinds(codecs, lines);
             Ok(Kept(codecs, lines))
           else Err(ClassifyLine(codecs, lines[FirstEscape(codecs, lines)]).error))
      case _ => Err(DecompressError)
  }

  /** process_hour_to_records: read the hour's bronze blob, decompress it, run the line loop. */
  method ProcessHourToRecords(store: ObjectStore, codecs: Codecs, date: string, hour: nat) returns (r: Result<seq<SilverRow>>)
    ensures r == HourRecords(store.objects, codecs, date, hour)
  {
    var key := BronzeHourKey(date, hour);
    if key.Err? {
      return Err(key.error);
    }
    var response := store.Get(key.value);
    if response.Err? {
      return Err(response.error);
    }
    if !response.value.Bytes? {
      return Err(DecompressError);
    }
    var decompressed := codecs.gunzip(response.value.data);
    if decompressed.None? {
      return Err(DecompressError);
    }
    r := RecordsOfLines(codecs, Split(decompressed.value, Newline));
  }

  /** The records of hours 0 .. n-1 in hour order; an hour that raises
      contributes nothing, and a later hour never changes what earlier hours gave. */
  function DayRecords(objects: map<string, Blob>, codecs: Codecs, date: string, n: nat): (rows: seq<SilverRow>)
    ensures forall m :: 0 <= m < n ==> DayRecords(objects, codecs, date, m) <= rows
  {
    if n == 0 then []
    else
      var hour := HourRecords(objects, codecs, date, n - 1);
      DayRecords(objects, codecs, date, n - 1) + (if hour.Ok? then hour.value else [])
  }

  /** Every record of the day is of a kept kind and comes from a readable hour. */
  lemma {:induction false} DayRecordsKinds(objects: map<string, Blob>, codecs: Codecs, date: string, n: nat)
    ensures forall r :: r in DayRecords(objects, codecs, date, n) ==> r.eventType in KeepEvents
  {
    if n > 0 {
      DayRecordsKinds(objects, codecs, date, n - 1);
      var hour := HourRecords(objects, codecs, date, n - 1);
      if hour.Ok? {
        var key := BronzeHourKey(date, n - 1).value;
        var lines := Split(codecs.gunzip(objects[key].data).value, Newline);
        KeptKinds(codecs, lines);
      }
    }
  }

  /** With no readable hour the day has no records. */
  lemma {:induction false} NoReadableHourNoRecords(objects: map<string, Blob>, codecs: Codecs, date: string, n: nat)
    requires forall h :: 0 <= h < n ==> HourRecords(objects, codecs, date, h).Err?
    ensures DayRecords(objects, codecs, date, n) == []
  {
    if n > 0 {
      NoReadableHourNoRecords(objects, codecs, date, n - 1);
    }
  }

  /** pd.DataFrame(all_records). */
  function FrameOf(records: seq<SilverRow>): (f: SilverFrame)
    ensures f.NoColumns? <==> records == []
    ensures f.Table? ==> f.rows == records
  {
    if records == [] then NoColumns else Table(records)
  }

  /** The silver key f"silver/year={year}/month={month}/day={day}/events.parquet". */
  function SilverKey(date: string): (r: Result<string>)
    ensures r.Err? <==> DateFields(date).Err?
  {
    var fields :- DateFields(date);
    var (year, month, day) := fields;
    Ok("silver/year=" + year + "/month=" + month + "/day=" + day + "/events.parquet")
  }

  /** The table process_day_to_silver writes for the store's current bronze blobs. */
  function SilverTable(objects: map<string, Blob>, codecs: Codecs, date: string): SilverFrame
  {
    FrameOf(DayRecords(objects, codecs, date, Bronze.HoursPerDay))
  }

  /** process_day_to_silver: every hour is tried, failures are absorbed, and
      one table is written even when no hour could be read. */
  method ProcessDayToSilver(store: ObjectStore, codecs: Codecs, date: string) returns (r: Result<string>)
    modifies store
    ensures SilverKey(date).Err? ==> r == Err(ValueError) && store.objects == old(store.objects) && store.journal == old(store.journal)
    ensures SilverKey(date).Ok? ==>
      var key := SilverKey(date).value;
      var table := SilverTable(old(store.objects), codecs, date);
      r == (if key in store.rejected then Err(WriteRejected(key)) else Ok(key)) &&
      store.objects == (if key in store.rejected then old(store.objects) else old(store.objects)[key := SilverBlob(table)]) &&
      store.journal == (if key in store.rejected then old(store.journal) else old(store.journal) + [Wrote(key)])
  {
    var fields := DateFields(date);
    if fields.Err? {
      return Err(ValueError);
    }
    var allRecords: seq<SilverRow> := [];
    for hour := 0 to Bronze.HoursPerDay
      invariant store.objects == old(store.objects) && store.journal == old(store.journal)
      invariant allRecords == DayRecords(store.objects, codecs, date, hour)
    {
      var records := ProcessHourToRecords(store, codecs, date, hour);
      if records.Ok? {
        allRecords := allRecords + records.value;
      }
    }
    var key := SilverKey(date).value;
    r := store.Put(key, SilverBlob(FrameOf(allRecords)));
  }

  /** delete_silver_day: the date is unpacked outside the try, the delete inside it. */
  method DeleteSilverDay(store: ObjectStore, date: string) returns (r: Result<()>)
    modifies store
    ensures SilverKey(date).Err? ==> r == Err(ValueError) && store.objects == old(store.objects) && store.journal == old(store.journal)
    ensures SilverKey(date).Ok? ==>
      var key := SilverKey(date).value;
      r == Ok(()) &&
      store.objects == (if key in store.rejected then old(store.objects) else old(store.objects) - {key}) &&
      store.journal == (if key in store.rejected then old(store.journal) else old(store.journal) + [Removed(key)])
  {
    var key := SilverKey(date);
    if key.Err? {
      return Err(ValueError);
    }
    store.Delete(key.value);
    r := Ok(());
  }
}
