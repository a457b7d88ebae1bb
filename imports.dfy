/** Name resolution of the orchestration scripts' `from M import a, b` lines.
    A module's namespace is every top-level name it binds (its own definitions
    and the names it imports); `from M import a, b` binds the names in order and
    raises ImportError at the first one M does not bind. Locating the module
    files on the search path is not modelled: every module named here is taken
    to load. */
module Imports {
  import opened Wrappers

  /** A loaded Python module: its name and the top-level names it binds. */
  datatype PyModule = PyModule(name: string, names: set<string>)

  /** One `from M import n1, n2, ...` statement. */
  datatype FromImport = FromImport(source: PyModule, wanted: seq<string>)

  /** ingest/bronze.py: four import lines and three definitions. */
  function BronzeModule(): PyModule {
    PyModule("bronze", {"requests", "gzip", "datetime", "timedelta", "get_s3_client", "R2_BUCKET",
                        "download_hour", "upload_to_bronze", "ingest_hour"})
  }

  /** ingest/silver.py: five import lines, KEEP_EVENTS and three definitions. */
  function SilverModule(): PyModule {
    PyModule("silver", {"gzip", "json", "pd", "BytesIO", "get_s3_client", "R2_BUCKET", "KEEP_EVENTS",
                        "process_hour_to_records", "process_day_to_silver", "delete_silver_day"})
  }

  /** ingest/gold.py: three import lines and three definitions. */
  function GoldModule(): PyModule {
    PyModule("gold", {"pd", "BytesIO", "get_s3_client", "R2_BUCKET",
                      "load_silver_day", "build_daily_metrics", "process_day_to_gold"})
  }

  /** Position i of `wanted` is the first name the module lacks. */
  predicate FirstMissing(m: PyModule, wanted: seq<string>, i: int) {
    0 <= i < |wanted| && wanted[i] !in m.names && forall j :: 0 <= j < i ==> wanted[j] in m.names
  }

  /** One from-import: Ok when every wanted name is bound, else ImportError
      naming the first that is not. */
  function ImportNames(m: PyModule, wanted: seq<string>): (r: Result<()>)
    ensures r.Ok? <==> forall i :: 0 <= i < |wanted| ==> wanted[i] in m.names
    ensures r.Err? ==> exists i :: FirstMissing(m, wanted, i) && r.error == ImportError(wanted[i])
  {
    if |wanted| == 0 then Ok(())
    else if wanted[0] !in m.names then
      assert FirstMissing(m, wanted, 0);
      Err(ImportError(wanted[0]))
    else
      var r := ImportNames(m, wanted[1..]);
      if r.Err? then
        var i :| FirstMissing(m, wanted[1..], i) && r.error == ImportError(wanted[1..][i]);
        assert FirstMissing(m, wanted, i + 1);
        r
      else
        assert forall i :: 1 <= i < |wanted| ==> wanted[i] == wanted[1..][i - 1];
        r
  }

  /** A script's import lines, run top to bottom: the first failing line's
      ImportError ends the script before any of its statements run. */
  function RunImports(lines: seq<FromImport>): (r: Result<()>)
    ensures r.Ok? <==> forall i :: 0 <= i < |lines| ==> ImportNames(lines[i].source, lines[i].wanted).Ok?
  {
    if |lines| == 0 then Ok(())
    else
      var _ :- ImportNames(lines[0].source, lines[0].wanted);
      var r := RunImports(lines[1..]);
      assert forall i :: 1 <= i < |lines| ==> lines[i] == lines[1..][i - 1];
      r
  }

  /** ingest/daily_ingest.py:5-7 as written. */
  function DailyImports(): seq<FromImport> {
    [FromImport(BronzeModule(), ["ingest_hour", "delete_bronze_day"]),
     FromImport(SilverModule(), ["process_day_to_silver", "delete_silver_day"]),
     FromImport(GoldModule(), ["process_day_to_gold"])]
  }

  /** ingest/backfill.py:2-3 as written. */
  function BackfillImports(): seq<FromImport> {
    [FromImport(BronzeModule(), ["ingest_hour"]),
     FromImport(SilverModule(), ["process_day_to_silver", "delete_bronze_day"])]
  }

  /** The daily script stops at its first import line: bronze binds no delete_bronze_day. */
  lemma DailyCannotStart()
    ensures RunImports(DailyImports()) == Err(ImportError("delete_bronze_day"))
  {
    var b := BronzeModule();
    assert "ingest_hour" in b.names;
    assert "delete_bronze_day" !in b.names;
  }

  /** The backfill stops at its second import line: silver binds no delete_bronze_day. */
  lemma BackfillCannotStart()
    ensures RunImports(BackfillImports()) == Err(ImportError("delete_bronze_day"))
  {
    var b, s := BronzeModule(), SilverModule();
    assert "ingest_hour" in b.names;
    assert ImportNames(b, ["ingest_hour"]) == Ok(());
    assert "process_day_to_silver" in s.names;
    assert "delete_bronze_day" !in s.names;
  }

  /** The evidently intended ingest/bronze.py: it also defines delete_bronze_day,
      the removal of a date's 24 hourly keys (Orchestration.RemoveBronzeDay). */
  function BronzeModuleWithDelete(): PyModule {
    PyModule("bronze", BronzeModule().names + {"delete_bronze_day"})
  }

  /** The corrected import lines: delete_bronze_day comes from the bronze module in both scripts. */
  function CorrectedDailyImports(): seq<FromImport> {
    [FromImport(BronzeModuleWithDelete(), ["ingest_hour", "delete_bronze_day"]),
     FromImport(SilverModule(), ["process_day_to_silver", "delete_silver_day"]),
     FromImport(GoldModule(), ["process_day_to_gold"])]
  }

  function CorrectedBackfillImports(): seq<FromImport> {
    [FromImport(BronzeModuleWithDelete(), ["ingest_hour"]),
     FromImport(SilverModule(), ["process_day_to_silver"]),
     FromImport(BronzeModuleWithDelete(), ["delete_bronze_day"])]
  }

  /** With delete_bronze_day defined in bronze, every import line of the daily script resolves. */
  lemma CorrectedDailyStarts()
    ensures RunImports(CorrectedDailyImports()).Ok?
  {
    var b, s, g := BronzeModuleWithDelete(), SilverModule(), GoldModule();
    assert "ingest_hour" in b.names && "delete_bronze_day" in b.names;
    assert "process_day_to_silver" in s.names && "delete_silver_day" in s.names;
    assert "process_day_to_gold" in g.names;
  }

  /** ... and so does every import line of the backfill. */
  lemma CorrectedBackfillStarts()
    ensures RunImports(CorrectedBackfillImports()).Ok?
  {
    var b, s := BronzeModuleWithDelete(), SilverModule();
    assert "ingest_hour" in b.names && "delete_bronze_day" in b.names;
    assert "process_day_to_silver" in s.names;
  }
}
