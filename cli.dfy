/**
 * The command line (main and handle_set_default in src/main.c):
 * `hilt [-s VERSION] [VERSION] REFERENCE... [-l]`.
 */
module Cli {
  import opened Wrappers
  import opened CStrings
  import opened Bridge
  import opened Config
  import opened Arguments
  import opened Results

  const SetFlag: CString := "-s"

  /** The version used when argv[1] is not a module and no default is stored. */
  const FallbackVersion: CString := "KJV"

  datatype ExitCode = ExitSuccess | ExitFailure

  /** What a run prints, at the level of which message and which results. */
  datatype Report =
    | Usage
    | MissingVersionName
    | SetDefault(warned: bool)
    | NoReference
    | Queried(version: CString, key: CString, listMode: bool, output: seq<Token>)

  /** The context sword_init creates over the installed modules. */
  function Engine(mgr: Manager): Option<Context>
  {
    Some(Context(Some(mgr)))
  }

  /**
   * handle_set_default: warns when `name` is not installed but saves anyway;
   * the exit status depends only on whether the save succeeded.
   */
  method HandleSetDefault(name: CString, mgr: Manager, store: ConfigStore) returns (status: ExitCode, warned: bool)
    modifies store
    ensures warned <==> !ModuleExists(Engine(mgr), Some(name))
    ensures status == ExitSuccess <==> ConfigPath(store.home).Some? && store.writable
    ensures store.file == if status == ExitSuccess then Some(name) else old(store.file)
  {
    var ctx := Engine(mgr);
    warned := !ModuleExists(ctx, Some(name));
    var saved := store.Save(name);
    status := if saved then ExitSuccess else ExitFailure;
  }

  /**
   * Query mode of main, given the default `stored` in the configuration:
   * argv[1] is the version when it is an installed module, and the reference
   * starts at index 2; otherwise the version is the stored default, or "KJV"
   * when there is none, and the reference starts at index 1. A missing or
   * empty reference fails without a query; otherwise the query's results are
   * printed and the run succeeds, whether or not anything was found.
   */
  ghost predicate QueryOutcome(argv: seq<CString>, mgr: Manager, stored: Option<CString>, status: ExitCode, report: Report)
    requires |argv| >= 2
  {
    var explicit := ModuleExists(Engine(mgr), Some(argv[1]));
    var start := if explicit then 2 else 1;
    var version := if explicit then argv[1] else stored.GetOr(FallbackVersion);
    var key := Join(argv, start);
    var listMode := HasListFlag(argv, start);
    if key.None? || key.value == [] then status == ExitFailure && report == NoReference
    else
      status == ExitSuccess &&
      report == Queried(version, key.value, listMode, Printed(Resolve(Engine(mgr), version, key.value), listMode))
  }

  /** sword_query followed by print_results. */
  method QueryAndPrint(ctx: Option<Context>, version: CString, key: CString, listMode: bool) returns (out: seq<Token>)
    ensures out == Printed(Resolve(ctx, version, key), listMode)
  {
    var iter := Query(ctx, version, key);
    var count;
    out, count := PrintResults(iter, listMode);
  }

  /** Query mode of main (from the engine's creation to the end). */
  method RunQuery(argv: seq<CString>, mgr: Manager, store: ConfigStore) returns (status: ExitCode, report: Report)
    requires |argv| >= 2 && argv[1] != SetFlag
    ensures QueryOutcome(argv, mgr, store.Load(), status, report)
  {
    var ctx := Engine(mgr);
    var version: CString;
    var key: Option<CString>;
    var listMode: bool;
    if ModuleExists(ctx, Some(argv[1])) {
      version := argv[1];
      key, listMode := JoinArguments(2, argv);
    } else {
      var loaded := store.Load();
      version := if loaded.Some? then loaded.value else FallbackVersion;
      key, listMode := JoinArguments(1, argv);
    }
    if key.None? || |key.value| == 0 {
      return ExitFailure, NoReference;
    }
    var out := QueryAndPrint(ctx, version, key.value, listMode);
    return ExitSuccess, Queried(version, key.value, listMode, out);
  }

  /**
   * main: fewer than two arguments, "-s" without a name, and a missing or
   * empty reference all fail before any query; "-s NAME" runs
   * handle_set_default; everything else is query mode.
   */
  method Run(argv: seq<CString>, mgr: Manager, store: ConfigStore) returns (status: ExitCode, report: Report)
    modifies store
    ensures |argv| < 2 ==> status == ExitFailure && report == Usage && store.file == old(store.file)
    ensures |argv| == 2 && argv[1] == SetFlag ==>
      status == ExitFailure && report == MissingVersionName && store.file == old(store.file)
    ensures |argv| >= 3 && argv[1] == SetFlag ==>
      report == SetDefault(!ModuleExists(Engine(mgr), Some(argv[2]))) &&
      (status == ExitSuccess <==> ConfigPath(store.home).Some? && store.writable) &&
      store.file == (if status == ExitSuccess then Some(argv[2]) else old(store.file))
    ensures |argv| >= 2 && argv[1] != SetFlag ==>
      store.file == old(store.file) && QueryOutcome(argv, mgr, old(store.Load()), status, report)
    ensures report.Queried? ==> |argv| >= 2 && argv[1] != SetFlag && report.key != []
  {
    if |argv| < 2 {
      return ExitFailure, Usage;
    }
    if argv[1] == SetFlag {
      if |argv| < 3 {
        return ExitFailure, MissingVersionName;
      }
      var warned;
      status, warned := HandleSetDefault(argv[2], mgr, store);
      return status, SetDefault(warned);
    }
    status, report := RunQuery(argv, mgr, store);
  }
}
