/**
 * The second-generation scanner (`ibeacon_scanner/services.py`): no scanner object; the
 * settings and the last scan live in two JSON files that every operation reads and rewrites
 * through the bounded-retry helpers. The file system is a map from path to stored dictionary,
 * and each read or write receives its own attempt outcomes (see `Persistence`).
 * `_write_local_cache_file` and `_read_local_cache_file` are the same code as
 * `write_local_cache_file` and `read_local_cache_file` with the path argument called `name`,
 * and are modelled by `Persistence.WriteLocalCacheFile` and `Persistence.ReadLocalCacheFile`.
 */
module IBeaconScannerServices {
  import opened Wrappers
  import opened BeaconModel
  import opened PyValues
  import opened Persistence
  import SettingsRules

  const BEACONS_DATA_FILE: string := "/local/storage/ibeacon_data.json"
  const SCANNER_SETTINGS_FILE: string := "/local/storage/ibeacon_scanner_settings.json"

  /** The files the scanner keeps: path to stored dictionary. */
  type Files = map<string, Dict>

  // ---------------------------------------------------------------------------
  // The beacons cache file
  // ---------------------------------------------------------------------------

  /**
   * `_render_beacons_data(beacons_list)`: the nearest beacon's fields (`None` for an empty list)
   * and every beacon's fields in list order (`[]` for an empty list).
   */
  function RenderBeaconsData(beacons: seq<Beacon>): (r: Dict)
    ensures r.Keys == {"nearest_beacon", "beacons_list"}
    ensures r["nearest_beacon"] == PyNone <==> beacons == []
    ensures beacons != [] ==> r["nearest_beacon"] == PyBeaconDict(beacons[0])
    ensures r["beacons_list"].PyList? && |r["beacons_list"].items| == |beacons|
    ensures forall i :: 0 <= i < |beacons| ==> r["beacons_list"].items[i] == PyBeaconDict(beacons[i])
  {
    map["nearest_beacon" := BeaconOrNone(HeadOf(beacons)),
        "beacons_list" := PyList(BeaconDicts(beacons))]
  }

  /**
   * `[IBeacon(**beacon_data) for beacon_data in last_beacons_list] if last_beacons_list else []`.
   * A falsy value is the empty list; a list of beacon dictionaries gives those beacons; any other
   * truthy value (not iterable, or holding items that are not beacon fields) raises `TypeError`.
   */
  function ParseBeaconsList(v: Value): (r: Result<seq<Beacon>, PyError>)
    ensures !Truthy(v) ==> r == Ok([])
    ensures r.Err? ==> r.error == TypeError
    ensures r.Ok? <==> !Truthy(v) || (v.PyList? && forall i :: 0 <= i < |v.items| ==> v.items[i].PyBeaconDict?)
    ensures r.Ok? && Truthy(v) ==> BeaconDicts(r.value) == v.items
  {
    if !Truthy(v) then Ok([])
    else if v.PyList? && forall i :: 0 <= i < |v.items| ==> v.items[i].PyBeaconDict? then
      Ok(seq(|v.items|, i requires 0 <= i < |v.items| => v.items[i].beacon))
    else Err(TypeError)
  }

  /** The beacons list stored in a beacons cache dictionary: `KeyError` when the key is absent. */
  function LastBeaconList(data: Dict): (r: Result<seq<Beacon>, PyError>)
    ensures "beacons_list" !in data ==> r == Err(KeyError("beacons_list"))
    ensures "beacons_list" in data ==> r == ParseBeaconsList(data["beacons_list"])
  {
    if "beacons_list" !in data then Err(KeyError("beacons_list"))
    else ParseBeaconsList(data["beacons_list"])
  }

  /** Rendering a list and reading it back gives the same list. */
  lemma RenderThenParse(beacons: seq<Beacon>)
    ensures LastBeaconList(RenderBeaconsData(beacons)) == Ok(beacons)
  {
    var items := BeaconDicts(beacons);
    if beacons != [] {
      assert Truthy(PyList(items));
      assert seq(|items|, i requires 0 <= i < |items| => items[i].beacon) == beacons;
    }
  }

  /**
   * `_get_last_beacon_list_from_cache_file()`. When every read attempt fails the read gives `{}`
   * and indexing it raises `KeyError`.
   */
  method GetLastBeaconListFromCacheFile(files: Files, ok: seq<bool>) returns (r: Result<seq<Beacon>, PyError>)
    ensures r == LastBeaconList(ReadSpec(files, BEACONS_DATA_FILE, ok))
    ensures !(BEACONS_DATA_FILE in files && AnyAttemptOk(ok)) ==> r == Err(KeyError("beacons_list"))
  {
    var data, _, _ := ReadLocalCacheFile(files, Passed(BEACONS_DATA_FILE), ok);
    r := LastBeaconList(data.value);
  }

  // ---------------------------------------------------------------------------
  // Scans
  // ---------------------------------------------------------------------------

  /**
   * `_scan_beacons(**scanner_settings)`: the radio filter needs `uuid_filter` and the wait
   * needs `scan_tick`, so either missing raises `KeyError`. `observations` are the packets the
   * radio delivers during the wait; the callback appends each one no `==` beacon precedes.
   */
  method ScanBeacons(settings: Dict, observations: seq<Beacon>) returns (r: Result<seq<Beacon>, PyError>)
    ensures "uuid_filter" !in settings ==> r == Err(KeyError("uuid_filter"))
    ensures "uuid_filter" in settings && "scan_tick" !in settings ==> r == Err(KeyError("scan_tick"))
    ensures "uuid_filter" in settings && "scan_tick" in settings ==> r == Ok(Dedup(observations))
    ensures r.Ok? ==> NoDuplicates(r.value) && forall i :: 0 <= i < |observations| ==> ContainsSame(r.value, observations[i])
  {
    if "uuid_filter" !in settings {
      return Err(KeyError("uuid_filter"));
    }
    var beaconsList := [];
    var i := 0;
    while i < |observations|
      invariant 0 <= i <= |observations|
      invariant beaconsList == Dedup(observations[..i])
    {
      assert observations[..i + 1][..i] == observations[..i];
      if !ContainsSame(beaconsList, observations[i]) {
        beaconsList := beaconsList + [observations[i]];
      }
      i := i + 1;
    }
    assert observations[..i] == observations;
    if "scan_tick" !in settings {
      return Err(KeyError("scan_tick"));
    }
    DedupHasNoDuplicates(observations);
    DedupCovers(observations);
    r := Ok(beaconsList);
  }

  /**
   * `_scan_beacons_fake(**scanner_settings)`: the three simulated beacons under the configured
   * `UUID_FILTER`, with the RSSI values `random.randint(1, 100) * -1` drew; the wait needs
   * `scan_tick`.
   */
  function ScanBeaconsFake(settings: Dict, uuidFilter: string, rssi1: int, rssi2: int, rssi3: int): (r: Result<seq<Beacon>, PyError>)
    requires -100 <= rssi1 <= -1 && -100 <= rssi2 <= -1 && -100 <= rssi3 <= -1
    ensures "scan_tick" !in settings ==> r == Err(KeyError("scan_tick"))
    ensures "scan_tick" in settings ==> r.Ok? && |r.value| == 3 && NoDuplicates(r.value)
    ensures r.Ok? ==> forall i :: 0 <= i < |r.value| ==> r.value[i].uuid == uuidFilter && -100 <= r.value[i].rssi <= -1
  {
    if "scan_tick" !in settings then Err(KeyError("scan_tick"))
    else Ok(FakeRoster(uuidFilter, rssi1, rssi2, rssi3))
  }

  /**
   * `_is_nearest_beacon_changes(last_beacons_list, new_beacons_list)`: no change when both are
   * empty, a change when exactly one is, otherwise a change iff the heads' keys differ.
   */
  function IsNearestBeaconChanges(last: seq<Beacon>, current: seq<Beacon>): (r: bool)
    ensures r <==> !SameIdentity(HeadOf(last), HeadOf(current))
  {
    if last == [] && current == [] then false
    else if last == [] || current == [] then true
    else Key(last[0]) != Key(current[0])
  }

  /** Python's `a == b` on two lists of beacons: the same length and `==` element by element. */
  predicate SameList(a: seq<Beacon>, b: seq<Beacon>) {
    |a| == |b| && forall i :: 0 <= i < |a| ==> Same(a[i], b[i])
  }

  // ---------------------------------------------------------------------------
  // One iteration of the scanner loop
  // ---------------------------------------------------------------------------

  /** How one pass of the `while 1` body ends. */
  datatype IterationOutcome =
      /** `run_flag` is falsy: nothing is scanned and nothing written. */
    | Idle
      /**
       * A scan was made and the beacons cache write attempted: `current` and `last` are the new
       * and the cached list, both sorted; the events carry the payloads published, if any.
       */
    | Completed(current: seq<Beacon>, last: seq<Beacon>, nearestEvent: Option<Value>, readEvent: Option<Dict>)
      /** The exception that ends the loop's thread. */
    | Raised(error: PyError)

  /**
   * The scan step of a pass (`_scan_beacons_fake` when `fake_scan` is truthy, `_scan_beacons`
   * otherwise), with the exceptions each raises.
   */
  method ScanForPass(settings: Dict, observations: seq<Beacon>, uuidFilter: string, rssi1: int, rssi2: int, rssi3: int)
    returns (r: Result<seq<Beacon>, PyError>)
    requires "fake_scan" in settings
    requires -100 <= rssi1 <= -1 && -100 <= rssi2 <= -1 && -100 <= rssi3 <= -1
    ensures !Truthy(settings["fake_scan"]) && "uuid_filter" !in settings ==> r == Err(KeyError("uuid_filter"))
    ensures (Truthy(settings["fake_scan"]) || "uuid_filter" in settings) && "scan_tick" !in settings ==> r == Err(KeyError("scan_tick"))
    ensures (Truthy(settings["fake_scan"]) || "uuid_filter" in settings) && "scan_tick" in settings ==>
      r == Ok(if Truthy(settings["fake_scan"]) then FakeRoster(uuidFilter, rssi1, rssi2, rssi3) else Dedup(observations))
  {
    if Truthy(settings["fake_scan"]) {
      r := ScanBeaconsFake(settings, uuidFilter, rssi1, rssi2, rssi3);
    } else {
      r := ScanBeacons(settings, observations);
    }
  }

  /**
   * The rest of a pass once the scan is sorted: the cached list is read back and sorted, the
   * events are decided against it, and the rendered scan is written to the beacons cache. A
   * cache that cannot be parsed raises and nothing is written.
   */
  method CompletePass(files: Files, current: seq<Beacon>, beaconsOk: seq<bool>, writeOk: seq<WriteAttempt>)
    returns (outcome: IterationOutcome, files': Files)
    requires SortedByRssi(current)
    ensures var cache := LastBeaconList(ReadSpec(files, BEACONS_DATA_FILE, beaconsOk));
      && (cache.Err? ==> outcome == Raised(cache.error) && files' == files)
      && (cache.Ok? ==> outcome.Completed? && outcome.current == current && outcome.last == SortByRssi(cache.value))
    ensures outcome.Completed? ==>
      && SortedByRssi(outcome.last)
      && (outcome.nearestEvent.Some? <==> IsNearestBeaconChanges(outcome.last, outcome.current))
      && (outcome.nearestEvent.Some? ==> outcome.nearestEvent.value == BeaconOrNone(HeadOf(outcome.current)))
      && (outcome.readEvent.Some? <==> outcome.current != [] && !SameList(outcome.current, outcome.last))
      && (outcome.readEvent.Some? ==> outcome.readEvent.value == RenderBeaconsData(outcome.current))
      && (SameList(outcome.last, outcome.current) ==> outcome.nearestEvent.None? && outcome.readEvent.None?)
      && files' == WriteSpec(files, BEACONS_DATA_FILE, RenderBeaconsData(outcome.current), writeOk)
  {
    var lastRead := GetLastBeaconListFromCacheFile(files, beaconsOk);
    if lastRead.Err? {
      return Raised(lastRead.error), files;
    }
    var last := SortByRssi(lastRead.value);
    var beaconsData := RenderBeaconsData(current);
    var nearestEvent := None;
    if IsNearestBeaconChanges(last, current) {
      nearestEvent := Some(beaconsData["nearest_beacon"]);
    }
    var readEvent := None;
    if current != [] && !SameList(current, last) {
      readEvent := Some(beaconsData);
    }
    if SameList(last, current) {
      RepeatedScanIsQuiet(last, current);
    }
    var written, _, _ := WriteLocalCacheFile(files, Passed(BEACONS_DATA_FILE), Passed(Some(beaconsData)), writeOk);
    files' := written;
    outcome := Completed(current, last, nearestEvent, readEvent);
  }

  /**
   * One pass of `_run_scanner_loop`. The settings are read (`{}` when every attempt fails); a
   * falsy `run_flag` skips the pass; otherwise the fake or the real scan runs, the cached list is
   * read back, both lists are sorted, the nearest-change and read events are decided, and the
   * rendered scan is written to the beacons cache. An exception ends the loop; a pass whose
   * cache write fails still completes, and the loop goes on.
   */
  method RunScannerLoopIteration(files: Files, settingsOk: seq<bool>, beaconsOk: seq<bool>, writeOk: seq<WriteAttempt>,
                                 observations: seq<Beacon>, uuidFilter: string, rssi1: int, rssi2: int, rssi3: int)
    returns (outcome: IterationOutcome, files': Files)
    requires -100 <= rssi1 <= -1 && -100 <= rssi2 <= -1 && -100 <= rssi3 <= -1
    ensures var settings := ReadSpec(files, SCANNER_SETTINGS_FILE, settingsOk);
      var cache := LastBeaconList(ReadSpec(files, BEACONS_DATA_FILE, beaconsOk));
      var running := "run_flag" in settings && Truthy(settings["run_flag"]) && "fake_scan" in settings;
      var fake := running && Truthy(settings["fake_scan"]);
      var scans := running && (fake || "uuid_filter" in settings) && "scan_tick" in settings;
      && ("run_flag" !in settings ==> outcome == Raised(KeyError("run_flag")))
      && ("run_flag" in settings && !Truthy(settings["run_flag"]) ==> outcome == Idle)
      && ("run_flag" in settings && Truthy(settings["run_flag"]) && "fake_scan" !in settings ==> outcome == Raised(KeyError("fake_scan")))
      && (running && !fake && "uuid_filter" !in settings ==> outcome == Raised(KeyError("uuid_filter")))
      && (running && (fake || "uuid_filter" in settings) && "scan_tick" !in settings ==> outcome == Raised(KeyError("scan_tick")))
      && (scans && cache.Err? ==> outcome == Raised(cache.error))
      && (scans && !(BEACONS_DATA_FILE in files && AnyAttemptOk(beaconsOk)) ==> outcome == Raised(KeyError("beacons_list")))
      && (outcome.Completed? <==> scans && cache.Ok?)
      && (outcome.Completed? ==>
          && outcome.current == SortByRssi(if fake then FakeRoster(uuidFilter, rssi1, rssi2, rssi3) else Dedup(observations))
          && outcome.last == SortByRssi(cache.value))
    ensures !outcome.Completed? ==> files' == files
    ensures outcome.Completed? ==>
      && SortedByRssi(outcome.current) && SortedByRssi(outcome.last)
      && (outcome.nearestEvent.Some? <==> IsNearestBeaconChanges(outcome.last, outcome.current))
      && (outcome.nearestEvent.Some? ==> outcome.nearestEvent.value == BeaconOrNone(HeadOf(outcome.current)))
      && (outcome.readEvent.Some? <==> outcome.current != [] && !SameList(outcome.current, outcome.last))
      && (outcome.readEvent.Some? ==> outcome.readEvent.value == RenderBeaconsData(outcome.current))
      && (SameList(outcome.last, outcome.current) ==> outcome.nearestEvent.None? && outcome.readEvent.None?)
      && files' == WriteSpec(files, BEACONS_DATA_FILE, RenderBeaconsData(outcome.current), writeOk)
  {
    var settingsRead, _, _ := ReadLocalCacheFile(files, Passed(SCANNER_SETTINGS_FILE), settingsOk);
    var settings := settingsRead.value;
    if "run_flag" !in settings {
      return Raised(KeyError("run_flag")), files;
    }
    if !Truthy(settings["run_flag"]) {
      return Idle, files;
    }
    if "fake_scan" !in settings {
      return Raised(KeyError("fake_scan")), files;
    }
    var scanned := ScanForPass(settings, observations, uuidFilter, rssi1, rssi2, rssi3);
    if scanned.Err? {
      return Raised(scanned.error), files;
    }
    outcome, files' := CompletePass(files, SortByRssi(scanned.value), beaconsOk, writeOk);
  }

  /**
   * What an iteration writes is what the next one compares against: once the write and the next
   * read succeed, the cached list comes back unchanged and re-sorting it changes nothing.
   */
  lemma WrittenScanIsNextLast(files: Files, current: seq<Beacon>, writeOk: seq<WriteAttempt>, readOk: seq<bool>)
    requires SortedByRssi(current) && AnyWritten(writeOk) && AnyAttemptOk(readOk)
    ensures var next := ReadSpec(WriteSpec(files, BEACONS_DATA_FILE, RenderBeaconsData(current), writeOk), BEACONS_DATA_FILE, readOk);
      LastBeaconList(next) == Ok(current) && SortByRssi(current) == current
  {
    ReadAfterWrite(files, BEACONS_DATA_FILE, RenderBeaconsData(current), writeOk, readOk);
    RenderThenParse(current);
    SortOfSortedIsIdentity(current);
  }

  /**
   * A cache write that empties the file and never completes makes the next pass that scans
   * raise `KeyError('beacons_list')`: the cached list reads back as `{}`.
   */
  lemma TruncatedCacheEndsLoop(files: Files, current: seq<Beacon>, writeOk: seq<WriteAttempt>, readOk: seq<bool>)
    requires !AnyWritten(writeOk) && AnyTruncated(writeOk)
    ensures var next := ReadSpec(WriteSpec(files, BEACONS_DATA_FILE, RenderBeaconsData(current), writeOk), BEACONS_DATA_FILE, readOk);
      LastBeaconList(next) == Err(KeyError("beacons_list"))
  {
    TruncatedWriteLosesFile(files, BEACONS_DATA_FILE, RenderBeaconsData(current), writeOk, readOk);
  }

  /**
   * A scan `==` to the cached list (same length, `==` beacons position by position) publishes
   * neither event: the heads are `==`, and the lists compare equal the other way round too.
   */
  lemma RepeatedScanIsQuiet(last: seq<Beacon>, current: seq<Beacon>)
    requires SameList(last, current)
    ensures !IsNearestBeaconChanges(last, current)
    ensures SameList(current, last)
  {
    if last != [] {
      assert Same(last[0], current[0]);
    }
  }

  /**
   * A fake pass that completes caches one of the three simulated beacons as the nearest, with
   * an RSSI in [-100, -1], even when every write attempt then fails.
   */
  lemma FakePassNearest(uuidFilter: string, rssi1: int, rssi2: int, rssi3: int)
    requires -100 <= rssi1 <= -1 && -100 <= rssi2 <= -1 && -100 <= rssi3 <= -1
    ensures var current := SortByRssi(FakeRoster(uuidFilter, rssi1, rssi2, rssi3));
      && RenderBeaconsData(current)["nearest_beacon"].PyBeaconDict?
      && RenderBeaconsData(current)["nearest_beacon"].beacon.macAddress in {"11:11:11", "22:22:22", "33:33:33"}
      && -100 <= RenderBeaconsData(current)["nearest_beacon"].beacon.rssi <= -1
  {
    FakeRosterNearest(uuidFilter, rssi1, rssi2, rssi3);
  }

  // ---------------------------------------------------------------------------
  // Initialisation
  // ---------------------------------------------------------------------------

  /** `[IBeacon("","",0,0,0,0) for _ in range(capacity)]`. */
  function InitialBeacons(capacity: int): (r: seq<Beacon>)
    ensures |r| == (if capacity > 0 then capacity else 0)
    ensures forall i :: 0 <= i < |r| ==> r[i] == DefaultBeacon()
  {
    seq(if capacity > 0 then capacity else 0, _ => DefaultBeacon())
  }

  /**
   * `ibeacon_init_scanner()` up to the start of the scanner loop: the configured settings are
   * written to the settings file, then a list of `capacity` default beacons to the beacons cache.
   */
  method IbeaconInitScanner(files: Files, uuidFilter: Value, scanTick: Value, runFlag: Value, fakeScan: Value,
                            capacity: int, settingsWriteOk: seq<WriteAttempt>, beaconsWriteOk: seq<WriteAttempt>)
    returns (files': Files)
    ensures var settings := map["uuid_filter" := uuidFilter, "scan_tick" := scanTick, "run_flag" := runFlag, "fake_scan" := fakeScan];
      files' == WriteSpec(WriteSpec(files, SCANNER_SETTINGS_FILE, settings, settingsWriteOk),
                          BEACONS_DATA_FILE, RenderBeaconsData(InitialBeacons(capacity)), beaconsWriteOk)
  {
    var scannerSettings := map["uuid_filter" := uuidFilter, "scan_tick" := scanTick, "run_flag" := runFlag, "fake_scan" := fakeScan];
    var f1, _, _ := WriteLocalCacheFile(files, Passed(SCANNER_SETTINGS_FILE), Passed(Some(scannerSettings)), settingsWriteOk);
    var initialBeaconsData := RenderBeaconsData(InitialBeacons(capacity));
    var f2, _, _ := WriteLocalCacheFile(f1, Passed(BEACONS_DATA_FILE), Passed(Some(initialBeaconsData)), beaconsWriteOk);
    files' := f2;
  }

  /**
   * The first pass after initialisation compares against the default beacons: with a positive
   * capacity it reports a change exactly when the scan is empty or its nearest key is not `"00"`;
   * with no capacity, exactly when the scan is non-empty.
   */
  lemma FirstPassAgainstInitialCache(capacity: int, current: seq<Beacon>)
    ensures LastBeaconList(RenderBeaconsData(InitialBeacons(capacity))) == Ok(InitialBeacons(capacity))
    ensures SortByRssi(InitialBeacons(capacity)) == InitialBeacons(capacity)
    ensures capacity > 0 ==>
      (IsNearestBeaconChanges(InitialBeacons(capacity), current) <==> current == [] || Key(current[0]) != "00")
    ensures capacity <= 0 ==> (IsNearestBeaconChanges(InitialBeacons(capacity), current) <==> current != [])
  {
    var init := InitialBeacons(capacity);
    RenderThenParse(init);
    SortOfSortedIsIdentity(init);
    DefaultBeaconKey();
  }

  // ---------------------------------------------------------------------------
  // Settings
  // ---------------------------------------------------------------------------

  /**
   * `ibeacon_set_scanner_settings(**kwargs)`, with the keyword names already lower-cased. The
   * stored settings are read and updated by the shared rule with bounds `lo` and `hi`, then read
   * again; only when the update differs (under Python's `==`) from that second read are they
   * passed to `config_write` (returned as `configWrite`) and written back.
   */
  method IbeaconSetScannerSettings(files: Files, kwargs: Dict, lo: int, hi: int,
                                   readOk: seq<bool>, rereadOk: seq<bool>, writeOk: seq<WriteAttempt>)
    returns (files': Files, configWrite: Option<Dict>)
    ensures var updated := ReadSpec(files, SCANNER_SETTINGS_FILE, readOk) + SettingsRules.AcceptedUpdates(kwargs, lo, hi);
      && (configWrite.Some? <==> !DictEq(updated, ReadSpec(files, SCANNER_SETTINGS_FILE, rereadOk)))
      && (configWrite.Some? ==> configWrite.value == updated && files' == WriteSpec(files, SCANNER_SETTINGS_FILE, updated, writeOk))
      && (configWrite.None? ==> files' == files)
  {
    var currentRead, _, _ := ReadLocalCacheFile(files, Passed(SCANNER_SETTINGS_FILE), readOk);
    var currentSettings := SettingsRules.ApplySettingsUpdate(currentRead.value, kwargs, lo, hi);
    var stored, _, _ := ReadLocalCacheFile(files, Passed(SCANNER_SETTINGS_FILE), rereadOk);
    files', configWrite := files, None;
    if !DictEq(currentSettings, stored.value) {
      configWrite := Some(currentSettings);
      var written, _, _ := WriteLocalCacheFile(files, Passed(SCANNER_SETTINGS_FILE), Passed(Some(currentSettings)), writeOk);
      files' := written;
    }
  }

  /** With nothing accepted and both reads seeing the same settings, nothing is written. */
  lemma NoAcceptedUpdateWritesNothing(files: Files, kwargs: Dict, lo: int, hi: int, readOk: seq<bool>, rereadOk: seq<bool>)
    requires SettingsRules.AcceptedUpdates(kwargs, lo, hi) == map[]
    requires ReadSpec(files, SCANNER_SETTINGS_FILE, readOk) == ReadSpec(files, SCANNER_SETTINGS_FILE, rereadOk)
    ensures DictEq(ReadSpec(files, SCANNER_SETTINGS_FILE, readOk) + SettingsRules.AcceptedUpdates(kwargs, lo, hi),
                   ReadSpec(files, SCANNER_SETTINGS_FILE, rereadOk))
  {
    SettingsRules.NothingAcceptedIsNoChange(ReadSpec(files, SCANNER_SETTINGS_FILE, readOk), kwargs, lo, hi);
  }

  /** Repeating an update whose result is already stored writes nothing. */
  lemma RepeatedUpdateWritesNothing(files: Files, kwargs: Dict, lo: int, hi: int, readOk: seq<bool>, rereadOk: seq<bool>)
    requires SCANNER_SETTINGS_FILE in files && AnyAttemptOk(readOk) && AnyAttemptOk(rereadOk)
    requires exists before :: files[SCANNER_SETTINGS_FILE] == before + SettingsRules.AcceptedUpdates(kwargs, lo, hi)
    ensures DictEq(ReadSpec(files, SCANNER_SETTINGS_FILE, readOk) + SettingsRules.AcceptedUpdates(kwargs, lo, hi),
                   ReadSpec(files, SCANNER_SETTINGS_FILE, rereadOk))
  {
    var before :| files[SCANNER_SETTINGS_FILE] == before + SettingsRules.AcceptedUpdates(kwargs, lo, hi);
    SettingsRules.UpdateIsIdempotent(before, kwargs, lo, hi);
    DictEqReflexive(files[SCANNER_SETTINGS_FILE]);
  }

  /**
   * When the first read fails and the second succeeds, the settings written are the accepted
   * arguments alone: a stored `run_flag` the arguments do not set is dropped. Once that write and
   * the loop's next settings read succeed, the loop sees no `run_flag` and its pass raises
   * `KeyError('run_flag')`.
   */
  lemma FailedFirstReadDropsRunFlag(files: Files, kwargs: Dict, lo: int, hi: int, readOk: seq<bool>, rereadOk: seq<bool>,
                                    writeOk: seq<WriteAttempt>, nextOk: seq<bool>)
    requires !AnyAttemptOk(readOk) && SCANNER_SETTINGS_FILE in files && AnyAttemptOk(rereadOk)
    requires "run_flag" in files[SCANNER_SETTINGS_FILE] && "run_flag" !in SettingsRules.AcceptedUpdates(kwargs, lo, hi)
    ensures var updated := ReadSpec(files, SCANNER_SETTINGS_FILE, readOk) + SettingsRules.AcceptedUpdates(kwargs, lo, hi);
      && !DictEq(updated, ReadSpec(files, SCANNER_SETTINGS_FILE, rereadOk))
      && "run_flag" !in updated
      && (AnyWritten(writeOk) && AnyAttemptOk(nextOk) ==>
            "run_flag" !in ReadSpec(WriteSpec(files, SCANNER_SETTINGS_FILE, updated, writeOk), SCANNER_SETTINGS_FILE, nextOk))
  {
  }

  /** `ibeacon_start_scanner()`: the settings update `run_flag=True`. */
  method IbeaconStartScanner(files: Files, lo: int, hi: int, readOk: seq<bool>, rereadOk: seq<bool>, writeOk: seq<WriteAttempt>)
    returns (files': Files, configWrite: Option<Dict>)
    ensures var started := ReadSpec(files, SCANNER_SETTINGS_FILE, readOk)["run_flag" := PyBool(true)];
      && (configWrite.Some? <==> !DictEq(started, ReadSpec(files, SCANNER_SETTINGS_FILE, rereadOk)))
      && (configWrite.Some? ==> configWrite.value == started && files' == WriteSpec(files, SCANNER_SETTINGS_FILE, started, writeOk))
      && (configWrite.None? ==> files' == files)
    ensures configWrite.Some? && AnyWritten(writeOk) ==>
      SCANNER_SETTINGS_FILE in files' && "run_flag" in files'[SCANNER_SETTINGS_FILE]
      && files'[SCANNER_SETTINGS_FILE]["run_flag"] == PyBool(true)
  {
    var kwargs := map["run_flag" := PyBool(true)];
    assert SettingsRules.AcceptedUpdates(kwargs, lo, hi) == kwargs;
    files', configWrite := IbeaconSetScannerSettings(files, kwargs, lo, hi, readOk, rereadOk, writeOk);
  }

  /** `ibeacon_stop_scanner()`: the settings update `run_flag=False`. */
  method IbeaconStopScanner(files: Files, lo: int, hi: int, readOk: seq<bool>, rereadOk: seq<bool>, writeOk: seq<WriteAttempt>)
    returns (files': Files, configWrite: Option<Dict>)
    ensures var stopped := ReadSpec(files, SCANNER_SETTINGS_FILE, readOk)["run_flag" := PyBool(false)];
      && (configWrite.Some? <==> !DictEq(stopped, ReadSpec(files, SCANNER_SETTINGS_FILE, rereadOk)))
      && (configWrite.Some? ==> configWrite.value == stopped && files' == WriteSpec(files, SCANNER_SETTINGS_FILE, stopped, writeOk))
      && (configWrite.None? ==> files' == files)
    ensures configWrite.Some? && AnyWritten(writeOk) ==>
      SCANNER_SETTINGS_FILE in files' && "run_flag" in files'[SCANNER_SETTINGS_FILE]
      && files'[SCANNER_SETTINGS_FILE]["run_flag"] == PyBool(false)
  {
    var kwargs := map["run_flag" := PyBool(false)];
    assert SettingsRules.AcceptedUpdates(kwargs, lo, hi) == kwargs;
    files', configWrite := IbeaconSetScannerSettings(files, kwargs, lo, hi, readOk, rereadOk, writeOk);
  }
}
