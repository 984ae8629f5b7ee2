/**
 * The first-generation scanner (`ibeacon/services.py`): one `_IBeaconsScanner` object whose
 * fields are updated by `start`, `stop`, the settings and status setters and, once per scan
 * tick, by the body of the scan loop. The radio, the worker thread and the sleep are not part
 * of the model: one cycle is a method that receives what the radio reported during the tick.
 */
module IBeaconServices {
  import opened Wrappers
  import opened BeaconModel
  import opened PyValues
  import SettingsRules

  const DEFAULT_SCAN_TICK: int := 3
  const DEFAULT_BEACONS_FILTER: string := "ffffffff-bbbb-cccc-dddd-eeeeeeeeeeee"
  const MIN_SCAN_TICK: int := 1
  const MAX_SCAN_TICK: int := 10

  /** Which loop the worker thread runs. */
  datatype Worker = RealScan | FakeScan

  /** What the end of a cycle does with the change callback. */
  datatype CallbackOutcome =
    | NotCalled
      /** The callback is called with the fields of the new nearest beacon. */
    | Called(callback: Value, argument: Value)
      /** `vars(None)` raises `TypeError`; the exception ends the worker thread's loop. */
    | RaisedTypeError

  /**
   * `_is_nearest_beacon_changes`: no change when both are absent, a change when exactly one
   * is, otherwise a change iff the identity keys differ.
   */
  function NearestChanged(nearest: Option<Beacon>, last: Option<Beacon>): (r: bool)
    ensures r <==> !SameIdentity(nearest, last)
  {
    if nearest.None? && last.None? then false
    else if nearest.None? || last.None? then true
    else Key(nearest.value) != Key(last.value)
  }

  /**
   * `if changed: _invoke_changes_callback()`: when a change was detected, a truthy callback is
   * called with the new nearest beacon's fields, and `vars(None)` raises `TypeError` instead when
   * there is no nearest beacon.
   */
  function CallbackOutcomeFor(callback: Value, changed: bool, nearest: Option<Beacon>): (r: CallbackOutcome)
    ensures r.Called? <==> changed && Truthy(callback) && nearest.Some?
    ensures r.RaisedTypeError? <==> changed && Truthy(callback) && nearest.None?
    ensures r.Called? ==> r.callback == callback && r.argument == PyBeaconDict(nearest.value)
  {
    if !changed || !Truthy(callback) then NotCalled
    else if nearest.None? then RaisedTypeError
    else Called(callback, PyBeaconDict(nearest.value))
  }

  class IBeaconsScanner {
    var beaconsList: seq<Beacon>
    var uuidFilter: Value
    var scanTick: Value
    var nearestBeacon: Option<Beacon>
    var lastNearestBeacon: Option<Beacon>
    var runFlag: bool
    var scanThread: Option<Worker>
    var onchangeCallback: Value

    /**
     * What every operation keeps: a running scanner has a worker, and between cycles the list
     * is sorted strongest first and, when non-empty, headed by the nearest beacon.
     */
    predicate Valid()
      reads this
    {
      && (runFlag ==> scanThread.Some?)
      && SortedByRssi(beaconsList)
      && (beaconsList != [] ==> nearestBeacon == Some(beaconsList[0]))
    }

    /**
     * `_IBeaconsScanner(uuid_filter=..., scan_tick=...)`: the arguments are stored as given,
     * without type checks or clamping. Nearest and last nearest both start as the same
     * default-constructed beacon, which is present (not `None`).
     */
    constructor (uuidFilterArg: Kwarg<Value>, scanTickArg: Kwarg<Value>)
      ensures Valid()
      ensures uuidFilter == (if uuidFilterArg.Passed? then uuidFilterArg.value else PyStr(DEFAULT_BEACONS_FILTER))
      ensures scanTick == (if scanTickArg.Passed? then scanTickArg.value else PyInt(DEFAULT_SCAN_TICK))
      ensures beaconsList == [] && nearestBeacon == Some(DefaultBeacon()) && lastNearestBeacon == nearestBeacon
      ensures !runFlag && scanThread.None? && onchangeCallback == PyNone
    {
      beaconsList := [];
      uuidFilter := if uuidFilterArg.Passed? then uuidFilterArg.value else PyStr(DEFAULT_BEACONS_FILTER);
      scanTick := if scanTickArg.Passed? then scanTickArg.value else PyInt(DEFAULT_SCAN_TICK);
      nearestBeacon := Some(DefaultBeacon());
      lastNearestBeacon := nearestBeacon;
      runFlag := false;
      scanThread := None;
      onchangeCallback := PyNone;
    }

    /** `start(fake_scan)`: from stopped, sets the flag and launches the loop `fake_scan` selects; while running, nothing. */
    method Start(fakeScan: Value)
      requires Valid()
      modifies this`runFlag, this`scanThread
      ensures Valid()
      ensures old(runFlag) ==> runFlag && scanThread == old(scanThread)
      ensures !old(runFlag) ==> runFlag && scanThread == Some(if Truthy(fakeScan) then FakeScan else RealScan)
    {
      if !runFlag {
        runFlag := true;
        scanThread := Some(if Truthy(fakeScan) then FakeScan else RealScan);
      }
    }

    /** `stop()`: clears the flag (the worker is joined); while stopped, nothing. */
    method Stop()
      requires Valid()
      modifies this`runFlag
      ensures Valid()
      ensures !runFlag
    {
      if runFlag {
        runFlag := false;
      }
    }

    /** `set_onchange_callback(callback)`: a falsy callback is refused and the stored one kept. */
    method SetOnchangeCallback(callback: Value)
      modifies this`onchangeCallback
      ensures Truthy(callback) ==> onchangeCallback == callback
      ensures !Truthy(callback) ==> onchangeCallback == old(onchangeCallback)
    {
      if !Truthy(callback) {
        return;
      }
      onchangeCallback := callback;
    }

    /** `get_scanner_settings()`. */
    function GetScannerSettings(): (r: Dict)
      reads this
      ensures r.Keys == {"uuid_filter", "scan_tick"}
      ensures r["uuid_filter"] == uuidFilter && r["scan_tick"] == scanTick
    {
      map["uuid_filter" := uuidFilter, "scan_tick" := scanTick]
    }

    /**
     * `set_scanner_settings(**kwargs)`: a `str` filter is stored as given, an `int` tick
     * (`bool` included) is stored clamped into [1, 10], anything else leaves its field alone.
     * The result is the two-field part of the shared settings update rule.
     */
    method SetScannerSettings(kwargs: Dict)
      modifies this`uuidFilter, this`scanTick
      ensures !("uuid_filter" in kwargs || "scan_tick" in kwargs) ==> uuidFilter == old(uuidFilter) && scanTick == old(scanTick)
      ensures uuidFilter == if "uuid_filter" in kwargs && IsStr(kwargs["uuid_filter"]) then kwargs["uuid_filter"] else old(uuidFilter)
      ensures scanTick == if "scan_tick" in kwargs && IsInt(kwargs["scan_tick"])
        then SettingsRules.ClampScanTick(kwargs["scan_tick"], MIN_SCAN_TICK, MAX_SCAN_TICK) else old(scanTick)
      ensures GetScannerSettings() == old(GetScannerSettings()) + SettingsRules.AcceptedUpdates(
        map k | k in kwargs && k in {"uuid_filter", "scan_tick"} :: kwargs[k], MIN_SCAN_TICK, MAX_SCAN_TICK)
    {
      if !("uuid_filter" in kwargs || "scan_tick" in kwargs) {
        return;
      }
      if "uuid_filter" in kwargs && IsStr(kwargs["uuid_filter"]) {
        uuidFilter := kwargs["uuid_filter"];
      }
      if "scan_tick" in kwargs && IsInt(kwargs["scan_tick"]) {
        if AsInt(kwargs["scan_tick"]) < MIN_SCAN_TICK {
          scanTick := PyInt(MIN_SCAN_TICK);
        } else if AsInt(kwargs["scan_tick"]) > MAX_SCAN_TICK {
          scanTick := PyInt(MAX_SCAN_TICK);
        } else {
          scanTick := kwargs["scan_tick"];
        }
      }
    }

    /** `get_scanner_status()`. */
    function GetScannerStatus(): (r: Dict)
      reads this
      ensures r.Keys == {"status"}
      ensures r["status"] == PyStr("running") <==> runFlag
      ensures r["status"] == PyStr("stopped") <==> !runFlag
    {
      map["status" := PyStr(if runFlag then "running" else "stopped")]
    }

    /**
     * `set_scanner_status(**kwargs)`: status `'start'` starts, with the fake loop only when a
     * `bool` `fake_scan` says so; `'stop'` stops; any other or non-`str` status does nothing.
     * The status after the call is returned.
     */
    method SetScannerStatus(kwargs: Dict) returns (status: Dict)
      requires Valid()
      modifies this`runFlag, this`scanThread
      ensures Valid()
      ensures status == GetScannerStatus()
      ensures "status" in kwargs && kwargs["status"] == PyStr("start") ==>
        runFlag && (old(runFlag) ==> scanThread == old(scanThread))
        && (!old(runFlag) ==> scanThread == Some(
          if "fake_scan" in kwargs && kwargs["fake_scan"] == PyBool(true) then FakeScan else RealScan))
      ensures "status" in kwargs && kwargs["status"] == PyStr("stop") ==> !runFlag && scanThread == old(scanThread)
      ensures !("status" in kwargs && kwargs["status"] in {PyStr("start"), PyStr("stop")}) ==>
        runFlag == old(runFlag) && scanThread == old(scanThread)
    {
      if "status" in kwargs && IsStr(kwargs["status"]) {
        if kwargs["status"] == PyStr("start") {
          var fakeScan := PyBool(false);
          if "fake_scan" in kwargs && IsBool(kwargs["fake_scan"]) {
            fakeScan := kwargs["fake_scan"];
          }
          Start(fakeScan);
        }
        if kwargs["status"] == PyStr("stop") {
          Stop();
        }
      }
      status := GetScannerStatus();
    }

    /** `get_read_beacons_info()`: an empty list is reported as `None`, not `[]`. */
    function GetReadBeaconsInfo(): (r: Dict)
      reads this
      ensures r.Keys == {"nearest_beacon", "last_nearest_beacon", "beacons_list"}
      ensures r["nearest_beacon"] == BeaconOrNone(nearestBeacon)
      ensures r["last_nearest_beacon"] == BeaconOrNone(lastNearestBeacon)
      ensures r["beacons_list"] == PyNone <==> beaconsList == []
      ensures beaconsList != [] ==> r["beacons_list"] == PyList(BeaconDicts(beaconsList))
    {
      map["nearest_beacon" := BeaconOrNone(nearestBeacon),
          "last_nearest_beacon" := BeaconOrNone(lastNearestBeacon),
          "beacons_list" := if beaconsList != [] then PyList(BeaconDicts(beaconsList)) else PyNone]
    }

    /** `get_scanner_full_info()`: the settings, the status and the beacons information in one dictionary. */
    function GetScannerFullInfo(): (r: Dict)
      reads this
      ensures r.Keys == GetScannerSettings().Keys + GetScannerStatus().Keys + GetReadBeaconsInfo().Keys
      ensures forall k :: k in GetScannerSettings() ==> r[k] == GetScannerSettings()[k]
      ensures forall k :: k in GetScannerStatus() ==> r[k] == GetScannerStatus()[k]
      ensures forall k :: k in GetReadBeaconsInfo() ==> r[k] == GetReadBeaconsInfo()[k]
    {
      GetScannerSettings() + GetScannerStatus() + GetReadBeaconsInfo()
    }

    /**
     * The end of every cycle: a non-empty list is sorted strongest first and its head becomes
     * the nearest beacon, an empty one leaves no nearest beacon; either way the previous nearest
     * becomes the last nearest; then a detected change goes to the callback.
     */
    method FinishCycle() returns (outcome: CallbackOutcome)
      requires runFlag ==> scanThread.Some?
      modifies this`beaconsList, this`nearestBeacon, this`lastNearestBeacon
      ensures Valid()
      ensures beaconsList == SortByRssi(old(beaconsList))
      ensures lastNearestBeacon == old(nearestBeacon)
      ensures nearestBeacon == HeadOf(beaconsList)
      ensures outcome == CallbackOutcomeFor(onchangeCallback, NearestChanged(nearestBeacon, lastNearestBeacon), nearestBeacon)
    {
      if beaconsList != [] {
        beaconsList := SortByRssi(beaconsList);
        lastNearestBeacon := nearestBeacon;
        nearestBeacon := Some(beaconsList[0]);
      } else {
        lastNearestBeacon := nearestBeacon;
        nearestBeacon := None;
      }
      outcome := NotCalled;
      if NearestChanged(nearestBeacon, lastNearestBeacon) {
        outcome := CallbackOutcomeFor(onchangeCallback, true, nearestBeacon);
      }
    }

    /** The scan callback over one tick: the list is cleared, then each observation not already present is appended. */
    method CollectObservations(observations: seq<Beacon>)
      modifies this`beaconsList
      ensures beaconsList == Dedup(observations)
    {
      beaconsList := [];
      var i := 0;
      while i < |observations|
        invariant 0 <= i <= |observations|
        invariant beaconsList == Dedup(observations[..i])
      {
        assert observations[..i + 1][..i] == observations[..i];
        if !ContainsSame(beaconsList, observations[i]) {
          beaconsList := beaconsList + [observations[i]];
        }
        i := i + 1;
      }
      assert observations[..i] == observations;
    }

    /**
     * One pass of the `_scan` loop body. `observations` are the packets the radio delivered to
     * the scan callback during the tick, in order; the callback keeps the first of each identity.
     */
    method ScanCycle(observations: seq<Beacon>) returns (outcome: CallbackOutcome)
      requires Valid()
      modifies this`beaconsList, this`nearestBeacon, this`lastNearestBeacon
      ensures Valid()
      ensures beaconsList == SortByRssi(Dedup(observations))
      ensures lastNearestBeacon == old(nearestBeacon)
      ensures nearestBeacon == HeadOf(beaconsList)
      ensures outcome == CallbackOutcomeFor(onchangeCallback, NearestChanged(nearestBeacon, lastNearestBeacon), nearestBeacon)
    {
      CollectObservations(observations);
      outcome := FinishCycle();
    }

    /**
     * One pass of the `_scan_fake` loop body: the three simulated beacons, each with the RSSI
     * `random.randint(1, 100) * -1` drew, which this model takes as arguments.
     */
    method FakeScanCycle(rssi1: int, rssi2: int, rssi3: int) returns (outcome: CallbackOutcome)
      requires Valid()
      requires -100 <= rssi1 <= -1 && -100 <= rssi2 <= -1 && -100 <= rssi3 <= -1
      modifies this`beaconsList, this`nearestBeacon, this`lastNearestBeacon
      ensures Valid()
      ensures beaconsList == SortByRssi(FakeRoster(DEFAULT_BEACONS_FILTER, rssi1, rssi2, rssi3))
      ensures lastNearestBeacon == old(nearestBeacon)
      ensures nearestBeacon == HeadOf(beaconsList)
      ensures outcome == CallbackOutcomeFor(onchangeCallback, NearestChanged(nearestBeacon, lastNearestBeacon), nearestBeacon)
    {
      beaconsList := FakeRoster(DEFAULT_BEACONS_FILTER, rssi1, rssi2, rssi3);
      outcome := FinishCycle();
    }
  }

  /** The nearest beacon a cycle ends with, given the beacons it collected. */
  function CycleNearest(scanned: seq<Beacon>): Option<Beacon> {
    HeadOf(SortByRssi(scanned))
  }

  /**
   * Right after construction nearest and last nearest are both the default beacon, so the
   * first non-empty cycle reports a change exactly when its nearest beacon's key is not `"00"`.
   */
  lemma FirstCycleReportsChange(scanned: seq<Beacon>)
    requires scanned != []
    ensures CycleNearest(scanned).Some?
    ensures NearestChanged(CycleNearest(scanned), Some(DefaultBeacon())) <==> Key(CycleNearest(scanned).value) != "00"
  {
    DefaultBeaconKey();
  }

  /**
   * The error path: a cycle that finds nothing right after one that found a beacon reports a
   * change, and a set callback then raises `TypeError` instead of being called.
   */
  lemma EmptyCycleAfterBeaconRaises(previous: Option<Beacon>, callback: Value)
    requires previous.Some? && Truthy(callback)
    ensures NearestChanged(CycleNearest([]), previous)
    ensures CallbackOutcomeFor(callback, NearestChanged(CycleNearest([]), previous), CycleNearest([])) == RaisedTypeError
  {
  }

  /** Two empty cycles in a row: the second reports no change and calls nothing. */
  lemma SecondEmptyCycleIsQuiet(callback: Value)
    ensures !NearestChanged(CycleNearest([]), CycleNearest([]))
    ensures CallbackOutcomeFor(callback, NearestChanged(CycleNearest([]), CycleNearest([])), None) == NotCalled
  {
  }

  /**
   * The nearest beacon a cycle picks is the first observation of its identity, and no
   * observation that is the first of its identity is stronger. (A repeated observation of an
   * identity already seen in the tick is dropped, so it can be stronger.)
   */
  lemma NearestIsStrongest(observations: seq<Beacon>)
    requires observations != []
    ensures CycleNearest(Dedup(observations)).Some?
    ensures FirstSeen(observations, CycleNearest(Dedup(observations)).value)
    ensures forall b :: FirstSeen(observations, b) ==> b.rssi <= CycleNearest(Dedup(observations)).value.rssi
  {
    var d := Dedup(observations);
    DedupCovers(observations);
    assert ContainsSame(d, observations[0]);
    SortHeadIsStrongest(d);
    var h := SortByRssi(d)[0];
    DedupKeepsFirstSeen(observations);
    forall b | FirstSeen(observations, b)
      ensures b.rssi <= h.rssi
    {
      FirstSeenIsKept(observations, b);
    }
  }

  // ---------------------------------------------------------------------------
  // ibeacon_init_scanner
  // ---------------------------------------------------------------------------

  /** `c.upper()` for an ASCII character. */
  function UpperChar(c: char): char {
    if 'a' <= c <= 'z' then (c as int - 32) as char else c
  }

  /** `c.lower()` for an ASCII character. */
  function LowerChar(c: char): char {
    if 'A' <= c <= 'Z' then (c as int + 32) as char else c
  }

  function Upper(s: string): (r: string)
    ensures |r| == |s| && forall i :: 0 <= i < |s| ==> r[i] == UpperChar(s[i])
  {
    seq(|s|, i requires 0 <= i < |s| => UpperChar(s[i]))
  }

  function Lower(s: string): (r: string)
    ensures |r| == |s| && forall i :: 0 <= i < |s| ==> r[i] == LowerChar(s[i])
  {
    seq(|s|, i requires 0 <= i < |s| => LowerChar(s[i]))
  }

  /** A key whose upper case is `n.upper()` lowers to `n.lower()`: the filter's keys become argument names. */
  lemma LowerOfUpperMatch(k: string, n: string)
    requires Upper(k) == Upper(n)
    ensures Lower(k) == Lower(n)
  {
    forall i | 0 <= i < |k|
      ensures Lower(k)[i] == Lower(n)[i]
    {
      assert UpperChar(k[i]) == UpperChar(n[i]);
    }
  }

  /** The two names the filter keeps, in both cases. */
  lemma InitKeyNames()
    ensures Upper("uuid_filter") == "UUID_FILTER" && Lower("UUID_FILTER") == "uuid_filter"
    ensures Upper("scan_tick") == "SCAN_TICK" && Lower("SCAN_TICK") == "scan_tick"
  {
    assert Upper("uuid_filter") == "UUID_FILTER";
    assert Lower("UUID_FILTER") == "uuid_filter";
    assert Upper("scan_tick") == "SCAN_TICK";
    assert Lower("SCAN_TICK") == "scan_tick";
  }

  /** The configuration names `ibeacon_init_scanner` keeps. */
  const INIT_KEYS: set<string> := {"UUID_FILTER", "SCAN_TICK"}

  /**
   * `{k.lower(): v for k, v in scanner_config.items() if k.upper() in [...]}` over the
   * configuration's items in insertion order: a later item wins when two keys lower to the same
   * name.
   */
  function FilterScannerConfig(items: seq<(string, Value)>): (r: Dict)
    ensures forall k :: k in r ==> k in {"uuid_filter", "scan_tick"}
  {
    if items == [] then map[]
    else
      var d := FilterScannerConfig(items[..|items| - 1]);
      var (k, v) := items[|items| - 1];
      if Upper(k) in INIT_KEYS then
        InitKeyNames();
        assert Upper(k) == Upper("UUID_FILTER") || Upper(k) == Upper("SCAN_TICK");
        LowerOfUpperMatch(k, if Upper(k) == "UUID_FILTER" then "UUID_FILTER" else "SCAN_TICK");
        d[Lower(k) := v]
      else d
  }

  /** The item at `i` is the last one whose key matches `name` case-insensitively. */
  predicate LastMatch(items: seq<(string, Value)>, name: string, i: int) {
    && 0 <= i < |items| && Upper(items[i].0) == Upper(name)
    && forall j :: i < j < |items| ==> Upper(items[j].0) != Upper(name)
  }

  /**
   * The filtered configuration holds `name` exactly when some key matches it, and then the value
   * of the last matching item.
   */
  lemma {:induction false} FilterTakesLastMatch(items: seq<(string, Value)>, name: string)
    requires name in {"uuid_filter", "scan_tick"}
    ensures name in FilterScannerConfig(items) <==> exists i :: 0 <= i < |items| && Upper(items[i].0) == Upper(name)
    ensures name in FilterScannerConfig(items) ==>
      exists i :: LastMatch(items, name, i) && FilterScannerConfig(items)[name] == items[i].1
  {
    if items != [] {
      var init := items[..|items| - 1];
      var (k, v) := items[|items| - 1];
      FilterTakesLastMatch(init, name);
      assert forall i :: 0 <= i < |init| ==> init[i] == items[i];
      InitKeyNames();
      assert Upper(name) in INIT_KEYS;
      if Upper(k) == Upper(name) {
        LowerOfUpperMatch(k, name);
        assert Lower(name) == name;
        assert LastMatch(items, name, |items| - 1);
      } else {
        if Upper(k) in INIT_KEYS {
          var other := if Upper(k) == "UUID_FILTER" then "uuid_filter" else "scan_tick";
          LowerOfUpperMatch(k, other);
          assert Lower(other) == other;
          assert Lower(k) != name;
        }
        if name in FilterScannerConfig(items) {
          var i :| LastMatch(init, name, i) && FilterScannerConfig(init)[name] == init[i].1;
          assert LastMatch(items, name, i);
        }
      }
    }
  }

  /** The keyword argument the filtered configuration passes for `name`. */
  function ArgFor(config: Dict, name: string): Kwarg<Value> {
    if name in config then Passed(config[name]) else Missing
  }

  /**
   * `ibeacon_init_scanner(scanner_config, onchange_callback)`: a scanner built from the
   * filtered configuration (`None` stands for a configuration that is not a dictionary, which is
   * treated as empty), then given the callback. The new scanner replaces the module's instance.
   */
  method IbeaconInitScanner(scannerConfig: Option<seq<(string, Value)>>, onchangeCallback: Value)
    returns (scanner: IBeaconsScanner)
    ensures fresh(scanner) && scanner.Valid()
    ensures var config := if scannerConfig.Some? then FilterScannerConfig(scannerConfig.value) else map[];
      && scanner.uuidFilter == (if "uuid_filter" in config then config["uuid_filter"] else PyStr(DEFAULT_BEACONS_FILTER))
      && scanner.scanTick == (if "scan_tick" in config then config["scan_tick"] else PyInt(DEFAULT_SCAN_TICK))
    ensures scanner.onchangeCallback == (if Truthy(onchangeCallback) then onchangeCallback else PyNone)
    ensures !scanner.runFlag && scanner.beaconsList == [] && scanner.nearestBeacon == Some(DefaultBeacon())
    ensures scanner.lastNearestBeacon == scanner.nearestBeacon
  {
    var config := if scannerConfig.Some? then FilterScannerConfig(scannerConfig.value) else map[];
    scanner := new IBeaconsScanner(ArgFor(config, "uuid_filter"), ArgFor(config, "scan_tick"));
    scanner.SetOnchangeCallback(onchangeCallback);
  }
}
