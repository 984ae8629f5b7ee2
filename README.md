# iBeacon tracking core of the beacons scanner service, in Dafny

This project models the part of the beacons scanner service that decides which iBeacon is
"nearest". That part covers:

- how one advertisement is identified and ordered;
- how a scan tick's observations are deduplicated and sorted;
- when a change of nearest beacon is reported;
- how the scanner settings are updated, clamped and persisted.

It covers both generations of the scanner and the shared-memory draft:

- **First generation:** one `_IBeaconsScanner` object with a worker thread (`ibeacon/services.py`).
- **Second generation:** two JSON files, the settings and the last scan, that every operation reads and rewrites (`ibeacon_scanner/services.py`).
- **Draft:** keeps the same data in named shared-memory segments (`test/other/new_ibeacon_scanner.py`).

It also covers the configuration module (`config/__init__.py`) and the retry helpers
(`persistance/__init__.py`).

Modules, one per source file:

- `BeaconModel` models `ibeacon_scanner/models.py` and the two identical `_IBeacon` copies.
  - Identity is equality of the key `str(mac_address) + str(major) + str(minor)`; Python's `hash` is taken as injective on it.
  - `a < b` iff `b.rssi < a.rssi`.
  - `sorted` is a stable insertion sort.
  - The scan callbacks' first-seen deduplication is `Dedup`.
  - The fake roster of three simulated beacons is `FakeRoster`.
- `PyValues` holds the Python values the scanners store, with three pieces of Python semantics:
  - truth values;
  - `isinstance`, where `bool` is an `int`;
  - `==`, where `True == 1`.
- `Persistence` holds the bounded-retry file read and write. The second generation's `_write_local_cache_file` and `_read_local_cache_file` are the same code with the path argument named `name`; they are modelled by the same two methods.
- `Config` holds `write_db_config_data` and `_set_dynamic_module_attrs`; the module object is a class whose attributes are a map.
- `SettingsRules` holds the settings update rule. The second generation and the draft spell it out field by field. The first generation applies its two-field part.
- `IBeaconServices` holds the first-generation scanner as a class. One scan cycle is a method that receives the observations of the tick.
- `IBeaconScannerServices` holds the second generation; one pass of the scanner loop is a method over the file system.
- `SharedMemoryScanner` holds the draft's segment helpers and settings setter.

Outside effects are modelled as data:

- **File system:** a map from path to stored dictionary.
- **I/O outcomes:** each read or write receives an outcome sequence. Read attempt `i` succeeds iff `i < |ok| && ok[i]` and the file is readable. Write attempt `i` either writes the document, fails before opening the file, or fails after `open(..., 'w')` has emptied it; a path whose file is missing or emptied is absent from the map, since every read of it fails alike.
- **Radio:** what it reports during a tick is an input sequence of beacons.
- **`random.randint(1, 100) * -1`:** an input in [-100, -1].
- **Configuration constants imported by the second generation and the draft** (`MIN_SCAN_TICK`, `MAX_SCAN_TICK`, `UUID_FILTER`, ...): parameters.
- **`config_write`:** its argument is returned as `configWrite`.
- **`lowercase_dict_keys`:** the keyword arguments are taken as already lower-cased.

Consequences of the code that the proofs make explicit:

- The identity key has no separator, so `("1", 12, 3)` and `("11", 2, 3)` are the same beacon.
- The first generation starts with the default beacon, whose key is `"00"`, as both nearest and last nearest. It is truthy, so the first non-empty cycle reports a change unless the new nearest beacon's key is `"00"`.
- When a cycle finds nothing after one that found a beacon, a set callback is not called. `vars(None)` raises `TypeError` and ends the worker thread.
- Within one tick only the first observation of each identity is kept. A later, stronger re-observation of the same beacon is dropped, so "nearest" is the strongest *first* observation.
- The second generation's settings setter can lose settings. If its first read of the settings file exhausts its attempts, the read returns `{}`. The update then writes a file that holds only the accepted arguments. A stored `run_flag` is dropped; once that write and the loop's next settings read succeed, the next loop pass raises `KeyError('run_flag')`.
- A beacons cache write that empties the file and then fails on every attempt ends the second generation's loop: the next pass that scans reads `{}` and raises `KeyError('beacons_list')`. A write that fails before opening the file leaves the cache as it was, and the loop goes on.
- In the shared-memory draft a settings update whose JSON text is longer than the storage reserved when the segment was created raises `ValueError`, after `config_write` has already been called.
- `scan_tick=True` passes the `int` check and is stored as `True` (it is in range). `scan_tick=False` is clamped to the lower bound.

## Model

| member | source | states |
|---|---|---|
| BeaconModel.NatString | ibeacon_scanner/models.py:15-17 | `str(n)` of a natural number is a string of decimal digits that denotes `n`, with no leading zero except `"0"` itself |
| BeaconModel.IntString | ibeacon_scanner/models.py:15-17 | `str(n)` starts with `-` exactly for negative `n`; the digits after the sign denote `abs(n)`, with no leading zero |
| BeaconModel.IntStringInjective | ibeacon_scanner/models.py:15-17 | different integers have different `str` texts |
| BeaconModel.Key | ibeacon_scanner/models.py:14-17 | the hashed string starts with the mac address, followed by at least one character for each of major and minor |
| BeaconModel.Same | ibeacon_scanner/models.py:30-33 | beacons with equal mac, major and minor are `==`, whatever their uuid, tx power and rssi |
| BeaconModel.SameIsEquivalence | ibeacon_scanner/models.py:30-33 | beacon `==` is reflexive, symmetric and transitive (the `_IBeacon` copies in `ibeacon/services.py` and the shared-memory draft have the same `__eq__`) |
| BeaconModel.SameIdentityIsEquivalence | ibeacon/services.py:195-202 | "both absent, or both present and `==`" is an equivalence on optional beacons |
| BeaconModel.KeyCollision | ibeacon_scanner/models.py:14-17 | `("1", 12, 3)` and `("11", 2, 3)` differ in mac and major yet are `==` |
| BeaconModel.DistinctAddressesOfEqualLength | ibeacon_scanner/models.py:14-17 | beacons whose addresses have equal length but differ are never `==`, so the collision needs addresses of different lengths |
| BeaconModel.DistinctAddressesHaveNoDuplicates | ibeacon_scanner/models.py:14-17 | a list whose addresses share one length and are pairwise different has no two `==` beacons |
| BeaconModel.DefaultBeaconKey | ibeacon_scanner/models.py:5-11 | a beacon built with every default has identity key `"00"` |
| BeaconModel.LessIsStrictWeakOrder | ibeacon_scanner/models.py:35-36 | `<` is irreflexive, transitive and asymmetric; two beacons are incomparable iff their rssi are equal (the draft's `__lt__` is the same) |
| BeaconModel.Insert | ibeacon_scanner/models.py:35-36 | one insertion step of the sort adds exactly the new beacon (multiset) and puts it or the old head first |
| BeaconModel.InsertKeepsSorted | ibeacon_scanner/models.py:35-36 | inserting into a list sorted by non-increasing rssi keeps it sorted |
| BeaconModel.SortByRssi | ibeacon_scanner/services.py:132-133 | `sorted` under `__lt__` returns a permutation of its input whose rssi never increases |
| BeaconModel.InsertStable | ibeacon_scanner/services.py:132-133 | an insertion step keeps beacons of each rssi value in input order |
| BeaconModel.SortIsStable | ibeacon_scanner/services.py:132-133 | beacons with equal rssi keep their input order (stability of `sorted`) |
| BeaconModel.SortOfSortedIsIdentity | ibeacon_scanner/services.py:133 | re-sorting an already sorted list, as done with the cached list, changes nothing |
| BeaconModel.SortHeadIsStrongest | ibeacon/services.py:163-165 | the head of the sorted list is one of its beacons and no beacon in the list is stronger |
| BeaconModel.DedupCovers | ibeacon_scanner/services.py:87-90 | every observation is represented in the collected list by a beacon `==` to it |
| BeaconModel.DedupHasNoDuplicates | ibeacon_scanner/services.py:87-90 | the collected list has no two `==` beacons |
| BeaconModel.DedupKeepsFirstSeen | ibeacon_scanner/services.py:87-90 | each collected beacon is the first observation of its identity |
| BeaconModel.FirstSeenIsKept | ibeacon_scanner/services.py:87-90 | every observation that is the first of its identity is collected |
| BeaconModel.FirstSeenUnique | ibeacon_scanner/services.py:87-90 | two `==` observations that are each first of their identity are the same observation |
| BeaconModel.FirstSeenWins | ibeacon_scanner/services.py:89-90 | a later `==` observation is dropped even when stronger |
| BeaconModel.DedupIsSubMultiset | ibeacon_scanner/services.py:87-90 | the collected list holds only observed beacons, each no more often than observed |
| BeaconModel.FakeRoster | ibeacon_scanner/services.py:105-107 | the fake roster has three pairwise distinct beacons (major 11, tx power -50, the configured uuid) with the drawn rssi values |
| BeaconModel.FakeRosterNearest | ibeacon/services.py:179-186 | after sorting, the fake roster's nearest is one of 11:11:11, 22:22:22, 33:33:33 with the largest of the three rssi values |
| PyValues.BeaconOrNone | ibeacon/services.py:136-137 | a beacon becomes its field dictionary; only an absent beacon becomes `None` |
| PyValues.BeaconDicts | ibeacon/services.py:138 | `[vars(b) for b in list]` keeps length and order |
| PyValues.IsInt | ibeacon_scanner/services.py:182 | `isinstance(v, int)` holds of every `bool`, and of no `str`, `None`, list or beacon dictionary |
| PyValues.PyEqReflexive | ibeacon_scanner/services.py:199 | Python `==` holds between a value and itself, lists included |
| PyValues.DictEqReflexive | ibeacon_scanner/services.py:199 | a dictionary is `==` to itself |
| PyValues.BoolEqualsInt | ibeacon_scanner/services.py:199 | `True == 1` and `False == 0` although they are different values |
| Persistence.WriteLocalCacheFile | persistance/__init__.py:8-25 | no attempt without both arguments; at most 5 attempts, none after the first that writes; one sleep per failed attempt; the file holds the normalised data iff an attempt writes it; otherwise it is left emptied if a failed attempt had opened it, and unchanged if none had; returns normally after 5 failures (the second generation's `_write_local_cache_file` is the same loop) |
| Persistence.ReadLocalCacheFile | persistance/__init__.py:28-39 | `None` without a path; otherwise the stored dictionary from the first successful attempt among 5, else `{}`; one sleep per failed attempt (the second generation's `_read_local_cache_file` is the same loop) |
| Persistence.WriteSpec | persistance/__init__.py:16-25 | after the retried write the path holds the data if an attempt wrote it, is unreadable if one only emptied it, and is unchanged otherwise; no other path changes |
| Persistence.ReadSpec | persistance/__init__.py:31-39 | the retried read gives the stored dictionary when the file is readable and an attempt succeeds, `{}` otherwise |
| Persistence.ReadAfterWrite | persistance/__init__.py:8-39 | a successful read right after a successful write returns what was written |
| Persistence.FailedWriteIsInvisible | persistance/__init__.py:15-25 | a write whose 5 attempts all fail before opening the file leaves every later read unchanged |
| Persistence.TruncatedWriteLosesFile | persistance/__init__.py:15-25 | a write that never completes but emptied the file on the way makes every later read return `{}` |
| Config.MergeStoredKeys | config/__init__.py:27-30 | the merge keeps exactly the stored keys, takes the keyword value for stored keys that have one, keeps the rest, ignores new keys |
| Config.ConfigModule.constructor | config/__init__.py:57-58 | importing the module adds one attribute per stored setting on top of the environment attributes |
| Config.ConfigModule.SetDynamicModuleAttrs | config/__init__.py:17-19 | each key becomes an attribute with that key's value; other attributes stay |
| Config.ConfigModule.WriteDbConfigData | config/__init__.py:26-43 | an unreadable file raises; otherwise the merged dictionary is returned whatever the write does; file and attributes take it only when the write completes; a write failing after `open(DB_CONFIG, 'w')` leaves the file unreadable and the attributes unchanged |
| SettingsRules.ClampScanTick | ibeacon_scanner/services.py:182-188 | below the minimum gives the minimum, above the maximum gives the maximum, in range gives the argument itself; the result is always in range |
| SettingsRules.ClampIsIdempotent | ibeacon_scanner/services.py:182-188 | clamping a clamped tick changes nothing |
| SettingsRules.ClampOfBools | ibeacon/services.py:109-115 | `False` is clamped to 1, `True` is stored as `True` |
| SettingsRules.AcceptedUpdates | ibeacon_scanner/services.py:178-197 | only the four settings fields are ever stored |
| SettingsRules.StoresAreAcceptedUpdates | ibeacon_scanner/services.py:178-197 | the four field-by-field stores amount to overriding the settings with the accepted arguments |
| SettingsRules.ApplySettingsUpdate | ibeacon_scanner/services.py:178-197 | the settings become the old settings overridden by exactly the accepted, typed (and, for the tick, clamped) arguments; the shared-memory draft repeats the same field-by-field rule |
| SettingsRules.UpdateKeepsTickInRange | ibeacon_scanner/services.py:182-188 | a stored tick that is an in-range `int` stays one after any update |
| SettingsRules.UpdateIgnoresUnknownAndMistyped | ibeacon_scanner/services.py:178-197 | unknown keys and mistyped values never change a setting |
| SettingsRules.UpdateIsIdempotent | ibeacon_scanner/services.py:178-199 | applying the same arguments twice is applying them once |
| SettingsRules.NothingAcceptedIsNoChange | ibeacon_scanner/services.py:199-202 | an update that accepts nothing is `==` to the stored settings, so nothing is written |
| IBeaconServices.NearestChanged | ibeacon/services.py:195-202 | a change is reported iff nearest and last nearest are not the same identity (both absent counts as same) |
| IBeaconServices.CallbackOutcomeFor | ibeacon/services.py:171-172 | the callback is called iff a change was detected, a truthy callback is set and there is a nearest beacon, with its fields; with no nearest beacon it raises `TypeError` instead |
| IBeaconServices.IBeaconsScanner.constructor | ibeacon/services.py:66-74 | settings stored unchecked (defaults when not passed); nearest and last nearest are the same present default beacon; stopped, no worker, no callback |
| IBeaconServices.IBeaconsScanner.Start | ibeacon/services.py:76-81 | from stopped, sets the flag and launches the loop the argument's truth value selects; while running, changes nothing |
| IBeaconServices.IBeaconsScanner.Stop | ibeacon/services.py:83-87 | afterwards the scanner is stopped; while stopped, changes nothing |
| IBeaconServices.IBeaconsScanner.SetOnchangeCallback | ibeacon/services.py:89-94 | a truthy callback replaces the stored one, a falsy one leaves it |
| IBeaconServices.IBeaconsScanner.GetScannerSettings | ibeacon/services.py:96-100 | exactly the filter and the tick |
| IBeaconServices.IBeaconsScanner.SetScannerSettings | ibeacon/services.py:102-116 | nothing changes without either key; a `str` filter is stored, an `int` tick stored clamped into [1, 10]; the settings become the old ones overridden by the shared rule's accepted updates for those two keys |
| IBeaconServices.IBeaconsScanner.GetScannerStatus | ibeacon/services.py:118-121 | `running` iff the run flag is set, `stopped` otherwise |
| IBeaconServices.IBeaconsScanner.SetScannerStatus | ibeacon/services.py:123-132 | `'start'` starts (the fake loop only for `fake_scan=True`), `'stop'` clears the run flag and leaves the worker as it was, anything else changes nothing; the returned status matches the run flag |
| IBeaconServices.IBeaconsScanner.GetReadBeaconsInfo | ibeacon/services.py:134-139 | nearest and last nearest as fields or `None`; the list as fields in order, or `None` (not `[]`) when empty |
| IBeaconServices.IBeaconsScanner.GetScannerFullInfo | ibeacon/services.py:141-145 | the union of settings, status and beacons information |
| IBeaconServices.IBeaconsScanner.FinishCycle | ibeacon/services.py:162-172 | the list is sorted, the old nearest becomes last nearest, the head (or nothing) becomes nearest, and the callback outcome follows the change test; the scanner invariant holds |
| IBeaconServices.IBeaconsScanner.CollectObservations | ibeacon/services.py:148-154 | the list is cleared and ends as the first-seen deduplication of the tick's observations |
| IBeaconServices.IBeaconsScanner.ScanCycle | ibeacon/services.py:147-172 | one `_scan` pass leaves the sorted deduplicated observations, shifts nearest into last nearest, and reports as the change test says |
| IBeaconServices.IBeaconsScanner.FakeScanCycle | ibeacon/services.py:177-193 | one `_scan_fake` pass does the same with the three simulated beacons |
| IBeaconServices.FirstCycleReportsChange | ibeacon/services.py:70-71 | the first non-empty cycle reports a change iff its nearest key is not `"00"` |
| IBeaconServices.EmptyCycleAfterBeaconRaises | ibeacon/services.py:168-172 | an empty cycle after a present nearest reports a change and a set callback raises `TypeError` |
| IBeaconServices.SecondEmptyCycleIsQuiet | ibeacon/services.py:196-197 | a second empty cycle reports nothing and calls nothing |
| IBeaconServices.NearestIsStrongest | ibeacon/services.py:150-165 | the cycle's nearest is a first-seen observation and no first-seen observation is stronger |
| IBeaconServices.Upper | ibeacon/services.py:233 | `str.upper` maps each character and keeps the length |
| IBeaconServices.Lower | ibeacon/services.py:232 | `str.lower` maps each character and keeps the length |
| IBeaconServices.LowerOfUpperMatch | ibeacon/services.py:232-233 | keys with the same upper case have the same lower case |
| IBeaconServices.InitKeyNames | ibeacon/services.py:232-233 | `UUID_FILTER` and `SCAN_TICK` lower to the constructor's argument names |
| IBeaconServices.FilterScannerConfig | ibeacon/services.py:232-234 | only `uuid_filter` and `scan_tick` can survive the filter |
| IBeaconServices.FilterTakesLastMatch | ibeacon/services.py:232-234 | a name is kept iff some key matches it ignoring case, with the value of the last matching key |
| IBeaconServices.IbeaconInitScanner | ibeacon/services.py:230-236 | a fresh stopped scanner built from the filtered configuration (defaults for a non-dictionary), holding the callback only if truthy |
| IBeaconScannerServices.RenderBeaconsData | ibeacon_scanner/services.py:65-69 | nearest is the first beacon's fields or `None` for an empty list; the list is every beacon's fields in order, `[]` when empty |
| IBeaconScannerServices.ParseBeaconsList | ibeacon_scanner/services.py:61-62 | a falsy list gives `[]`; a parsed list renders back to the stored items; anything else raises `TypeError` |
| IBeaconScannerServices.LastBeaconList | ibeacon_scanner/services.py:58-62 | a cache dictionary without `beacons_list` raises `KeyError` |
| IBeaconScannerServices.RenderThenParse | ibeacon_scanner/services.py:58-69 | reading back a rendered list gives the same list |
| IBeaconScannerServices.GetLastBeaconListFromCacheFile | ibeacon_scanner/services.py:58-62 | the parsed cached list; when every read attempt fails, `KeyError('beacons_list')` |
| IBeaconScannerServices.ScanBeacons | ibeacon_scanner/services.py:84-100 | `KeyError` for a missing filter, then for a missing tick; otherwise the first-seen deduplication, with no two `==` beacons and every observation represented |
| IBeaconScannerServices.ScanBeaconsFake | ibeacon_scanner/services.py:103-109 | `KeyError` without a tick; otherwise three distinct beacons under the configured uuid with rssi in [-100, -1] |
| IBeaconScannerServices.IsNearestBeaconChanges | ibeacon_scanner/services.py:112-119 | a change iff the two lists' heads are not the same identity (both empty counts as same) |
| IBeaconScannerServices.ScanForPass | ibeacon_scanner/services.py:127-130 | the fake scan when `fake_scan` is truthy, else the real one; `KeyError` for a missing filter (real scan only), then for a missing tick; otherwise the roster or the first-seen deduplication |
| IBeaconScannerServices.CompletePass | ibeacon_scanner/services.py:133-143 | a cache that cannot be parsed raises its error and nothing is written; otherwise both events are decided against the sorted cached list and the rendered scan is written |
| IBeaconScannerServices.RunScannerLoopIteration | ibeacon_scanner/services.py:122-143 | in source order: `KeyError` for a missing `run_flag`; idle for a falsy one; `KeyError` for a missing `fake_scan`, then (real scan) `uuid_filter`, then `scan_tick`; then the cache's error (`KeyError('beacons_list')` after exhausted reads, `TypeError` for items that are not beacons); the pass completes iff none of these, whatever the cache write does; a completed pass sorts both lists, publishes the nearest event iff the change test says so and the read event iff the list is non-empty and not `==` the cached one, neither when the lists are `==`, and writes the rendered scan |
| IBeaconScannerServices.WrittenScanIsNextLast | ibeacon_scanner/services.py:133-143 | once write and next read succeed, the next pass compares against exactly this pass's list |
| IBeaconScannerServices.RepeatedScanIsQuiet | ibeacon_scanner/services.py:136-142 | a scan `==` to the cached list (position by position) reports no nearest change, and the lists are `==` the other way round too, so neither event is published |
| IBeaconScannerServices.TruncatedCacheEndsLoop | ibeacon_scanner/services.py:59-60 | after a cache write that emptied the file and never completed, the next cache read raises `KeyError('beacons_list')` |
| IBeaconScannerServices.FakePassNearest | ibeacon_scanner/services.py:127-134 | a fake pass caches one of the three simulated beacons as nearest, with rssi in [-100, -1] |
| IBeaconScannerServices.InitialBeacons | ibeacon_scanner/services.py:155 | `capacity` default beacons, none for a non-positive capacity |
| IBeaconScannerServices.IbeaconInitScanner | ibeacon_scanner/services.py:146-156 | the configured settings are written, then `capacity` default beacons to the cache |
| IBeaconScannerServices.FirstPassAgainstInitialCache | ibeacon_scanner/services.py:155-156 | the initial cache reads back unchanged and sorted; the first pass reports a change iff the scan is empty or its nearest key is not `"00"` (iff the scan is non-empty when the capacity is 0) |
| IBeaconScannerServices.IbeaconSetScannerSettings | ibeacon_scanner/services.py:174-202 | the read settings updated by the shared rule are passed to `config_write` and written iff they differ (Python `==`) from a second read; otherwise nothing is written |
| IBeaconScannerServices.NoAcceptedUpdateWritesNothing | ibeacon_scanner/services.py:199-202 | with nothing accepted and both reads agreeing, nothing is written |
| IBeaconScannerServices.RepeatedUpdateWritesNothing | ibeacon_scanner/services.py:199-202 | repeating an update whose result is stored writes nothing |
| IBeaconScannerServices.FailedFirstReadDropsRunFlag | ibeacon_scanner/services.py:176-201 | after a failed first read and a good second one, the written settings differ and lack the stored `run_flag`; once the write and the loop's next read succeed, the loop reads no `run_flag` |
| IBeaconScannerServices.IbeaconStartScanner | ibeacon_scanner/services.py:160-162 | the read settings with `run_flag` True are passed to `config_write` and written iff they differ from the second read; a completed write stores `run_flag` True |
| IBeaconScannerServices.IbeaconStopScanner | ibeacon_scanner/services.py:165-167 | the read settings with `run_flag` False are passed to `config_write` and written iff they differ from the second read; a completed write stores `run_flag` False |
| SharedMemoryScanner.SharedMemoryInit | test/other/new_ibeacon_scanner.py:56-62 | nothing without both arguments; an existing segment raises `FileExistsError`; otherwise exactly one new segment holding the data, with storage for its JSON text |
| SharedMemoryScanner.ItemCapacity | test/other/new_ibeacon_scanner.py:61 | the storage reserved for the text is a multiple of 8 bytes, more than the text and at most 8 bytes more |
| SharedMemoryScanner.SharedMemoryDel | test/other/new_ibeacon_scanner.py:65-70 | nothing without a name; a missing segment raises `FileNotFoundError`; otherwise exactly that segment is removed |
| SharedMemoryScanner.SharedMemoryGetDict | test/other/new_ibeacon_scanner.py:73-77 | `None` without a name; `FileNotFoundError` for a missing segment; otherwise what it holds |
| SharedMemoryScanner.SharedMemorySetDict | test/other/new_ibeacon_scanner.py:80-86 | nothing without both arguments; `FileNotFoundError` for a missing segment; `ValueError` for a text longer than the segment's storage; otherwise only that segment changes, and its storage stays |
| SharedMemoryScanner.SegmentRoundTrips | test/other/new_ibeacon_scanner.py:56-86 | a segment reads back what it was created with; a later store succeeds iff its text fits the first text's storage (else `ValueError`), and then reads back |
| SharedMemoryScanner.InitThenDelRestores | test/other/new_ibeacon_scanner.py:56-70 | create then delete restores the segments; creating twice is refused |
| SharedMemoryScanner.IbeaconSetScannerSettings | test/other/new_ibeacon_scanner.py:144-173 | `FileNotFoundError` without a settings segment; otherwise `config_write` happens iff the update differs; the store then succeeds when the text fits, else raises `ValueError` after `config_write`; a successful call leaves the segment `==` to the update |

## Left out

- Radio scanning (`BeaconScanner`, `IBeaconFilter`), the worker threads, `join` and `time.sleep`. The observations of a tick are an input. The uuid filter is applied by the radio library, so the observations are taken as already filtered.
- The infinite `while self._run_flag` and `while 1` loops. One pass is modelled, not the repetition. The first generation's cycle methods do not require the run flag.
- The `TypeError` that `vars(None)` raises, before the callback is called, ends the first generation's worker. The model reports it as the `RaisedTypeError` outcome and does not mark the worker as dead.
- Reads of the first generation's fields that race with a running cycle, for example `get_read_beacons_info` during a scan. Each cycle method is atomic.
- Module-level delegating functions of the first generation (`ibeacon_start_scanner` ... `ibeacon_get_scanner_full_info`). These call the single instance's methods, which are modelled. Calling them before `ibeacon_init_scanner` raises `AttributeError` on `None`; that is not modelled.
- `ibeacon_get_beacons_data` and `ibeacon_get_scanner_settings` of the second generation, and the draft's `ibeacon_get_scanner_settings`. Each is one read, which `ReadLocalCacheFile` and `SharedMemoryGetDict` model. The draft's `ibeacon_get_beacons_data` is an empty stub that returns `None`.
- `_publish_event_*` of the second generation. These only log; the model returns the payload each would receive.
- The second generation's `_run_scanner_loop` call at the end of `ibeacon_init_scanner`, and the thread start in the draft's `ibeacon_init_scanner`. The draft's init, its `_run_scanner_loop` (which only reads the settings and sleeps) and its empty stubs are not part of this model.
- JSON (de)serialisation, `os.makedirs` and `open`. A file holds a dictionary, and an emptied or missing file is one the map does not hold. A file left holding a partial JSON document is not distinguished from an emptied one. A stored document that is not a dictionary is not modelled.
- Values the model does not distinguish: floats, nested dictionaries and other objects are `PyOther` with a truth value. Python `==` between a float and an equal `int` (`1.0 == 1`) is therefore false in the model, so a stored float `scan_tick` and an equal `int` update count as a change and make the second generation's and the draft's setters write where the source does not. `ParseBeaconsList` therefore treats any cached item that is not a full beacon dictionary as raising `TypeError`. A dictionary with only some beacon fields, which Python would fill with defaults, is not modelled.
- `time.sleep(kwargs['scan_tick'])` with a tick that is not a number, which raises `TypeError`, or with a negative tick, which raises `ValueError`; the first generation's constructor and the second generation's settings file store the tick unchecked, so both can happen, and the model returns normally instead. A missing tick's `KeyError` is modelled. The real scan's radio scanner is left running when that `KeyError` is raised; that is not modelled either.
- `multiprocessing.shared_memory`. A segment holds a dictionary and its fixed storage size. The length of `json.dumps(data_dict)` is an input of the segment operations rather than computed from the dictionary.
- `Config.ConfigModule.WriteDbConfigData`: an unreadable or unparsable `DB_CONFIG` file is reported as `FileNotFoundError("DB_CONFIG")` whatever the actual exception.
- `show_current_config` and `read_db_config_data`. The first only prints; the second is the read that `WriteDbConfigData` takes as its `dbFile` argument.
- `IBeaconServices.Upper`, `IBeaconServices.Lower`: ASCII case mapping only. Python's Unicode `upper`/`lower` (for instance `'ß'.upper() == 'SS'`, or a dotless `ı` that upper-cases to `I`) are not modelled.
- Python's `hash` values: the hash of the identity string is taken to be injective.
- Logging (`info`, `warn`, `debug`, `print`), HTTP and Flask wiring, and the event classes.
