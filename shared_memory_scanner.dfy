/**
 * The shared-memory draft of the second-generation scanner (`test/other/new_ibeacon_scanner.py`):
 * settings and beacons data are kept in named shared-memory segments, each holding one JSON
 * document. The segments are a map from name to the stored dictionary and the item's fixed
 * storage size. Its `_IBeacon` class is the beacon value type of `BeaconModel`.
 */
module SharedMemoryScanner {
  import opened Wrappers
  import opened PyValues
  import SettingsRules

  const BEACONS_DATA_SHM: string := "ibeacon_data"
  const SCANNER_SETTINGS_SHM: string := "ibeacon_scanner_settings"

  /**
   * One named segment: a one-item `ShareableList` holding the JSON text of `data`. The item's
   * storage is fixed when the list is created; `capacity` is that size in bytes.
   */
  datatype Segment = Segment(data: Dict, capacity: nat)

  /** The named shared-memory segments that exist. */
  type Segments = map<string, Segment>

  /**
   * The storage `ShareableList` reserves for a text item of `textLen` bytes: the length rounded
   * up to the next multiple of 8, always strictly more than the text itself.
   */
  function ItemCapacity(textLen: nat): (c: nat)
    ensures textLen < c <= textLen + 8 && c % 8 == 0
  {
    8 * (textLen / 8 + 1)
  }

  /**
   * `_shared_memory_init(name=..., data_dict=...)`: creates the segment holding `data_dict`,
   * sized for its JSON text of `textLen` bytes (the length of `json.dumps(data_dict)`, which is
   * ASCII). Nothing happens when an argument is missing; an existing segment raises
   * `FileExistsError`.
   */
  function SharedMemoryInit(segs: Segments, name: Kwarg<string>, dataDict: Kwarg<Dict>, textLen: nat): (r: Result<Segments, PyError>)
    ensures name.Missing? || dataDict.Missing? ==> r == Ok(segs)
    ensures name.Passed? && dataDict.Passed? && name.value in segs ==> r == Err(FileExistsError(name.value))
    ensures name.Passed? && dataDict.Passed? && name.value !in segs ==>
      r.Ok? && r.value.Keys == segs.Keys + {name.value}
      && r.value[name.value] == Segment(dataDict.value, ItemCapacity(textLen))
      && forall n :: n in segs ==> r.value[n] == segs[n]
  {
    if name.Missing? || dataDict.Missing? then Ok(segs)
    else if name.value in segs then Err(FileExistsError(name.value))
    else Ok(segs[name.value := Segment(dataDict.value, ItemCapacity(textLen))])
  }

  /**
   * `_shared_memory_del(name=...)`: attaches to the segment, closes and unlinks it. Nothing
   * happens without a name; a segment that does not exist raises `FileNotFoundError`.
   */
  function SharedMemoryDel(segs: Segments, name: Kwarg<string>): (r: Result<Segments, PyError>)
    ensures name.Missing? ==> r == Ok(segs)
    ensures name.Passed? && name.value !in segs ==> r == Err(FileNotFoundError(name.value))
    ensures name.Passed? && name.value in segs ==>
      r.Ok? && r.value.Keys == segs.Keys - {name.value} && forall n :: n in r.value ==> r.value[n] == segs[n]
  {
    if name.Missing? then Ok(segs)
    else if name.value !in segs then Err(FileNotFoundError(name.value))
    else Ok(segs - {name.value})
  }

  /**
   * `_shared_memory_get_dict(name=...)`: the dictionary the segment holds; `None` without a
   * name; `FileNotFoundError` for a segment that does not exist.
   */
  function SharedMemoryGetDict(segs: Segments, name: Kwarg<string>): (r: Result<Option<Dict>, PyError>)
    ensures name.Missing? ==> r == Ok(None)
    ensures name.Passed? && name.value !in segs ==> r == Err(FileNotFoundError(name.value))
    ensures name.Passed? && name.value in segs ==> r == Ok(Some(segs[name.value].data))
  {
    if name.Missing? then Ok(None)
    else if name.value !in segs then Err(FileNotFoundError(name.value))
    else Ok(Some(segs[name.value].data))
  }

  /**
   * `_shared_memory_set_dict(name=..., data_dict=...)`: replaces the text an existing segment
   * holds with the JSON text of `data_dict`, `textLen` bytes long. Nothing happens when an
   * argument is missing; a segment that does not exist raises `FileNotFoundError`; a text longer
   * than the segment's storage raises `ValueError`. The storage never grows.
   */
  function SharedMemorySetDict(segs: Segments, name: Kwarg<string>, dataDict: Kwarg<Dict>, textLen: nat): (r: Result<Segments, PyError>)
    ensures name.Missing? || dataDict.Missing? ==> r == Ok(segs)
    ensures name.Passed? && dataDict.Passed? && name.value !in segs ==> r == Err(FileNotFoundError(name.value))
    ensures name.Passed? && dataDict.Passed? && name.value in segs && textLen > segs[name.value].capacity ==>
      r == Err(ValueError)
    ensures name.Passed? && dataDict.Passed? && name.value in segs && textLen <= segs[name.value].capacity ==>
      r.Ok? && r.value.Keys == segs.Keys
      && r.value[name.value] == Segment(dataDict.value, segs[name.value].capacity)
      && forall n :: n in segs && n != name.value ==> r.value[n] == segs[n]
  {
    if name.Missing? || dataDict.Missing? then Ok(segs)
    else if name.value !in segs then Err(FileNotFoundError(name.value))
    else if textLen > segs[name.value].capacity then Err(ValueError)
    else Ok(segs[name.value := Segment(dataDict.value, segs[name.value].capacity)])
  }

  /**
   * A segment reads back what it was created with; a later store succeeds exactly when the new
   * text fits the storage reserved for the first one, and then reads back the new dictionary.
   */
  lemma {:induction false} SegmentRoundTrips(segs: Segments, name: string, d: Dict, dLen: nat, e: Dict, eLen: nat)
    requires name !in segs
    ensures SharedMemoryInit(segs, Passed(name), Passed(d), dLen).Ok?
    ensures var s1 := SharedMemoryInit(segs, Passed(name), Passed(d), dLen).value;
      && SharedMemoryGetDict(s1, Passed(name)) == Ok(Some(d))
      && (SharedMemorySetDict(s1, Passed(name), Passed(e), eLen).Ok? <==> eLen <= ItemCapacity(dLen))
      && (eLen > ItemCapacity(dLen) ==> SharedMemorySetDict(s1, Passed(name), Passed(e), eLen) == Err(ValueError))
      && (eLen <= ItemCapacity(dLen) ==>
            SharedMemoryGetDict(SharedMemorySetDict(s1, Passed(name), Passed(e), eLen).value, Passed(name)) == Ok(Some(e)))
  {
    var s1 := SharedMemoryInit(segs, Passed(name), Passed(d), dLen).value;
    assert name in s1 && s1[name].capacity == ItemCapacity(dLen);
    if eLen <= ItemCapacity(dLen) {
      var s2 := SharedMemorySetDict(s1, Passed(name), Passed(e), eLen).value;
      assert name in s2 && s2[name].data == e;
    }
  }

  /** Creating then deleting a segment restores the segments as they were; a second creation is refused. */
  lemma {:induction false} InitThenDelRestores(segs: Segments, name: string, d: Dict, dLen: nat)
    requires name !in segs
    ensures SharedMemoryInit(segs, Passed(name), Passed(d), dLen).Ok?
    ensures var s1 := SharedMemoryInit(segs, Passed(name), Passed(d), dLen).value;
      && SharedMemoryInit(s1, Passed(name), Passed(d), dLen) == Err(FileExistsError(name))
      && SharedMemoryDel(s1, Passed(name)) == Ok(segs)
  {
    var s1 := SharedMemoryInit(segs, Passed(name), Passed(d), dLen).value;
    assert name in s1;
    assert s1 - {name} == segs;
  }

  /**
   * The draft's `ibeacon_set_scanner_settings(**kwargs)`, with keyword names already lower-cased:
   * the settings segment is read, updated by the shared rule with bounds `lo` and `hi`, read
   * again and, only when the update differs under Python's `==`, passed to `config_write`
   * (returned as `configWrite`) and stored back; `textLen` is the length of the update's JSON
   * text. Without a settings segment the first read raises `FileNotFoundError`; an update whose
   * text outgrows the segment raises `ValueError` after `config_write` has been called.
   */
  method IbeaconSetScannerSettings(segs: Segments, kwargs: Dict, lo: int, hi: int, textLen: nat)
    returns (r: Result<Segments, PyError>, configWrite: Option<Dict>)
    ensures SCANNER_SETTINGS_SHM !in segs ==> r == Err(FileNotFoundError(SCANNER_SETTINGS_SHM)) && configWrite.None?
    ensures SCANNER_SETTINGS_SHM in segs ==>
      var stored := segs[SCANNER_SETTINGS_SHM];
      var updated := stored.data + SettingsRules.AcceptedUpdates(kwargs, lo, hi);
      && (configWrite.Some? <==> !DictEq(updated, stored.data))
      && (configWrite.Some? ==> configWrite.value == updated)
      && (configWrite.Some? && textLen <= stored.capacity ==>
            r == Ok(segs[SCANNER_SETTINGS_SHM := Segment(updated, stored.capacity)]))
      && (configWrite.Some? && textLen > stored.capacity ==> r == Err(ValueError))
      && (configWrite.None? ==> r == Ok(segs))
      && (r.Ok? ==> SCANNER_SETTINGS_SHM in r.value && DictEq(updated, r.value[SCANNER_SETTINGS_SHM].data))
  {
    configWrite := None;
    var current := SharedMemoryGetDict(segs, Passed(SCANNER_SETTINGS_SHM));
    if current.Err? {
      return Err(current.error), None;
    }
    var currentSettings := SettingsRules.ApplySettingsUpdate(current.value.value, kwargs, lo, hi);
    var stored := SharedMemoryGetDict(segs, Passed(SCANNER_SETTINGS_SHM));
    r := Ok(segs);
    if !DictEq(currentSettings, stored.value.value) {
      configWrite := Some(currentSettings);
      r := SharedMemorySetDict(segs, Passed(SCANNER_SETTINGS_SHM), Passed(currentSettings), textLen);
      DictEqReflexive(currentSettings);
    }
  }
}
