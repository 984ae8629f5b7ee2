/**
 * The rule by which keyword arguments update the scanner settings: typed fields replace the
 * stored value, `scan_tick` is clamped, mistyped and unknown keys are ignored. The rule is
 * written out field by field in the file-backed scanner and again in the shared-memory draft;
 * the first-generation scanner applies its two-field subset with bounds 1 and 10.
 */
module SettingsRules {
  import opened Wrappers
  import opened PyValues

  /**
   * `scan_tick` clamping: below `lo` stores `lo`, above `hi` stores `hi`, in range stores the
   * argument itself (so `True`, which is 1, is stored as `True`).
   */
  function ClampScanTick(tick: Value, lo: int, hi: int): (r: Value)
    requires IsInt(tick)
    ensures IsInt(r)
    ensures AsInt(tick) < lo ==> r == PyInt(lo)
    ensures lo <= AsInt(tick) && hi < AsInt(tick) ==> r == PyInt(hi)
    ensures lo <= AsInt(tick) <= hi ==> r == tick
    ensures lo <= hi ==> lo <= AsInt(r) <= hi
  {
    if AsInt(tick) < lo then PyInt(lo)
    else if AsInt(tick) > hi then PyInt(hi)
    else tick
  }

  /** Clamping twice is clamping once. */
  lemma ClampIsIdempotent(tick: Value, lo: int, hi: int)
    requires IsInt(tick) && lo <= hi
    ensures ClampScanTick(ClampScanTick(tick, lo, hi), lo, hi) == ClampScanTick(tick, lo, hi)
  {
  }

  /** `False` is clamped to the lower bound 1, `True` passes through as `True`. */
  lemma ClampOfBools()
    ensures ClampScanTick(PyBool(false), 1, 10) == PyInt(1)
    ensures ClampScanTick(PyBool(true), 1, 10) == PyBool(true)
  {
  }

  /** The settings fields the rule knows. */
  const SETTINGS_FIELDS: set<string> := {"uuid_filter", "scan_tick", "fake_scan", "run_flag"}

  /**
   * The policy table: what the rule stores for field `key` given the argument `v`, or `None`
   * when it ignores the argument (an unknown key or a value of the wrong type).
   */
  function Accepted(key: string, v: Value, lo: int, hi: int): Option<Value> {
    if key == "uuid_filter" && IsStr(v) then Some(v)
    else if key == "scan_tick" && IsInt(v) then Some(ClampScanTick(v, lo, hi))
    else if (key == "fake_scan" || key == "run_flag") && IsBool(v) then Some(v)
    else None
  }

  /** The stores the rule performs for a set of keyword arguments. */
  function AcceptedUpdates(kwargs: Dict, lo: int, hi: int): (u: Dict)
    ensures u.Keys <= SETTINGS_FIELDS
  {
    map k | k in kwargs && Accepted(k, kwargs[k], lo, hi).Some? :: Accepted(k, kwargs[k], lo, hi).value
  }

  /** One field's store: the policy table's value for `key`, when there is one. */
  function StoreField(d: Dict, kwargs: Dict, key: string, lo: int, hi: int): Dict {
    if key in kwargs && Accepted(key, kwargs[key], lo, hi).Some? then d[key := Accepted(key, kwargs[key], lo, hi).value] else d
  }

  /** The four field stores in turn amount to overriding the settings with every accepted update. */
  lemma StoresAreAcceptedUpdates(current: Dict, kwargs: Dict, lo: int, hi: int)
    ensures StoreField(StoreField(StoreField(StoreField(current, kwargs, "uuid_filter", lo, hi),
      kwargs, "scan_tick", lo, hi), kwargs, "fake_scan", lo, hi), kwargs, "run_flag", lo, hi)
      == current + AcceptedUpdates(kwargs, lo, hi)
  {
    var d1 := StoreField(current, kwargs, "uuid_filter", lo, hi);
    var d2 := StoreField(d1, kwargs, "scan_tick", lo, hi);
    var d3 := StoreField(d2, kwargs, "fake_scan", lo, hi);
    var d4 := StoreField(d3, kwargs, "run_flag", lo, hi);
    var u := AcceptedUpdates(kwargs, lo, hi);
    var want := current + u;
    assert d4.Keys == want.Keys by {
      assert d1.Keys == current.Keys + (if "uuid_filter" in u then {"uuid_filter"} else {});
      assert d2.Keys == d1.Keys + (if "scan_tick" in u then {"scan_tick"} else {});
      assert d3.Keys == d2.Keys + (if "fake_scan" in u then {"fake_scan"} else {});
      assert d4.Keys == d3.Keys + (if "run_flag" in u then {"run_flag"} else {});
    }
    forall k | k in want
      ensures d4[k] == want[k]
    {
      if k == "run_flag" {
      } else if k == "fake_scan" {
        assert d4[k] == d3[k];
      } else if k == "scan_tick" {
        assert d4[k] == d3[k] == d2[k];
      } else if k == "uuid_filter" {
        assert d4[k] == d3[k] == d2[k] == d1[k];
      } else {
        assert k !in u;
        assert d4[k] == d3[k] == d2[k] == d1[k] == current[k];
      }
    }
  }

  /**
   * The field-by-field mutation of `current_settings`: each recognised, well-typed argument is
   * stored (the tick clamped into `[lo, hi]`), everything else is left as it was.
   */
  method ApplySettingsUpdate(current: Dict, kwargs: Dict, lo: int, hi: int) returns (updated: Dict)
    ensures updated == current + AcceptedUpdates(kwargs, lo, hi)
  {
    updated := current;
    if "uuid_filter" in kwargs && IsStr(kwargs["uuid_filter"]) {
      updated := updated["uuid_filter" := kwargs["uuid_filter"]];
    }
    assert updated == StoreField(current, kwargs, "uuid_filter", lo, hi);
    ghost var d1 := updated;
    if "scan_tick" in kwargs && IsInt(kwargs["scan_tick"]) {
      var tick := kwargs["scan_tick"];
      if AsInt(tick) < lo {
        updated := updated["scan_tick" := PyInt(lo)];
      } else if AsInt(tick) > hi {
        updated := updated["scan_tick" := PyInt(hi)];
      } else {
        updated := updated["scan_tick" := tick];
      }
    }
    assert updated == StoreField(d1, kwargs, "scan_tick", lo, hi);
    ghost var d2 := updated;
    if "fake_scan" in kwargs && IsBool(kwargs["fake_scan"]) {
      updated := updated["fake_scan" := kwargs["fake_scan"]];
    }
    assert updated == StoreField(d2, kwargs, "fake_scan", lo, hi);
    ghost var d3 := updated;
    if "run_flag" in kwargs && IsBool(kwargs["run_flag"]) {
      updated := updated["run_flag" := kwargs["run_flag"]];
    }
    assert updated == StoreField(d3, kwargs, "run_flag", lo, hi);
    StoresAreAcceptedUpdates(current, kwargs, lo, hi);
  }

  /** The stored tick is a clamped `int` after an update whenever it was one before or a new tick was given. */
  lemma UpdateKeepsTickInRange(current: Dict, kwargs: Dict, lo: int, hi: int)
    requires lo <= hi
    requires "scan_tick" in current ==> IsInt(current["scan_tick"]) && lo <= AsInt(current["scan_tick"]) <= hi
    ensures var updated := current + AcceptedUpdates(kwargs, lo, hi);
      "scan_tick" in updated ==> IsInt(updated["scan_tick"]) && lo <= AsInt(updated["scan_tick"]) <= hi
  {
  }

  /** Keys outside the four settings fields, and mistyped values, never change the settings. */
  lemma UpdateIgnoresUnknownAndMistyped(current: Dict, kwargs: Dict, lo: int, hi: int)
    ensures var updated := current + AcceptedUpdates(kwargs, lo, hi);
      forall k :: k in current && (k !in kwargs || Accepted(k, kwargs[k], lo, hi).None?) ==> updated[k] == current[k]
    ensures forall k :: k !in SETTINGS_FIELDS ==> k !in AcceptedUpdates(kwargs, lo, hi)
  {
  }

  /** Applying the same arguments a second time changes nothing more. */
  lemma UpdateIsIdempotent(current: Dict, kwargs: Dict, lo: int, hi: int)
    ensures var once := current + AcceptedUpdates(kwargs, lo, hi);
      once + AcceptedUpdates(kwargs, lo, hi) == once
  {
  }

  /** An update that accepts nothing leaves settings `==` to the stored ones, so no write follows. */
  lemma NothingAcceptedIsNoChange(settings: Dict, kwargs: Dict, lo: int, hi: int)
    requires AcceptedUpdates(kwargs, lo, hi) == map[]
    ensures DictEq(settings + AcceptedUpdates(kwargs, lo, hi), settings)
  {
    assert settings + map[] == settings;
    DictEqReflexive(settings);
  }
}
