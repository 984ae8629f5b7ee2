/**
 * The Python values the scanners keep in their settings dictionaries, keyword arguments and
 * cache files, with the three pieces of Python semantics the source relies on: truth values
 * (`if x:`), `isinstance` (where `bool` is a subclass of `int`) and `==` (where `True == 1`).
 */
module PyValues {
  import opened Wrappers
  import opened BeaconModel

  datatype Value =
    | PyNone
    | PyBool(b: bool)
    | PyInt(i: int)
    | PyStr(s: string)
    | PyList(items: seq<Value>)
      /** `vars(beacon)`: the dictionary of a beacon's six fields, keyed by their names. */
    | PyBeaconDict(beacon: Beacon)
      /** Any other object (a float, a nested dictionary, a callable ...), with its truth value. */
    | PyOther(id: nat, truthy: bool)

  /** A Python dictionary with string keys; dictionaries compare without regard to order. */
  type Dict = map<string, Value>

  /** The exceptions the modelled code can raise. */
  datatype PyError =
    | KeyError(key: string)
    | TypeError
    | FileNotFoundError(name: string)
    | FileExistsError(name: string)
    | ValueError

  /** `isinstance(v, str)`. */
  predicate IsStr(v: Value) {
    v.PyStr?
  }

  /** `isinstance(v, bool)`. */
  predicate IsBool(v: Value) {
    v.PyBool?
  }

  /** `isinstance(v, int)`, which also holds of `True` and `False`. */
  predicate IsInt(v: Value): (r: bool)
    ensures IsBool(v) ==> r
    ensures v.PyNone? || v.PyStr? || v.PyList? || v.PyBeaconDict? ==> !r
  {
    v.PyInt? || v.PyBool?
  }

  /** The integer an `int` (or `bool`) stands for: `True` is 1 and `False` is 0. */
  function AsInt(v: Value): int
    requires IsInt(v)
  {
    if v.PyBool? then (if v.b then 1 else 0) else v.i
  }

  /** `vars(beacon) if beacon else None`: a beacon object is always truthy, only `None` is absent. */
  function BeaconOrNone(b: Option<Beacon>): (r: Value)
    ensures r == PyNone <==> b.None?
    ensures b.Some? ==> r == PyBeaconDict(b.value)
  {
    match b
    case None => PyNone
    case Some(x) => PyBeaconDict(x)
  }

  /** `[vars(b) for b in beacons]`. */
  function BeaconDicts(beacons: seq<Beacon>): (r: seq<Value>)
    ensures |r| == |beacons| && forall i :: 0 <= i < |r| ==> r[i] == PyBeaconDict(beacons[i])
  {
    seq(|beacons|, i requires 0 <= i < |beacons| => PyBeaconDict(beacons[i]))
  }

  /** `bool(v)`. */
  predicate Truthy(v: Value) {
    match v
    case PyNone => false
    case PyBool(b) => b
    case PyInt(i) => i != 0
    case PyStr(s) => s != ""
    case PyList(items) => items != []
    case PyBeaconDict(_) => true
    case PyOther(_, t) => t
  }

  /** Python's `a == b`: numbers compare by value across `bool` and `int`, lists element by element. */
  predicate PyEq(a: Value, b: Value)
    decreases a
  {
    if IsInt(a) && IsInt(b) then AsInt(a) == AsInt(b)
    else if a.PyList? && b.PyList? then
      |a.items| == |b.items| && forall i :: 0 <= i < |a.items| ==> PyEq(a.items[i], b.items[i])
    else a == b
  }

  /** `a == b` on dictionaries: the same keys, and `==` values under every key. */
  predicate DictEq(a: Dict, b: Dict) {
    a.Keys == b.Keys && forall k :: k in a ==> PyEq(a[k], b[k])
  }

  /** `==` is reflexive on every value, so a dictionary always equals itself. */
  lemma {:induction false} PyEqReflexive(a: Value)
    ensures PyEq(a, a)
    decreases a
  {
    if a.PyList? && !IsInt(a) {
      forall i | 0 <= i < |a.items|
        ensures PyEq(a.items[i], a.items[i])
      {
        PyEqReflexive(a.items[i]);
      }
    }
  }

  lemma DictEqReflexive(d: Dict)
    ensures DictEq(d, d)
  {
    forall k | k in d
      ensures PyEq(d[k], d[k])
    {
      PyEqReflexive(d[k]);
    }
  }

  /** `True == 1` and `False == 0`, although they are different values. */
  lemma BoolEqualsInt()
    ensures PyEq(PyBool(true), PyInt(1)) && PyBool(true) != PyInt(1)
    ensures PyEq(PyBool(false), PyInt(0)) && PyBool(false) != PyInt(0)
  {
  }
}
