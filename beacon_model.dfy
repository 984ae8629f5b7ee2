/**
 * The iBeacon value type shared by every generation of the scanner: one observed
 * advertisement, its identity (`hash` / `__eq__`) and its ordering (`__lt__`), together
 * with the two list operations the scanners build on it: first-seen deduplication
 * (the scan callbacks) and Python's stable `sorted` under `__lt__`.
 */
module BeaconModel {
  import opened Wrappers

  /** One observed iBeacon packet. Fields are set once by the constructor and never change. */
  datatype Beacon = Beacon(macAddress: string, uuid: string, major: int, minor: int, txPower: int, rssi: int)

  /** `IBeacon()` with every constructor argument left at its default. */
  function DefaultBeacon(): Beacon {
    Beacon("", "", 0, 0, 0, 0)
  }

  // ---------------------------------------------------------------------------
  // Identity
  // ---------------------------------------------------------------------------

  function DigitChar(d: nat): (c: char)
    requires d < 10
    ensures '0' <= c <= '9'
  {
    ('0' as int + d) as char
  }

  /** The number a string of decimal digits denotes, most significant digit first. */
  function DecimalValue(s: string): nat
    requires forall i :: 0 <= i < |s| ==> '0' <= s[i] <= '9'
  {
    if s == [] then 0 else DecimalValue(s[..|s| - 1]) * 10 + (s[|s| - 1] as int - '0' as int)
  }

  /**
   * Python's `str(n)` for a non-negative integer: the decimal digits of `n`, most significant
   * first, with no leading zero except in `"0"` itself.
   */
  function NatString(n: nat): (s: string)
    ensures |s| >= 1
    ensures forall i :: 0 <= i < |s| ==> '0' <= s[i] <= '9'
    ensures DecimalValue(s) == n
    ensures s[0] == '0' <==> n == 0
    ensures n == 0 ==> s == "0"
  {
    if n < 10 then [DigitChar(n)]
    else
      var p := NatString(n / 10);
      assert (p + [DigitChar(n % 10)])[..|p|] == p;
      p + [DigitChar(n % 10)]
  }

  /** Python's `str(n)` for any integer: a minus sign for negative `n`, then the digits of `|n|`. */
  function IntString(n: int): (s: string)
    ensures |s| >= 1
    ensures s[0] == '-' <==> n < 0
    ensures forall i :: (if n < 0 then 1 else 0) <= i < |s| ==> '0' <= s[i] <= '9'
    ensures n >= 0 ==> DecimalValue(s) == n
    ensures n > 0 ==> s[0] != '0'
    ensures n == 0 ==> s == "0"
    ensures n < 0 ==> |s| >= 2 && s[1] != '0' && DecimalValue(s[1..]) == -n
  {
    if n < 0 then
      var p := NatString(-n);
      assert ("-" + p)[1..] == p;
      "-" + p
    else NatString(n)
  }

  /** Different integers have different decimal texts. */
  lemma IntStringInjective(a: int, b: int)
    ensures IntString(a) == IntString(b) ==> a == b
  {
    if IntString(a) == IntString(b) && a < 0 && b < 0 {
      assert IntString(a)[1..] == IntString(b)[1..];
    }
  }

  /** The string `hash` is applied to: `str(mac_address) + str(major) + str(minor)`, with no separator. */
  function Key(b: Beacon): (r: string)
    ensures |r| >= |b.macAddress| + 2 && r[..|b.macAddress|] == b.macAddress
  {
    b.macAddress + IntString(b.major) + IntString(b.minor)
  }

  /**
   * `a == b` on beacons. The source compares `hash` values of the key strings; the hash
   * is taken to be injective, so equality is equality of the keys.
   */
  predicate Same(a: Beacon, b: Beacon): (r: bool)
    ensures a.macAddress == b.macAddress && a.major == b.major && a.minor == b.minor ==> r
  {
    Key(a) == Key(b)
  }

  /** "Same identity" lifted to optional beacons: both absent, or both present and `==`. */
  predicate SameIdentity(a: Option<Beacon>, b: Option<Beacon>) {
    (a.None? && b.None?) || (a.Some? && b.Some? && Same(a.value, b.value))
  }

  /** `==` is an equivalence relation. */
  lemma SameIsEquivalence(a: Beacon, b: Beacon, c: Beacon)
    ensures Same(a, a)
    ensures Same(a, b) ==> Same(b, a)
    ensures Same(a, b) && Same(b, c) ==> Same(a, c)
  {
  }

  /** The optional lifting used by both nearest-change tests is an equivalence as well. */
  lemma SameIdentityIsEquivalence(a: Option<Beacon>, b: Option<Beacon>, c: Option<Beacon>)
    ensures SameIdentity(a, a)
    ensures SameIdentity(a, b) ==> SameIdentity(b, a)
    ensures SameIdentity(a, b) && SameIdentity(b, c) ==> SameIdentity(a, c)
  {
  }

  /** The key has no separator: `("1", 12, 3)` and `("11", 2, 3)` are different triples but `==`. */
  lemma KeyCollision()
    ensures Same(Beacon("1", "", 12, 3, 0, 0), Beacon("11", "", 2, 3, 0, 0))
  {
    assert NatString(12) == NatString(1) + [DigitChar(2)];
    assert IntString(12) == "12";
    assert IntString(2) == "2";
    assert IntString(3) == "3";
    assert Key(Beacon("1", "", 12, 3, 0, 0)) == "1123";
    assert Key(Beacon("11", "", 2, 3, 0, 0)) == "1123";
  }

  /**
   * The collision needs addresses of different lengths: beacons whose addresses have the same
   * length (as real `aa:bb:cc:dd:ee:ff` addresses do) but differ are never `==`.
   */
  lemma DistinctAddressesOfEqualLength(a: Beacon, b: Beacon)
    requires |a.macAddress| == |b.macAddress| && a.macAddress != b.macAddress
    ensures !Same(a, b)
  {
  }

  /** A list whose addresses all have one length and are pairwise different has no duplicates. */
  lemma DistinctAddressesHaveNoDuplicates(s: seq<Beacon>)
    requires forall i, j :: 0 <= i < j < |s| ==> |s[i].macAddress| == |s[j].macAddress| && s[i].macAddress != s[j].macAddress
    ensures NoDuplicates(s)
  {
    forall i, j | 0 <= i < j < |s|
      ensures !Same(s[i], s[j])
    {
      DistinctAddressesOfEqualLength(s[i], s[j]);
    }
  }

  /** The default-constructed beacon has identity key `"00"`. */
  lemma DefaultBeaconKey()
    ensures Key(DefaultBeacon()) == "00"
  {
    assert IntString(0) == "0";
  }

  // ---------------------------------------------------------------------------
  // Ordering
  // ---------------------------------------------------------------------------

  /** `a < b`: `a` is received more strongly than `b`. */
  predicate Less(a: Beacon, b: Beacon) {
    b.rssi < a.rssi
  }

  /** `<` is a strict weak order: irreflexive, transitive, and incomparability is equal RSSI. */
  lemma LessIsStrictWeakOrder(a: Beacon, b: Beacon, c: Beacon)
    ensures !Less(a, a)
    ensures Less(a, b) && Less(b, c) ==> Less(a, c)
    ensures Less(a, b) ==> !Less(b, a)
    ensures !Less(a, b) && !Less(b, a) <==> a.rssi == b.rssi
  {
  }

  /** RSSI never increases along the sequence: stronger beacons first. */
  predicate SortedByRssi(s: seq<Beacon>) {
    forall i, j :: 0 <= i < j < |s| ==> s[j].rssi <= s[i].rssi
  }

  /** Places `x` in front of every element of `t` that it is not weaker than. */
  function Insert(x: Beacon, t: seq<Beacon>): (r: seq<Beacon>)
    ensures multiset(r) == multiset(t) + multiset{x}
    ensures |r| == |t| + 1 && (r[0] == x || (t != [] && r[0] == t[0]))
  {
    if t == [] || t[0].rssi <= x.rssi then
      [x] + t
    else
      assert t == [t[0]] + t[1..];
      [t[0]] + Insert(x, t[1..])
  }

  lemma {:induction false} InsertKeepsSorted(x: Beacon, t: seq<Beacon>)
    requires SortedByRssi(t)
    ensures SortedByRssi(Insert(x, t))
  {
    if t != [] && x.rssi < t[0].rssi {
      var rest := Insert(x, t[1..]);
      InsertKeepsSorted(x, t[1..]);
      assert rest[0].rssi <= t[0].rssi;
      var r := [t[0]] + rest;
      forall i, j | 0 <= i < j < |r|
        ensures r[j].rssi <= r[i].rssi
      {
        assert r[j] == rest[j - 1];
        if i > 0 {
          assert r[i] == rest[i - 1];
        } else if j > 1 {
          assert rest[j - 1].rssi <= rest[0].rssi;
        }
      }
    }
  }

  /**
   * Python's `sorted(beacons)` under `__lt__`: a permutation of the input whose RSSI values never
   * increase (stability is `SortIsStable`).
   */
  function SortByRssi(s: seq<Beacon>): (r: seq<Beacon>)
    ensures multiset(r) == multiset(s) && |r| == |s|
    ensures SortedByRssi(r)
  {
    if s == [] then []
    else
      var t := SortByRssi(s[1..]);
      InsertKeepsSorted(s[0], t);
      assert s == [s[0]] + s[1..];
      Insert(s[0], t)
  }

  /** The beacons of `s` whose RSSI is `v`, in their order in `s`. */
  function WithRssi(s: seq<Beacon>, v: int): seq<Beacon> {
    if s == [] then [] else (if s[0].rssi == v then [s[0]] else []) + WithRssi(s[1..], v)
  }

  lemma WithRssiCons(b: Beacon, s: seq<Beacon>, v: int)
    ensures WithRssi([b] + s, v) == (if b.rssi == v then [b] else []) + WithRssi(s, v)
  {
    assert ([b] + s)[0] == b;
    assert ([b] + s)[1..] == s;
  }

  lemma {:induction false} InsertStable(x: Beacon, t: seq<Beacon>, v: int)
    requires SortedByRssi(t)
    ensures WithRssi(Insert(x, t), v) == WithRssi([x] + t, v)
  {
    if t != [] && x.rssi < t[0].rssi {
      var t0, t' := t[0], t[1..];
      assert t == [t0] + t';
      var rest := Insert(x, t');
      var mx := if x.rssi == v then [x] else [];
      var m0 := if t0.rssi == v then [t0] else [];
      InsertStable(x, t', v);
      WithRssiCons(t0, rest, v);
      WithRssiCons(x, t', v);
      WithRssiCons(x, t, v);
      WithRssiCons(t0, t', v);
      assert mx == [] || m0 == [];
      calc {
        WithRssi(Insert(x, t), v);
        WithRssi([t0] + rest, v);
        m0 + WithRssi(rest, v);
        m0 + (mx + WithRssi(t', v));
        mx + (m0 + WithRssi(t', v));
        mx + WithRssi(t, v);
        WithRssi([x] + t, v);
      }
    }
  }

  /**
   * Stability: beacons with equal RSSI keep their input order, since for every RSSI value the
   * beacons carrying it appear in the output exactly as in the input.
   */
  lemma {:induction false} SortIsStable(s: seq<Beacon>, v: int)
    ensures WithRssi(SortByRssi(s), v) == WithRssi(s, v)
  {
    if s != [] {
      InsertStable(s[0], SortByRssi(s[1..]), v);
      SortIsStable(s[1..], v);
      assert ([s[0]] + SortByRssi(s[1..]))[1..] == SortByRssi(s[1..]);
    }
  }

  /** Sorting an already sorted list changes nothing (the scanner re-sorts the cached list). */
  lemma {:induction false} SortOfSortedIsIdentity(s: seq<Beacon>)
    requires SortedByRssi(s)
    ensures SortByRssi(s) == s
  {
    if s != [] {
      SortOfSortedIsIdentity(s[1..]);
      assert s == [s[0]] + s[1..];
    }
  }

  /** The optional first element of a list: the "nearest" beacon of a sorted list. */
  function HeadOf(s: seq<Beacon>): Option<Beacon> {
    if s == [] then None else Some(s[0])
  }

  /** The head of a sorted non-empty list is one of its beacons and is received at least as strongly as every other. */
  lemma SortHeadIsStrongest(s: seq<Beacon>)
    requires s != []
    ensures SortByRssi(s) != [] && SortByRssi(s)[0] in s
    ensures forall b :: b in s ==> b.rssi <= SortByRssi(s)[0].rssi
  {
    var r := SortByRssi(s);
    assert r[0] in multiset(r);
    forall b | b in s
      ensures b.rssi <= r[0].rssi
    {
      assert b in multiset(s);
      assert b in multiset(r);
      var k :| 0 <= k < |r| && r[k] == b;
      assert k == 0 || r[k].rssi <= r[0].rssi;
    }
  }

  // ---------------------------------------------------------------------------
  // First-seen deduplication (`if beacon not in beacons_list: beacons_list.append(beacon)`)
  // ---------------------------------------------------------------------------

  /** `b in s` for a Python list of beacons: some element is `==` to `b`. */
  predicate ContainsSame(s: seq<Beacon>, b: Beacon) {
    exists i :: 0 <= i < |s| && Same(s[i], b)
  }

  /** Feeds the observations to the scan callback in order, appending each one not already present. */
  function Dedup(s: seq<Beacon>): (r: seq<Beacon>)
  {
    if s == [] then []
    else
      var d := Dedup(s[..|s| - 1]);
      if ContainsSame(d, s[|s| - 1]) then d else d + [s[|s| - 1]]
  }

  /** `x` is an observation of `s` and no earlier observation has the same identity. */
  predicate FirstSeen(s: seq<Beacon>, x: Beacon) {
    exists i :: 0 <= i < |s| && s[i] == x && forall k :: 0 <= k < i ==> !Same(s[k], x)
  }

  /** No two pairwise `==` entries. */
  predicate NoDuplicates(s: seq<Beacon>) {
    forall i, j :: 0 <= i < j < |s| ==> !Same(s[i], s[j])
  }

  /** Deduplication only drops observations: each entry kept is one of the input's. */
  lemma {:induction false} DedupIsSubMultiset(s: seq<Beacon>)
    ensures multiset(Dedup(s)) <= multiset(s)
  {
    if s != [] {
      DedupIsSubMultiset(s[..|s| - 1]);
      assert s == s[..|s| - 1] + [s[|s| - 1]];
    }
  }

  /** Every observation is represented in the deduplicated list by an entry `==` to it. */
  lemma {:induction false} DedupCovers(s: seq<Beacon>)
    ensures forall i :: 0 <= i < |s| ==> ContainsSame(Dedup(s), s[i])
  {
    if s != [] {
      var p, b := s[..|s| - 1], s[|s| - 1];
      var d, r := Dedup(p), Dedup(s);
      DedupCovers(p);
      assert r == if ContainsSame(d, b) then d else d + [b];
      assert |d| <= |r| && forall k :: 0 <= k < |d| ==> r[k] == d[k];
      forall i | 0 <= i < |s|
        ensures ContainsSame(r, s[i])
      {
        if i < |s| - 1 {
          assert s[i] == p[i];
          var j :| 0 <= j < |d| && Same(d[j], s[i]);
          assert Same(r[j], s[i]);
        } else if !ContainsSame(d, b) {
          assert Same(r[|d|], b);
        }
      }
    }
  }

  /** The deduplicated list has no two `==` entries. */
  lemma {:induction false} DedupHasNoDuplicates(s: seq<Beacon>)
    ensures NoDuplicates(Dedup(s))
  {
    if s != [] {
      var p, b := s[..|s| - 1], s[|s| - 1];
      DedupHasNoDuplicates(p);
      var d := Dedup(p);
      if !ContainsSame(d, b) {
        var r := d + [b];
        forall i, j | 0 <= i < j < |r|
          ensures !Same(r[i], r[j])
        {
          if j == |d| {
            assert r[i] == d[i];
          } else {
            assert r[i] == d[i] && r[j] == d[j];
          }
        }
      }
    }
  }

  lemma FirstSeenInPrefix(s: seq<Beacon>, x: Beacon)
    requires s != [] && FirstSeen(s[..|s| - 1], x)
    ensures FirstSeen(s, x)
  {
    var p := s[..|s| - 1];
    var i :| 0 <= i < |p| && p[i] == x && forall k :: 0 <= k < i ==> !Same(p[k], x);
    assert s[i] == x;
    assert forall k :: 0 <= k < i ==> s[k] == p[k];
  }

  lemma FirstSeenAtEnd(s: seq<Beacon>)
    requires s != [] && forall k :: 0 <= k < |s| - 1 ==> !Same(s[k], s[|s| - 1])
    ensures FirstSeen(s, s[|s| - 1])
  {
  }

  /** Two observations that are each the first of their identity, and are `==`, are the same observation. */
  lemma FirstSeenUnique(s: seq<Beacon>, x: Beacon, y: Beacon)
    requires FirstSeen(s, x) && FirstSeen(s, y) && Same(x, y)
    ensures x == y
  {
    var i :| 0 <= i < |s| && s[i] == x && forall k :: 0 <= k < i ==> !Same(s[k], x);
    var j :| 0 <= j < |s| && s[j] == y && forall k :: 0 <= k < j ==> !Same(s[k], y);
    assert !(i < j) by {
      assert Same(s[i], y);
    }
    assert !(j < i) by {
      assert Same(s[j], x);
    }
  }

  /** Every observation that is the first of its identity is kept by the deduplication. */
  lemma FirstSeenIsKept(s: seq<Beacon>, b: Beacon)
    requires FirstSeen(s, b)
    ensures b in Dedup(s)
  {
    var i :| 0 <= i < |s| && s[i] == b && forall k :: 0 <= k < i ==> !Same(s[k], b);
    var d := Dedup(s);
    DedupCovers(s);
    assert ContainsSame(d, s[i]);
    var m :| 0 <= m < |d| && Same(d[m], b);
    DedupKeepsFirstSeen(s);
    FirstSeenUnique(s, d[m], b);
  }

  /** Each entry of the deduplicated list is the first observation of its identity. */
  lemma {:induction false} DedupKeepsFirstSeen(s: seq<Beacon>)
    ensures forall j :: 0 <= j < |Dedup(s)| ==> FirstSeen(s, Dedup(s)[j])
  {
    if s != [] {
      var p, b := s[..|s| - 1], s[|s| - 1];
      var d, r := Dedup(p), Dedup(s);
      DedupKeepsFirstSeen(p);
      DedupCovers(p);
      forall j | 0 <= j < |r|
        ensures FirstSeen(s, r[j])
      {
        if j < |d| {
          assert r[j] == d[j];
          FirstSeenInPrefix(s, d[j]);
        } else {
          assert r[j] == b && !ContainsSame(d, b);
          forall k | 0 <= k < |s| - 1
            ensures !Same(s[k], b)
          {
            assert s[k] == p[k];
          }
          FirstSeenAtEnd(s);
        }
      }
    }
  }

  /** A later re-observation of an identity already seen is dropped, even when it is stronger: the first RSSI is kept. */
  lemma FirstSeenWins(weak: Beacon, strong: Beacon)
    requires Same(weak, strong)
    ensures Dedup([weak, strong]) == [weak]
  {
    assert [weak, strong][..1] == [weak];
    assert [weak][..0] == [];
    assert Dedup([weak]) == [weak];
    assert ContainsSame([weak], strong) by {
      assert Same([weak][0], strong);
    }
  }

  // ---------------------------------------------------------------------------
  // The simulated scan roster
  // ---------------------------------------------------------------------------

  /**
   * The three simulated beacons of a fake scan: addresses 11:11:11, 22:22:22 and 33:33:33,
   * major 11, minors 1 to 3, tx power -50, the given namespace and the given RSSI values.
   */
  function FakeRoster(uuid: string, rssi1: int, rssi2: int, rssi3: int): (r: seq<Beacon>)
    ensures |r| == 3 && NoDuplicates(r)
    ensures forall i :: 0 <= i < 3 ==> r[i].uuid == uuid && r[i].txPower == -50 && r[i].major == 11
    ensures r[0].rssi == rssi1 && r[1].rssi == rssi2 && r[2].rssi == rssi3
  {
    var r := [Beacon("11:11:11", uuid, 11, 1, -50, rssi1),
              Beacon("22:22:22", uuid, 11, 2, -50, rssi2),
              Beacon("33:33:33", uuid, 11, 3, -50, rssi3)];
    DistinctAddressesHaveNoDuplicates(r);
    r
  }

  /**
   * A fake scan always finds a beacon: the strongest of the roster is one of the three simulated
   * addresses and carries the largest of the three RSSI values.
   */
  lemma FakeRosterNearest(uuid: string, rssi1: int, rssi2: int, rssi3: int)
    ensures HeadOf(SortByRssi(FakeRoster(uuid, rssi1, rssi2, rssi3))).Some?
    ensures var n := HeadOf(SortByRssi(FakeRoster(uuid, rssi1, rssi2, rssi3))).value;
      && n.macAddress in {"11:11:11", "22:22:22", "33:33:33"}
      && n.rssi >= rssi1 && n.rssi >= rssi2 && n.rssi >= rssi3
      && n.rssi in {rssi1, rssi2, rssi3}
  {
    var r := FakeRoster(uuid, rssi1, rssi2, rssi3);
    SortHeadIsStrongest(r);
    assert r[0] in r && r[1] in r && r[2] in r;
  }
}
