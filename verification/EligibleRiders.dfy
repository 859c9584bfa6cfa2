/** Which riders an order is offered to, and in which order. */
module EligibleRiders {
  import opened Common
  import opened Rounding
  import opened Sorting

  /** A raider row with its tier and location joined in. `distanceKm` is the
      haversine distance to the pickup, absent when the rider has no location. */
  datatype RaiderRow = RaiderRow(
    id: int,
    userId: int,
    autoPopup: bool,
    suspended: bool,
    approved: bool,
    tierCode: string,
    tierActive: bool,
    priorityScore: real,
    available: bool,
    radius: int,
    distanceKm: Option<real>)

  datatype Driver = Driver(raiderId: int, userId: int, distanceKm: real, isAvailable: bool, tierCode: string, priorityScore: real)

  /** The database filter. For orders that are not pooled the code asks for
      riders whose availability flag is false. */
  predicate Selected(r: RaiderRow, pooling: bool) {
    && r.autoPopup && !r.suspended && r.approved
    && (r.tierCode == "GOLD" || r.tierCode == "PLATINUM") && r.tierActive
    && (pooling || !r.available)
  }

  /** A radius of zero means "not configured". */
  function Reach(r: RaiderRow, radiusKm: real): real {
    if r.radius != 0 then r.radius as real else radiusKm
  }

  predicate Eligible(r: RaiderRow, pooling: bool, radiusKm: real) {
    Selected(r, pooling) && r.distanceKm.Some? && r.distanceKm.value <= Reach(r, radiusKm)
  }

  function ToDriver(r: RaiderRow): Driver
    requires r.distanceKm.Some?
  {
    Driver(r.id, r.userId, r.distanceKm.value, r.available, r.tierCode, r.priorityScore)
  }

  // ---------- The comparator ----------

  predicate Near(a: Driver, b: Driver) {
    Abs(a.distanceKm - b.distanceKm) <= 0.5
  }

  function Compare(a: Driver, b: Driver): real {
    var distanceDiff := a.distanceKm - b.distanceKm;
    if Abs(distanceDiff) > 0.5 then distanceDiff else b.priorityScore - a.priorityScore
  }

  ghost predicate NearTransitive(s: seq<Driver>) {
    forall a, b, c | a in s && b in s && c in s && Near(a, b) && Near(b, c) :: Near(a, c)
  }

  predicate NotAfter(a: Driver, b: Driver) {
    Compare(a, b) <= 0.0
  }

  /** What every JavaScript engine promises of `Array.prototype.sort`: always a
      permutation, and sorted when the comparator is consistent. */
  ghost predicate SortResult(before: seq<Driver>, after: seq<Driver>) {
    multiset(after) == multiset(before) && (TransitiveOn(NotAfter, before) ==> SortedBy(NotAfter, after))
  }

  lemma ComparatorAntisymmetric(a: Driver, b: Driver)
    ensures Compare(a, b) == -Compare(b, a)
  {
  }

  /** The score belongs to the tier, and tier codes are unique. */
  predicate OneScorePerTier(s: seq<Driver>) {
    forall a, b | a in s && b in s && a.tierCode == b.tierCode :: a.priorityScore == b.priorityScore
  }

  predicate RealList(rows: seq<RaiderRow>, s: seq<Driver>) {
    DistinctRows(rows) && s == Collect(rows, false, 5.0) && OneScorePerTier(s)
  }

  const FAR := RaiderRow(1, 11, true, false, true, "PLATINUM", true, 2.0, false, 0, Some(0.8))
  const MIDDLE := RaiderRow(2, 12, true, false, true, "GOLD", true, 1.5, false, 0, Some(0.4))
  const CLOSE := RaiderRow(3, 13, true, false, true, "GOLD", true, 1.5, false, 0, Some(0.0))

  lemma ThreeRiders()
    ensures Collect([FAR, MIDDLE, CLOSE], false, 5.0) == [ToDriver(FAR), ToDriver(MIDDLE), ToDriver(CLOSE)]
  {
    CollectNone();
    CollectOne([], FAR);
    assert [] + [FAR] == [FAR];
    CollectOne([FAR], MIDDLE);
    assert [FAR] + [MIDDLE] == [FAR, MIDDLE];
    CollectOne([FAR, MIDDLE], CLOSE);
    assert [FAR, MIDDLE] + [CLOSE] == [FAR, MIDDLE, CLOSE];
  }

  lemma ThreeRidersReal()
    ensures RealList([FAR, MIDDLE, CLOSE], [ToDriver(FAR), ToDriver(MIDDLE), ToDriver(CLOSE)])
  {
    ThreeRiders();
  }

  lemma CollectNone()
    ensures Collect([], false, 5.0) == []
  {
  }

  lemma {:induction false} CollectOne(rows: seq<RaiderRow>, r: RaiderRow)
    requires Eligible(r, false, 5.0)
    ensures Collect(rows + [r], false, 5.0) == Collect(rows, false, 5.0) + [ToDriver(r)]
  {
    assert (rows + [r])[..|rows|] == rows;
  }

  /** The search collects a list from three riders of two tiers on which the
      comparator is not transitive: neither neighbour may be swapped, and still the
      last rider is more than half a kilometre nearer than the first. */
  lemma ComparatorNotTransitive()
    ensures exists rows, s :: RealList(rows, s) && !TransitiveOn(NotAfter, s)
  {
    ThreeRidersReal();
    var a, b, c := ToDriver(FAR), ToDriver(MIDDLE), ToDriver(CLOSE);
    var rows, s := [FAR, MIDDLE, CLOSE], [a, b, c];
    assert NotAfter(a, b) && NotAfter(b, c) && !NotAfter(a, c);
    NotTransitiveBy(a, b, c);
    assert RealList(rows, s) && !TransitiveOn(NotAfter, s);
  }

  lemma NotTransitiveBy(a: Driver, b: Driver, c: Driver)
    requires NotAfter(a, b) && NotAfter(b, c) && !NotAfter(a, c)
    ensures !TransitiveOn(NotAfter, [a, b, c])
  {
    assert a in [a, b, c] && b in [a, b, c] && c in [a, b, c];
  }

  /** With one score for each of the two tiers there is no strict cycle, however the riders lie. */
  lemma NoStrictCycle(s: seq<Driver>, a: Driver, b: Driver, c: Driver)
    requires OneScorePerTier(s) && forall d | d in s :: d.tierCode == "GOLD" || d.tierCode == "PLATINUM"
    requires a in s && b in s && c in s
    ensures !(Compare(a, b) < 0.0 && Compare(b, c) < 0.0 && Compare(c, a) < 0.0)
  {
    assert a.tierCode == b.tierCode || b.tierCode == c.tierCode || c.tierCode == a.tierCode;
  }

  /** A step of at most half a kilometre down to `b` and another one down to `c`
      that together lead more than half a kilometre nearer, at no higher priority. */
  predicate Bridge(a: Driver, b: Driver, c: Driver) {
    && Near(a, b) && Near(b, c) && a.distanceKm - c.distanceKm > 0.5
    && a.priorityScore >= b.priorityScore >= c.priorityScore
  }

  ghost predicate HasBridge(s: seq<Driver>) {
    exists a, b, c :: a in s && b in s && c in s && Bridge(a, b, c)
  }

  lemma BridgeIff(a: Driver, b: Driver, c: Driver)
    ensures NotAfter(a, b) && NotAfter(b, c) && !NotAfter(a, c) ==> Bridge(a, b, c) || Bridge(b, c, a) || Bridge(c, a, b)
    ensures Bridge(a, b, c) ==> NotAfter(a, b) && NotAfter(b, c) && !NotAfter(a, c)
  {
  }

  /** On every list, of whatever tiers, the comparator is transitive exactly when the list has no bridge. */
  lemma ConsistentIff(s: seq<Driver>)
    ensures TransitiveOn(NotAfter, s) <==> !HasBridge(s)
  {
    if !HasBridge(s) {
      forall a, b, c | a in s && b in s && c in s && NotAfter(a, b) && NotAfter(b, c)
        ensures NotAfter(a, c)
      {
        BridgeIff(a, b, c);
        assert !Bridge(a, b, c) && !Bridge(b, c, a) && !Bridge(c, a, b);
      }
    }
    if HasBridge(s) {
      var a, b, c :| a in s && b in s && c in s && Bridge(a, b, c);
      BridgeIff(a, b, c);
    }
  }

  lemma NearTransitiveIsConsistent(s: seq<Driver>)
    requires NearTransitive(s)
    ensures TransitiveOn(NotAfter, s)
  {
    ConsistentIff(s);
    assert forall a, b, c | a in s && b in s && c in s && Near(a, b) && Near(b, c) :: Near(a, c) && !Bridge(a, b, c);
  }

  /** Among riders of one tier a list has no bridge exactly when "within half a
      kilometre" is transitive on it. */
  lemma SameTierConsistentIff(s: seq<Driver>)
    requires forall a, b | a in s && b in s :: a.priorityScore == b.priorityScore
    ensures TransitiveOn(NotAfter, s) <==> NearTransitive(s)
  {
    ConsistentIff(s);
    if NearTransitive(s) {
      NearTransitiveIsConsistent(s);
    }
    if !HasBridge(s) {
      forall a, b, c | a in s && b in s && c in s && Near(a, b) && Near(b, c)
        ensures Near(a, c)
      {
        assert !Bridge(a, b, c) && !Bridge(c, b, a);
      }
    }
  }

  /** Whenever "within half a kilometre" is transitive on the list, any sort
      result is nearest group first, each group is contiguous, and inside a group
      the higher priority comes first. */
  lemma NearestGroupFirst(before: seq<Driver>, after: seq<Driver>, i: nat, j: nat)
    requires NearTransitive(before) && SortResult(before, after)
    requires i < j < |after|
    ensures Near(after[i], after[j]) ==> after[i].priorityScore >= after[j].priorityScore
    ensures !Near(after[i], after[j]) ==> after[i].distanceKm < after[j].distanceKm
    ensures Near(after[i], after[j]) ==> forall k | i < k < j :: Near(after[i], after[k])
  {
    NearTransitiveIsConsistent(before);
    assert NotAfter(after[i], after[j]);
    if Near(after[i], after[j]) {
      forall k | i < k < j
        ensures Near(after[i], after[k])
      {
        assert NotAfter(after[i], after[k]) && NotAfter(after[k], after[j]);
        assert after[i] in multiset(after) && after[j] in multiset(after) && after[k] in multiset(after);
        assert Near(after[k], after[j]) && Near(after[j], after[i]) ==> Near(after[k], after[i]);
      }
    }
  }

  // ---------- The search ----------

  /** Why a rider is not offered the order. A radius of its own replaces the given one. */
  predicate Faulty(r: RaiderRow, pooling: bool, radiusKm: real) {
    || r.suspended || !r.approved || !r.autoPopup
    || !r.tierActive || r.tierCode !in {"GOLD", "PLATINUM"}
    || (!pooling && r.available)
    || r.distanceKm.None?
    || (r.radius != 0 && r.distanceKm.value > r.radius as real)
    || (r.radius == 0 && r.distanceKm.value > radiusKm)
  }

  /** The list entry shows the figures of the row. */
  predicate Shows(d: Driver, r: RaiderRow) {
    && d.raiderId == r.id && d.userId == r.userId && r.distanceKm == Some(d.distanceKm)
    && d.isAvailable == r.available && d.tierCode == r.tierCode && d.priorityScore == r.priorityScore
  }

  /** Exactly the riders without a fault are listed, with their own figures. */
  lemma {:induction false} ListedIffFaultless(rows: seq<RaiderRow>, pooling: bool, radiusKm: real, list: seq<Driver>)
    requires multiset(list) == multiset(Collect(rows, pooling, radiusKm))
    ensures forall r | r in rows :: (!Faulty(r, pooling, radiusKm) <==> Eligible(r, pooling, radiusKm))
    ensures forall r | r in rows && !Faulty(r, pooling, radiusKm) :: exists d :: d in list && Shows(d, r)
    ensures forall d | d in list :: exists r :: r in rows && !Faulty(r, pooling, radiusKm) && Shows(d, r)
  {
    SameMembers(Collect(rows, pooling, radiusKm), list);
    forall r | r in rows && !Faulty(r, pooling, radiusKm)
      ensures exists d :: d in list && Shows(d, r)
    {
      assert ToDriver(r) in list && Shows(ToDriver(r), r);
    }
    forall d | d in list
      ensures exists r :: r in rows && !Faulty(r, pooling, radiusKm) && Shows(d, r)
    {
      var r :| r in rows && Eligible(r, pooling, radiusKm) && d == ToDriver(r);
      assert !Faulty(r, pooling, radiusKm) && Shows(d, r);
    }
  }

  function Collect(rows: seq<RaiderRow>, pooling: bool, radiusKm: real): (ds: seq<Driver>)
    ensures forall d :: d in ds <==> exists r :: r in rows && Eligible(r, pooling, radiusKm) && d == ToDriver(r)
  {
    if rows == [] then []
    else
      var r := rows[|rows| - 1];
      var rest := Collect(rows[..|rows| - 1], pooling, radiusKm);
      assert rows == rows[..|rows| - 1] + [r];
      if Eligible(r, pooling, radiusKm) then rest + [ToDriver(r)] else rest
  }

  predicate DistinctRows(rows: seq<RaiderRow>) {
    forall i, j | 0 <= i < j < |rows| :: rows[i].id != rows[j].id
  }

  predicate Distinct(ds: seq<Driver>) {
    forall i, j | 0 <= i < j < |ds| :: ds[i].raiderId != ds[j].raiderId
  }

  lemma {:induction false} CollectDistinct(rows: seq<RaiderRow>, pooling: bool, radiusKm: real)
    requires DistinctRows(rows)
    ensures Distinct(Collect(rows, pooling, radiusKm))
  {
    if rows != [] {
      var rest := Collect(rows[..|rows| - 1], pooling, radiusKm);
      CollectDistinct(rows[..|rows| - 1], pooling, radiusKm);
      assert forall d | d in rest :: d.raiderId != rows[|rows| - 1].id;
      assert forall i | 0 <= i < |rest| :: rest[i] in rest;
    }
  }

  /** A permutation of a list with one entry per rider still has one entry per rider. */
  lemma PermutationDistinct(before: seq<Driver>, after: seq<Driver>)
    requires multiset(after) == multiset(before) && Distinct(before)
    ensures Distinct(after)
  {
    forall i, j | 0 <= i < j < |after|
      ensures after[i].raiderId != after[j].raiderId
    {
      if after[i] == after[j] {
        var d := after[i];
        assert after == after[..i] + [d] + after[i + 1..j] + [d] + after[j + 1..];
        assert multiset(after)[d] >= 2;
        OncePerRider(before, d);
      } else {
        assert after[i] in multiset(before) && after[j] in multiset(before);
      }
    }
  }

  lemma {:induction false} OncePerRider(s: seq<Driver>, d: Driver)
    requires Distinct(s)
    ensures multiset(s)[d] <= 1
  {
    if s != [] {
      OncePerRider(s[1..], d);
      assert s == [s[0]] + s[1..];
      if s[0] == d {
        assert d !in s[1..];
      }
    }
  }

  /** The list an order's popup chain works through. */
  method FindEligibleDrivers(raiders: seq<RaiderRow>, pooling: bool, radiusKm: real) returns (eligible: seq<Driver>)
    ensures SortResult(Collect(raiders, pooling, radiusKm), eligible)
    ensures forall d :: d in eligible <==> exists r :: r in raiders && Eligible(r, pooling, radiusKm) && d == ToDriver(r)
    ensures forall r | r in raiders && !Faulty(r, pooling, radiusKm) :: exists d :: d in eligible && Shows(d, r)
    ensures forall d | d in eligible :: exists r :: r in raiders && !Faulty(r, pooling, radiusKm) && Shows(d, r)
    ensures DistinctRows(raiders) ==> Distinct(eligible)
  {
    var found: seq<Driver> := [];
    for n := 0 to |raiders|
      invariant found == Collect(raiders[..n], pooling, radiusKm)
    {
      var r := raiders[n];
      assert raiders[..n + 1][..n] == raiders[..n];
      if Selected(r, pooling) && r.distanceKm.Some? && !(r.distanceKm.value > Reach(r, radiusKm)) {
        found := found + [ToDriver(r)];
      }
    }
    assert raiders[..|raiders|] == raiders;
    eligible := StableSort(NotAfter, found);
    SortedIsResult(found);
    SameMembers(found, eligible);
    ListedIffFaultless(raiders, pooling, radiusKm, eligible);
    if DistinctRows(raiders) {
      CollectDistinct(raiders, pooling, radiusKm);
      PermutationDistinct(found, eligible);
    }
  }

  lemma {:induction false} SortedIsResult(found: seq<Driver>)
    ensures SortResult(found, StableSort(NotAfter, found))
  {
    StableSortSorts(NotAfter, found);
    assert TotalOn(NotAfter, found);
  }

  lemma SameMembers(before: seq<Driver>, after: seq<Driver>)
    requires multiset(after) == multiset(before)
    ensures forall d :: d in after <==> d in before
  {
    assert forall d :: d in after <==> d in multiset(after);
    assert forall d :: d in before <==> d in multiset(before);
  }
}
