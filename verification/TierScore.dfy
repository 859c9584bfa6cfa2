/** The weekly driver score, the tier it resolves to, and the rows it updates. */
module TierScore {
  import opened Common
  import opened Rounding

  datatype TierCode = Platinum | Gold | Silver | Bronze

  /** Position in the list of score bands, best first. */
  function Rank(c: TierCode): nat {
    match c
    case Platinum => 0
    case Gold => 1
    case Silver => 2
    case Bronze => 3
  }

  const BANDS: seq<(real, TierCode)> := [(90.0, Platinum), (70.0, Gold), (50.0, Silver), (0.0, Bronze)]

  datatype Tier = Tier(id: int, code: TierCode, invitationOnly: bool)

  /** What the score is computed from. `complaints` counts the closed disputes
      resolved at the rider's expense. */
  datatype Record = Record(
    ratings: seq<int>,
    completionRate: real,
    acceptanceRate: real,
    completedOrders: int,
    complaints: nat,
    goldOptedIn: bool,
    weeklyActiveHours: real)

  function Sum(xs: seq<int>): int {
    if xs == [] then 0 else Sum(xs[..|xs| - 1]) + xs[|xs| - 1]
  }

  function AverageRating(r: Record): real {
    if r.ratings == [] then 0.0 else To2(Sum(r.ratings) as real / |r.ratings| as real)
  }

  datatype Score = Score(total: real, rating: real, completion: real, acceptance: real, orders: real, deduction: real, suggested: TierCode)

  function BandOf(score: real, i: nat): TierCode
    requires i <= |BANDS|
    decreases |BANDS| - i
  {
    if i == |BANDS| then Bronze
    else if score >= BANDS[i].0 then BANDS[i].1
    else BandOf(score, i + 1)
  }

  function MinInt(x: int, y: int): int {
    if x <= y then x else y
  }

  function RatingPart(average: real): real {
    To2(average / 5.0 * 40.0)
  }

  function CompletionPart(rate: real): real {
    To2(Min(rate, 100.0) / 100.0 * 25.0)
  }

  function AcceptancePart(rate: real): real {
    To2(Min(rate, 100.0) / 100.0 * 15.0)
  }

  function OrdersPart(orders: int): real {
    To2(MinInt(orders, 500) as real / 500.0 * 10.0)
  }

  function Deduction(complaints: nat): real {
    MinInt(complaints * 2, 10) as real
  }

  function DriverScore(r: Record): Score {
    var rating := RatingPart(AverageRating(r));
    var completion := CompletionPart(r.completionRate);
    var acceptance := AcceptancePart(r.acceptanceRate);
    var orders := OrdersPart(r.completedOrders);
    var deduction := Deduction(r.complaints);
    var total := To2(Max(0.0, Min(100.0, rating + completion + acceptance + orders - deduction)));
    Score(total, rating, completion, acceptance, orders, deduction, BandOf(total, 0))
  }

  // ---------- The walk down the bands ----------

  function TierOf(tiers: seq<Tier>, c: TierCode): (t: Option<Tier>)
    ensures t.Some? ==> t.value in tiers && t.value.code == c
    ensures t.None? <==> forall i | 0 <= i < |tiers| :: tiers[i].code != c
  {
    if tiers == [] then None
    else if tiers[|tiers| - 1].code == c then Some(tiers[|tiers| - 1])
    else TierOf(tiers[..|tiers| - 1], c)
  }

  /** The guards of one band. The invitation guard of PLATINUM compares with the
      suggested code, which is PLATINUM whenever the walk reaches that band. */
  predicate Passes(tier: Tier, suggested: TierCode, r: Record) {
    && (tier.code == Platinum ==> !(tier.invitationOnly && suggested != Platinum))
    && (tier.code == Gold ==> r.goldOptedIn && !(r.weeklyActiveHours < 40.0))
  }

  function Walk(i: nat, suggested: TierCode, r: Record, tiers: seq<Tier>): Option<Tier>
    requires i <= |BANDS|
    decreases |BANDS| - i
  {
    if i == |BANDS| then (if tiers == [] then None else Some(tiers[|tiers| - 1]))
    else
      var tier := TierOf(tiers, BANDS[i].1);
      if tier.Some? && Passes(tier.value, suggested, r) then tier else Walk(i + 1, suggested, r, tiers)
  }

  /** `tiers` are the active tiers, highest priority score first. */
  function ResolveTier(suggested: TierCode, r: Record, tiers: seq<Tier>): Option<Tier> {
    Walk(Rank(suggested), suggested, r, tiers)
  }

  /** The band is active and its guards let this rider in. */
  predicate Open(c: TierCode, r: Record, tiers: seq<Tier>) {
    TierOf(tiers, c).Some? && (c == Gold ==> r.goldOptedIn && !(r.weeklyActiveHours < 40.0))
  }

  // ---------- Score results ----------

  lemma {:induction false} BandMonotone(x: real, y: real, i: nat)
    requires x <= y && i <= |BANDS|
    ensures Rank(BandOf(y, i)) <= Rank(BandOf(x, i))
    decreases |BANDS| - i
  {
    if i < |BANDS| {
      BandMonotone(x, y, i + 1);
      BandLower(x, i + 1);
    }
  }

  lemma {:induction false} BandLower(x: real, i: nat)
    requires 0 < i <= |BANDS|
    ensures Rank(BandOf(x, i)) >= i || BandOf(x, i) == Bronze
    decreases |BANDS| - i
  {
    if i < |BANDS| {
      BandLower(x, i + 1);
    }
  }

  /** `r` is at most as good as `better` on every scored figure. */
  predicate NoBetter(r: Record, better: Record) {
    && AverageRating(r) <= AverageRating(better)
    && r.completionRate <= better.completionRate
    && r.acceptanceRate <= better.acceptanceRate
    && r.completedOrders <= better.completedOrders
    && r.complaints >= better.complaints
  }

  lemma PartsMonotone(r: Record, better: Record)
    requires NoBetter(r, better)
    ensures RatingPart(AverageRating(r)) <= RatingPart(AverageRating(better))
    ensures CompletionPart(r.completionRate) <= CompletionPart(better.completionRate)
    ensures AcceptancePart(r.acceptanceRate) <= AcceptancePart(better.acceptanceRate)
    ensures OrdersPart(r.completedOrders) <= OrdersPart(better.completedOrders)
  {
    To2Monotone(AverageRating(r) / 5.0 * 40.0, AverageRating(better) / 5.0 * 40.0);
    To2Monotone(Min(r.completionRate, 100.0) / 100.0 * 25.0, Min(better.completionRate, 100.0) / 100.0 * 25.0);
    To2Monotone(Min(r.acceptanceRate, 100.0) / 100.0 * 15.0, Min(better.acceptanceRate, 100.0) / 100.0 * 15.0);
    To2Monotone(MinInt(r.completedOrders, 500) as real / 500.0 * 10.0, MinInt(better.completedOrders, 500) as real / 500.0 * 10.0);
  }

  lemma ClampMonotone(x: real, y: real)
    requires x <= y
    ensures To2(Max(0.0, Min(100.0, x))) <= To2(Max(0.0, Min(100.0, y)))
  {
    To2Monotone(Max(0.0, Min(100.0, x)), Max(0.0, Min(100.0, y)));
  }

  lemma ScoreMonotone(r: Record, better: Record)
    requires NoBetter(r, better)
    ensures DriverScore(r).total <= DriverScore(better).total
    ensures Rank(DriverScore(better).suggested) <= Rank(DriverScore(r).suggested)
  {
    PartsMonotone(r, better);
    var s, t := DriverScore(r), DriverScore(better);
    ClampMonotone(s.rating + s.completion + s.acceptance + s.orders - s.deduction, t.rating + t.completion + t.acceptance + t.orders - t.deduction);
    BandMonotone(s.total, t.total, 0);
  }

  /** Stars are on a scale that ends at five. */
  predicate FiveStars(r: Record) {
    forall i | 0 <= i < |r.ratings| :: r.ratings[i] <= 5
  }

  lemma {:induction false} SumAtMost(xs: seq<int>)
    requires forall i | 0 <= i < |xs| :: xs[i] <= 5
    ensures Sum(xs) <= 5 * |xs|
  {
    if xs != [] {
      SumAtMost(xs[..|xs| - 1]);
    }
  }

  lemma AverageAtMostFive(r: Record)
    requires FiveStars(r)
    ensures AverageRating(r) <= 5.0
  {
    if r.ratings != [] {
      SumAtMost(r.ratings);
      var n := |r.ratings| as real;
      assert Sum(r.ratings) as real <= 5.0 * n;
      assert Sum(r.ratings) as real / n <= 5.0;
      To2Monotone(Sum(r.ratings) as real / n, 5.0);
      To2Fixed(500);
    }
  }

  lemma PartsBounded(r: Record)
    requires FiveStars(r)
    ensures var s := DriverScore(r); s.rating <= 40.0 && s.completion <= 25.0 && s.acceptance <= 15.0 && s.orders <= 10.0
  {
    AverageAtMostFive(r);
    To2Monotone(AverageRating(r) / 5.0 * 40.0, 40.0);
    To2Monotone(Min(r.completionRate, 100.0) / 100.0 * 25.0, 25.0);
    To2Monotone(Min(r.acceptanceRate, 100.0) / 100.0 * 15.0, 15.0);
    To2Monotone(MinInt(r.completedOrders, 500) as real / 500.0 * 10.0, 10.0);
    To2Fixed(4000);
    To2Fixed(2500);
    To2Fixed(1500);
    To2Fixed(1000);
  }

  /** The bands of a score: from 90, from 70, from 50, and the rest. */
  lemma {:induction false} BandIff(total: real)
    ensures Rank(BandOf(total, 0)) <= Rank(Platinum) <==> total >= 90.0
    ensures Rank(BandOf(total, 0)) <= Rank(Gold) <==> total >= 70.0
    ensures Rank(BandOf(total, 0)) <= Rank(Silver) <==> total >= 50.0
  {
    assert BandOf(total, 3) == Bronze;
    assert BandOf(total, 2) == if total >= 50.0 then Silver else Bronze;
    assert BandOf(total, 1) == if total >= 70.0 then Gold else BandOf(total, 2);
  }

  /** The positive weights add up to 90: no score is higher, and PLATINUM is
      suggested exactly when all four rounded parts are at their maximum and there
      is no complaint. */
  lemma PlatinumNeedsEverything(r: Record)
    requires FiveStars(r)
    ensures var s := DriverScore(r);
      && s.total <= 90.0
      && (s.suggested == Platinum <==>
        s.rating == 40.0 && s.completion == 25.0 && s.acceptance == 15.0 && s.orders == 10.0 && r.complaints == 0)
  {
    PartsBounded(r);
    ScoreIsCents(r);
    var s := DriverScore(r);
    BandIff(s.total);
    To2Monotone(Max(0.0, Min(100.0, Raw(s))), 90.0);
    To2Fixed(9000);
  }

  function Raw(s: Score): real {
    s.rating + s.completion + s.acceptance + s.orders - s.deduction
  }

  /** The parts are whole cents, so rounding the sum of the parts changes nothing unless it is clamped. */
  lemma ScoreIsCents(r: Record)
    ensures var s := DriverScore(r); 0.0 <= Raw(s) <= 100.0 ==> s.total == Raw(s)
    ensures var s := DriverScore(r); Raw(s) < 0.0 ==> s.total == 0.0
  {
    var s := DriverScore(r);
    var n := Cents(AverageRating(r) / 5.0 * 40.0) + Cents(Min(r.completionRate, 100.0) / 100.0 * 25.0)
      + Cents(Min(r.acceptanceRate, 100.0) / 100.0 * 15.0) + Cents(MinInt(r.completedOrders, 500) as real / 500.0 * 10.0)
      - MinInt(r.complaints * 2, 10) * 100;
    assert Raw(s) == n as real / 100.0;
    To2Fixed(n);
    To2Fixed(0);
  }

  /** Five complaints and more cost ten points, fewer cost two each. */
  lemma ComplaintsCost(r: Record)
    ensures DriverScore(r).deduction == if r.complaints >= 5 then 10.0 else 2.0 * r.complaints as real
  {
  }

  /** The parts are the weighted shares to the nearest cent: a quarter point per
      percent completed, 0.15 per percent accepted, two points per hundred orders,
      each up to the cap. */
  lemma PartsAreShares(r: Record)
    ensures var s := DriverScore(r);
      && (r.completionRate <= 100.0 ==> Abs(s.completion - 0.25 * r.completionRate) <= 0.005)
      && (r.completionRate >= 100.0 ==> s.completion == 25.0)
      && (r.acceptanceRate <= 100.0 ==> Abs(s.acceptance - 0.15 * r.acceptanceRate) <= 0.005)
      && (r.acceptanceRate >= 100.0 ==> s.acceptance == 15.0)
      && (r.completedOrders <= 500 ==> Abs(s.orders - 0.02 * r.completedOrders as real) <= 0.005)
      && (r.completedOrders >= 500 ==> s.orders == 10.0)
  {
    To2Near(Min(r.completionRate, 100.0) / 100.0 * 25.0);
    To2Near(Min(r.acceptanceRate, 100.0) / 100.0 * 15.0);
    To2Near(MinInt(r.completedOrders, 500) as real / 500.0 * 10.0);
    To2Fixed(2500);
    To2Fixed(1500);
    To2Fixed(1000);
  }

  /** The average is that of the stars, to the nearest hundredth, and zero without ratings. */
  lemma AverageIsMean(r: Record)
    ensures r.ratings == [] ==> AverageRating(r) == 0.0
    ensures r.ratings != [] ==> Abs(AverageRating(r) - Sum(r.ratings) as real / |r.ratings| as real) <= 0.005
  {
    if r.ratings != [] {
      To2Near(Sum(r.ratings) as real / |r.ratings| as real);
    }
  }

  /** The rating part is eight times the rounded average, with nothing lost, so the
      average written back to the rider's row is the one it came from. */
  lemma StoredAverageIsExact(r: Record)
    ensures DriverScore(r).rating == 8.0 * AverageRating(r)
    ensures StoredAverage(DriverScore(r)) == AverageRating(r)
  {
    var k := if r.ratings == [] then 0 else Cents(Sum(r.ratings) as real / |r.ratings| as real);
    assert AverageRating(r) == k as real / 100.0;
    assert AverageRating(r) / 5.0 * 40.0 == (8 * k) as real / 100.0;
    To2Fixed(8 * k);
    assert DriverScore(r).rating == (8 * k) as real / 100.0;
    assert DriverScore(r).rating / 40.0 * 5.0 == k as real / 100.0;
    To2Fixed(k);
  }

  function StoredAverage(s: Score): real {
    if s.rating != 0.0 then To2(s.rating / 40.0 * 5.0) else 0.0
  }

  // ---------- Tier results ----------

  /** The walk stops at the first open band, or at the tier with the lowest priority. */
  lemma {:induction false} WalkFinds(i: nat, suggested: TierCode, r: Record, tiers: seq<Tier>)
    requires i <= |BANDS| && tiers != [] && Rank(suggested) <= i
    ensures var t := Walk(i, suggested, r, tiers);
      && t.Some? && t.value in tiers
      && (t.value.code != tiers[|tiers| - 1].code ==> Rank(t.value.code) >= i && Open(t.value.code, r, tiers))
      && (forall c | i <= Rank(c) && Open(c, r, tiers) ::
        Rank(t.value.code) <= Rank(c) && Rank(t.value.code) >= i && Open(t.value.code, r, tiers))
      && ((forall c | i <= Rank(c) :: !Open(c, r, tiers)) ==> t == Some(tiers[|tiers| - 1]))
    decreases |BANDS| - i
  {
    if i < |BANDS| {
      assert Rank(BANDS[i].1) == i;
      assert forall c | Rank(c) == i :: c == BANDS[i].1;
      WalkFinds(i + 1, suggested, r, tiers);
      assert i == 0 ==> suggested == Platinum;
    }
  }

  /** A better record never resolves to a lower tier, for every pair of suggested codes. */
  ghost predicate NeverDemotes(r: Record, tiers: seq<Tier>) {
    forall low, high | Rank(high) <= Rank(low) :: ResolvedRank(high, r, tiers) <= ResolvedRank(low, r, tiers)
  }

  /** The band of the resolved tier; below all bands when there is none. */
  function ResolvedRank(suggested: TierCode, r: Record, tiers: seq<Tier>): nat {
    var tier := ResolveTier(suggested, r, tiers);
    if tier.Some? then Rank(tier.value.code) else |BANDS|
  }

  /** With the opt-in and the hours fixed, a better score never resolves to a lower
      tier if and only if BRONZE is active, or no open band ranks below the
      fallback tier. */
  lemma {:induction false} NeverDemotesIff(r: Record, tiers: seq<Tier>)
    requires tiers != []
    ensures NeverDemotes(r, tiers) <==>
      TierOf(tiers, Bronze).Some? || forall c | Open(c, r, tiers) :: Rank(c) <= Rank(tiers[|tiers| - 1].code)
  {
    if TierOf(tiers, Bronze).Some? || forall c | Open(c, r, tiers) :: Rank(c) <= Rank(tiers[|tiers| - 1].code) {
      forall low, high | Rank(high) <= Rank(low)
        ensures ResolvedRank(high, r, tiers) <= ResolvedRank(low, r, tiers)
      {
        WalkFinds(Rank(low), low, r, tiers);
        WalkFinds(Rank(high), high, r, tiers);
        assert TierOf(tiers, Bronze).Some? ==> Open(Bronze, r, tiers);
      }
    } else {
      var c :| Open(c, r, tiers) && Rank(c) > Rank(tiers[|tiers| - 1].code);
      LowestOpen(r, tiers, c);
    }
  }

  lemma {:induction false} LowestOpen(r: Record, tiers: seq<Tier>, c: TierCode)
    requires tiers != [] && TierOf(tiers, Bronze).None? && Open(c, r, tiers) && Rank(c) > Rank(tiers[|tiers| - 1].code)
    ensures !NeverDemotes(r, tiers)
  {
    WalkFinds(3, Bronze, r, tiers);
    assert ResolveTier(Bronze, r, tiers) == Some(tiers[|tiers| - 1]);
    WalkFinds(Rank(c), c, r, tiers);
  }

  /** The whole path from the figures to the tier: with BRONZE active, improving
      any scored figure never lowers the resolved tier. */
  lemma {:induction false} TierMonotone(r: Record, better: Record, tiers: seq<Tier>)
    requires NoBetter(r, better) && TierOf(tiers, Bronze).Some?
    requires r.goldOptedIn == better.goldOptedIn && r.weeklyActiveHours == better.weeklyActiveHours
    ensures var t, u := ResolveTier(DriverScore(r).suggested, r, tiers), ResolveTier(DriverScore(better).suggested, better, tiers);
      t.Some? && u.Some? && Rank(u.value.code) <= Rank(t.value.code)
  {
    ScoreMonotone(r, better);
    var low, high := DriverScore(r).suggested, DriverScore(better).suggested;
    WalkFinds(Rank(low), low, r, tiers);
    WalkFinds(Rank(high), high, better, tiers);
    assert Open(Bronze, r, tiers) && Open(Bronze, better, tiers);
    assert forall c :: Open(c, r, tiers) <==> Open(c, better, tiers);
  }

  /** GOLD needs the opt-in and forty hours, unless it is the fallback tier; a
      resolved tier is active, never better than suggested unless it is the
      fallback, and every active band between the two is GOLD kept shut. */
  lemma {:induction false} ResolvedTierAllowed(suggested: TierCode, r: Record, tiers: seq<Tier>)
    requires tiers != []
    ensures var t := ResolveTier(suggested, r, tiers);
      && t.Some? && t.value in tiers
      && (t.value.code != tiers[|tiers| - 1].code ==>
        && Rank(suggested) <= Rank(t.value.code)
        && (t.value.code == Gold ==> r.goldOptedIn && r.weeklyActiveHours >= 40.0))
      && (forall u | u in tiers && Rank(suggested) <= Rank(u.code) && (u.code == Gold ==> r.goldOptedIn && r.weeklyActiveHours >= 40.0) ::
        Rank(suggested) <= Rank(t.value.code) <= Rank(u.code))
  {
    WalkFinds(Rank(suggested), suggested, r, tiers);
    forall u | u in tiers && Rank(suggested) <= Rank(u.code) && (u.code == Gold ==> r.goldOptedIn && r.weeklyActiveHours >= 40.0)
      ensures Open(u.code, r, tiers)
    {
    }
  }

  // ---------- The rider's row ----------

  class RaiderRow {
    const id: int
    var tierId: Option<int>
    var avgRating: real
    var driverScore: real
    var manualTierOverride: bool
    var manualTierUntil: Option<int>
    var history: seq<int>

    constructor (id: int, tierId: Option<int>)
      ensures this.id == id && this.tierId == tierId && history == [] && !manualTierOverride
    {
      this.id, this.tierId, avgRating, driverScore := id, tierId, 0.0, 0.0;
      manualTierOverride, manualTierUntil, history := false, None, [];
    }

    /** A manual tier without an end, or with an end in the future, is left alone.
        Otherwise the row changes only when the tier does, and then the average and
        the score are those of `r`. */
    method ProcessRaider(now: int, r: Record, tiers: seq<Tier>)
      requires tiers != []
      modifies this
      ensures var held := old(manualTierOverride && (manualTierUntil.None? || now < manualTierUntil.value));
        var target := ResolveTier(DriverScore(r).suggested, r, tiers);
        && target.Some?
        && (held ==> unchanged(this))
        && (!held ==>
          && tierId == Some(target.value.id) && !manualTierOverride
          && (old(tierId) == tierId ==> avgRating == old(avgRating) && driverScore == old(driverScore) && history == old(history))
          && (old(tierId) != tierId ==>
            avgRating == AverageRating(r) && driverScore == DriverScore(r).total && history == old(history) + [target.value.id]))
    {
      var breakdown := DriverScore(r);
      WalkFinds(Rank(breakdown.suggested), breakdown.suggested, r, tiers);
      if manualTierOverride {
        if manualTierUntil.None? {
          return;
        }
        if now < manualTierUntil.value {
          return;
        }
        manualTierOverride, manualTierUntil := false, None;
      }
      var targetTier := ResolveTier(breakdown.suggested, r, tiers);
      if tierId == Some(targetTier.value.id) {
        return;
      }
      StoredAverageIsExact(r);
      tierId := Some(targetTier.value.id);
      avgRating := if breakdown.rating != 0.0 then To2(breakdown.rating / 40.0 * 5.0) else 0.0;
      driverScore := breakdown.total;
      history := history + [targetTier.value.id];
    }
  }
}
