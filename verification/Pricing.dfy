/** The price of a delivery: distance charge, user fees, zone multiplier, time-of-day
    surge, demand surge and stop surcharge, then rounding to cents. */
module Pricing {
  import opened Common
  import opened Rounding
  import opened SurgeRegistry

  datatype Vehicle = Vehicle(baseDistance: Option<real>, basePrice: Option<real>, perKmPrice: Option<real>)

  /** `nameNumber` is the name read as a number, absent when it is not one. */
  datatype DeliveryType = DeliveryType(id: int, name: string, nameNumber: Option<real>, priceMultiplier: Option<real>, extraStopSurcharge: Option<real>)

  datatype Zone = Zone(id: int, deliveryFee: real)

  /** `ruleText` is the stored rule value and `ruleNumber` that text read as a number. */
  datatype Fee = Fee(
    amount: int,
    allOrders: bool,
    ruleKey: Option<string>,
    ruleOperator: string,
    ruleText: Option<string>,
    ruleNumber: Option<real>,
    active: bool,
    areas: set<int>)

  /** A daily window in minutes after midnight, and a multiplier in percent. */
  datatype DynamicSurge = DynamicSurge(start: int, end: int, percent: int, active: bool, areas: set<int>)

  datatype Rate = Rate(percent: real, areas: set<int>)

  datatype DeductionKind = Fixed | Percentage | OtherKind

  datatype Deduction = Deduction(kind: DeductionKind, amount: real, areas: set<int>)

  /** Everything one price depends on. `dynamicSurges` and `surgeRules` are absent
      when reading them fails. */
  datatype Quote = Quote(
    distanceKm: real,
    vehicle: Vehicle,
    deliveryType: DeliveryType,
    zone: Zone,
    fees: seq<Fee>,
    dynamicSurges: Option<seq<DynamicSurge>>,
    nowMinutes: int,
    surgeRules: Option<seq<Rule>>,
    demand: int,
    availableDrivers: int,
    commissions: seq<Rate>,
    compensations: seq<Rate>,
    deductions: seq<Deduction>)

  /** A row without service areas applies everywhere. */
  predicate InArea(areas: set<int>, zoneId: int) {
    zoneId in areas || areas == {}
  }

  // ---------- Fee rules ----------

  datatype Value = Text(text: string, number: Option<real>) | Num(number': real) | Undefined

  function AsNumber(v: Value): Option<real> {
    match v
    case Text(_, number) => number
    case Num(x) => Some(x)
    case Undefined => None
  }

  datatype Context = Context(deliveryType: string, nameNumber: Option<real>, orderAmount: real, distance: real)

  function Lookup(c: Context, key: string): Value {
    if key == "delivery_type" then Text(c.deliveryType, c.nameNumber)
    else if key == "order_amount" then Num(c.orderAmount)
    else if key == "distance" then Num(c.distance)
    else Undefined
  }

  /** Equality is strict, so a number never equals the stored text; comparisons
      read both sides as numbers and fail when one is not. */
  predicate EvaluateRule(f: Fee, c: Context) {
    if f.ruleKey.None? || f.ruleKey.value == "" then true
    else
      var value := Lookup(c, f.ruleKey.value);
      var left, right := AsNumber(value), f.ruleNumber;
      if f.ruleOperator == "=" then value.Text? && f.ruleText == Some(value.text)
      else if left.None? || right.None? then false
      else if f.ruleOperator == ">" then left.value > right.value
      else if f.ruleOperator == "<" then left.value < right.value
      else if f.ruleOperator == ">=" then left.value >= right.value
      else if f.ruleOperator == "<=" then left.value <= right.value
      else false
  }

  predicate Charged(f: Fee, c: Context, zoneId: int) {
    f.active && InArea(f.areas, zoneId) && (f.allOrders || EvaluateRule(f, c))
  }

  function FeeSum(fees: seq<Fee>, c: Context, zoneId: int): int {
    if fees == [] then 0
    else
      var f := fees[|fees| - 1];
      FeeSum(fees[..|fees| - 1], c, zoneId) + if Charged(f, c, zoneId) then f.amount else 0
  }

  // ---------- The closed form ----------

  function ExtraDistance(q: Quote): real {
    Max(0.0, q.distanceKm - q.vehicle.baseDistance.GetOr(0.0))
  }

  function BasePrice(q: Quote): real {
    q.vehicle.basePrice.GetOr(0.0) + q.vehicle.perKmPrice.GetOr(0.0) * ExtraDistance(q)
  }

  function Charge(q: Quote): real {
    BasePrice(q) * q.deliveryType.priceMultiplier.GetOr(1.0)
  }

  function FeeContext(q: Quote): Context {
    Context(q.deliveryType.name, q.deliveryType.nameNumber, Charge(q), ExtraDistance(q))
  }

  function Fees(q: Quote): real {
    FeeSum(q.fees, FeeContext(q), q.zone.id) as real
  }

  /** A window that ends before it starts runs over midnight. */
  predicate InWindow(d: DynamicSurge, now: int) {
    if d.end < d.start then now >= d.start || now <= d.end else d.start <= now <= d.end
  }

  /** On a clock face of 1440 minutes: the window holds the minutes reached from
      its start no later than its end, whether or not it crosses midnight. */
  lemma WindowIsCircular(d: DynamicSurge, now: int)
    requires 0 <= d.start < 1440 && 0 <= d.end < 1440 && 0 <= now < 1440
    ensures InWindow(d, now) <==> (now - d.start) % 1440 <= (d.end - d.start) % 1440
  {
  }

  function FirstWindow(ds: seq<DynamicSurge>, now: int, zoneId: int): Option<DynamicSurge> {
    if ds == [] then None
    else if ds[0].active && InArea(ds[0].areas, zoneId) && InWindow(ds[0], now) then Some(ds[0])
    else FirstWindow(ds[1..], now, zoneId)
  }

  function DynamicMultiplier(q: Quote): real {
    match q.dynamicSurges
    case None => 1.0
    case Some(ds) =>
      match FirstWindow(ds, q.nowMinutes, q.zone.id)
      case None => 1.0
      case Some(d) => d.percent as real / 100.0
  }

  function DemandRatio(q: Quote): real {
    To4(if q.availableDrivers > 0 then q.demand as real / q.availableDrivers as real else 0.0)
  }

  function SurgeMultiplier(q: Quote): real {
    match q.surgeRules
    case None => 1.0
    case Some(rules) => ResolveSurge(rules, DemandRatio(q), Some(q.zone.id), Some(q.deliveryType.id)).multiplier
  }

  function Surcharge(q: Quote): real {
    q.deliveryType.extraStopSurcharge.GetOr(0.0)
  }

  /** The price before the stop surcharge. */
  function Price(q: Quote): real {
    Scaled(Charge(q) + Fees(q), q.zone.deliveryFee, DynamicMultiplier(q), SurgeMultiplier(q))
  }

  function Scaled(subtotal: real, zone: real, dynamic: real, surge: real): real {
    subtotal * zone * dynamic * surge
  }

  function Total(q: Quote): real {
    Price(q) + Surcharge(q)
  }

  // ---------- The platform's share ----------

  function RateSum(rates: seq<Rate>, zoneId: int, price: real): real {
    if rates == [] then 0.0
    else
      var r := rates[|rates| - 1];
      RateSum(rates[..|rates| - 1], zoneId, price) + if InArea(r.areas, zoneId) then price * r.percent / 100.0 else 0.0
  }

  function FixedSum(ds: seq<Deduction>, zoneId: int): real {
    if ds == [] then 0.0
    else
      var d := ds[|ds| - 1];
      FixedSum(ds[..|ds| - 1], zoneId) + if InArea(d.areas, zoneId) && d.kind.Fixed? then d.amount else 0.0
  }

  function PercentageSum(ds: seq<Deduction>, zoneId: int, price: real): real {
    if ds == [] then 0.0
    else
      var d := ds[|ds| - 1];
      PercentageSum(ds[..|ds| - 1], zoneId, price) + if InArea(d.areas, zoneId) && d.kind.Percentage? then price * d.amount / 100.0 else 0.0
  }

  function DriverFee(q: Quote, price: real): real {
    RateSum(q.commissions, q.zone.id, price) - RateSum(q.compensations, q.zone.id, price)
    + (FixedSum(q.deductions, q.zone.id) + PercentageSum(q.deductions, q.zone.id, price))
  }

  // ---------- The computation ----------

  /** The amounts before rounding. */
  datatype Stages = Stages(
    basePrice: real,
    charge: real,
    surcharge: real,
    userFees: real,
    zoneFee: real,
    dynamicAmount: real,
    dynamicMultiplier: real,
    surgeAmount: real,
    surgeMultiplier: real,
    price: real,
    totalFee: real,
    totalPrice: real,
    platformFee: real)

  /** The amounts a caller sees. */
  datatype Breakdown = Breakdown(
    basePrice: real,
    deliveryTypeCharge: real,
    deliveryTypeSurge: real,
    userFeeTotal: real,
    zoneFee: real,
    dynamicSurgeAmount: real,
    dynamicSurgeMultiplier: real,
    surgeAmount: real,
    surgeMultiplier: real,
    totalFee: real,
    totalPrice: real,
    raiderEarnings: real,
    platformFee: real)

  function Rounded(s: Stages): Breakdown {
    Breakdown(
      To2(s.basePrice), To2(s.charge), To2(s.surcharge), To2(s.userFees), To2(s.zoneFee),
      To2(s.dynamicAmount), To4(s.dynamicMultiplier), To2(s.surgeAmount), To4(s.surgeMultiplier),
      To2(s.totalFee), To2(s.totalPrice), To2(Max(0.0, s.price - s.platformFee)), To2(s.platformFee))
  }

  /** What a multiplier adds to a running price. */
  method Share(price: real, multiplier: real) returns (amount: real)
    ensures price + amount == price * multiplier
  {
    amount := price * (multiplier - 1.0);
  }

  lemma NoSurge(price: real)
    ensures price * 1.0 == price
  {
  }

  /** What the stages of one price add up to: each is accounted for once. */
  ghost predicate Accounted(q: Quote, s: Stages) {
    && s.charge == Charge(q) && s.userFees == Fees(q) && s.surcharge == Surcharge(q)
    && s.dynamicMultiplier == DynamicMultiplier(q) && s.surgeMultiplier == SurgeMultiplier(q)
    && s.charge + s.userFees + s.zoneFee == (s.charge + s.userFees) * q.zone.deliveryFee
    && s.charge + s.userFees + s.zoneFee + s.dynamicAmount == (s.charge + s.userFees) * q.zone.deliveryFee * s.dynamicMultiplier
    && s.charge + s.userFees + s.zoneFee + s.dynamicAmount + s.surgeAmount == s.price
    && s.price == Scaled(s.charge + s.userFees, q.zone.deliveryFee, s.dynamicMultiplier, s.surgeMultiplier)
    && s.totalPrice == s.price + s.surcharge == s.charge + s.totalFee
    && s.platformFee == DriverFee(q, s.price)
  }

  /** The time-of-day stage; a failed read leaves the price as it is. */
  method DynamicStage(q: Quote, price: real) returns (amount: real, multiplier: real)
    ensures multiplier == DynamicMultiplier(q)
    ensures price + amount == price * multiplier
  {
    amount, multiplier := 0.0, 1.0;
    NoSurge(price);
    if q.dynamicSurges.Some? {
      var matched := FirstWindow(q.dynamicSurges.value, q.nowMinutes, q.zone.id);
      if matched.Some? {
        multiplier := matched.value.percent as real / 100.0;
        amount := Share(price, multiplier);
      }
    }
  }

  /** The demand stage; a failed lookup leaves the price as it is. */
  method SurgeStage(q: Quote, price: real) returns (amount: real, multiplier: real)
    ensures multiplier == SurgeMultiplier(q)
    ensures price + amount == price * multiplier
  {
    amount, multiplier := 0.0, 1.0;
    NoSurge(price);
    if q.surgeRules.Some? {
      var surge := ResolveSurge(q.surgeRules.value, DemandRatio(q), Some(q.zone.id), Some(q.deliveryType.id));
      multiplier := surge.multiplier;
      amount := Share(price, multiplier);
    }
  }

  /** Each stage adds its share to a running price, on the paths where a surge
      source fails as well. */
  method ComputeStages(q: Quote) returns (s: Stages)
    ensures s.basePrice == BasePrice(q) && Accounted(q, s)
  {
    var basePrice, charge, userFees := ChargeStages(q);
    var rest := MultiplierStages(q, charge + userFees);
    s := rest.(basePrice := basePrice, charge := charge, userFees := userFees, totalFee := userFees + rest.totalFee);
  }

  /** The distance charge and the user fees it triggers. */
  method ChargeStages(q: Quote) returns (basePrice: real, charge: real, userFees: real)
    ensures basePrice == BasePrice(q) && charge == Charge(q) && userFees == Fees(q)
  {
    var extraDistance := Max(0.0, q.distanceKm - q.vehicle.baseDistance.GetOr(0.0));
    basePrice := q.vehicle.basePrice.GetOr(0.0) + q.vehicle.perKmPrice.GetOr(0.0) * extraDistance;
    charge := basePrice * q.deliveryType.priceMultiplier.GetOr(1.0);
    var context := Context(q.deliveryType.name, q.deliveryType.nameNumber, charge, extraDistance);
    userFees := FeeSum(q.fees, context, q.zone.id) as real;
  }

  /** The stages after the user fees, for a running price of `subtotal`. */
  method MultiplierStages(q: Quote, subtotal: real) returns (s: Stages)
    ensures s.surcharge == Surcharge(q) && s.dynamicMultiplier == DynamicMultiplier(q) && s.surgeMultiplier == SurgeMultiplier(q)
    ensures subtotal + s.zoneFee == subtotal * q.zone.deliveryFee
    ensures subtotal + s.zoneFee + s.dynamicAmount == subtotal * q.zone.deliveryFee * s.dynamicMultiplier
    ensures subtotal + s.zoneFee + s.dynamicAmount + s.surgeAmount == s.price
    ensures s.price == Scaled(subtotal, q.zone.deliveryFee, s.dynamicMultiplier, s.surgeMultiplier)
    ensures s.totalPrice == s.price + s.surcharge == subtotal + s.totalFee
    ensures s.platformFee == DriverFee(q, s.price)
  {
    var price := subtotal * q.zone.deliveryFee;
    var zoneFee := price - subtotal;
    var dynamicAmount, dynamicMultiplier := DynamicStage(q, price);
    price := price + dynamicAmount;
    var surgeAmount, surgeMultiplier := SurgeStage(q, price);
    price := price + surgeAmount;
    var platformFee := DriverFee(q, price);
    var surcharge := q.deliveryType.extraStopSurcharge.GetOr(0.0);
    s := Stages(0.0, 0.0, surcharge, 0.0, zoneFee, dynamicAmount, dynamicMultiplier, surgeAmount, surgeMultiplier,
                price, zoneFee + dynamicAmount + surgeAmount + surcharge, price + surcharge, platformFee);
  }

  /** The total price is the closed form, rounded to cents. */
  method CalculatePriceWithFee(q: Quote) returns (b: Breakdown, s: Stages)
    ensures b == Rounded(s) && s.basePrice == BasePrice(q) && Accounted(q, s)
    ensures b.totalPrice == To2(Total(q))
  {
    s := ComputeStages(q);
    b := Rounded(s);
  }

  // ---------- What each input does to the price ----------

  /** The zone is listed, or the row names no area. */
  predicate Applies(areas: set<int>, q: Quote) {
    |areas| == 0 || q.zone.id in areas
  }

  /** A percentage of the price. */
  function Portion(price: real, percent: real): real {
    price * percent / 100.0
  }

  lemma {:induction false} RateSumSnoc(xs: seq<Rate>, r: Rate, zoneId: int, price: real)
    ensures RateSum(xs + [r], zoneId, price) == RateSum(xs, zoneId, price) + RateSum([r], zoneId, price)
  {
    var none: seq<Rate> := [];
    assert (xs + [r])[..|xs|] == xs && [r][..0] == none;
    assert RateSum(none, zoneId, price) == 0.0;
  }

  lemma {:induction false} RateSumInsert(xs: seq<Rate>, r: Rate, ys: seq<Rate>, zoneId: int, price: real)
    ensures RateSum(xs + [r] + ys, zoneId, price) == RateSum(xs + ys, zoneId, price) + RateSum([r], zoneId, price)
  {
    if ys == [] {
      assert xs + [r] + ys == xs + [r] && xs + ys == xs;
      RateSumSnoc(xs, r, zoneId, price);
    } else {
      var rest, last := ys[..|ys| - 1], ys[|ys| - 1];
      RateSumInsert(xs, r, rest, zoneId, price);
      assert xs + [r] + ys == (xs + [r] + rest) + [last] && xs + ys == (xs + rest) + [last];
      RateSumSnoc(xs + [r] + rest, last, zoneId, price);
      RateSumSnoc(xs + rest, last, zoneId, price);
    }
  }

  lemma {:induction false} FixedSumSnoc(xs: seq<Deduction>, d: Deduction, zoneId: int)
    ensures FixedSum(xs + [d], zoneId) == FixedSum(xs, zoneId) + FixedSum([d], zoneId)
  {
    var none: seq<Deduction> := [];
    assert (xs + [d])[..|xs|] == xs && [d][..0] == none;
    assert FixedSum(none, zoneId) == 0.0;
  }

  lemma {:induction false} FixedSumInsert(xs: seq<Deduction>, d: Deduction, ys: seq<Deduction>, zoneId: int)
    ensures FixedSum(xs + [d] + ys, zoneId) == FixedSum(xs + ys, zoneId) + FixedSum([d], zoneId)
  {
    if ys == [] {
      assert xs + [d] + ys == xs + [d] && xs + ys == xs;
      FixedSumSnoc(xs, d, zoneId);
    } else {
      var rest, last := ys[..|ys| - 1], ys[|ys| - 1];
      FixedSumInsert(xs, d, rest, zoneId);
      assert xs + [d] + ys == (xs + [d] + rest) + [last] && xs + ys == (xs + rest) + [last];
      FixedSumSnoc(xs + [d] + rest, last, zoneId);
      FixedSumSnoc(xs + rest, last, zoneId);
    }
  }

  lemma {:induction false} PercentageSumSnoc(xs: seq<Deduction>, d: Deduction, zoneId: int, price: real)
    ensures PercentageSum(xs + [d], zoneId, price) == PercentageSum(xs, zoneId, price) + PercentageSum([d], zoneId, price)
  {
    var none: seq<Deduction> := [];
    assert (xs + [d])[..|xs|] == xs && [d][..0] == none;
    assert PercentageSum(none, zoneId, price) == 0.0;
  }

  lemma {:induction false} PercentageSumInsert(xs: seq<Deduction>, d: Deduction, ys: seq<Deduction>, zoneId: int, price: real)
    ensures PercentageSum(xs + [d] + ys, zoneId, price) == PercentageSum(xs + ys, zoneId, price) + PercentageSum([d], zoneId, price)
  {
    if ys == [] {
      assert xs + [d] + ys == xs + [d] && xs + ys == xs;
      PercentageSumSnoc(xs, d, zoneId, price);
    } else {
      var rest, last := ys[..|ys| - 1], ys[|ys| - 1];
      PercentageSumInsert(xs, d, rest, zoneId, price);
      assert xs + [d] + ys == (xs + [d] + rest) + [last] && xs + ys == (xs + rest) + [last];
      PercentageSumSnoc(xs + [d] + rest, last, zoneId, price);
      PercentageSumSnoc(xs + rest, last, zoneId, price);
    }
  }

  lemma {:induction false} OneRate(r: Rate, q: Quote, price: real)
    ensures RateSum([r], q.zone.id, price) == if Applies(r.areas, q) then Portion(price, r.percent) else 0.0
  {
    var none: seq<Rate> := [];
    assert [r][..0] == none;
    assert RateSum(none, q.zone.id, price) == 0.0;
  }

  lemma {:induction false} OneDeduction(d: Deduction, q: Quote, price: real)
    ensures FixedSum([d], q.zone.id) == if Applies(d.areas, q) && d.kind == Fixed then d.amount else 0.0
    ensures PercentageSum([d], q.zone.id, price) == if Applies(d.areas, q) && d.kind == Percentage then Portion(price, d.amount) else 0.0
  {
    var none: seq<Deduction> := [];
    assert [d][..0] == none;
    assert FixedSum(none, q.zone.id) == 0.0 && PercentageSum(none, q.zone.id, price) == 0.0;
  }

  /** The rows of the platform have no say in the price. */
  lemma SamePrice(q: Quote, c: seq<Rate>, m: seq<Rate>, d: seq<Deduction>, s: Stages, t: Stages)
    requires Accounted(q, s) && Accounted(q.(commissions := c, compensations := m, deductions := d), t)
    ensures s.price == t.price
  {
    var p := q.(commissions := c, compensations := m, deductions := d);
    RunningPrices(q, s);
    RunningPrices(p, t);
    assert Charge(p) == Charge(q);
    assert Fees(p) == Fees(q);
    assert DynamicMultiplier(p) == DynamicMultiplier(q);
    assert SurgeMultiplier(p) == SurgeMultiplier(q);
    assert Price(p) == Price(q);
  }

  /** A commission row, wherever it stands in the list, raises the platform fee by
      its percentage of the price; one for another area changes nothing. */
  lemma CommissionRaisesFee(q: Quote, xs: seq<Rate>, r: Rate, ys: seq<Rate>, s: Stages, t: Stages)
    requires q.commissions == xs + ys
    requires Accounted(q, s) && Accounted(q.(commissions := xs + [r] + ys), t)
    ensures t.price == s.price
    ensures t.platformFee == s.platformFee + if Applies(r.areas, q) then Portion(s.price, r.percent) else 0.0
  {
    SamePrice(q, xs + [r] + ys, q.compensations, q.deductions, s, t);
    RateSumInsert(xs, r, ys, q.zone.id, s.price);
    OneRate(r, q, s.price);
  }

  /** A compensation row lowers it by its percentage of the price. */
  lemma CompensationLowersFee(q: Quote, xs: seq<Rate>, r: Rate, ys: seq<Rate>, s: Stages, t: Stages)
    requires q.compensations == xs + ys
    requires Accounted(q, s) && Accounted(q.(compensations := xs + [r] + ys), t)
    ensures t.price == s.price
    ensures t.platformFee == s.platformFee - if Applies(r.areas, q) then Portion(s.price, r.percent) else 0.0
  {
    SamePrice(q, q.commissions, xs + [r] + ys, q.deductions, s, t);
    RateSumInsert(xs, r, ys, q.zone.id, s.price);
    OneRate(r, q, s.price);
  }

  /** A fixed deduction takes its amount, a percentage its share of the price, and another kind nothing. */
  function Deducted(d: Deduction, price: real): real {
    match d.kind
    case Fixed => d.amount
    case Percentage => Portion(price, d.amount)
    case OtherKind => 0.0
  }

  /** A deduction row raises the platform fee by what it takes from the rider. */
  lemma DeductionRaisesFee(q: Quote, xs: seq<Deduction>, d: Deduction, ys: seq<Deduction>, s: Stages, t: Stages)
    requires q.deductions == xs + ys
    requires Accounted(q, s) && Accounted(q.(deductions := xs + [d] + ys), t)
    ensures t.price == s.price
    ensures t.platformFee == s.platformFee + if Applies(d.areas, q) then Deducted(d, s.price) else 0.0
  {
    SamePrice(q, q.commissions, q.compensations, xs + [d] + ys, s, t);
    DeductionInsert(q, xs, d, ys, s.price);
  }

  lemma DeductionInsert(q: Quote, xs: seq<Deduction>, d: Deduction, ys: seq<Deduction>, price: real)
    requires q.deductions == xs + ys
    ensures DriverFee(q.(deductions := xs + [d] + ys), price) == DriverFee(q, price) + if Applies(d.areas, q) then Deducted(d, price) else 0.0
  {
    FixedSumInsert(xs, d, ys, q.zone.id);
    PercentageSumInsert(xs, d, ys, q.zone.id, price);
    OneDeduction(d, q, price);
  }

  lemma NoRowsNoFee(q: Quote, s: Stages)
    requires q.commissions == [] && q.compensations == [] && q.deductions == [] && Accounted(q, s)
    ensures s.platformFee == 0.0
  {
  }

  /** The stop surcharge of the delivery type comes on top of the price, unscaled. */
  lemma SurchargeIsFlat(q: Quote, s: Stages)
    requires Accounted(q, s)
    ensures s.totalPrice == s.price + match q.deliveryType.extraStopSurcharge case None => 0.0 case Some(x) => x
  {
  }

  /** Is the fee due, given the figures it may look at? A fee without a key is
      always due; the delivery type is compared as text by "=" and as a number
      otherwise; the charge and the distance beyond the vehicle's base are numbers
      only; any other key or operator never matches. */
  predicate Due(f: Fee, q: Quote, charge: real) {
    f.allOrders || f.ruleKey.None? || f.ruleKey.value == "" ||
    (match f.ruleKey.value
     case "delivery_type" =>
       if f.ruleOperator == "=" then f.ruleText == Some(q.deliveryType.name) else InOrder(q.deliveryType.nameNumber, f)
     case "order_amount" => InOrder(Some(charge), f)
     case "distance" => InOrder(Some(Beyond(q)), f)
     case _ => false)
  }

  /** The kilometres beyond those the vehicle's base price includes. */
  function Beyond(q: Quote): real {
    var included := match q.vehicle.baseDistance case None => 0.0 case Some(km) => km;
    if q.distanceKm <= included then 0.0 else q.distanceKm - included
  }

  predicate InOrder(figure: Option<real>, f: Fee) {
    figure.Some? && f.ruleNumber.Some? &&
    (var x, y := figure.value, f.ruleNumber.value;
     match f.ruleOperator
     case ">" => y < x
     case ">=" => !(x < y)
     case "<" => x < y
     case "<=" => !(y < x)
     case _ => false)
  }

  lemma DueIff(f: Fee, q: Quote)
    ensures f.allOrders || EvaluateRule(f, FeeContext(q)) <==> Due(f, q, Charge(q))
  {
  }

  lemma {:induction false} FeeSumSnoc(xs: seq<Fee>, f: Fee, c: Context, zoneId: int)
    ensures FeeSum(xs + [f], c, zoneId) == FeeSum(xs, c, zoneId) + FeeSum([f], c, zoneId)
  {
    var none: seq<Fee> := [];
    assert (xs + [f])[..|xs|] == xs && [f][..0] == none;
    assert FeeSum(none, c, zoneId) == 0;
  }

  lemma {:induction false} FeeSumInsert(xs: seq<Fee>, f: Fee, ys: seq<Fee>, c: Context, zoneId: int)
    ensures FeeSum(xs + [f] + ys, c, zoneId) == FeeSum(xs + ys, c, zoneId) + FeeSum([f], c, zoneId)
  {
    if ys == [] {
      assert xs + [f] + ys == xs + [f] && xs + ys == xs;
      FeeSumSnoc(xs, f, c, zoneId);
    } else {
      var rest, last := ys[..|ys| - 1], ys[|ys| - 1];
      FeeSumInsert(xs, f, rest, c, zoneId);
      assert xs + [f] + ys == (xs + [f] + rest) + [last] && xs + ys == (xs + rest) + [last];
      FeeSumSnoc(xs + [f] + rest, last, c, zoneId);
      FeeSumSnoc(xs + rest, last, c, zoneId);
    }
  }

  /** A fee row, wherever it stands, adds its amount exactly when it is active,
      applies in the zone and is due; it leaves the charge alone. Without rows
      there are no fees. */
  lemma FeeAddsAmount(q: Quote, xs: seq<Fee>, f: Fee, ys: seq<Fee>, s: Stages, t: Stages)
    requires q.fees == xs + ys
    requires Accounted(q, s) && Accounted(q.(fees := xs + [f] + ys), t)
    ensures t.charge == s.charge
    ensures t.userFees == s.userFees + if f.active && Applies(f.areas, q) && Due(f, q, s.charge) then f.amount as real else 0.0
    ensures q.fees == [] ==> s.userFees == 0.0
  {
    FeeSumInsert(xs, f, ys, FeeContext(q), q.zone.id);
    OneFeeSum(f, FeeContext(q), q.zone.id);
    DueIff(f, q);
  }

  /** Up to the included distance the charge is the base price times the multiplier
      of the delivery type; from there on every kilometre costs the rate times that
      multiplier. A missing figure is neutral. */
  lemma ChargeByDistance(q: Quote, far: real, s: Stages, t: Stages)
    requires Accounted(q, s) && Accounted(q.(distanceKm := far), t)
    ensures var base := q.vehicle.basePrice.GetOr(0.0); var rate := q.vehicle.perKmPrice.GetOr(0.0);
      var multiplier := if q.deliveryType.priceMultiplier.Some? then q.deliveryType.priceMultiplier.value else 1.0;
      && (Beyond(q) == 0.0 ==> s.charge == base * multiplier)
      && t.charge - s.charge == rate * (Beyond(q.(distanceKm := far)) - Beyond(q)) * multiplier
  {
    ChargeGrows(q, far);
  }

  lemma ChargeGrows(q: Quote, far: real)
    ensures var multiplier := if q.deliveryType.priceMultiplier.Some? then q.deliveryType.priceMultiplier.value else 1.0;
      && (Beyond(q) == 0.0 ==> Charge(q) == q.vehicle.basePrice.GetOr(0.0) * multiplier)
      && Charge(q.(distanceKm := far)) - Charge(q) == q.vehicle.perKmPrice.GetOr(0.0) * (Beyond(q.(distanceKm := far)) - Beyond(q)) * multiplier
  {
    var p := q.(distanceKm := far);
    ChargeForm(q);
    ChargeForm(p);
    if Beyond(q) == 0.0 {
      TimesZero(q.vehicle.perKmPrice.GetOr(0.0));
    }
    ChargeDifference(q.vehicle.basePrice.GetOr(0.0), q.vehicle.perKmPrice.GetOr(0.0), Beyond(q), Beyond(p), q.deliveryType.priceMultiplier.GetOr(1.0));
  }

  lemma ChargeForm(q: Quote)
    ensures Charge(q) == (q.vehicle.basePrice.GetOr(0.0) + q.vehicle.perKmPrice.GetOr(0.0) * Beyond(q)) * q.deliveryType.priceMultiplier.GetOr(1.0)
  {
    assert ExtraDistance(q) == Beyond(q);
  }

  lemma TimesZero(x: real)
    ensures x * 0.0 == 0.0
  {
  }

  lemma ChargeDifference(base: real, rate: real, x: real, y: real, multiplier: real)
    ensures (base + rate * y) * multiplier - (base + rate * x) * multiplier == rate * (y - x) * multiplier
  {
    assert rate * (y - x) == rate * y - rate * x;
    Difference(base + rate * y, base + rate * x, multiplier);
  }

  lemma Difference(x: real, y: real, k: real)
    ensures x * k - y * k == (x - y) * k
  {
  }

  /** The window at `i` is the first that is active, applies and holds the time of day. */
  predicate FirstAt(ds: seq<DynamicSurge>, i: nat, q: Quote)
    requires i < |ds|
  {
    Running(ds[i], q) && forall k | 0 <= k < i :: !Running(ds[k], q)
  }

  /** A window that ends before it starts runs over midnight. */
  predicate Running(d: DynamicSurge, q: Quote) {
    && d.active && Applies(d.areas, q)
    && (d.start <= d.end ==> d.start <= q.nowMinutes <= d.end)
    && (d.end < d.start ==> !(d.end < q.nowMinutes < d.start))
  }

  lemma {:induction false} FirstWindowAt(ds: seq<DynamicSurge>, q: Quote)
    ensures forall i: nat | i < |ds| && FirstAt(ds, i, q) :: FirstWindow(ds, q.nowMinutes, q.zone.id) == Some(ds[i])
    ensures (forall i | 0 <= i < |ds| :: !Running(ds[i], q)) ==> FirstWindow(ds, q.nowMinutes, q.zone.id) == None
  {
    if ds != [] {
      FirstWindowAt(ds[1..], q);
      forall i: nat | i < |ds| && FirstAt(ds, i, q)
        ensures FirstWindow(ds, q.nowMinutes, q.zone.id) == Some(ds[i])
      {
        if i > 0 {
          assert !Running(ds[0], q);
          forall k | 0 <= k < i - 1
            ensures !Running(ds[1..][k], q)
          {
            assert ds[1..][k] == ds[k + 1];
          }
          assert FirstAt(ds[1..], i - 1, q);
        }
      }
      if forall i | 0 <= i < |ds| :: !Running(ds[i], q) {
        forall k | 0 <= k < |ds| - 1
          ensures !Running(ds[1..][k], q)
        {
          assert ds[1..][k] == ds[k + 1];
        }
      }
    }
  }

  /** The first running window multiplies by its percentage; without one, or when
      reading the windows fails, the price is left alone. */
  lemma WindowIsPercentage(q: Quote, s: Stages)
    requires Accounted(q, s)
    ensures q.dynamicSurges.None? ==> s.dynamicMultiplier == 1.0
    ensures q.dynamicSurges.Some? ==> var ds := q.dynamicSurges.value;
      && (forall i: nat | i < |ds| && FirstAt(ds, i, q) :: s.dynamicMultiplier * 100.0 == ds[i].percent as real)
      && ((forall i | 0 <= i < |ds| :: !Running(ds[i], q)) ==> s.dynamicMultiplier == 1.0)
  {
    if q.dynamicSurges.Some? {
      FirstWindowAt(q.dynamicSurges.value, q);
    }
  }

  /** The demand per available driver, to four decimals; zero without drivers. */
  predicate DemandPerDriver(ratio: real, q: Quote) {
    if q.availableDrivers <= 0 then ratio == 0.0
    else Abs(ratio - q.demand as real / q.availableDrivers as real) <= 0.00005 && ratio * 10_000.0 == (ratio * 10_000.0).Floor as real
  }

  lemma RatioIsDemandPerDriver(q: Quote)
    ensures DemandPerDriver(DemandRatio(q), q)
  {
    To4Fixed(q.demand as real / if q.availableDrivers > 0 then q.availableDrivers as real else 1.0);
    if q.availableDrivers <= 0 {
      UnitsOfInt(0);
    }
  }

  lemma To4Fixed(x: real)
    ensures Abs(To4(x) - x) <= 0.00005
    ensures To4(x) * 10_000.0 == (To4(x) * 10_000.0).Floor as real
  {
    var n := Units(x * 10_000.0);
    assert To4(x) * 10_000.0 == n as real;
  }

  /** The demand stage multiplies by an ACTIVE rule that covers the demand per
      driver, at the lower of its multiplier and its cap; without such a rule, or
      when the lookup fails, the price is left alone. */
  lemma SurgeIsCoveringRule(q: Quote, s: Stages) returns (ratio: real)
    requires Accounted(q, s)
    ensures DemandPerDriver(ratio, q)
    ensures q.surgeRules.None? ==> s.surgeMultiplier == 1.0
    ensures q.surgeRules.Some? ==> var rules := q.surgeRules.value;
      && ((forall r | r in rules :: !(r.active && r.ratioFrom <= ratio < r.ratioTo)) ==> s.surgeMultiplier == 1.0)
      && ((exists r | r in rules :: r.active && r.ratioFrom <= ratio < r.ratioTo) ==>
        exists r | r in rules && r.active && r.ratioFrom <= ratio < r.ratioTo :: Effective(s.surgeMultiplier, r))
  {
    ratio := DemandRatio(q);
    RatioIsDemandPerDriver(q);
    if q.surgeRules.Some? {
      ResolveSound(q.surgeRules.value, ratio, Some(q.zone.id), Some(q.deliveryType.id));
    }
  }

  /** No covering rule names the zone and the delivery type more specifically than
      `r`, and none as specific has a higher multiplier. */
  predicate MostSpecific(r: Rule, rules: seq<Rule>, ratio: real, q: Quote) {
    && r in rules && r.active && r.ratioFrom <= ratio < r.ratioTo
    && forall i | 0 <= i < |rules| && rules[i].active && rules[i].ratioFrom <= ratio < rules[i].ratioTo ::
      && Level(r, q.zone.id, q.deliveryType.id) <= Level(rules[i], q.zone.id, q.deliveryType.id)
      && (Level(r, q.zone.id, q.deliveryType.id) == Level(rules[i], q.zone.id, q.deliveryType.id) ==> rules[i].priceMultiplier <= r.priceMultiplier)
  }

  /** On a table with several covering rules the price uses a most specific one. */
  lemma SurgeIsMostSpecific(q: Quote, s: Stages, i: nat) returns (r: Rule)
    requires Accounted(q, s) && q.surgeRules.Some? && q.zone.id != 0 && q.deliveryType.id != 0
    requires i < |q.surgeRules.value| && Covers(q.surgeRules.value[i], DemandRatio(q))
    ensures MostSpecific(r, q.surgeRules.value, DemandRatio(q), q) && Effective(s.surgeMultiplier, r)
  {
    var rules, ratio := q.surgeRules.value, DemandRatio(q);
    ResolveSound(rules, ratio, Some(q.zone.id), Some(q.deliveryType.id));
    r := ResolveSurge(rules, ratio, Some(q.zone.id), Some(q.deliveryType.id)).rule.value;
    forall j: nat | j < |rules| && rules[j].active && rules[j].ratioFrom <= ratio < rules[j].ratioTo
      ensures Level(r, q.zone.id, q.deliveryType.id) <= Level(rules[j], q.zone.id, q.deliveryType.id)
      ensures Level(r, q.zone.id, q.deliveryType.id) == Level(rules[j], q.zone.id, q.deliveryType.id) ==> rules[j].priceMultiplier <= r.priceMultiplier
    {
      SpecificRuleWins(rules, ratio, q.zone.id, q.deliveryType.id, j);
    }
  }

  /** Every amount shown is its stage to the nearest cent, multipliers to four
      decimals, and the rider is shown what is left of the price, never less than zero. */
  lemma ShownIsNear(s: Stages)
    ensures var b := Rounded(s);
      && Abs(b.basePrice - s.basePrice) <= 0.005 && Abs(b.deliveryTypeCharge - s.charge) <= 0.005
      && Abs(b.deliveryTypeSurge - s.surcharge) <= 0.005 && Abs(b.userFeeTotal - s.userFees) <= 0.005
      && Abs(b.zoneFee - s.zoneFee) <= 0.005 && Abs(b.dynamicSurgeAmount - s.dynamicAmount) <= 0.005
      && Abs(b.surgeAmount - s.surgeAmount) <= 0.005 && Abs(b.totalFee - s.totalFee) <= 0.005
      && Abs(b.totalPrice - s.totalPrice) <= 0.005 && Abs(b.platformFee - s.platformFee) <= 0.005
      && Abs(b.dynamicSurgeMultiplier - s.dynamicMultiplier) <= 0.00005 && Abs(b.surgeMultiplier - s.surgeMultiplier) <= 0.00005
      && (s.price >= s.platformFee ==> Abs(b.raiderEarnings - (s.price - s.platformFee)) <= 0.005)
      && (s.price <= s.platformFee ==> b.raiderEarnings == 0.0)
  {
    To2Near(s.basePrice);
    To2Near(s.charge);
    To2Near(s.surcharge);
    To2Near(s.userFees);
    To2Near(s.zoneFee);
    To2Near(s.dynamicAmount);
    To2Near(s.surgeAmount);
    To2Near(s.totalFee);
    To2Near(s.totalPrice);
    To2Near(s.platformFee);
    To2Near(Max(0.0, s.price - s.platformFee));
    To4Fixed(s.dynamicMultiplier);
    To4Fixed(s.surgeMultiplier);
    To2Fixed(0);
  }

  // ---------- Rounding ----------

  /** Charge plus total fee may differ from the total price by one cent after
      rounding, never by more. */
  lemma RoundedTotalWithinOneCent(s: Stages)
    requires s.totalPrice == s.charge + s.totalFee
    ensures var b := Rounded(s); Abs(b.totalPrice - (b.deliveryTypeCharge + b.totalFee)) <= 0.01
  {
    var n := Cents(s.totalPrice) - (Cents(s.charge) + Cents(s.totalFee));
    assert -1 <= n <= 1;
    var b := Rounded(s);
    assert b.totalPrice - (b.deliveryTypeCharge + b.totalFee) == n as real / 100.0;
  }

  /** The split of the total price between platform, rider and stop surcharge is
      exact before rounding if and only if the rider's share is not clamped at
      zero, and then within two cents after rounding. */
  lemma SplitWithinTwoCents(s: Stages)
    requires s.totalPrice == s.price + s.surcharge
    ensures s.platformFee + Max(0.0, s.price - s.platformFee) + s.surcharge == s.totalPrice <==> s.price >= s.platformFee
    ensures var b := Rounded(s);
      s.price >= s.platformFee ==> Abs(b.platformFee + b.raiderEarnings + b.deliveryTypeSurge - b.totalPrice) <= 0.02
  {
    if s.price >= s.platformFee {
      var n := Cents(s.platformFee) + Cents(s.price - s.platformFee) + Cents(s.surcharge) - Cents(s.totalPrice);
      assert -2 <= n <= 2;
      var b := Rounded(s);
      assert b.platformFee + b.raiderEarnings + b.deliveryTypeSurge - b.totalPrice == n as real / 100.0;
    }
  }

  /** Half a cent of charge in a zone that doubles it. */
  function HalfCentQuote(): Quote {
    Quote(0.005, Vehicle(None, None, Some(1.0)), DeliveryType(1, "EXPRESS", None, None, None), Zone(1, 2.0), [], None, 0, None, 0, 0, [], [], [])
  }

  lemma HalfCentCharge()
    ensures Charge(HalfCentQuote()) == 0.005 && Fees(HalfCentQuote()) == 0.0
  {
    var q := HalfCentQuote();
    assert ExtraDistance(q) == 0.005;
    NoSurge(0.005);
    var none: seq<Fee> := [];
    assert FeeSum(none, FeeContext(q), 1) == 0;
  }

  /** Without surges and surcharge only the zone scales the price. */
  lemma ZoneOnly(q: Quote)
    requires q.dynamicSurges.None? && q.surgeRules.None? && q.deliveryType.extraStopSurcharge.None?
    ensures Total(q) == (Charge(q) + Fees(q)) * q.zone.deliveryFee
  {
    ScaledSteps(Charge(q) + Fees(q), q.zone.deliveryFee, 1.0);
  }

  lemma HalfCentTotal()
    ensures Charge(HalfCentQuote()) == 0.005 && Total(HalfCentQuote()) == 0.01
  {
    HalfCentCharge();
    ZoneOnly(HalfCentQuote());
  }

  /** The running price after the zone stage, and after the time of day. */
  function Zoned(q: Quote): real {
    (Charge(q) + Fees(q)) * q.zone.deliveryFee
  }

  function Timed(q: Quote): real {
    (Charge(q) + Fees(q)) * q.zone.deliveryFee * DynamicMultiplier(q)
  }

  /** The stages a quote leads to: each adds the difference between two running prices. */
  function StagesOf(q: Quote): Stages {
    var subtotal := Charge(q) + Fees(q);
    Stages(BasePrice(q), Charge(q), Surcharge(q), Fees(q), Zoned(q) - subtotal, Timed(q) - Zoned(q), DynamicMultiplier(q),
           Price(q) - Timed(q), SurgeMultiplier(q), Price(q), Total(q) - Charge(q), Total(q), DriverFee(q, Price(q)))
  }

  lemma ScaledSteps(x: real, a: real, b: real)
    ensures Scaled(x, a, 1.0, 1.0) == x * a && Scaled(x, a, b, 1.0) == x * a * b
  {
    NoSurge(x * a);
    NoSurge(x * a * b);
  }

  lemma StagesAccounted(q: Quote)
    ensures Accounted(q, StagesOf(q))
  {
  }

  lemma HalfCentRounds()
    ensures To2(0.005) == 0.01 && To2(0.01) == 0.01
  {
    assert 0.005 * 100.0 == 0.5 && 0.01 * 100.0 == 1.0;
    assert Units(0.5) == 1 && Units(1.0) == 1;
  }

  ghost predicate OneCentOff(q: Quote, s: Stages) {
    Accounted(q, s) && Rounded(s).deliveryTypeCharge + Rounded(s).totalFee == Rounded(s).totalPrice + 0.01
  }

  /** The one-cent difference is real: that charge rounds up twice, and the total is one cent. */
  lemma OneCentHappens()
    ensures exists q, s :: OneCentOff(q, s)
  {
    var q := HalfCentQuote();
    HalfCentTotal();
    HalfCentRounds();
    StagesAccounted(q);
    HalfCentOff(q);
  }

  lemma HalfCentOff(q: Quote)
    requires Charge(q) == 0.005 && Total(q) == 0.01 && Accounted(q, StagesOf(q))
    requires To2(0.005) == 0.01 && To2(0.01) == 0.01
    ensures OneCentOff(q, StagesOf(q))
  {
    assert Total(q) - Charge(q) == 0.005;
  }

  // ---------- Monotonicity in the distance ----------

  /** A longer road changes a fee context at most upwards. */
  predicate Grows(c: Context, d: Context) {
    && c.deliveryType == d.deliveryType && c.nameNumber == d.nameNumber
    && 0.0 <= c.orderAmount <= d.orderAmount && 0.0 <= c.distance <= d.distance
  }

  /** A "less than" rule on distance or amount with a bound that is not below every value. */
  predicate Shrinking(f: Fee, zoneId: int) {
    && f.active && InArea(f.areas, zoneId) && !f.allOrders
    && (f.ruleKey == Some("distance") || f.ruleKey == Some("order_amount"))
    && f.ruleNumber.Some?
    && ((f.ruleOperator == "<" && f.ruleNumber.value > 0.0) || (f.ruleOperator == "<=" && f.ruleNumber.value >= 0.0))
  }

  ghost predicate StaysCharged(f: Fee, zoneId: int) {
    forall c, d | Grows(c, d) :: Charged(f, c, zoneId) ==> Charged(f, d, zoneId)
  }

  lemma NotShrinkingStays(f: Fee, c: Context, d: Context, zoneId: int)
    requires !Shrinking(f, zoneId) && Grows(c, d) && Charged(f, c, zoneId)
    ensures Charged(f, d, zoneId)
  {
  }

  /** A shrinking rule is dropped between two values less than one apart. */
  lemma ShrinkingDrops(f: Fee, zoneId: int) returns (low: real, high: real)
    requires Shrinking(f, zoneId)
    ensures 0.0 <= low <= high < low + 1.0
    ensures forall c: Context | c.distance == low && c.orderAmount == low :: Charged(f, c, zoneId)
    ensures forall c: Context | c.distance == high && c.orderAmount == high :: !Charged(f, c, zoneId)
  {
    var n := f.ruleNumber.value;
    if f.ruleOperator == "<" {
      low, high := Max(0.0, n - 0.5), n;
    } else {
      low, high := n, n + 0.5;
    }
  }

  /** A fee once charged stays charged as distance and amount grow, if and only if
      its rule is not a shrinking one. */
  lemma StaysChargedIff(f: Fee, zoneId: int)
    ensures StaysCharged(f, zoneId) <==> !Shrinking(f, zoneId)
  {
    if Shrinking(f, zoneId) {
      var low, high := ShrinkingDrops(f, zoneId);
      var c, d := Context("", None, low, low), Context("", None, high, high);
      assert Grows(c, d) && Charged(f, c, zoneId) && !Charged(f, d, zoneId);
    } else {
      forall c, d | Grows(c, d) && Charged(f, c, zoneId)
        ensures Charged(f, d, zoneId)
      {
        NotShrinkingStays(f, c, d, zoneId);
      }
    }
  }

  predicate NonNegative(q: Quote) {
    && q.vehicle.basePrice.GetOr(0.0) >= 0.0 && q.vehicle.perKmPrice.GetOr(0.0) >= 0.0
    && q.deliveryType.priceMultiplier.GetOr(1.0) >= 0.0
    && (forall i | 0 <= i < |q.fees| :: q.fees[i].amount >= 0)
    && q.zone.deliveryFee >= 0.0 && DynamicMultiplier(q) >= 0.0 && SurgeMultiplier(q) >= 0.0
  }

  predicate NoShrinkingRules(q: Quote) {
    NoneShrinks(q.fees, q.zone.id)
  }

  predicate NoneShrinks(fees: seq<Fee>, zoneId: int) {
    forall i | 0 <= i < |fees| :: fees[i].amount == 0 || !Shrinking(fees[i], zoneId)
  }

  lemma {:induction false} FeeSumMonotone(fees: seq<Fee>, c: Context, d: Context, zoneId: int)
    requires NoneShrinks(fees, zoneId) && forall i | 0 <= i < |fees| :: fees[i].amount >= 0
    requires Grows(c, d)
    ensures FeeSum(fees, c, zoneId) <= FeeSum(fees, d, zoneId)
  {
    if fees != [] {
      var f := fees[|fees| - 1];
      FeeSumMonotone(fees[..|fees| - 1], c, d, zoneId);
      if f.amount != 0 && Charged(f, c, zoneId) {
        NotShrinkingStays(f, c, d, zoneId);
      }
    }
  }

  lemma ScaleMonotone(x: real, y: real, factor: real)
    requires x <= y && factor >= 0.0
    ensures x * factor <= y * factor
  {
    ProductNonNegative(y - x, factor);
    assert (y - x) * factor == y * factor - x * factor;
  }

  lemma ProductNonNegative(x: real, y: real)
    requires x >= 0.0 && y >= 0.0
    ensures x * y >= 0.0
  {
  }

  lemma LinearMonotone(a: real, k: real, x: real, y: real)
    requires a >= 0.0 && k >= 0.0 && 0.0 <= x <= y
    ensures 0.0 <= a + k * x <= a + k * y
  {
    ProductNonNegative(k, x);
    ScaleMonotone(x, y, k);
    assert x * k == k * x && y * k == k * y;
  }

  lemma BasePriceMonotone(q: Quote, far: real)
    requires NonNegative(q) && q.distanceKm <= far
    ensures 0.0 <= ExtraDistance(q) <= ExtraDistance(q.(distanceKm := far))
    ensures 0.0 <= BasePrice(q) <= BasePrice(q.(distanceKm := far))
  {
    LinearMonotone(q.vehicle.basePrice.GetOr(0.0), q.vehicle.perKmPrice.GetOr(0.0), ExtraDistance(q), ExtraDistance(q.(distanceKm := far)));
  }

  lemma ChargeMonotone(q: Quote, far: real)
    requires NonNegative(q) && q.distanceKm <= far
    ensures 0.0 <= ExtraDistance(q) <= ExtraDistance(q.(distanceKm := far))
    ensures 0.0 <= Charge(q) <= Charge(q.(distanceKm := far))
  {
    var multiplier := q.deliveryType.priceMultiplier.GetOr(1.0);
    BasePriceMonotone(q, far);
    ScaleMonotone(BasePrice(q), BasePrice(q.(distanceKm := far)), multiplier);
    ProductNonNegative(BasePrice(q), multiplier);
  }

  lemma MultiplierChainMonotone(x: real, y: real, a: real, b: real, c: real)
    requires x <= y && a >= 0.0 && b >= 0.0 && c >= 0.0
    ensures Scaled(x, a, b, c) <= Scaled(y, a, b, c)
  {
    ScaleMonotone(x, y, a);
    assert x * a <= y * a;
    ScaleMonotone(x * a, y * a, b);
    assert x * a * b <= y * a * b;
    ScaleMonotone(x * a * b, y * a * b, c);
  }

  lemma SameMultipliers(q: Quote, far: real)
    ensures DynamicMultiplier(q.(distanceKm := far)) == DynamicMultiplier(q)
    ensures SurgeMultiplier(q.(distanceKm := far)) == SurgeMultiplier(q)
  {
  }

  lemma SubtotalMonotone(q: Quote, far: real)
    requires NonNegative(q) && NoShrinkingRules(q) && q.distanceKm <= far
    ensures var p := q.(distanceKm := far); Charge(q) + Fees(q) <= Charge(p) + Fees(p)
  {
    ChargeMonotone(q, far);
    FeeSumMonotone(q.fees, FeeContext(q), FeeContext(q.(distanceKm := far)), q.zone.id);
  }

  /** With all surge inputs fixed, a longer road never makes the delivery cheaper,
      before and after rounding. */
  lemma TotalMonotoneInDistance(q: Quote, far: real)
    requires NonNegative(q) && NoShrinkingRules(q) && q.distanceKm <= far
    ensures Total(q) <= Total(q.(distanceKm := far))
    ensures To2(Total(q)) <= To2(Total(q.(distanceKm := far)))
  {
    var p := q.(distanceKm := far);
    SubtotalMonotone(q, far);
    SameMultipliers(q, far);
    MultiplierChainMonotone(Charge(q) + Fees(q), Charge(p) + Fees(p), q.zone.deliveryFee, DynamicMultiplier(q), SurgeMultiplier(q));
    To2Monotone(Total(q), Total(p));
  }

  /** The price of an order without base price, surges and surcharge, in a zone
      that leaves the price alone: one unit per kilometre and one fee. */
  function OneFeeQuote(f: Fee, zoneId: int, km: real): Quote {
    Quote(km, Vehicle(None, None, Some(1.0)), DeliveryType(1, "EXPRESS", None, None, None), Zone(zoneId, 1.0), [f], None, 0, None, 0, 0, [], [], [])
  }

  lemma OneFeeTotal(f: Fee, zoneId: int, km: real)
    requires km >= 0.0
    ensures var q := OneFeeQuote(f, zoneId, km);
      && FeeContext(q) == Context("EXPRESS", None, km, km)
      && Total(q) == km + if Charged(f, FeeContext(q), zoneId) then f.amount as real else 0.0
  {
    var q := OneFeeQuote(f, zoneId, km);
    assert BasePrice(q) == km;
    NoSurge(km);
    assert Charge(q) == km;
    OneFeeSum(f, FeeContext(q), zoneId);
    ZoneOnly(q);
    NoSurge(Charge(q) + Fees(q));
  }

  lemma {:induction false} OneFeeSum(f: Fee, c: Context, zoneId: int)
    ensures FeeSum([f], c, zoneId) == if Charged(f, c, zoneId) then f.amount else 0
  {
    var none: seq<Fee> := [];
    assert [f][..0] == none;
    assert FeeSum(none, c, zoneId) == 0;
  }

  /** A longer road never lowers the price, whatever else the quote holds. */
  ghost predicate NeverCheaper(f: Fee, zoneId: int) {
    forall q, far | NonNegative(q) && q.fees == [f] && q.zone.id == zoneId && q.distanceKm <= far :: Total(q) <= Total(q.(distanceKm := far))
  }

  /** The condition on the rules is exact: a fee that is charged at all keeps every
      price non-decreasing in the distance if and only if its rule is not a
      shrinking one. */
  lemma NeverCheaperIff(f: Fee, zoneId: int)
    requires f.amount > 0
    ensures NeverCheaper(f, zoneId) <==> !Shrinking(f, zoneId)
  {
    if Shrinking(f, zoneId) {
      var low, high := ShrinkingDrops(f, zoneId);
      var q := OneFeeQuote(f, zoneId, low);
      OneFeeTotal(f, zoneId, low);
      OneFeeTotal(f, zoneId, high);
      assert q.(distanceKm := high) == OneFeeQuote(f, zoneId, high);
      assert NonNegative(q) && Total(q) > Total(q.(distanceKm := high));
    } else {
      forall q, far | NonNegative(q) && q.fees == [f] && q.zone.id == zoneId && q.distanceKm <= far
        ensures Total(q) <= Total(q.(distanceKm := far))
      {
        TotalMonotoneInDistance(q, far);
      }
    }
  }

  // ---------- Receivers ----------

  datatype RouteOptions = RouteOptions(isRoundTrip: bool, returnFactor: Option<real>)

  function FinalDistance(km: real, options: RouteOptions): real {
    if options.isRoundTrip then km + km * options.returnFactor.GetOr(0.5) else km
  }

  lemma RouteLonger(near: real, far: real, low: RouteOptions, high: RouteOptions)
    requires 0.0 <= near <= far
    requires low.isRoundTrip ==> high.isRoundTrip && low.returnFactor.GetOr(0.5) <= high.returnFactor.GetOr(0.5)
    requires high.isRoundTrip ==> high.returnFactor.GetOr(0.5) >= 0.0
    ensures FinalDistance(near, low) <= FinalDistance(far, high)
  {
    if high.isRoundTrip {
      var f := high.returnFactor.GetOr(0.5);
      ProductNonNegative(near, f);
      ScaleMonotone(near, far, f);
      assert near + near * f <= far + far * f;
      if low.isRoundTrip {
        var g := low.returnFactor.GetOr(0.5);
        ScaleMonotone(g, f, near);
        assert g * near == near * g && f * near == near * f;
        assert near + near * g <= near + near * f;
      }
    }
  }

  lemma HypothesesAnyDistance(q: Quote, km: real)
    requires NonNegative(q) && NoShrinkingRules(q)
    ensures NonNegative(q.(distanceKm := km)) && NoShrinkingRules(q.(distanceKm := km))
  {
    SameMultipliers(q, km);
  }

  /** The price is also non-decreasing in the return factor of a round trip, and
      from a one-way trip to a round trip. */
  lemma TotalMonotoneInRoute(q: Quote, near: real, far: real, low: RouteOptions, high: RouteOptions)
    requires NonNegative(q) && NoShrinkingRules(q) && 0.0 <= near <= far
    requires low.isRoundTrip ==> high.isRoundTrip && low.returnFactor.GetOr(0.5) <= high.returnFactor.GetOr(0.5)
    requires high.isRoundTrip ==> high.returnFactor.GetOr(0.5) >= 0.0
    ensures Total(q.(distanceKm := FinalDistance(near, low))) <= Total(q.(distanceKm := FinalDistance(far, high)))
  {
    var x, y := FinalDistance(near, low), FinalDistance(far, high);
    RouteLonger(near, far, low, high);
    HypothesesAnyDistance(q, x);
    TotalMonotoneInDistance(q.(distanceKm := x), y);
    assert q.(distanceKm := x).(distanceKm := y) == q.(distanceKm := y);
  }

  /** `b` shows the amounts of the quote, each rounded. */
  ghost predicate IsPriceOf(b: Breakdown, q: Quote) {
    exists s: Stages :: s.basePrice == BasePrice(q) && Accounted(q, s) && b == Rounded(s)
  }

  /** The stages are fixed by the running prices after the zone and after the time of day. */
  lemma SameStages(s: Stages, t: Stages, zoned: real, timed: real)
    requires s.basePrice == t.basePrice && s.charge == t.charge && s.userFees == t.userFees && s.surcharge == t.surcharge
    requires s.dynamicMultiplier == t.dynamicMultiplier && s.surgeMultiplier == t.surgeMultiplier
    requires s.price == t.price && s.platformFee == t.platformFee
    requires s.charge + s.userFees + s.zoneFee == zoned == t.charge + t.userFees + t.zoneFee
    requires zoned + s.dynamicAmount == timed == zoned + t.dynamicAmount
    requires timed + s.surgeAmount == s.price && timed + t.surgeAmount == t.price
    requires s.totalPrice == s.price + s.surcharge == s.charge + s.totalFee
    requires t.totalPrice == t.price + t.surcharge == t.charge + t.totalFee
    ensures s == t
  {
  }

  lemma RunningPrices(q: Quote, s: Stages)
    requires Accounted(q, s)
    ensures s.charge + s.userFees + s.zoneFee == Zoned(q)
    ensures s.charge + s.userFees + s.zoneFee + s.dynamicAmount == Timed(q)
    ensures s.price == Price(q)
  {
  }

  lemma AccountedUnique(q: Quote, s: Stages, t: Stages)
    requires Accounted(q, s) && Accounted(q, t) && s.basePrice == t.basePrice
    ensures s == t
  {
    RunningPrices(q, s);
    RunningPrices(q, t);
    SameStages(s, t, s.charge + s.userFees + s.zoneFee, s.charge + s.userFees + s.zoneFee + s.dynamicAmount);
  }

  /** A quote has exactly one price: all thirteen amounts of a breakdown are fixed by it. */
  lemma PriceUnique(b: Breakdown, q: Quote)
    ensures IsPriceOf(b, q) <==> b == Rounded(StagesOf(q))
  {
    StagesAccounted(q);
    if IsPriceOf(b, q) {
      var s: Stages :| s.basePrice == BasePrice(q) && Accounted(q, s) && b == Rounded(s);
      AccountedUnique(q, s, StagesOf(q));
    }
  }

  /** One price per receiver, in order; `roadKm` are the distances the map service
      returned and `q` holds the inputs the receivers share. */
  method ReceiversWithPrice(roadKm: seq<real>, options: RouteOptions, q: Quote) returns (result: seq<Breakdown>)
    ensures |result| == |roadKm|
    ensures forall i | 0 <= i < |roadKm| :: IsPriceOf(result[i], q.(distanceKm := FinalDistance(roadKm[i], options)))
  {
    result := [];
    for i := 0 to |roadKm|
      invariant |result| == i
      invariant forall k | 0 <= k < i :: IsPriceOf(result[k], q.(distanceKm := FinalDistance(roadKm[k], options)))
    {
      var finalDistanceKm := roadKm[i];
      if options.isRoundTrip {
        var returnFactor := if options.returnFactor.Some? then options.returnFactor.value else 0.5;
        finalDistanceKm := roadKm[i] + roadKm[i] * returnFactor;
      }
      assert finalDistanceKm == FinalDistance(roadKm[i], options);
      var b := PriceAt(q, finalDistanceKm);
      result := result + [b];
    }
  }

  method PriceAt(q: Quote, km: real) returns (b: Breakdown)
    ensures IsPriceOf(b, q.(distanceKm := km))
  {
    var s;
    b, s := CalculatePriceWithFee(q.(distanceKm := km));
  }
}
