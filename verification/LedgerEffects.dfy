/** What every balance operation does to every table, in terms of the rows: one
    law for the four figures of an account, the sums over a run, and the rows of
    the other tables. */
module LedgerEffects {
  import opened Common
  import opened IncentiveRules
  import opened Ledger
  import opened LedgerProofs

  // ---------- The gates, on the rows ----------

  /** Rewards are paid to known users for active incentives of the right kind,
      in whole amounts, and only to those who meet some group of rules. */
  ghost predicate RewardDue(s: State, cfg: Config, user: int, incentive: int, manual: bool, m: Metrics) {
    && user in s.accounts && incentive in cfg.incentives
    && cfg.incentives[incentive].active && cfg.incentives[incentive].manual == manual
    && MeetsSomeGroup(cfg.incentives[incentive].groups, m)
    && IsInteger(RewardAmount(cfg.incentives[incentive], !manual, m))
  }

  predicate Equals(x: real, n: int) {
    x == n as real
  }

  ghost predicate IsInteger(x: real) {
    exists n :: Equals(x, n)
  }

  /** A fixed or points reward is its value, and so is a percentage claimed by
      hand; an automatic percentage is taken of the earnings. */
  function RewardAmount(i: Incentive, auto: bool, m: Metrics): real {
    if auto && i.rewardType == PercentageReward then
      (if "TOTAL_EARNINGS" in m then m["TOTAL_EARNINGS"] else 0.0) * i.rewardValue / 100.0
    else i.rewardValue
  }

  /** The earlier claims of a user for an incentive, by position. */
  function ClaimsOf(cs: seq<Claim>, user: int, incentive: int): set<nat> {
    set k: nat | k < |cs| && cs[k].user == user && cs[k].incentive == incentive
  }

  ghost predicate ClaimsByHand(s: State, op: Op, cfg: Config) {
    && op.Collect? && !op.expired && RewardDue(s, cfg, op.user, op.incentive, true, op.metrics)
    && (cfg.incentives[op.incentive].maxClaim == 0 || |ClaimsOf(s.claims, op.user, op.incentive)| < cfg.incentives[op.incentive].maxClaim)
  }

  ghost predicate ClaimsAutomatically(s: State, op: Op, cfg: Config) {
    && op.AutoCollect? && op.scheduled && RewardDue(s, cfg, op.user, op.incentive, false, op.metrics)
    && ClaimsOf(s.claims, op.user, op.incentive) == {}
  }

  /** What a refund takes from the rider: its percentage, unless the refund is full. */
  function Share(r: Refund): real {
    if r.full || r.riderPercent.None? then 0.0 else r.amount * r.riderPercent.value / 100.0
  }

  /** The percentages of a partial refund add up, and the rider can pay. */
  predicate RefundDue(s: State, o: OrderRef, r: Refund) {
    r.full ||
    (&& (r.amount == 0.0 || r.riderPercent.GetOr(0.0) + r.companyPercent.GetOr(0.0) == 100.0)
     && (o.rider.Some? && o.rider.value in s.accounts ==> Share(r) <= s.accounts[o.rider.value].current))
  }

  predicate Known(s: State, user: Option<int>) {
    user.Some? ==> user.value in s.accounts
  }

  /** The order of a dispute, when both exist and its parties have accounts. */
  function OrderOf(s: State, cfg: Config, dispute: int): Option<OrderRef> {
    if dispute in s.disputes && s.disputes[dispute].order in cfg.orders then
      var o := cfg.orders[s.disputes[dispute].order];
      if Known(s, o.rider) && Known(s, o.customer) then Some(o) else None
    else None
  }

  predicate SettlesDispute(s: State, op: Op, cfg: Config) {
    && op.ResolveDispute?
    && var o := OrderOf(s, cfg, op.dispute);
      o.Some? && o.value.rider.Some? && RefundDue(s, o.value, op.refund)
  }

  /** The appeal is waiting or under review; an amount of zero needs no cover. */
  predicate SettlesAppeal(s: State, op: Op, cfg: Config) {
    && op.ResolveAppeal? && op.appeal in s.appeals
    && (s.appeals[op.appeal].status == PendingAppeal || s.appeals[op.appeal].status == UnderReview)
    && var o := OrderOf(s, cfg, s.appeals[op.appeal].dispute);
      o.Some? && (op.accept && op.refund.amount != 0.0 ==> RefundDue(s, o.value, op.refund))
  }

  // ---------- The figures of an account ----------

  /** A refund credits the customer with a positive amount and debits the rider with a positive share. */
  function RefundFor(o: OrderRef, r: Refund, u: int): real {
    (if o.customer == Some(u) && r.amount > 0.0 then r.amount else 0.0)
    - (if o.rider == Some(u) && Share(r) > 0.0 then Share(r) else 0.0)
  }

  /** What one operation credits to a user, less the refund share it debits. */
  ghost function Earned(s: State, op: Op, cfg: Config, u: int): real
    requires u in s.accounts
  {
    match op
    case AddMoneyTest(user, amount) => if user == u then amount else 0.0
    case IntentSucceeded(intent) => if intent.user == u && intent.id !in s.deposits then intent.amount else 0.0
    case RedeemCoin(user, coins, cents) => if user == u && coins <= s.accounts[u].coins then coins as real * cents / 100.0 else 0.0
    case Collect(user, incentive, _, m) =>
      if user == u && ClaimsByHand(s, op, cfg) then RewardAmount(cfg.incentives[incentive], false, m) else 0.0
    case AutoCollect(user, incentive, _, m) =>
      if user == u && ClaimsAutomatically(s, op, cfg) then RewardAmount(cfg.incentives[incentive], true, m) else 0.0
    case ResolveDispute(dispute, r) =>
      if SettlesDispute(s, op, cfg) then RefundFor(cfg.orders[s.disputes[dispute].order], r, u) else 0.0
    case ResolveAppeal(appeal, accept, r) =>
      if SettlesAppeal(s, op, cfg) && accept then RefundFor(cfg.orders[s.disputes[s.appeals[appeal].dispute].order], r, u) else 0.0
    case _ => 0.0
  }

  /** Coins handed out, and coins turned into money. */
  function Gifted(op: Op, u: int): int {
    if op.GiftCoins? && op.user == u && op.coins > 0 then op.coins else 0
  }

  function Redeemed(s: State, op: Op, u: int): int
    requires u in s.accounts
  {
    if op.RedeemCoin? && op.user == u && op.coins <= s.accounts[u].coins then op.coins else 0
  }

  /** The four figures of one account before and after. */
  predicate Moved(before: Account, after: Account, earned: real, withdrawn: real, gifted: int, redeemed: int) {
    && after.total == before.total + earned
    && after.current == before.current + earned - withdrawn
    && after.coins == before.coins + gifted - redeemed
    && after.coinsTotal == before.coinsTotal + gifted
  }

  // ---------- The gates agree with the code's guards ----------

  lemma {:induction false} CountIsClaims(cs: seq<Claim>, user: int, incentive: int)
    ensures CountClaims(cs, user, incentive) == |ClaimsOf(cs, user, incentive)|
  {
    if cs != [] {
      var n := |cs| - 1;
      CountIsClaims(cs[..n], user, incentive);
      var earlier := ClaimsOf(cs[..n], user, incentive);
      if cs[n].user == user && cs[n].incentive == incentive {
        assert ClaimsOf(cs, user, incentive) == earlier + {n};
      } else {
        assert ClaimsOf(cs, user, incentive) == earlier;
      }
    }
  }

  lemma RewardIsAmount(i: Incentive, auto: bool, m: Metrics)
    ensures Reward(i, auto, m) == RewardAmount(i, auto, m)
  {
  }

  lemma WholeIff(x: real)
    ensures Whole(x) <==> IsInteger(x)
  {
    if Whole(x) {
      assert Equals(x, x.Floor);
    }
  }

  lemma CollectGates(s: State, op: Op, cfg: Config)
    requires op.Collect?
    ensures MayCollect(s, cfg, op) <==> ClaimsByHand(s, op, cfg)
  {
    CountIsClaims(s.claims, op.user, op.incentive);
    if op.incentive in cfg.incentives {
      QualifiesIff(cfg.incentives[op.incentive].groups, op.metrics);
      RewardIsAmount(cfg.incentives[op.incentive], false, op.metrics);
      WholeIff(RewardAmount(cfg.incentives[op.incentive], false, op.metrics));
    }
  }

  lemma AutoCollectGates(s: State, op: Op, cfg: Config)
    requires op.AutoCollect?
    ensures MayAutoCollect(s, cfg, op) <==> ClaimsAutomatically(s, op, cfg)
  {
    CountIsClaims(s.claims, op.user, op.incentive);
    if op.incentive in cfg.incentives {
      QualifiesIff(cfg.incentives[op.incentive].groups, op.metrics);
      RewardIsAmount(cfg.incentives[op.incentive], true, op.metrics);
      WholeIff(RewardAmount(cfg.incentives[op.incentive], true, op.metrics));
    }
  }

  lemma ShareIsRiderShare(r: Refund)
    ensures Share(r) == RiderShare(r)
  {
  }

  lemma RefundGates(s: State, o: OrderRef, r: Refund)
    requires KnownParties(s.accounts, o)
    ensures RiderCanPay(s, o, r) && SplitValid(r) <==> RefundDue(s, o, r)
  {
    ShareIsRiderShare(r);
    if !r.full && r.amount != 0.0 {
      SplitValidIff(r);
    }
  }

  lemma DisputeGates(s: State, op: Op, cfg: Config)
    requires op.ResolveDispute?
    ensures MayResolve(s, cfg, op.dispute, op.refund) <==> SettlesDispute(s, op, cfg)
  {
    if OrderOf(s, cfg, op.dispute).Some? {
      RefundGates(s, OrderOf(s, cfg, op.dispute).value, op.refund);
    }
  }

  lemma AppealGates(s: State, op: Op, cfg: Config)
    requires op.ResolveAppeal?
    ensures MayResolveAppeal(s, cfg, op) <==> SettlesAppeal(s, op, cfg)
  {
    if op.appeal in s.appeals && OrderOf(s, cfg, s.appeals[op.appeal].dispute).Some? {
      RefundGates(s, OrderOf(s, cfg, s.appeals[op.appeal].dispute).value, op.refund);
    }
  }

  // ---------- One operation ----------

  /** The account of `u` after the operation, against what the operation credits. */
  ghost predicate Booked(s: State, op: Op, cfg: Config, u: int)
    requires u in s.accounts
  {
    u in Apply(s, op, cfg).accounts &&
    Moved(s.accounts[u], Apply(s, op, cfg).accounts[u], Earned(s, op, cfg, u), Withdrawn(s, op, u), Gifted(op, u), Redeemed(s, op, u))
  }

  lemma CashBooked(s: State, op: Op, cfg: Config, u: int)
    requires op.AddMoneyTest? || op.IntentSucceeded? || op.IntentFailed? || op.Withdraw?
    requires u in s.accounts
    ensures Booked(s, op, cfg, u)
  {
  }

  lemma CoinsBooked(s: State, op: Op, cfg: Config, u: int)
    requires op.RedeemCoin? || op.GiftCoins?
    requires u in s.accounts
    ensures Booked(s, op, cfg, u)
  {
  }

  lemma PayoutBooked(s: State, op: Op, cfg: Config, u: int)
    requires op.Collect? || op.AutoCollect?
    requires u in s.accounts
    ensures Booked(s, op, cfg, u)
  {
    if op.Collect? {
      CollectGates(s, op, cfg);
    } else {
      AutoCollectGates(s, op, cfg);
    }
    if op.incentive in cfg.incentives {
      RewardIsAmount(cfg.incentives[op.incentive], op.AutoCollect?, op.metrics);
    }
  }

  lemma SettleBooked(a: map<int, Account>, o: OrderRef, r: Refund, u: int)
    requires KnownParties(a, o) && u in a
    ensures u in Settle(a, o.rider, o.customer, r)
    ensures Moved(a[u], Settle(a, o.rider, o.customer, r)[u], RefundFor(o, r, u), 0.0, 0, 0)
  {
    ShareIsRiderShare(r);
  }

  lemma DisputeBooked(s: State, op: Op, cfg: Config, u: int)
    requires op.ResolveDispute? && u in s.accounts
    ensures Booked(s, op, cfg, u)
  {
    DisputeGates(s, op, cfg);
    if SettlesDispute(s, op, cfg) {
      SettleBooked(s.accounts, cfg.orders[s.disputes[op.dispute].order], op.refund, u);
    }
  }

  lemma AppealBooked(s: State, op: Op, cfg: Config, u: int)
    requires op.ResolveAppeal? && u in s.accounts
    ensures Booked(s, op, cfg, u)
  {
    AppealGates(s, op, cfg);
    if SettlesAppeal(s, op, cfg) && op.accept {
      var o := cfg.orders[s.disputes[s.appeals[op.appeal].dispute].order];
      if op.refund.amount == 0.0 {
        assert Share(op.refund) == 0.0;
      } else {
        SettleBooked(s.accounts, o, op.refund, u);
      }
    }
  }

  /** One law for all operations and all users: total moves by what the operation
      credits, current by that less the withdrawal, and the coin counters by the
      coins given and redeemed. A user whom the operation does not concern is
      credited nothing, so every other account is left alone. */
  lemma OperationBooked(s: State, op: Op, cfg: Config, u: int)
    requires u in s.accounts
    ensures Booked(s, op, cfg, u)
  {
    match op
    case AddMoneyTest(_, _) => CashBooked(s, op, cfg, u);
    case IntentSucceeded(_) => CashBooked(s, op, cfg, u);
    case IntentFailed(_, _) => CashBooked(s, op, cfg, u);
    case Withdraw(_, _, _) => CashBooked(s, op, cfg, u);
    case RedeemCoin(_, _, _) => CoinsBooked(s, op, cfg, u);
    case GiftCoins(_, _) => CoinsBooked(s, op, cfg, u);
    case Collect(_, _, _, _) => PayoutBooked(s, op, cfg, u);
    case AutoCollect(_, _, _, _) => PayoutBooked(s, op, cfg, u);
    case ResolveDispute(_, _) => DisputeBooked(s, op, cfg, u);
    case FileAppeal(_, _, _) =>
    case DeleteAppeal(_) =>
    case ResolveAppeal(_, _, _) => AppealBooked(s, op, cfg, u);
  }

  /** A permitted withdrawal lowers that user's current balance by the amount and
      touches nothing else; any other attempt changes nothing at all. */
  lemma WithdrawalLowersBalance(s: State, cfg: Config, user: int, amount: real, connected: bool)
    ensures var t := Apply(s, Withdraw(user, amount, connected), cfg);
      && (user in s.accounts && amount <= s.accounts[user].current && connected ==>
        && t.accounts.Keys == s.accounts.Keys
        && t.accounts[user].current == s.accounts[user].current - amount
        && t.accounts[user].total == s.accounts[user].total
        && t.accounts[user].coins == s.accounts[user].coins
        && (forall v | v in s.accounts && v != user :: t.accounts[v] == s.accounts[v])
        && t.(accounts := s.accounts) == s)
      && (!(user in s.accounts && amount <= s.accounts[user].current && connected) ==> t == s)
  {
    ApplyUsers(s, Withdraw(user, amount, connected), cfg);
    if user in s.accounts {
      OperationBooked(s, Withdraw(user, amount, connected), cfg, user);
    }
  }

  // ---------- Runs ----------

  ghost function EarnedInRun(s: State, ops: seq<Op>, cfg: Config, u: int): real
    requires u in s.accounts
  {
    if ops == [] then 0.0
    else
      var before := ops[..|ops| - 1];
      RunUsers(s, before, cfg);
      EarnedInRun(s, before, cfg, u) + Earned(Run(s, before, cfg), ops[|ops| - 1], cfg, u)
  }

  function GiftedInRun(ops: seq<Op>, u: int): int {
    if ops == [] then 0 else GiftedInRun(ops[..|ops| - 1], u) + Gifted(ops[|ops| - 1], u)
  }

  ghost function RedeemedInRun(s: State, ops: seq<Op>, cfg: Config, u: int): int
    requires u in s.accounts
  {
    if ops == [] then 0
    else
      var before := ops[..|ops| - 1];
      RunUsers(s, before, cfg);
      RedeemedInRun(s, before, cfg, u) + Redeemed(Run(s, before, cfg), ops[|ops| - 1], u)
  }

  /** Conservation over every run, with whatever amounts: each user's total has
      grown by exactly what the operations credited less the refund shares they
      debited, the current balance by that less the withdrawals, and the coins by
      the gifts less the redemptions. */
  lemma {:induction false} RunBooked(s: State, ops: seq<Op>, cfg: Config, u: int)
    requires u in s.accounts
    ensures u in Run(s, ops, cfg).accounts
    ensures Moved(s.accounts[u], Run(s, ops, cfg).accounts[u],
                  EarnedInRun(s, ops, cfg, u), WithdrawnInRun(s, ops, cfg, u), GiftedInRun(ops, u), RedeemedInRun(s, ops, cfg, u))
  {
    RunUsers(s, ops, cfg);
    if ops != [] {
      var before, op := ops[..|ops| - 1], ops[|ops| - 1];
      RunBooked(s, before, cfg, u);
      OperationBooked(Run(s, before, cfg), op, cfg, u);
    }
  }

  /** The rows of one user for one incentive stay within the limit of the incentive. */
  ghost predicate WithinLimit(s: State, cfg: Config, user: int, incentive: int) {
    incentive in cfg.incentives ==>
      var i := cfg.incentives[incentive];
      && (!i.manual ==> |ClaimsOf(s.claims, user, incentive)| <= 1)
      && (i.manual && i.maxClaim > 0 ==> |ClaimsOf(s.claims, user, incentive)| <= i.maxClaim)
  }

  /** Over every run at most one claim row per user of an automatic incentive, and
      at most the set limit of a manual one. */
  lemma {:induction false} RunWithinLimit(s: State, ops: seq<Op>, cfg: Config, user: int, incentive: int)
    requires WithinLimit(s, cfg, user, incentive)
    ensures WithinLimit(Run(s, ops, cfg), cfg, user, incentive)
  {
    CountIsClaims(s.claims, user, incentive);
    RunPayoutsBounded(s, ops, cfg, user, incentive);
    CountIsClaims(Run(s, ops, cfg).claims, user, incentive);
  }

  // ---------- The other tables ----------

  /** A claim row is written exactly when a reward is paid, for the amount paid. */
  lemma ClaimsWritten(s: State, op: Op, cfg: Config)
    ensures Apply(s, op, cfg).claims == s.claims +
      if ClaimsByHand(s, op, cfg) then [Claim(op.user, op.incentive, RewardAmount(cfg.incentives[op.incentive], false, op.metrics))]
      else if ClaimsAutomatically(s, op, cfg) then [Claim(op.user, op.incentive, RewardAmount(cfg.incentives[op.incentive], true, op.metrics))]
      else []
  {
    if op.Collect? {
      CollectGates(s, op, cfg);
    } else if op.AutoCollect? {
      AutoCollectGates(s, op, cfg);
    }
    if (op.Collect? || op.AutoCollect?) && op.incentive in cfg.incentives {
      RewardIsAmount(cfg.incentives[op.incentive], op.AutoCollect?, op.metrics);
    }
    assert s.claims + [] == s.claims;
  }

  /** A settled dispute is marked resolved; an accepted appeal leaves its dispute
      resolved only if an amount was paid. No other dispute field ever changes. */
  lemma DisputesMarked(s: State, op: Op, cfg: Config, dispute: int)
    requires dispute in s.disputes
    ensures dispute in Apply(s, op, cfg).disputes
    ensures Apply(s, op, cfg).disputes[dispute] == s.disputes[dispute].(resolved :=
      if SettlesDispute(s, op, cfg) && op.dispute == dispute then true
      else if SettlesAppeal(s, op, cfg) && op.accept && s.appeals[op.appeal].dispute == dispute then op.refund.amount != 0.0
      else s.disputes[dispute].resolved)
  {
    if op.ResolveDispute? {
      DisputeGates(s, op, cfg);
    } else if op.ResolveAppeal? {
      AppealGates(s, op, cfg);
    }
  }

  /** A settled appeal gets its final status; a deleted one is gone; the others stay. */
  lemma AppealsMarked(s: State, op: Op, cfg: Config, appeal: int)
    requires appeal in s.appeals && IdsBelow(s)
    ensures appeal !in Apply(s, op, cfg).appeals <==> op == DeleteAppeal(appeal)
    ensures op != DeleteAppeal(appeal) ==>
      Apply(s, op, cfg).appeals[appeal] == s.appeals[appeal].(status :=
        if SettlesAppeal(s, op, cfg) && op.appeal == appeal then (if op.accept then Accepted else Rejected) else s.appeals[appeal].status)
  {
    if op.ResolveAppeal? {
      AppealGates(s, op, cfg);
    }
  }

  /** An appeal is opened, as pending and under the next id, exactly when a party to a resolved and
      not yet closed dispute of that order files the first one. */
  lemma AppealFiled(s: State, cfg: Config, dispute: int, order: int, user: int)
    requires IdsBelow(s)
    ensures var t := Apply(s, FileAppeal(dispute, order, user), cfg);
      && (s.nextAppeal in t.appeals <==>
        && dispute in s.disputes && s.disputes[dispute].resolved && !s.disputes[dispute].closed && s.disputes[dispute].order == order
        && Some(user) in {s.disputes[dispute].user, s.disputes[dispute].rider}
        && !(exists a :: a in s.appeals && s.appeals[a].dispute == dispute))
      && (s.nextAppeal in t.appeals ==> t.appeals[s.nextAppeal] == Appeal(dispute, order, PendingAppeal) && t.nextAppeal > s.nextAppeal)
  {
  }
}
