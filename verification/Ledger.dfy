/** Every service operation that moves wallet balances: deposits and payment
    webhooks, withdrawals, coin redemption, incentive payouts, dispute refunds and
    appeals. Each operation is one atomic step; one that throws changes nothing. */
module Ledger {
  import opened Common
  import opened IncentiveRules

  // ---------- Tables ----------

  datatype Account = Account(current: real, total: real, coins: int, coinsTotal: int)

  /** The recorded outcome of an add-money payment intent; the record is unique per intent. */
  datatype Recorded = Success | Failed

  datatype Intent = Intent(id: int, user: int, amount: real)

  datatype RewardType = FixedReward | PercentageReward | PointsReward

  /** A `maxClaim` of zero means no limit. */
  datatype Incentive = Incentive(active: bool, manual: bool, maxClaim: nat, rewardType: RewardType, rewardValue: real, groups: seq<Group>)

  datatype Claim = Claim(user: int, incentive: int, amount: real)

  /** `rider` is the user behind the assigned raider, absent when none is assigned or found. */
  datatype OrderRef = OrderRef(customer: Option<int>, rider: Option<int>)

  datatype Dispute = Dispute(order: int, user: Option<int>, rider: Option<int>, resolved: bool, closed: bool)

  datatype AppealStatus = PendingAppeal | UnderReview | Accepted | Rejected

  datatype Appeal = Appeal(dispute: int, order: int, status: AppealStatus)

  /** The configuration that the operations read and none of them changes. */
  datatype Config = Config(orders: map<int, OrderRef>, incentives: map<int, Incentive>)

  datatype State = State(
    accounts: map<int, Account>,
    deposits: map<int, Recorded>,
    claims: seq<Claim>,
    disputes: map<int, Dispute>,
    appeals: map<int, Appeal>,
    nextAppeal: int)

  /** A refund as an administrator enters it; absent percentages count as zero. */
  datatype Refund = Refund(full: bool, amount: real, riderPercent: Option<real>, companyPercent: Option<real>)

  datatype Op =
    | AddMoneyTest(user: int, amount: real)
    | IntentSucceeded(intent: Intent)
    | IntentFailed(intent: Intent, hasError: bool)
    | Withdraw(user: int, amount: real, connected: bool)
    | RedeemCoin(user: int, coins: int, centsPerCoin: real)
    | GiftCoins(user: int, coins: int)
    | Collect(user: int, incentive: int, expired: bool, metrics: Metrics)
    | AutoCollect(user: int, incentive: int, scheduled: bool, metrics: Metrics)
    | ResolveDispute(dispute: int, refund: Refund)
    | FileAppeal(dispute: int, order: int, user: int)
    | DeleteAppeal(appeal: int)
    | ResolveAppeal(appeal: int, accept: bool, refund: Refund)

  // ---------- Balance moves ----------

  function Credit(a: map<int, Account>, user: int, amount: real): map<int, Account>
    requires user in a
  {
    a[user := a[user].(current := a[user].current + amount, total := a[user].total + amount)]
  }

  /** The wallet value of coins at an average value per coin. */
  function CoinValue(coins: int, centsPerCoin: real): real {
    coins as real * centsPerCoin / 100.0
  }

  function RiderShare(r: Refund): real {
    if r.full then 0.0 else r.amount * r.riderPercent.GetOr(0.0) / 100.0
  }

  function CompanyShare(r: Refund): real {
    if r.full then 0.0 else r.amount * r.companyPercent.GetOr(0.0) / 100.0
  }

  predicate SplitValid(r: Refund) {
    r.full || CompanyShare(r) + RiderShare(r) == r.amount
  }

  /** The rider pays a positive share, then the customer is credited in full. */
  function Settle(a: map<int, Account>, rider: Option<int>, customer: Option<int>, r: Refund): map<int, Account>
    requires rider.Some? ==> rider.value in a
    requires customer.Some? ==> customer.value in a
  {
    var debited := if rider.Some? && RiderShare(r) > 0.0 then Credit(a, rider.value, -RiderShare(r)) else a;
    if customer.Some? && r.amount > 0.0 then Credit(debited, customer.value, r.amount) else debited
  }

  // ---------- Guards ----------

  function CountClaims(cs: seq<Claim>, user: int, incentive: int): nat {
    if cs == [] then 0
    else
      var c := cs[|cs| - 1];
      CountClaims(cs[..|cs| - 1], user, incentive) + if c.user == user && c.incentive == incentive then 1 else 0
  }

  /** The amount column of a claim is an integer; other amounts are refused. */
  predicate Whole(x: real) {
    x == x.Floor as real
  }

  /** A percentage reward is a share of 100 when claimed by hand, of the earnings when automatic. */
  function Reward(i: Incentive, auto: bool, m: Metrics): real {
    if i.rewardType.PercentageReward? then (if auto then MetricValue(m, "TOTAL_EARNINGS") else 100.0) * (i.rewardValue / 100.0)
    else i.rewardValue
  }

  predicate MayCollect(s: State, cfg: Config, op: Op)
    requires op.Collect?
  {
    && op.incentive in cfg.incentives && op.user in s.accounts
    && (var i := cfg.incentives[op.incentive];
      && i.active && !op.expired
      && (i.maxClaim != 0 ==> CountClaims(s.claims, op.user, op.incentive) < i.maxClaim)
      && i.manual && Qualifies(i.groups, op.metrics) && Whole(Reward(i, false, op.metrics)))
  }

  predicate MayAutoCollect(s: State, cfg: Config, op: Op)
    requires op.AutoCollect?
  {
    && op.incentive in cfg.incentives && op.user in s.accounts
    && (var i := cfg.incentives[op.incentive];
      && i.active && !i.manual && op.scheduled
      && CountClaims(s.claims, op.user, op.incentive) == 0
      && Qualifies(i.groups, op.metrics) && Whole(Reward(i, true, op.metrics)))
  }

  predicate KnownParties(a: map<int, Account>, o: OrderRef) {
    (o.customer.Some? ==> o.customer.value in a) && (o.rider.Some? ==> o.rider.value in a)
  }

  predicate RiderCanPay(s: State, o: OrderRef, r: Refund)
    requires KnownParties(s.accounts, o)
  {
    r.full || (o.rider.Some? ==> s.accounts[o.rider.value].current >= RiderShare(r))
  }

  /** The dispute's own status is not looked at. */
  predicate MayResolve(s: State, cfg: Config, dispute: int, r: Refund) {
    && dispute in s.disputes && s.disputes[dispute].order in cfg.orders
    && (var o := cfg.orders[s.disputes[dispute].order];
      && o.rider.Some? && KnownParties(s.accounts, o)
      && RiderCanPay(s, o, r) && SplitValid(r))
  }

  predicate MayFile(s: State, op: Op)
    requires op.FileAppeal?
  {
    && op.dispute in s.disputes
    && (var d := s.disputes[op.dispute];
      && d.resolved && !d.closed && d.order == op.order
      && (d.user == Some(op.user) || d.rider == Some(op.user)))
    && forall a | a in s.appeals :: s.appeals[a].dispute != op.dispute
  }

  predicate Open(s: State, appeal: int) {
    appeal in s.appeals && (s.appeals[appeal].status.PendingAppeal? || s.appeals[appeal].status.UnderReview?)
  }

  /** An accepted appeal without an amount, or with amount zero, moves no money. */
  predicate MayResolveAppeal(s: State, cfg: Config, op: Op)
    requires op.ResolveAppeal?
  {
    && Open(s, op.appeal) && s.appeals[op.appeal].dispute in s.disputes
    && s.disputes[s.appeals[op.appeal].dispute].order in cfg.orders
    && (var o := cfg.orders[s.disputes[s.appeals[op.appeal].dispute].order];
      && KnownParties(s.accounts, o)
      && (op.accept && op.refund.amount != 0.0 ==> RiderCanPay(s, o, op.refund) && SplitValid(op.refund)))
  }

  // ---------- The operations ----------

  function Apply(s: State, op: Op, cfg: Config): State {
    match op
    case AddMoneyTest(user, amount) =>
      if user !in s.accounts then s else s.(accounts := Credit(s.accounts, user, amount))
    case IntentSucceeded(intent) =>
      if intent.user !in s.accounts || intent.id in s.deposits then s
      else s.(deposits := s.deposits[intent.id := Success], accounts := Credit(s.accounts, intent.user, intent.amount))
    case IntentFailed(intent, hasError) =>
      if !hasError || intent.user !in s.accounts || intent.id in s.deposits then s
      else s.(deposits := s.deposits[intent.id := Failed])
    case Withdraw(user, amount, connected) =>
      if user !in s.accounts || s.accounts[user].current < amount || !connected then s
      else s.(accounts := s.accounts[user := s.accounts[user].(current := s.accounts[user].current - amount)])
    case RedeemCoin(user, coins, centsPerCoin) =>
      if user !in s.accounts || s.accounts[user].coins < coins then s
      else
        var paid := Credit(s.accounts, user, CoinValue(coins, centsPerCoin));
        s.(accounts := paid[user := paid[user].(coins := paid[user].coins - coins)])
    case GiftCoins(user, coins) =>
      if user !in s.accounts || coins <= 0 then s
      else
        var a := s.accounts[user];
        s.(accounts := s.accounts[user := a.(coins := a.coins + coins, coinsTotal := a.coinsTotal + coins)])
    case Collect(user, incentive, _, metrics) =>
      if !MayCollect(s, cfg, op) then s else Pay(s, user, incentive, Reward(cfg.incentives[incentive], false, metrics))
    case AutoCollect(user, incentive, _, metrics) =>
      if !MayAutoCollect(s, cfg, op) then s else Pay(s, user, incentive, Reward(cfg.incentives[incentive], true, metrics))
    case ResolveDispute(dispute, refund) =>
      if !MayResolve(s, cfg, dispute, refund) then s
      else
        var d := s.disputes[dispute];
        var o := cfg.orders[d.order];
        s.(disputes := s.disputes[dispute := d.(resolved := true)], accounts := Settle(s.accounts, o.rider, o.customer, refund))
    case FileAppeal(dispute, order, _) =>
      if !MayFile(s, op) then s
      else s.(appeals := s.appeals[s.nextAppeal := Appeal(dispute, order, PendingAppeal)], nextAppeal := s.nextAppeal + 1)
    case DeleteAppeal(appeal) =>
      s.(appeals := s.appeals - {appeal})
    case ResolveAppeal(appeal, accept, refund) =>
      if !MayResolveAppeal(s, cfg, op) then s
      else
        var a := s.appeals[appeal];
        var d := s.disputes[a.dispute];
        var o := cfg.orders[d.order];
        var closed := s.(appeals := s.appeals[appeal := a.(status := if accept then Accepted else Rejected)]);
        if !accept then closed
        else if refund.amount == 0.0 then closed.(disputes := s.disputes[a.dispute := d.(resolved := false)])
        else closed.(disputes := s.disputes[a.dispute := d.(resolved := true)], accounts := Settle(s.accounts, o.rider, o.customer, refund))
  }

  function Pay(s: State, user: int, incentive: int, amount: real): State
    requires user in s.accounts
  {
    s.(claims := s.claims + [Claim(user, incentive, amount)], accounts := Credit(s.accounts, user, amount))
  }

  function Run(s: State, ops: seq<Op>, cfg: Config): State {
    if ops == [] then s else Apply(Run(s, ops[..|ops| - 1], cfg), ops[|ops| - 1], cfg)
  }

  // ---------- The database the services write to ----------

  class Database {
    const cfg: Config
    var accounts: map<int, Account>
    var deposits: map<int, Recorded>
    var claims: seq<Claim>
    var disputes: map<int, Dispute>
    var appeals: map<int, Appeal>
    var nextAppeal: int

    ghost function View(): State
      reads this
    {
      State(accounts, deposits, claims, disputes, appeals, nextAppeal)
    }

    constructor (s: State, cfg: Config)
      ensures View() == s && this.cfg == cfg
    {
      this.cfg := cfg;
      accounts, deposits, claims, disputes, appeals, nextAppeal := s.accounts, s.deposits, s.claims, s.disputes, s.appeals, s.nextAppeal;
    }

    /** Both balances move by `amount`. */
    method Increment(user: int, amount: real)
      requires user in accounts
      modifies this`accounts
      ensures accounts == Credit(old(accounts), user, amount)
    {
      var a := accounts[user];
      a := a.(total := a.total + amount);
      a := a.(current := a.current + amount);
      accounts := accounts[user := a];
    }

    method AddMoneyForTest(user: int, amount: real)
      modifies this
      ensures View() == Apply(old(View()), AddMoneyTest(user, amount), cfg)
    {
      if user !in accounts {
        return;
      }
      Increment(user, amount);
    }

    method AddMoneyByWebhook(intent: Intent)
      modifies this
      ensures View() == Apply(old(View()), IntentSucceeded(intent), cfg)
    {
      if intent.user !in accounts {
        return;
      }
      if intent.id in deposits {
        return;
      }
      deposits := deposits[intent.id := Success];
      Increment(intent.user, intent.amount);
    }

    /** A second record for the same intent violates its unique key. */
    method PaymentFailed(intent: Intent, hasError: bool)
      modifies this
      ensures View() == Apply(old(View()), IntentFailed(intent, hasError), cfg)
    {
      if hasError {
        if intent.user !in accounts || intent.id in deposits {
          return;
        }
        deposits := deposits[intent.id := Failed];
      }
    }

    method WithdrawMoney(user: int, amount: real, connected: bool)
      modifies this
      ensures View() == Apply(old(View()), Withdraw(user, amount, connected), cfg)
    {
      if user !in accounts {
        return;
      }
      if accounts[user].current < amount {
        return;
      }
      if !connected {
        return;
      }
      accounts := accounts[user := accounts[user].(current := accounts[user].current - amount)];
    }

    method Redeem(user: int, coins: int, centsPerCoin: real)
      modifies this
      ensures View() == Apply(old(View()), RedeemCoin(user, coins, centsPerCoin), cfg)
    {
      if user !in accounts {
        return;
      }
      if accounts[user].coins < coins {
        return;
      }
      var totalValue := CoinValue(coins, centsPerCoin);
      Increment(user, totalValue);
      accounts := accounts[user := accounts[user].(coins := accounts[user].coins - coins)];
    }

    method Gift(user: int, coins: int)
      modifies this
      ensures View() == Apply(old(View()), GiftCoins(user, coins), cfg)
    {
      if user !in accounts || coins <= 0 {
        return;
      }
      var a := accounts[user];
      accounts := accounts[user := a.(coinsTotal := a.coinsTotal + coins, coins := a.coins + coins)];
    }

    method CountCollected(user: int, incentive: int) returns (n: nat)
      ensures n == CountClaims(claims, user, incentive)
    {
      n := 0;
      for i := 0 to |claims|
        invariant n == CountClaims(claims[..i], user, incentive)
      {
        assert claims[..i + 1][..i] == claims[..i];
        if claims[i].user == user && claims[i].incentive == incentive {
          n := n + 1;
        }
      }
      assert claims[..|claims|] == claims;
    }

    method PayReward(user: int, incentive: int, amount: real)
      requires user in accounts
      modifies this
      ensures View() == Pay(old(View()), user, incentive, amount)
    {
      claims := claims + [Claim(user, incentive, amount)];
      Increment(user, amount);
    }

    method CollectByHand(user: int, incentive: int, expired: bool, metrics: Metrics)
      modifies this
      ensures View() == Apply(old(View()), Collect(user, incentive, expired, metrics), cfg)
    {
      if incentive !in cfg.incentives {
        return;
      }
      var rec := cfg.incentives[incentive];
      if !rec.active {
        return;
      }
      if expired {
        return;
      }
      if rec.maxClaim != 0 {
        var totalCollected := CountCollected(user, incentive);
        if totalCollected >= rec.maxClaim {
          return;
        }
      }
      if !rec.manual {
        return;
      }
      var evaluator := new Evaluator(metrics);
      var qualifies := evaluator.UserMeetsRuleGroups(rec.groups);
      if !qualifies {
        return;
      }
      var rewardAmount := Reward(rec, false, metrics);
      if !Whole(rewardAmount) || user !in accounts {
        return;
      }
      PayReward(user, incentive, rewardAmount);
    }

    /** One user in one pass of the five-minute job. */
    method CollectAutomatically(user: int, incentive: int, scheduled: bool, metrics: Metrics)
      modifies this
      ensures View() == Apply(old(View()), AutoCollect(user, incentive, scheduled, metrics), cfg)
    {
      if incentive !in cfg.incentives {
        return;
      }
      var rec := cfg.incentives[incentive];
      if !rec.active || rec.manual || !scheduled {
        return;
      }
      var alreadyCollected := CountCollected(user, incentive);
      if alreadyCollected > 0 {
        return;
      }
      var evaluator := new Evaluator(metrics);
      var qualifies := evaluator.UserMeetsRuleGroups(rec.groups);
      if !qualifies {
        return;
      }
      var rewardAmount := Reward(rec, true, metrics);
      if !Whole(rewardAmount) || user !in accounts {
        return;
      }
      PayReward(user, incentive, rewardAmount);
    }

    method SettleRefund(rider: Option<int>, customer: Option<int>, refund: Refund)
      requires rider.Some? ==> rider.value in accounts
      requires customer.Some? ==> customer.value in accounts
      modifies this`accounts
      ensures accounts == Settle(old(accounts), rider, customer, refund)
    {
      if RiderShare(refund) > 0.0 && rider.Some? {
        Increment(rider.value, -RiderShare(refund));
      }
      if refund.amount > 0.0 && customer.Some? {
        Increment(customer.value, refund.amount);
      }
    }

    method Resolve(dispute: int, refund: Refund)
      modifies this
      ensures View() == Apply(old(View()), ResolveDispute(dispute, refund), cfg)
    {
      if dispute !in disputes || disputes[dispute].order !in cfg.orders {
        return;
      }
      var order := cfg.orders[disputes[dispute].order];
      if order.rider.None? {
        return;
      }
      if !KnownParties(accounts, order) {
        return;
      }
      if !refund.full {
        if accounts[order.rider.value].current < RiderShare(refund) {
          return;
        }
        if CompanyShare(refund) + RiderShare(refund) != refund.amount {
          return;
        }
      }
      disputes := disputes[dispute := disputes[dispute].(resolved := true)];
      SettleRefund(order.rider, order.customer, refund);
    }

    method CreateAppeal(dispute: int, order: int, user: int)
      modifies this
      ensures View() == Apply(old(View()), FileAppeal(dispute, order, user), cfg)
    {
      if dispute !in disputes {
        return;
      }
      var d := disputes[dispute];
      if !d.resolved || d.closed || d.order != order {
        return;
      }
      if d.user != Some(user) && d.rider != Some(user) {
        return;
      }
      if exists a | a in appeals :: appeals[a].dispute == dispute {
        return;
      }
      appeals := appeals[nextAppeal := Appeal(dispute, order, PendingAppeal)];
      nextAppeal := nextAppeal + 1;
    }

    method ResolveAppealOf(appeal: int, accept: bool, refund: Refund)
      modifies this
      ensures View() == Apply(old(View()), ResolveAppeal(appeal, accept, refund), cfg)
    {
      if appeal !in appeals {
        return;
      }
      var a := appeals[appeal];
      if a.status != PendingAppeal && a.status != UnderReview {
        return;
      }
      if a.dispute !in disputes || disputes[a.dispute].order !in cfg.orders {
        return;
      }
      var d := disputes[a.dispute];
      var order := cfg.orders[d.order];
      if !KnownParties(accounts, order) {
        return;
      }
      if accept && refund.amount != 0.0 && !refund.full {
        if order.rider.Some? && accounts[order.rider.value].current < RiderShare(refund) {
          return;
        }
        if CompanyShare(refund) + RiderShare(refund) != refund.amount {
          return;
        }
      }
      appeals := appeals[appeal := a.(status := if accept then Accepted else Rejected)];
      if accept {
        disputes := disputes[a.dispute := d.(resolved := refund.amount != 0.0)];
        if refund.amount != 0.0 {
          SettleRefund(order.rider, order.customer, refund);
        }
      }
    }
  }
}
