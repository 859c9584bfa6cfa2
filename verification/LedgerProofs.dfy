/** What holds over every run of balance operations: solvency, idempotent payment
    webhooks, bounded incentive payouts, exact refunds and single-use appeals. */
module LedgerProofs {
  import opened Common
  import opened IncentiveRules
  import opened Ledger

  // ---------- Solvency ----------

  predicate SolventAccount(a: Account) {
    0.0 <= a.current <= a.total
  }

  predicate Solvent(s: State) {
    forall u | u in s.accounts :: SolventAccount(s.accounts[u])
  }

  /** Amounts, coin values, rewards and reported earnings are not negative. */
  predicate NonNegative(op: Op, cfg: Config) {
    match op
    case AddMoneyTest(_, amount) => amount >= 0.0
    case IntentSucceeded(intent) => intent.amount >= 0.0
    case Withdraw(_, amount, _) => amount >= 0.0
    case RedeemCoin(_, coins, centsPerCoin) => coins >= 0 && centsPerCoin >= 0.0
    case Collect(_, i, _, _) => i in cfg.incentives ==> cfg.incentives[i].rewardValue >= 0.0
    case AutoCollect(_, i, _, m) => i in cfg.incentives ==> cfg.incentives[i].rewardValue >= 0.0 && MetricValue(m, "TOTAL_EARNINGS") >= 0.0
    case _ => true
  }

  /** What one operation takes out of a user's balance as a withdrawal. */
  function Withdrawn(s: State, op: Op, user: int): real {
    if op.Withdraw? && op.user == user && user in s.accounts && !(s.accounts[user].current < op.amount) && op.connected then op.amount else 0.0
  }

  function WithdrawnInRun(s: State, ops: seq<Op>, cfg: Config, user: int): real {
    if ops == [] then 0.0
    else
      var before := ops[..|ops| - 1];
      WithdrawnInRun(s, before, cfg, user) + Withdrawn(Run(s, before, cfg), ops[|ops| - 1], user)
  }

  lemma SettleKeeps(a: map<int, Account>, rider: Option<int>, customer: Option<int>, r: Refund, u: int)
    requires rider.Some? ==> rider.value in a
    requires customer.Some? ==> customer.value in a
    requires forall v | v in a :: SolventAccount(a[v])
    requires rider.Some? ==> a[rider.value].current >= RiderShare(r)
    requires u in a
    ensures u in Settle(a, rider, customer, r)
    ensures var b := Settle(a, rider, customer, r);
      SolventAccount(b[u]) && b[u].total - b[u].current == a[u].total - a[u].current
  {
  }

  lemma RewardNonNegative(i: Incentive, auto: bool, m: Metrics)
    requires i.rewardValue >= 0.0 && (auto ==> MetricValue(m, "TOTAL_EARNINGS") >= 0.0)
    ensures Reward(i, auto, m) >= 0.0
  {
  }

  lemma CoinValueNonNegative(coins: int, centsPerCoin: real)
    requires coins >= 0 && centsPerCoin >= 0.0
    ensures CoinValue(coins, centsPerCoin) >= 0.0
  {
  }

  /** One account before and after an operation that withdraws `amount` from it. */
  predicate Kept(before: Account, after: Account, amount: real) {
    SolventAccount(after) && after.total - after.current == before.total - before.current + amount
  }

  lemma CoinsKeep(s: State, op: Op, cfg: Config, u: int)
    requires (op.RedeemCoin? || op.GiftCoins?) && Solvent(s) && NonNegative(op, cfg) && u in s.accounts
    ensures u in Apply(s, op, cfg).accounts && Kept(s.accounts[u], Apply(s, op, cfg).accounts[u], 0.0)
  {
    if op.RedeemCoin? {
      CoinValueNonNegative(op.coins, op.centsPerCoin);
    }
  }

  lemma CashKeeps(s: State, op: Op, cfg: Config, u: int)
    requires (op.AddMoneyTest? || op.IntentSucceeded? || op.IntentFailed? || op.Withdraw?)
    requires Solvent(s) && NonNegative(op, cfg) && u in s.accounts
    ensures u in Apply(s, op, cfg).accounts && Kept(s.accounts[u], Apply(s, op, cfg).accounts[u], Withdrawn(s, op, u))
  {
  }

  lemma PayoutKeeps(s: State, op: Op, cfg: Config, u: int)
    requires (op.Collect? || op.AutoCollect?) && Solvent(s) && NonNegative(op, cfg) && u in s.accounts
    ensures u in Apply(s, op, cfg).accounts && Kept(s.accounts[u], Apply(s, op, cfg).accounts[u], 0.0)
  {
    if op.incentive in cfg.incentives {
      var auto := op.AutoCollect?;
      assert cfg.incentives[op.incentive].rewardValue >= 0.0;
      RewardNonNegative(cfg.incentives[op.incentive], auto, op.metrics);
    }
  }

  lemma DisputeKeeps(s: State, op: Op, cfg: Config, u: int)
    requires op.ResolveDispute? && Solvent(s) && u in s.accounts
    ensures u in Apply(s, op, cfg).accounts && Kept(s.accounts[u], Apply(s, op, cfg).accounts[u], 0.0)
  {
    if MayResolve(s, cfg, op.dispute, op.refund) {
      var o := cfg.orders[s.disputes[op.dispute].order];
      SettleKeeps(s.accounts, o.rider, o.customer, op.refund, u);
    }
  }

  lemma AppealKeeps(s: State, op: Op, cfg: Config, u: int)
    requires op.ResolveAppeal? && Solvent(s) && u in s.accounts
    ensures u in Apply(s, op, cfg).accounts && Kept(s.accounts[u], Apply(s, op, cfg).accounts[u], 0.0)
  {
    if MayResolveAppeal(s, cfg, op) && op.accept && op.refund.amount != 0.0 {
      var o := cfg.orders[s.disputes[s.appeals[op.appeal].dispute].order];
      SettleKeeps(s.accounts, o.rider, o.customer, op.refund, u);
    }
  }

  /** One operation keeps every account solvent and moves the gap between total
      and current balance by exactly the withdrawal it makes. */
  lemma ApplyKeeps(s: State, op: Op, cfg: Config, u: int)
    requires Solvent(s) && NonNegative(op, cfg) && u in s.accounts
    ensures u in Apply(s, op, cfg).accounts && Kept(s.accounts[u], Apply(s, op, cfg).accounts[u], Withdrawn(s, op, u))
  {
    match op
    case AddMoneyTest(_, _) => CashKeeps(s, op, cfg, u);
    case IntentSucceeded(_) => CashKeeps(s, op, cfg, u);
    case IntentFailed(_, _) => CashKeeps(s, op, cfg, u);
    case Withdraw(_, _, _) => CashKeeps(s, op, cfg, u);
    case RedeemCoin(_, _, _) => CoinsKeep(s, op, cfg, u);
    case GiftCoins(_, _) => CoinsKeep(s, op, cfg, u);
    case Collect(_, _, _, _) => PayoutKeeps(s, op, cfg, u);
    case AutoCollect(_, _, _, _) => PayoutKeeps(s, op, cfg, u);
    case ResolveDispute(_, _) => DisputeKeeps(s, op, cfg, u);
    case FileAppeal(_, _, _) =>
    case DeleteAppeal(_) =>
    case ResolveAppeal(_, _, _) => AppealKeeps(s, op, cfg, u);
  }

  lemma ApplyUsers(s: State, op: Op, cfg: Config)
    ensures Apply(s, op, cfg).accounts.Keys == s.accounts.Keys
  {
  }

  lemma {:induction false} RunUsers(s: State, ops: seq<Op>, cfg: Config)
    ensures Run(s, ops, cfg).accounts.Keys == s.accounts.Keys
  {
    if ops != [] {
      RunUsers(s, ops[..|ops| - 1], cfg);
      ApplyUsers(Run(s, ops[..|ops| - 1], cfg), ops[|ops| - 1], cfg);
    }
  }

  /** Over every run of operations with non-negative amounts each user keeps
      `0 <= current <= total`, and total minus current grows by exactly that
      user's withdrawals. */
  lemma {:induction false} RunSolvent(s: State, ops: seq<Op>, cfg: Config)
    requires Solvent(s) && forall i | 0 <= i < |ops| :: NonNegative(ops[i], cfg)
    ensures Solvent(Run(s, ops, cfg)) && Run(s, ops, cfg).accounts.Keys == s.accounts.Keys
    ensures forall u | u in s.accounts ::
      Run(s, ops, cfg).accounts[u].total - Run(s, ops, cfg).accounts[u].current
        == s.accounts[u].total - s.accounts[u].current + WithdrawnInRun(s, ops, cfg, u)
  {
    RunUsers(s, ops, cfg);
    if ops != [] {
      var before, op := ops[..|ops| - 1], ops[|ops| - 1];
      RunSolvent(s, before, cfg);
      var t := Run(s, before, cfg);
      forall u | u in t.accounts
        ensures SolventAccount(Apply(t, op, cfg).accounts[u])
        ensures Apply(t, op, cfg).accounts[u].total - Apply(t, op, cfg).accounts[u].current
          == t.accounts[u].total - t.accounts[u].current + Withdrawn(t, op, u)
      {
        ApplyKeeps(t, op, cfg, u);
      }
    }
  }

  // ---------- Payment webhooks ----------

  /** The event credits the wallet for the intent. */
  predicate Credits(s: State, op: Op, id: int) {
    op.IntentSucceeded? && op.intent.id == id && op.intent.user in s.accounts && id !in s.deposits
  }

  function CreditCount(s: State, ops: seq<Op>, cfg: Config, id: int): nat {
    if ops == [] then 0
    else
      var before := ops[..|ops| - 1];
      CreditCount(s, before, cfg, id) + if Credits(Run(s, before, cfg), ops[|ops| - 1], id) then 1 else 0
  }

  /** A success or failure event for the intent that the handler would record. */
  predicate SuccessFor(s: State, op: Op, id: int) {
    op.IntentSucceeded? && op.intent.id == id && op.intent.user in s.accounts
  }

  predicate FailureFor(s: State, op: Op, id: int) {
    op.IntentFailed? && op.intent.id == id && op.hasError && op.intent.user in s.accounts
  }

  /** Some success for the intent comes before every failure the run records. */
  ghost predicate SuccessFirst(s: State, ops: seq<Op>, id: int) {
    exists i | 0 <= i < |ops| :: SuccessFor(s, ops[i], id) && forall j | 0 <= j < i :: !FailureFor(s, ops[j], id)
  }

  /** The outcome of the first event that would be recorded for the intent. */
  function FirstRecord(s: State, ops: seq<Op>, id: int): Option<Recorded> {
    if ops == [] then None
    else
      var earlier := FirstRecord(s, ops[..|ops| - 1], id);
      var op := ops[|ops| - 1];
      if earlier.Some? then earlier
      else if SuccessFor(s, op, id) then Some(Success)
      else if FailureFor(s, op, id) then Some(Failed)
      else None
  }

  function Record(s: State, id: int): Option<Recorded> {
    if id in s.deposits then Some(s.deposits[id]) else None
  }

  lemma RecordStep(s: State, op: Op, cfg: Config, id: int)
    ensures Record(Apply(s, op, cfg), id) ==
      if Record(s, id).Some? then Record(s, id)
      else if SuccessFor(s, op, id) then Some(Success)
      else if FailureFor(s, op, id) then Some(Failed)
      else None
    ensures Credits(s, op, id) <==> Record(s, id).None? && SuccessFor(s, op, id)
  {
  }

  lemma SameUsersSameEvents(s: State, t: State, op: Op, id: int)
    requires s.accounts.Keys == t.accounts.Keys
    ensures SuccessFor(s, op, id) == SuccessFor(t, op, id) && FailureFor(s, op, id) == FailureFor(t, op, id)
  {
  }

  /** The stored record is that of the first recordable event, and credits were made iff it is a success. */
  lemma {:induction false} RecordIsFirst(s: State, ops: seq<Op>, cfg: Config, id: int)
    requires Record(s, id).None?
    ensures Record(Run(s, ops, cfg), id) == FirstRecord(s, ops, id)
    ensures CreditCount(s, ops, cfg, id) == if FirstRecord(s, ops, id) == Some(Success) then 1 else 0
  {
    if ops != [] {
      var before, op := ops[..|ops| - 1], ops[|ops| - 1];
      RecordIsFirst(s, before, cfg, id);
      RunUsers(s, before, cfg);
      SameUsersSameEvents(s, Run(s, before, cfg), op, id);
      RecordStep(Run(s, before, cfg), op, cfg, id);
    }
  }

  lemma SuccessFirstSnoc(s: State, before: seq<Op>, op: Op, id: int)
    ensures SuccessFirst(s, before + [op], id) <==>
      SuccessFirst(s, before, id) || (SuccessFor(s, op, id) && forall j | 0 <= j < |before| :: !FailureFor(s, before[j], id))
  {
    var ops := before + [op];
    if SuccessFirst(s, ops, id) {
      var i :| 0 <= i < |ops| && SuccessFor(s, ops[i], id) && forall j | 0 <= j < i :: !FailureFor(s, ops[j], id);
      if i < |before| {
        assert before[i] == ops[i] && forall j | 0 <= j < i :: before[j] == ops[j];
      } else {
        assert forall j | 0 <= j < |before| :: before[j] == ops[j];
      }
    }
    if SuccessFirst(s, before, id) {
      var i :| 0 <= i < |before| && SuccessFor(s, before[i], id) && forall j | 0 <= j < i :: !FailureFor(s, before[j], id);
      assert before[i] == ops[i] && forall j | 0 <= j < i :: before[j] == ops[j];
    } else if SuccessFor(s, op, id) && forall j | 0 <= j < |before| :: !FailureFor(s, before[j], id) {
      assert ops[|before|] == op && forall j | 0 <= j < |before| :: before[j] == ops[j];
    }
  }

  lemma {:induction false} FirstRecordMeaning(s: State, ops: seq<Op>, id: int)
    ensures FirstRecord(s, ops, id) == Some(Success) <==> SuccessFirst(s, ops, id)
    ensures FirstRecord(s, ops, id).Some? && !SuccessFirst(s, ops, id) ==> exists i | 0 <= i < |ops| :: FailureFor(s, ops[i], id)
    ensures FirstRecord(s, ops, id).None? ==> forall i | 0 <= i < |ops| :: !FailureFor(s, ops[i], id)
  {
    if ops != [] {
      var before, op := ops[..|ops| - 1], ops[|ops| - 1];
      assert ops == before + [op];
      FirstRecordMeaning(s, before, id);
      SuccessFirstSnoc(s, before, op, id);
      if exists i | 0 <= i < |before| :: FailureFor(s, before[i], id) {
        var i :| 0 <= i < |before| && FailureFor(s, before[i], id);
        assert FailureFor(s, ops[i], id);
      }
      if FailureFor(s, op, id) {
        assert FailureFor(s, ops[|before|], id);
      }
      assert forall i | 0 <= i < |before| :: ops[i] == before[i];
    }
  }

  /** However events are duplicated and reordered, and whatever else happens in
      between, an intent is credited at most once: exactly once if and only if a
      success for it comes before every recorded failure. */
  lemma {:induction false} CreditedOnceIff(s: State, ops: seq<Op>, cfg: Config, id: int)
    requires id !in s.deposits
    ensures CreditCount(s, ops, cfg, id) <= 1
    ensures CreditCount(s, ops, cfg, id) == 1 <==> SuccessFirst(s, ops, id)
  {
    RecordIsFirst(s, ops, cfg, id);
    FirstRecordMeaning(s, ops, id);
  }

  predicate AllSuccesses(ops: seq<Op>) {
    forall i | 0 <= i < |ops| :: ops[i].IntentSucceeded?
  }

  function Intents(ops: seq<Op>): set<Intent>
    requires AllSuccesses(ops)
  {
    set i | 0 <= i < |ops| :: ops[i].intent
  }

  /** Redelivered events carry the same intent. */
  predicate Coherent(xs: set<Intent>) {
    forall a, b | a in xs && b in xs && a.id == b.id :: a == b
  }

  /** What a set of intents adds to a user's balance. */
  ghost function Owed(xs: set<Intent>, user: int): real {
    if xs == {} then 0.0
    else
      var x :| x in xs;
      Owed(xs - {x}, user) + if x.user == user then x.amount else 0.0
  }

  lemma {:induction false} OwedAdd(xs: set<Intent>, x: Intent, user: int)
    requires x !in xs
    ensures Owed(xs + {x}, user) == Owed(xs, user) + if x.user == user then x.amount else 0.0
    decreases |xs|
  {
    var all := xs + {x};
    var y :| y in all && Owed(all, user) == Owed(all - {y}, user) + if y.user == user then y.amount else 0.0;
    if y == x {
      assert all - {x} == xs;
    } else {
      assert all - {y} == (xs - {y}) + {x};
      OwedAdd(xs - {y}, x, user);
      assert xs == (xs - {y}) + {y};
      OwedAdd(xs - {y}, y, user);
    }
  }

  /** The intents of the set that are still to be credited. */
  function Fresh(s: State, xs: set<Intent>): set<Intent> {
    set x | x in xs && x.user in s.accounts && x.id !in s.deposits
  }

  /** `t` is `s` with exactly the intents of `xs` credited and recorded. */
  ghost predicate CreditedBy(s: State, t: State, xs: set<Intent>) {
    && t.accounts.Keys == s.accounts.Keys
    && (forall u | u in s.accounts :: t.accounts[u] == s.accounts[u].(
      current := s.accounts[u].current + Owed(xs, u), total := s.accounts[u].total + Owed(xs, u)))
    && (forall id :: id in t.deposits <==> id in s.deposits || exists x :: x in xs && x.id == id)
  }

  lemma CreditOneMore(s: State, t: State, xs: set<Intent>, x: Intent, cfg: Config)
    requires CreditedBy(s, t, xs) && x !in xs && x.user in s.accounts && x.id !in t.deposits
    ensures CreditedBy(s, Apply(t, IntentSucceeded(x), cfg), xs + {x})
  {
    forall u | u in s.accounts
      ensures Owed(xs + {x}, u) == Owed(xs, u) + if x.user == u then x.amount else 0.0
    {
      OwedAdd(xs, x, u);
    }
    var after := Apply(t, IntentSucceeded(x), cfg);
    forall id
      ensures id in after.deposits <==> id in s.deposits || exists y :: y in xs + {x} && y.id == id
    {
      assert x in xs + {x};
      assert forall y | y in xs :: y in xs + {x};
    }
  }

  lemma {:induction false} RunOfSuccesses(s: State, ops: seq<Op>, cfg: Config)
    requires AllSuccesses(ops) && Coherent(Intents(ops))
    ensures CreditedBy(s, Run(s, ops, cfg), Fresh(s, Intents(ops)))
  {
    if ops == [] {
      assert Intents(ops) == {};
      assert Fresh(s, {}) == {};
    } else {
      var before, x := ops[..|ops| - 1], ops[|ops| - 1].intent;
      assert Intents(ops) == Intents(before) + {x};
      RunOfSuccesses(s, before, cfg);
      var t, xs := Run(s, before, cfg), Fresh(s, Intents(before));
      if x.user in s.accounts && x.id !in t.deposits {
        assert x !in xs;
        assert Fresh(s, Intents(ops)) == xs + {x};
        CreditOneMore(s, t, xs, x, cfg);
      } else {
        assert Fresh(s, Intents(ops)) == xs;
      }
    }
  }

  /** With success events only, the final balances depend only on the set of
      distinct intents: neither order nor duplicates matter. */
  lemma {:induction false} SuccessesConfluent(s: State, ops: seq<Op>, others: seq<Op>, cfg: Config)
    requires AllSuccesses(ops) && AllSuccesses(others) && Coherent(Intents(ops))
    requires Intents(ops) == Intents(others)
    ensures Run(s, ops, cfg).accounts == Run(s, others, cfg).accounts
    ensures Run(s, ops, cfg).deposits.Keys == Run(s, others, cfg).deposits.Keys
  {
    RunOfSuccesses(s, ops, cfg);
    RunOfSuccesses(s, others, cfg);
    SameCredits(s, Run(s, ops, cfg), Run(s, others, cfg), Fresh(s, Intents(ops)));
  }

  lemma SameCredits(s: State, t: State, u: State, xs: set<Intent>)
    requires CreditedBy(s, t, xs) && CreditedBy(s, u, xs)
    ensures t.accounts == u.accounts && t.deposits.Keys == u.deposits.Keys
  {
    forall id
      ensures id in t.deposits <==> id in u.deposits
    {
      assert id in t.deposits <==> id in s.deposits || exists x :: x in xs && x.id == id;
    }
    assert forall v | v in s.accounts :: t.accounts[v] == u.accounts[v];
  }

  // ---------- Incentive payouts ----------

  /** An automatic incentive is paid once, a manual one at most `maxClaim` times when that is set. */
  predicate PayoutsBounded(s: State, cfg: Config, user: int, incentive: int) {
    incentive in cfg.incentives ==>
      var i := cfg.incentives[incentive];
      && (!i.manual ==> CountClaims(s.claims, user, incentive) <= 1)
      && (i.manual && i.maxClaim != 0 ==> CountClaims(s.claims, user, incentive) <= i.maxClaim)
  }

  lemma {:induction false} CountAfterPay(cs: seq<Claim>, c: Claim, user: int, incentive: int)
    ensures CountClaims(cs + [c], user, incentive) == CountClaims(cs, user, incentive) + if c.user == user && c.incentive == incentive then 1 else 0
  {
    assert (cs + [c])[..|cs|] == cs;
  }

  lemma ApplyPayoutsBounded(s: State, op: Op, cfg: Config, user: int, incentive: int)
    requires PayoutsBounded(s, cfg, user, incentive)
    ensures PayoutsBounded(Apply(s, op, cfg), cfg, user, incentive)
  {
    if op.Collect? {
      CollectBounded(s, op, cfg, user, incentive);
    } else if op.AutoCollect? {
      AutoCollectBounded(s, op, cfg, user, incentive);
    } else {
      assert Apply(s, op, cfg).claims == s.claims;
    }
  }

  lemma CollectBounded(s: State, op: Op, cfg: Config, user: int, incentive: int)
    requires op.Collect? && PayoutsBounded(s, cfg, user, incentive)
    ensures PayoutsBounded(Apply(s, op, cfg), cfg, user, incentive)
  {
    if MayCollect(s, cfg, op) {
      CountAfterPay(s.claims, Claim(op.user, op.incentive, Reward(cfg.incentives[op.incentive], false, op.metrics)), user, incentive);
    }
  }

  lemma AutoCollectBounded(s: State, op: Op, cfg: Config, user: int, incentive: int)
    requires op.AutoCollect? && PayoutsBounded(s, cfg, user, incentive)
    ensures PayoutsBounded(Apply(s, op, cfg), cfg, user, incentive)
  {
    if MayAutoCollect(s, cfg, op) {
      CountAfterPay(s.claims, Claim(op.user, op.incentive, Reward(cfg.incentives[op.incentive], true, op.metrics)), user, incentive);
    }
  }

  lemma {:induction false} RunPayoutsBounded(s: State, ops: seq<Op>, cfg: Config, user: int, incentive: int)
    requires PayoutsBounded(s, cfg, user, incentive)
    ensures PayoutsBounded(Run(s, ops, cfg), cfg, user, incentive)
  {
    if ops != [] {
      RunPayoutsBounded(s, ops[..|ops| - 1], cfg, user, incentive);
      ApplyPayoutsBounded(Run(s, ops[..|ops| - 1], cfg), ops[|ops| - 1], cfg, user, incentive);
    }
  }

  // ---------- Refunds ----------

  /** A partial refund of a non-zero amount passes the split guard exactly when the percentages add up to 100. */
  lemma SplitValidIff(r: Refund)
    requires !r.full && r.amount != 0.0
    ensures SplitValid(r) <==> r.riderPercent.GetOr(0.0) + r.companyPercent.GetOr(0.0) == 100.0
  {
    var x, y := r.riderPercent.GetOr(0.0), r.companyPercent.GetOr(0.0);
    assert CompanyShare(r) + RiderShare(r) == r.amount * (x + y) / 100.0;
    assert r.amount * 100.0 / 100.0 == r.amount;
    if SplitValid(r) {
      assert r.amount * (x + y - 100.0) == 0.0;
    }
  }

  /** After a partial refund that passes its guard, the customer's credit is the
      rider's debit plus the company's share if and only if the rider's share is
      not negative: a negative share is never paid out to the rider. */
  lemma RefundBalances(s: State, cfg: Config, dispute: int, r: Refund)
    requires MayResolve(s, cfg, dispute, r) && !r.full && r.amount > 0.0
    requires cfg.orders[s.disputes[dispute].order].customer.Some?
    requires cfg.orders[s.disputes[dispute].order].customer != cfg.orders[s.disputes[dispute].order].rider
    ensures Apply(s, ResolveDispute(dispute, r), cfg).accounts.Keys == s.accounts.Keys
    ensures var o, t := cfg.orders[s.disputes[dispute].order], Apply(s, ResolveDispute(dispute, r), cfg);
      var credit := t.accounts[o.customer.value].current - s.accounts[o.customer.value].current;
      var debit := s.accounts[o.rider.value].current - t.accounts[o.rider.value].current;
      && credit == r.amount
      && (credit == debit + CompanyShare(r) <==> RiderShare(r) >= 0.0)
      && (forall u | u in s.accounts && Some(u) != o.customer && Some(u) != o.rider :: t.accounts[u] == s.accounts[u])
  {
  }

  // ---------- Appeals ----------

  /** The appeal was resolved: its status is final. */
  predicate Settled(s: State, appeal: int) {
    appeal < s.nextAppeal && !Open(s, appeal)
  }

  /** Appeal ids in use are below the counter. */
  predicate IdsBelow(s: State) {
    forall a | a in s.appeals :: a < s.nextAppeal
  }

  lemma SettledStep(s: State, op: Op, cfg: Config, appeal: int)
    requires IdsBelow(s)
    ensures IdsBelow(Apply(s, op, cfg)) && s.nextAppeal <= Apply(s, op, cfg).nextAppeal
    ensures Settled(s, appeal) ==> Settled(Apply(s, op, cfg), appeal)
  {
    if !op.FileAppeal? && !op.DeleteAppeal? && !op.ResolveAppeal? {
      assert Apply(s, op, cfg).appeals == s.appeals;
    }
  }

  lemma {:induction false} SettledStays(s: State, ops: seq<Op>, cfg: Config, appeal: int)
    requires IdsBelow(s)
    ensures IdsBelow(Run(s, ops, cfg)) && s.nextAppeal <= Run(s, ops, cfg).nextAppeal
    ensures Settled(s, appeal) ==> Settled(Run(s, ops, cfg), appeal)
  {
    if ops != [] {
      SettledStays(s, ops[..|ops| - 1], cfg, appeal);
      SettledStep(Run(s, ops[..|ops| - 1], cfg), ops[|ops| - 1], cfg, appeal);
    }
  }

  lemma {:induction false} RunSplit(s: State, ops: seq<Op>, cfg: Config, i: nat)
    requires i <= |ops|
    ensures Run(s, ops, cfg) == Run(Run(s, ops[..i], cfg), ops[i..], cfg)
  {
    if i == |ops| {
      assert ops[..i] == ops && ops[i..] == [];
    } else {
      var before := ops[..|ops| - 1];
      RunSplit(s, before, cfg, i);
      assert before[..i] == ops[..i] && before[i..] == ops[i..][..|ops| - i - 1];
      assert ops[i..][|ops| - i - 1] == ops[|ops| - 1];
    }
  }

  /** Over any run an appeal is resolved at most once, so it moves money at most
      once: after its resolution every further attempt changes nothing. */
  lemma {:induction false} AppealResolvedOnce(s: State, ops: seq<Op>, cfg: Config, i: nat, j: nat)
    requires IdsBelow(s) && i < j < |ops|
    requires ops[i].ResolveAppeal? && ops[j].ResolveAppeal? && ops[i].appeal == ops[j].appeal
    requires MayResolveAppeal(Run(s, ops[..i], cfg), cfg, ops[i])
    ensures Run(s, ops[..j + 1], cfg) == Run(s, ops[..j], cfg)
  {
    assert ops[..j][..i] == ops[..i];
    SettledBefore(s, ops[..j], cfg, i);
    assert ops[..j + 1][..j] == ops[..j];
    SettledChangesNothing(Run(s, ops[..j], cfg), ops[j], cfg);
  }

  lemma {:induction false} SettledBefore(s: State, ops: seq<Op>, cfg: Config, i: nat)
    requires IdsBelow(s) && i < |ops|
    requires ops[i].ResolveAppeal? && MayResolveAppeal(Run(s, ops[..i], cfg), cfg, ops[i])
    ensures Settled(Run(s, ops, cfg), ops[i].appeal)
  {
    SettledStays(s, ops[..i], cfg, ops[i].appeal);
    assert ops[..i + 1][..i] == ops[..i];
    ResolvingSettles(Run(s, ops[..i], cfg), ops[i], cfg);
    RunSplit(s, ops, cfg, i + 1);
    SettledStays(Run(s, ops[..i + 1], cfg), ops[i + 1..], cfg, ops[i].appeal);
  }

  lemma ResolvingSettles(s: State, op: Op, cfg: Config)
    requires IdsBelow(s) && op.ResolveAppeal? && MayResolveAppeal(s, cfg, op)
    ensures IdsBelow(Apply(s, op, cfg)) && Settled(Apply(s, op, cfg), op.appeal)
  {
  }

  lemma SettledChangesNothing(s: State, op: Op, cfg: Config)
    requires op.ResolveAppeal? && Settled(s, op.appeal)
    ensures Apply(s, op, cfg) == s
  {
  }

  /** A dispute has no such protection: resolving it does not look at its status.
      The same refund passes again if and only if it is a full one or the rider can
      still cover the share. */
  lemma ResolvesAgainIff(s: State, cfg: Config, dispute: int, r: Refund)
    requires MayResolve(s, cfg, dispute, r)
    ensures var o, once := cfg.orders[s.disputes[dispute].order], Apply(s, ResolveDispute(dispute, r), cfg);
      && o.rider.value in once.accounts
      && (MayResolve(once, cfg, dispute, r) <==> r.full || once.accounts[o.rider.value].current >= RiderShare(r))
  {
  }

  /** The balances after one resolution. */
  lemma ResolveMoves(s: State, cfg: Config, dispute: int, r: Refund)
    requires MayResolve(s, cfg, dispute, r) && r.amount > 0.0
    requires cfg.orders[s.disputes[dispute].order].customer.Some?
    requires cfg.orders[s.disputes[dispute].order].customer != cfg.orders[s.disputes[dispute].order].rider
    ensures var o, t := cfg.orders[s.disputes[dispute].order], Apply(s, ResolveDispute(dispute, r), cfg);
      && o.customer.value in t.accounts && o.rider.value in t.accounts
      && t.accounts[o.customer.value].current == s.accounts[o.customer.value].current + r.amount
      && t.accounts[o.rider.value].current == s.accounts[o.rider.value].current - if RiderShare(r) > 0.0 then RiderShare(r) else 0.0
  {
  }

  /** Where the customer is somebody else than the rider, a second resolution pays
      the whole amount again if and only if the refund is full, costs the rider
      nothing, or the rider held twice the share at the start; otherwise it changes nothing. */
  lemma DisputeResolvedAgain(s: State, cfg: Config, dispute: int, r: Refund)
    requires MayResolve(s, cfg, dispute, r) && r.amount > 0.0
    requires cfg.orders[s.disputes[dispute].order].customer.Some?
    requires cfg.orders[s.disputes[dispute].order].customer != cfg.orders[s.disputes[dispute].order].rider
    ensures var op, o := ResolveDispute(dispute, r), cfg.orders[s.disputes[dispute].order];
      var once := Apply(s, op, cfg); var twice := Apply(once, op, cfg);
      && o.rider.value in once.accounts && o.customer.value in twice.accounts
      && (twice.accounts != once.accounts <==> r.full || once.accounts[o.rider.value].current >= RiderShare(r))
      && (twice.accounts != once.accounts <==> r.full || RiderShare(r) <= 0.0 || s.accounts[o.rider.value].current >= 2.0 * RiderShare(r))
      && (twice.accounts != once.accounts ==> twice.accounts[o.customer.value].current == s.accounts[o.customer.value].current + 2.0 * r.amount)
      && (twice.accounts == once.accounts ==> twice == once)
  {
    var op, o := ResolveDispute(dispute, r), cfg.orders[s.disputes[dispute].order];
    var once := Apply(s, op, cfg);
    var twice := Apply(once, op, cfg);
    ResolvesAgainIff(s, cfg, dispute, r);
    ResolveMoves(s, cfg, dispute, r);
    if MayResolve(once, cfg, dispute, r) {
      ResolveMoves(once, cfg, dispute, r);
    }
  }
}
