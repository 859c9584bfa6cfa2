/** Eligibility for incentives: rules joined by AND inside a group and by OR
    across groups, evaluated with a metric cache and short-circuits. */
module IncentiveRules {
  import opened Common

  datatype Operator = GTE | LTE | EQ | GT | LT | OtherOperator

  datatype Rule = Rule(metric: string, operator: Operator, value: real)

  type Group = seq<Rule>

  /** The user's metric values while one check runs; unknown metrics read as zero. */
  type Metrics = map<string, real>

  function MetricValue(m: Metrics, metric: string): real {
    if metric in m then m[metric] else 0.0
  }

  /** An operator the evaluator does not know passes. */
  predicate EvaluateRule(userValue: real, operator: Operator, target: real) {
    match operator
    case GTE => userValue >= target
    case LTE => userValue <= target
    case EQ => userValue == target
    case GT => userValue > target
    case LT => userValue < target
    case OtherOperator => true
  }

  predicate RuleHolds(r: Rule, m: Metrics) {
    EvaluateRule(MetricValue(m, r.metric), r.operator, r.value)
  }

  predicate GroupHolds(g: Group, m: Metrics) {
    forall i | 0 <= i < |g| :: RuleHolds(g[i], m)
  }

  /** Some group has all its rules true; no groups means no restriction. */
  predicate Qualifies(groups: seq<Group>, m: Metrics) {
    groups == [] || exists i | 0 <= i < |groups| :: GroupHolds(groups[i], m)
  }

  // ---------- What qualifying means for the user's figures ----------

  /** The figure reaches, stays below or equals the bound; an absent metric is a figure of zero. */
  predicate Met(r: Rule, m: Metrics) {
    var figure := if r.metric in m then m[r.metric] else 0.0;
    && (r.operator.GTE? ==> !(figure < r.value))
    && (r.operator.LTE? ==> !(r.value < figure))
    && (r.operator.EQ? ==> figure == r.value)
    && (r.operator.GT? ==> r.value < figure)
    && (r.operator.LT? ==> figure < r.value)
  }

  ghost predicate MeetsSomeGroup(groups: seq<Group>, m: Metrics) {
    |groups| == 0 || exists g :: g in groups && forall r :: r in g ==> Met(r, m)
  }

  /** A user qualifies exactly when the figures meet every rule of some group. */
  lemma QualifiesIff(groups: seq<Group>, m: Metrics)
    ensures Qualifies(groups, m) <==> MeetsSomeGroup(groups, m)
  {
    forall g | g in groups
      ensures GroupHolds(g, m) <==> forall r :: r in g ==> Met(r, m)
    {
      GroupIff(g, m);
    }
  }

  lemma GroupIff(g: Group, m: Metrics)
    ensures GroupHolds(g, m) <==> forall r :: r in g ==> Met(r, m)
  {
    assert forall r :: Met(r, m) <==> RuleHolds(r, m);
    if GroupHolds(g, m) {
      forall r | r in g
        ensures Met(r, m)
      {
        var i :| 0 <= i < |g| && g[i] == r;
        assert RuleHolds(g[i], m);
      }
    }
    if forall r :: r in g ==> Met(r, m) {
      forall i | 0 <= i < |g|
        ensures RuleHolds(g[i], m)
      {
        assert g[i] in g;
      }
    }
  }

  /** One eligibility check for one user. `fetched` lists the metric queries made. */
  class Evaluator {
    const metrics: Metrics
    var metricCache: Metrics
    var fetched: seq<string>

    /** The cache holds exactly the fetched metrics with their values, each fetched once. */
    ghost predicate Valid()
      reads this
    {
      && (forall k | k in metricCache :: metricCache[k] == MetricValue(metrics, k))
      && (forall k :: k in metricCache <==> k in fetched)
      && (forall i, j | 0 <= i < j < |fetched| :: fetched[i] != fetched[j])
    }

    constructor (metrics: Metrics)
      ensures Valid() && this.metrics == metrics && fetched == []
    {
      this.metrics, metricCache, fetched := metrics, map[], [];
    }

    method EvaluateGroup(rules: Group) returns (pass: bool)
      requires Valid()
      modifies this
      ensures Valid() && old(fetched) <= fetched
      ensures pass <==> GroupHolds(rules, metrics)
      ensures pass <==> forall r :: r in rules ==> Met(r, metrics)
    {
      GroupIff(rules, metrics);
      if |rules| == 0 {
        return true;
      }
      for i := 0 to |rules|
        invariant Valid() && old(fetched) <= fetched
        invariant GroupHolds(rules[..i], metrics)
      {
        var rule := rules[i];
        if rule.metric !in metricCache {
          var value := MetricValue(metrics, rule.metric);
          metricCache := metricCache[rule.metric := value];
          fetched := fetched + [rule.metric];
        }
        var userValue := metricCache[rule.metric];
        if !EvaluateRule(userValue, rule.operator, rule.value) {
          assert !RuleHolds(rules[i], metrics);
          return false;
        }
      }
      assert rules[..|rules|] == rules;
      return true;
    }

    /** The cache and the early exits do not change the answer, and no metric is
        queried twice. */
    method UserMeetsRuleGroups(groups: seq<Group>) returns (pass: bool)
      requires Valid()
      modifies this
      ensures Valid()
      ensures pass <==> Qualifies(groups, metrics)
      ensures pass <==> MeetsSomeGroup(groups, metrics)
    {
      QualifiesIff(groups, metrics);
      if |groups| == 0 {
        return true;
      }
      for i := 0 to |groups|
        invariant Valid()
        invariant forall k | 0 <= k < i :: !GroupHolds(groups[k], metrics)
      {
        var groupPasses := EvaluateGroup(groups[i]);
        if groupPasses {
          return true;
        }
      }
      return false;
    }
  }

  // ---------- Metric loops ----------

  /** The orders from `from` up to `to` were all completed. */
  predicate AllCompleted(orders: seq<OrderStatus>, from: nat, to: nat)
    requires from <= to <= |orders|
  {
    forall k | from <= k < to :: orders[k] == Completed
  }

  /** CONSECUTIVE_TRIPS: the length of the longest unbroken series of completed orders. */
  method ConsecutiveTrips(orders: seq<OrderStatus>) returns (longest: nat)
    ensures exists from, to | 0 <= from <= to <= |orders| && AllCompleted(orders, from, to) :: to - from == longest
    ensures forall from, to | 0 <= from <= to <= |orders| && AllCompleted(orders, from, to) :: to - from <= longest
  {
    longest := 0;
    var current: nat := 0;
    ghost var best: nat := 0;
    for i := 0 to |orders|
      invariant current <= i && AllCompleted(orders, i - current, i)
      invariant current < i ==> orders[i - current - 1] != Completed
      invariant current <= longest && best + longest <= i && AllCompleted(orders, best, best + longest)
      invariant forall from, to | 0 <= from <= to <= i && AllCompleted(orders, from, to) :: to - from <= longest
    {
      if orders[i] == Completed {
        current := current + 1;
        if current > longest {
          longest := current;
          best := i + 1 - current;
        }
      } else {
        current := 0;
      }
    }
    assert AllCompleted(orders, best, best + longest);
  }
}
