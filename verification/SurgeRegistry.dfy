/** The table of surge rules: half-open ratio ranges, the guard that keeps ACTIVE
    ranges apart, and the four-level lookup. Each service call is one atomic step. */
module SurgeRegistry {
  import opened Common
  import opened Rounding

  datatype Rule = Rule(
    id: int,
    ratioFrom: real,
    ratioTo: real,
    priceMultiplier: real,
    maxCap: Option<real>,
    active: bool,
    zones: set<int>,
    types: set<int>,
    createdAt: int)

  /** `nextId` is the auto-increment counter. */
  datatype Table = Table(rules: seq<Rule>, nextId: int)

  datatype NewRule = NewRule(ratioFrom: real, ratioTo: real, priceMultiplier: real, maxCap: Option<real>, active: bool, zones: set<int>, types: set<int>)

  /** The fields an update sends; absent fields stay as they are. */
  datatype Patch = Patch(
    ratioFrom: Option<real>,
    ratioTo: Option<real>,
    priceMultiplier: Option<real>,
    maxCap: Option<Option<real>>,
    active: Option<bool>,
    zones: Option<set<int>>,
    types: Option<set<int>>)

  datatype Outcome = Done | NotFound | RangeOverlap | UnknownZone | UnknownType

  datatype Command =
    | Create(rule: NewRule, now: int)
    | Update(id: int, patch: Patch)
    | Remove(id: int)
    | Toggle(id: int)

  /** The ids of the service zones and delivery types that exist. */
  datatype Catalogue = Catalogue(zones: set<int>, types: set<int>)

  // ---------- The guard ----------

  predicate Clashes(r: Rule, ratioFrom: real, ratioTo: real) {
    r.active && r.ratioFrom < ratioTo && r.ratioTo > ratioFrom
  }

  /** Some ACTIVE rule other than `excludeId` clashes with the range. An excluded
      id of zero excludes nothing. */
  predicate Overlaps(rules: seq<Rule>, ratioFrom: real, ratioTo: real, excludeId: int) {
    exists i | 0 <= i < |rules| :: (excludeId == 0 || rules[i].id != excludeId) && Clashes(rules[i], ratioFrom, ratioTo)
  }

  // ---------- The commands as table functions ----------

  predicate HasId(rules: seq<Rule>, id: int) {
    exists i | 0 <= i < |rules| :: rules[i].id == id
  }

  function IndexOf(rules: seq<Rule>, id: int): (k: nat)
    requires HasId(rules, id)
    ensures k < |rules| && rules[k].id == id
  {
    if rules[0].id == id then 0 else 1 + IndexOf(rules[1..], id)
  }

  function Merge(r: Rule, p: Patch): Rule {
    r.(ratioFrom := p.ratioFrom.GetOr(r.ratioFrom),
       ratioTo := p.ratioTo.GetOr(r.ratioTo),
       priceMultiplier := p.priceMultiplier.GetOr(r.priceMultiplier),
       maxCap := p.maxCap.GetOr(r.maxCap),
       active := p.active.GetOr(r.active),
       zones := p.zones.GetOr(r.zones),
       types := p.types.GetOr(r.types))
  }

  predicate ChangesRange(p: Patch) {
    p.ratioFrom.Some? || p.ratioTo.Some?
  }

  function Verdict(t: Table, c: Command, known: Catalogue): Outcome {
    match c
    case Create(rule, _) =>
      if Overlaps(t.rules, rule.ratioFrom, rule.ratioTo, 0) then RangeOverlap
      else if !(rule.zones <= known.zones) then UnknownZone
      else if !(rule.types <= known.types) then UnknownType
      else Done
    case Update(id, p) =>
      if !HasId(t.rules, id) then NotFound
      else
        var merged := Merge(t.rules[IndexOf(t.rules, id)], p);
        if ChangesRange(p) && Overlaps(t.rules, merged.ratioFrom, merged.ratioTo, id) then RangeOverlap
        else if !(p.zones.GetOr({}) <= known.zones) then UnknownZone
        else if !(p.types.GetOr({}) <= known.types) then UnknownType
        else Done
    case Remove(id) => if HasId(t.rules, id) then Done else NotFound
    case Toggle(id) => if HasId(t.rules, id) then Done else NotFound
  }

  function Apply(t: Table, c: Command, known: Catalogue): Table {
    if Verdict(t, c, known) != Done then t
    else
      match c
      case Create(r, now) =>
        Table(t.rules + [Rule(t.nextId, r.ratioFrom, r.ratioTo, r.priceMultiplier, r.maxCap, r.active, r.zones, r.types, now)], t.nextId + 1)
      case Update(id, p) =>
        var k := IndexOf(t.rules, id);
        t.(rules := t.rules[k := Merge(t.rules[k], p)])
      case Remove(id) =>
        var k := IndexOf(t.rules, id);
        t.(rules := t.rules[..k] + t.rules[k + 1..])
      case Toggle(id) =>
        var k := IndexOf(t.rules, id);
        t.(rules := t.rules[k := t.rules[k].(active := !t.rules[k].active)])
  }

  function Run(t: Table, cs: seq<Command>, known: Catalogue): Table {
    if cs == [] then t else Apply(Run(t, cs[..|cs| - 1], known), cs[|cs| - 1], known)
  }

  // ---------- Disjointness over runs ----------

  predicate Covers(r: Rule, ratio: real) {
    r.active && r.ratioFrom <= ratio < r.ratioTo
  }

  /** No ratio is covered by two ACTIVE rules. */
  ghost predicate Disjoint(rules: seq<Rule>) {
    forall i, j, ratio | 0 <= i < j < |rules| && Covers(rules[i], ratio) :: !Covers(rules[j], ratio)
  }

  /** Ids are positive, distinct and below the counter. */
  predicate WellFormed(t: Table) {
    && t.nextId > 0
    && (forall i | 0 <= i < |t.rules| :: 0 < t.rules[i].id < t.nextId)
    && (forall i, j | 0 <= i < j < |t.rules| :: t.rules[i].id != t.rules[j].id)
  }

  /** The rule a command would switch from INACTIVE to ACTIVE without the range
      check: a toggle, or an update that sends a status but no range. */
  function Reactivated(t: Table, c: Command, known: Catalogue): Option<Rule> {
    if Verdict(t, c, known) != Done then None
    else
      match c
      case Toggle(id) =>
        var r := t.rules[IndexOf(t.rules, id)];
        if r.active then None else Some(r.(active := true))
      case Update(id, p) =>
        var r := t.rules[IndexOf(t.rules, id)];
        if r.active || p.active != Some(true) || ChangesRange(p) then None else Some(r.(active := true))
      case _ => None
  }

  /** Two ACTIVE rules share a ratio. */
  predicate ShareRatio(a: Rule, b: Rule) {
    a.active && b.active && Max(a.ratioFrom, b.ratioFrom) < Min(a.ratioTo, b.ratioTo)
  }

  /** The command re-activates a rule over a ratio that an ACTIVE rule covers. */
  predicate UnsafeActivation(t: Table, c: Command, known: Catalogue) {
    var r := Reactivated(t, c, known);
    r.Some? && exists i | 0 <= i < |t.rules| :: ShareRatio(t.rules[i], r.value)
  }

  lemma ShareRatioIff(a: Rule, b: Rule)
    ensures ShareRatio(a, b) <==> exists ratio :: Covers(a, ratio) && Covers(b, ratio)
  {
    if ShareRatio(a, b) {
      var ratio := Max(a.ratioFrom, b.ratioFrom);
      assert Covers(a, ratio) && Covers(b, ratio);
    }
  }

  lemma NoOverlapNoShare(rules: seq<Rule>, r: Rule, excludeId: int, i: nat)
    requires i < |rules| && (excludeId == 0 || rules[i].id != excludeId)
    requires !Overlaps(rules, r.ratioFrom, r.ratioTo, excludeId)
    ensures !ShareRatio(rules[i], r)
  {
    assert !Clashes(rules[i], r.ratioFrom, r.ratioTo);
  }

  /** Replacing one rule keeps the table disjoint exactly when the new rule shares no ratio with the others. */
  lemma ReplaceDisjointIff(rules: seq<Rule>, k: nat, r: Rule)
    requires k < |rules| && Disjoint(rules)
    ensures Disjoint(rules[k := r]) <==> forall i | 0 <= i < |rules| && i != k :: !ShareRatio(rules[i], r)
  {
    var after := rules[k := r];
    if forall i | 0 <= i < |rules| && i != k :: !ShareRatio(rules[i], r) {
      forall i, j, ratio | 0 <= i < j < |after| && Covers(after[i], ratio)
        ensures !Covers(after[j], ratio)
      {
        if i == k {
          ShareRatioIff(rules[j], r);
        } else if j == k {
          ShareRatioIff(rules[i], r);
        }
      }
    } else {
      var i :| 0 <= i < |rules| && i != k && ShareRatio(rules[i], r);
      ShareRatioIff(rules[i], r);
      var ratio :| Covers(rules[i], ratio) && Covers(r, ratio);
      assert Covers(after[i], ratio) && Covers(after[k], ratio);
    }
  }

  lemma AddedWellFormed(t: Table, r: Rule)
    requires WellFormed(t) && r.id == t.nextId
    ensures WellFormed(Table(t.rules + [r], t.nextId + 1))
  {
  }

  lemma RewrittenWellFormed(t: Table, k: nat, r: Rule)
    requires WellFormed(t) && k < |t.rules| && r.id == t.rules[k].id
    ensures WellFormed(t.(rules := t.rules[k := r]))
  {
  }

  lemma RemovedWellFormed(t: Table, k: nat)
    requires WellFormed(t) && k < |t.rules|
    ensures WellFormed(t.(rules := t.rules[..k] + t.rules[k + 1..]))
  {
  }

  lemma ApplyWellFormed(t: Table, c: Command, known: Catalogue)
    requires WellFormed(t)
    ensures WellFormed(Apply(t, c, known))
  {
    if Verdict(t, c, known) == Done {
      match c
      case Create(r, now) =>
        AddedWellFormed(t, Rule(t.nextId, r.ratioFrom, r.ratioTo, r.priceMultiplier, r.maxCap, r.active, r.zones, r.types, now));
      case Update(id, p) =>
        var k := IndexOf(t.rules, id);
        RewrittenWellFormed(t, k, Merge(t.rules[k], p));
      case Remove(id) =>
        RemovedWellFormed(t, IndexOf(t.rules, id));
      case Toggle(id) =>
        var k := IndexOf(t.rules, id);
        RewrittenWellFormed(t, k, t.rules[k].(active := !t.rules[k].active));
    }
  }

  lemma CreateDisjoint(t: Table, c: Command, known: Catalogue)
    requires WellFormed(t) && Disjoint(t.rules) && c.Create?
    ensures Disjoint(Apply(t, c, known).rules)
  {
    var after := Apply(t, c, known).rules;
    if after != t.rules {
      var r := after[|t.rules|];
      forall i, j, ratio | 0 <= i < j < |after| && Covers(after[i], ratio)
        ensures !Covers(after[j], ratio)
      {
        if j == |t.rules| {
          NoOverlapNoShare(t.rules, r, 0, i);
          ShareRatioIff(t.rules[i], r);
        }
      }
    }
  }

  lemma RemoveDisjoint(t: Table, c: Command, known: Catalogue)
    requires WellFormed(t) && Disjoint(t.rules) && c.Remove?
    ensures Disjoint(Apply(t, c, known).rules)
  {
    if HasId(t.rules, c.id) {
      var k := IndexOf(t.rules, c.id);
      var after := Apply(t, c, known).rules;
      forall i, j, ratio | 0 <= i < j < |after| && Covers(after[i], ratio)
        ensures !Covers(after[j], ratio)
      {
        var a, b := if i < k then i else i + 1, if j < k then j else j + 1;
        assert after[i] == t.rules[a] && after[j] == t.rules[b];
      }
    }
  }

  lemma RemoveKeeps(t: Table, id: int, known: Catalogue)
    requires WellFormed(t)
    ensures WellFormed(Apply(t, Remove(id), known))
    ensures Disjoint(t.rules) ==> Disjoint(Apply(t, Remove(id), known).rules)
  {
    ApplyWellFormed(t, Remove(id), known);
    if Disjoint(t.rules) {
      RemoveDisjoint(t, Remove(id), known);
    }
  }

  /** An update or toggle rewrites one rule; which one, and when that is safe. */
  lemma RewriteDisjointIff(t: Table, c: Command, known: Catalogue)
    requires WellFormed(t) && Disjoint(t.rules) && (c.Update? || c.Toggle?)
    ensures Disjoint(Apply(t, c, known).rules) <==> !UnsafeActivation(t, c, known)
  {
    if Verdict(t, c, known) == Done {
      var k := IndexOf(t.rules, c.id);
      var old' := t.rules[k];
      var new' := Apply(t, c, known).rules[k];
      ReplaceDisjointIff(t.rules, k, new');
      assert Apply(t, c, known).rules == t.rules[k := new'];
      var re := Reactivated(t, c, known);
      forall i | 0 <= i < |t.rules| && i != k
        ensures re.None? ==> !ShareRatio(t.rules[i], new')
        ensures re.Some? ==> (ShareRatio(t.rules[i], new') <==> ShareRatio(t.rules[i], re.value))
      {
        assert t.rules[i].id != c.id;
        if c.Update? && ChangesRange(c.patch) {
          NoOverlapNoShare(t.rules, new', c.id, i);
        }
        ShareRatioIff(t.rules[i], old');
      }
      assert re.Some? ==> !ShareRatio(t.rules[k], re.value);
    }
  }

  /** From a disjoint table, a command leaves the table disjoint if and only if it
      does not re-activate a rule over a covered ratio. */
  lemma ApplyDisjointIff(t: Table, c: Command, known: Catalogue)
    requires WellFormed(t) && Disjoint(t.rules)
    ensures Disjoint(Apply(t, c, known).rules) <==> !UnsafeActivation(t, c, known)
  {
    match c
    case Create(_, _) => CreateDisjoint(t, c, known);
    case Remove(_) => RemoveDisjoint(t, c, known);
    case Update(_, _) => RewriteDisjointIff(t, c, known);
    case Toggle(_) => RewriteDisjointIff(t, c, known);
  }

  /** A run of creates, updates, deletes and toggles in which no command is an unsafe re-activation. */
  ghost predicate SafeRun(t: Table, cs: seq<Command>, known: Catalogue) {
    forall i | 0 <= i < |cs| :: !UnsafeActivation(Run(t, cs[..i], known), cs[i], known)
  }

  lemma {:induction false} RunDisjoint(t: Table, cs: seq<Command>, known: Catalogue)
    requires WellFormed(t) && Disjoint(t.rules) && SafeRun(t, cs, known)
    ensures WellFormed(Run(t, cs, known)) && Disjoint(Run(t, cs, known).rules)
  {
    if cs != [] {
      var before := cs[..|cs| - 1];
      assert forall i | 0 <= i < |before| :: before[..i] == cs[..i];
      RunDisjoint(t, before, known);
      ApplyWellFormed(Run(t, before, known), cs[|cs| - 1], known);
      ApplyDisjointIff(Run(t, before, known), cs[|cs| - 1], known);
    }
  }

  /** The steps without re-activation: any create or delete, an update that changes
      the range or does not switch a rule on, a toggle that switches a rule off. */
  predicate Checked(t: Table, c: Command) {
    match c
    case Create(_, _) => true
    case Remove(_) => true
    case Update(_, p) => ChangesRange(p) || p.active != Some(true)
    case Toggle(id) => HasId(t.rules, id) ==> t.rules[IndexOf(t.rules, id)].active
  }

  lemma {:induction false} CheckedRunDisjoint(cs: seq<Command>, known: Catalogue)
    requires forall i | 0 <= i < |cs| :: Checked(Run(Table([], 1), cs[..i], known), cs[i])
    ensures Disjoint(Run(Table([], 1), cs, known).rules)
  {
    RunDisjoint(Table([], 1), cs, known);
  }

  /** Without the restriction the table does not stay disjoint: a rule is switched
      off, another one is created over its range, and the first is switched on again. */
  lemma ReactivationBreaksDisjointness()
    ensures exists cs, known :: !Disjoint(Run(Table([], 1), cs, known).rules)
  {
    var known := Catalogue({}, {});
    var n := NewRule(1.0, 2.0, 1.5, None, true, {}, {});
    var a := Create(n, 0);
    var t0, t1, t2, t3 := Run(Table([], 1), [], known), Run(Table([], 1), [a], known), Run(Table([], 1), [a, Toggle(1)], known), Run(Table([], 1), [a, Toggle(1), a], known);
    var t4 := Run(Table([], 1), [a, Toggle(1), a, Toggle(1)], known);
    assert [a][..0] == [] && [a, Toggle(1)][..1] == [a] && [a, Toggle(1), a][..2] == [a, Toggle(1)] && [a, Toggle(1), a, Toggle(1)][..3] == [a, Toggle(1), a];
    var r1, r2 := Rule(1, 1.0, 2.0, 1.5, None, true, {}, {}, 0), Rule(2, 1.0, 2.0, 1.5, None, true, {}, {}, 0);
    assert t0.rules == [];
    assert t1 == Table([r1], 2);
    assert t2 == Table([r1.(active := false)], 2);
    assert t3 == Table([r1.(active := false), r2], 3);
    assert t4 == Table([r1, r2], 3);
    assert Covers(t4.rules[0], 1.5) && Covers(t4.rules[1], 1.5);
  }

  // ---------- The lookup ----------

  /** An absent or zero id asks for no filter. */
  predicate Asked(id: Option<int>) {
    id.Some? && id.value != 0
  }

  predicate Matches(r: Rule, ratio: real, zone: Option<int>, type': Option<int>) {
    Covers(r, ratio) && (Asked(zone) ==> zone.value in r.zones) && (Asked(type') ==> type'.value in r.types)
  }

  /** Highest multiplier first, then newest first. */
  predicate Precedes(a: Rule, b: Rule) {
    a.priceMultiplier > b.priceMultiplier || (a.priceMultiplier == b.priceMultiplier && a.createdAt >= b.createdAt)
  }

  /** The database's first match in that order. */
  function FindBest(rules: seq<Rule>, ratio: real, zone: Option<int>, type': Option<int>): (best: Option<Rule>)
    ensures best.None? <==> forall i | 0 <= i < |rules| :: !Matches(rules[i], ratio, zone, type')
    ensures best.Some? ==> best.value in rules && Matches(best.value, ratio, zone, type')
    ensures best.Some? ==> forall i | 0 <= i < |rules| && Matches(rules[i], ratio, zone, type') :: Precedes(best.value, rules[i])
    ensures best.Some? ==> forall i | 0 <= i < |rules| && Matches(rules[i], ratio, zone, type') ::
      && rules[i].priceMultiplier <= best.value.priceMultiplier
      && (rules[i].priceMultiplier == best.value.priceMultiplier ==> rules[i].createdAt <= best.value.createdAt)
  {
    if rules == [] then None
    else
      var rest := FindBest(rules[1..], ratio, zone, type');
      if !Matches(rules[0], ratio, zone, type') then rest
      else if rest.Some? && !Precedes(rules[0], rest.value) then rest
      else Some(rules[0])
  }

  datatype Surge = Surge(matched: bool, multiplier: real, rule: Option<Rule>)

  function Capped(r: Rule): real {
    if r.maxCap.Some? && r.priceMultiplier > r.maxCap.value then r.maxCap.value else r.priceMultiplier
  }

  /** Zone and type, then zone, then type, then every covering rule. */
  function ResolveSurge(rules: seq<Rule>, ratio: real, zone: Option<int>, type': Option<int>): Surge {
    var level1 := if Asked(zone) && Asked(type') then FindBest(rules, ratio, zone, type') else None;
    var level2 := if level1.None? && Asked(zone) then FindBest(rules, ratio, zone, None) else level1;
    var level3 := if level2.None? && Asked(type') then FindBest(rules, ratio, None, type') else level2;
    var level4 := if level3.None? then FindBest(rules, ratio, None, None) else level3;
    match level4
    case None => Surge(false, 1.0, None)
    case Some(rule) => Surge(true, Capped(rule), Some(rule))
  }

  /** The greatest value above neither the rule's multiplier nor its cap, if it has one. */
  predicate AtMostBoth(x: real, r: Rule) {
    x <= r.priceMultiplier && (r.maxCap.Some? ==> x <= r.maxCap.value)
  }

  ghost predicate Effective(x: real, r: Rule) {
    AtMostBoth(x, r) && forall y | AtMostBoth(y, r) :: y <= x
  }

  lemma EffectiveIff(x: real, r: Rule)
    ensures Effective(x, r) <==> x == Capped(r)
    ensures Effective(x, r) <==> AtMostBoth(x, r) && (x == r.priceMultiplier || r.maxCap == Some(x))
  {
    assert AtMostBoth(Capped(r), r);
    assert forall y | AtMostBoth(y, r) :: y <= Capped(r);
  }

  /** On a disjoint table the cascade is one lookup: it returns the only ACTIVE rule
      covering the ratio, whatever zone and type are asked for and whatever zones
      and types the rule names, and 1.0 when there is none. The multiplier is the
      rule's own, or its cap where that is lower. */
  lemma ResolveIsLookup(rules: seq<Rule>, ratio: real, zone: Option<int>, type': Option<int>)
    requires Disjoint(rules)
    ensures var s := ResolveSurge(rules, ratio, zone, type');
      && (forall i | 0 <= i < |rules| && rules[i].active && rules[i].ratioFrom <= ratio < rules[i].ratioTo ::
        s.matched && s.rule == Some(rules[i]) && Effective(s.multiplier, rules[i]))
      && ((forall i | 0 <= i < |rules| :: !Covers(rules[i], ratio)) ==> s == Surge(false, 1.0, None))
  {
    forall i | 0 <= i < |rules| && rules[i].active && rules[i].ratioFrom <= ratio < rules[i].ratioTo
      ensures ResolveSurge(rules, ratio, zone, type') == Surge(true, Capped(rules[i]), Some(rules[i]))
      ensures Effective(Capped(rules[i]), rules[i])
    {
      assert Covers(rules[i], ratio) && Matches(rules[i], ratio, None, None);
      forall j | 0 <= j < |rules| && Covers(rules[j], ratio)
        ensures rules[j] == rules[i]
      {
      }
      EffectiveIff(Capped(rules[i]), rules[i]);
    }
  }

  /** With no assumption on the table: the result is 1.0 exactly when nothing
      covers the ratio, otherwise it comes from an ACTIVE covering rule and is that
      rule's multiplier, or its cap where that is lower. */
  lemma ResolveSound(rules: seq<Rule>, ratio: real, zone: Option<int>, type': Option<int>)
    ensures var s := ResolveSurge(rules, ratio, zone, type');
      && (s.matched <==> exists i | 0 <= i < |rules| :: Covers(rules[i], ratio))
      && (!s.matched ==> s.multiplier == 1.0)
      && (s.matched ==>
        && s.rule.Some? && s.rule.value in rules && s.rule.value.active && s.rule.value.ratioFrom <= ratio < s.rule.value.ratioTo
        && s.multiplier <= s.rule.value.priceMultiplier
        && (s.rule.value.maxCap.Some? ==> s.multiplier <= s.rule.value.maxCap.value)
        && (s.multiplier == s.rule.value.priceMultiplier || s.rule.value.maxCap == Some(s.multiplier))
        && Effective(s.multiplier, s.rule.value))
  {
    if exists i | 0 <= i < |rules| :: Covers(rules[i], ratio) {
      var i :| 0 <= i < |rules| && Covers(rules[i], ratio);
      assert Matches(rules[i], ratio, None, None);
      var s := ResolveSurge(rules, ratio, zone, type');
      EffectiveIff(s.multiplier, s.rule.value);
    }
  }

  /** How specifically a rule that covers the ratio answers a question: three levels
      for zone and type, zone alone, type alone, and the level of every other rule. */
  function Level(r: Rule, zone: int, type': int): nat {
    if zone in r.zones && type' in r.types then 1
    else if zone in r.zones then 2
    else if type' in r.types then 3
    else 4
  }

  /** The documented order of the levels is kept: no covering rule answers more
      specifically than the rule found, and among equally specific ones that is the
      one with the highest multiplier, the newest first. The code's fourth level
      has no filter, but a rule of an earlier level never falls through to it. */
  lemma SpecificRuleWins(rules: seq<Rule>, ratio: real, zone: int, type': int, i: nat)
    requires zone != 0 && type' != 0 && i < |rules|
    requires rules[i].active && rules[i].ratioFrom <= ratio < rules[i].ratioTo
    ensures var s := ResolveSurge(rules, ratio, Some(zone), Some(type'));
      && s.rule.Some? && Level(s.rule.value, zone, type') <= Level(rules[i], zone, type')
      && (Level(s.rule.value, zone, type') == Level(rules[i], zone, type') ==>
        && rules[i].priceMultiplier <= s.rule.value.priceMultiplier
        && (rules[i].priceMultiplier == s.rule.value.priceMultiplier ==> rules[i].createdAt <= s.rule.value.createdAt))
  {
    assert Matches(rules[i], ratio, None, None);
    assert zone in rules[i].zones ==> Matches(rules[i], ratio, Some(zone), None);
    assert type' in rules[i].types ==> Matches(rules[i], ratio, None, Some(type'));
    assert zone in rules[i].zones && type' in rules[i].types ==> Matches(rules[i], ratio, Some(zone), Some(type'));
  }

  // ---------- What the commands store ----------

  /** What an update leaves in a column: what was sent, else what was there. */
  predicate Sent<T(==)>(sent: Option<T>, before: T, after: T) {
    if sent.Some? then after == sent.value else after == before
  }

  predicate Updated(before: Rule, after: Rule, p: Patch) {
    && after.id == before.id && after.createdAt == before.createdAt
    && Sent(p.ratioFrom, before.ratioFrom, after.ratioFrom) && Sent(p.ratioTo, before.ratioTo, after.ratioTo)
    && Sent(p.priceMultiplier, before.priceMultiplier, after.priceMultiplier) && Sent(p.maxCap, before.maxCap, after.maxCap)
    && Sent(p.active, before.active, after.active)
    && Sent(p.zones, before.zones, after.zones) && Sent(p.types, before.types, after.types)
  }

  /** The new row of a create, under the next id. */
  predicate Stores(r: Rule, id: int, dto: NewRule, now: int) {
    && r.id == id && r.createdAt == now && r.active == dto.active
    && r.ratioFrom == dto.ratioFrom && r.ratioTo == dto.ratioTo
    && r.priceMultiplier == dto.priceMultiplier && r.maxCap == dto.maxCap
    && r.zones == dto.zones && r.types == dto.types
  }

  predicate Follows(before: Rule, after: Rule, c: Command) {
    if c.Update? && c.id == before.id then Updated(before, after, c.patch)
    else if c.Toggle? && c.id == before.id then after.(active := before.active) == before && after.active != before.active
    else after == before
  }

  /** Zones and types must exist; a create, and an update that sends a bound, needs
      a range that shares no ratio with another ACTIVE row; the others need the row. */
  predicate Acceptable(t: Table, c: Command, known: Catalogue) {
    match c
    case Create(n, _) =>
      n.zones <= known.zones && n.types <= known.types && Apart(t.rules, n.ratioFrom, n.ratioTo, None)
    case Update(id, p) =>
      && (p.zones.Some? ==> p.zones.value <= known.zones) && (p.types.Some? ==> p.types.value <= known.types)
      && (exists i | 0 <= i < |t.rules| :: t.rules[i].id == id)
      && ((p.ratioFrom.Some? || p.ratioTo.Some?) ==>
        forall r | r in t.rules && r.id == id :: Apart(t.rules, p.ratioFrom.GetOr(r.ratioFrom), p.ratioTo.GetOr(r.ratioTo), Some(id)))
    case Remove(id) => exists i | 0 <= i < |t.rules| :: t.rules[i].id == id
    case Toggle(id) => exists i | 0 <= i < |t.rules| :: t.rules[i].id == id
  }

  predicate Apart(rules: seq<Rule>, ratioFrom: real, ratioTo: real, except: Option<int>) {
    forall r | r in rules && r.active && Some(r.id) != except :: ratioTo <= r.ratioFrom || r.ratioTo <= ratioFrom
  }

  lemma ApartIff(rules: seq<Rule>, ratioFrom: real, ratioTo: real, excludeId: int)
    requires forall i | 0 <= i < |rules| :: rules[i].id > 0
    ensures !Overlaps(rules, ratioFrom, ratioTo, excludeId) <==> Apart(rules, ratioFrom, ratioTo, if excludeId == 0 then None else Some(excludeId))
  {
    if Apart(rules, ratioFrom, ratioTo, if excludeId == 0 then None else Some(excludeId)) {
      forall i | 0 <= i < |rules| && (excludeId == 0 || rules[i].id != excludeId)
        ensures !Clashes(rules[i], ratioFrom, ratioTo)
      {
        assert rules[i] in rules;
      }
    }
  }

  /** Exactly the acceptable commands are carried out. */
  lemma AcceptedIff(t: Table, c: Command, known: Catalogue)
    requires WellFormed(t) && (c.Update? ==> c.id != 0)
    ensures Verdict(t, c, known) == Done <==> Acceptable(t, c, known)
  {
    match c
    case Create(n, _) => ApartIff(t.rules, n.ratioFrom, n.ratioTo, 0);
    case Update(id, p) => UpdateAcceptedIff(t, id, p, known);
    case Remove(_) =>
    case Toggle(_) =>
  }

  lemma UpdateAcceptedIff(t: Table, id: int, p: Patch, known: Catalogue)
    requires WellFormed(t) && id != 0
    ensures Verdict(t, Update(id, p), known) == Done <==> Acceptable(t, Update(id, p), known)
  {
    if HasId(t.rules, id) {
      var r := t.rules[IndexOf(t.rules, id)];
      ApartIff(t.rules, p.ratioFrom.GetOr(r.ratioFrom), p.ratioTo.GetOr(r.ratioTo), id);
      OnlyRow(t, r);
    }
  }

  lemma OnlyRow(t: Table, r: Rule)
    requires WellFormed(t) && r in t.rules
    ensures forall x | x in t.rules && x.id == r.id :: x == r
  {
  }

  /** A row survives every accepted command unless it is the one deleted; it changes
      only by its own update or toggle, and then column by column as sent. */
  lemma RowAfter(t: Table, c: Command, known: Catalogue, r: Rule)
    requires WellFormed(t) && r in t.rules && Verdict(t, c, known) == Done
    ensures var after := Apply(t, c, known).rules;
      && (c == Remove(r.id) ==> forall x | x in after :: x.id != r.id)
      && (c != Remove(r.id) ==> exists x :: x in after && x.id == r.id && Follows(r, x, c))
  {
    match c
    case Create(_, _) =>
    case Update(id, p) =>
      var k := IndexOf(t.rules, id);
      RowAfterRewrite(t, k, Merge(t.rules[k], p), r);
    case Remove(id) => RowAfterRemove(t, IndexOf(t.rules, id), r);
    case Toggle(id) =>
      var k := IndexOf(t.rules, id);
      RowAfterRewrite(t, k, t.rules[k].(active := !t.rules[k].active), r);
  }

  lemma RowAfterRewrite(t: Table, k: nat, new': Rule, r: Rule)
    requires WellFormed(t) && r in t.rules && k < |t.rules| && new'.id == t.rules[k].id
    ensures (if r.id == new'.id then new' else r) in t.rules[k := new']
    ensures r.id == new'.id ==> r == t.rules[k]
  {
    var i :| 0 <= i < |t.rules| && t.rules[i] == r;
    assert t.rules[k := new'][i] == if i == k then new' else r;
    assert t.rules[k := new'][k] == new';
  }

  lemma RowAfterRemove(t: Table, k: nat, r: Rule)
    requires WellFormed(t) && r in t.rules && k < |t.rules|
    ensures r != t.rules[k] ==> r in t.rules[..k] + t.rules[k + 1..]
    ensures forall x | x in t.rules[..k] + t.rules[k + 1..] :: x.id != t.rules[k].id
    ensures r.id == t.rules[k].id ==> r == t.rules[k]
  {
    var i :| 0 <= i < |t.rules| && t.rules[i] == r;
    var after := t.rules[..k] + t.rules[k + 1..];
    if i < k {
      assert after[i] == r;
    } else if i > k {
      assert after[i - 1] == r;
    }
  }

  /** An accepted create adds one row and takes the next id. */
  lemma RowAdded(t: Table, rule: NewRule, now: int, known: Catalogue)
    requires Verdict(t, Create(rule, now), known) == Done
    ensures var after := Apply(t, Create(rule, now), known);
      && after.nextId == t.nextId + 1 && |after.rules| == |t.rules| + 1 && t.rules <= after.rules
      && Stores(after.rules[|t.rules|], t.nextId, rule, now)
  {
  }

  // ---------- The service ----------

  class SurgePricingRuleService {
    var rules: seq<Rule>
    var nextId: int

    ghost function View(): Table
      reads this
    {
      Table(rules, nextId)
    }

    ghost predicate Valid()
      reads this
    {
      WellFormed(View())
    }

    constructor ()
      ensures Valid() && View() == Table([], 1)
    {
      rules, nextId := [], 1;
    }

    method ValidateRatioOverlap(ratioFrom: real, ratioTo: real, excludeId: int) returns (overlap: bool)
      ensures overlap <==> Overlaps(rules, ratioFrom, ratioTo, excludeId)
    {
      for i := 0 to |rules|
        invariant !Overlaps(rules[..i], ratioFrom, ratioTo, excludeId)
      {
        if (excludeId == 0 || rules[i].id != excludeId) && Clashes(rules[i], ratioFrom, ratioTo) {
          return true;
        }
        assert forall k | 0 <= k < i :: rules[..i][k] == rules[k];
      }
      assert rules[..|rules|] == rules;
      return false;
    }

    method FindOne(id: int) returns (index: Option<nat>)
      ensures index.Some? <==> HasId(rules, id)
      ensures index.Some? ==> index.value == IndexOf(rules, id)
    {
      for i := 0 to |rules|
        invariant forall k | 0 <= k < i :: rules[k].id != id
      {
        if rules[i].id == id {
          FirstIsIndexOf(rules, id, i);
          return Some(i);
        }
      }
      return None;
    }

    method CreateRule(dto: NewRule, now: int, known: Catalogue) returns (outcome: Outcome)
      requires Valid()
      modifies this
      ensures Valid()
      ensures outcome == Verdict(old(View()), Create(dto, now), known)
      ensures View() == Apply(old(View()), Create(dto, now), known)
      ensures old(Disjoint(rules)) ==> Disjoint(rules)
    {
      if Disjoint(rules) {
        CreateDisjoint(View(), Create(dto, now), known);
      }
      var overlap := ValidateRatioOverlap(dto.ratioFrom, dto.ratioTo, 0);
      if overlap {
        return RangeOverlap;
      }
      if !(dto.zones <= known.zones) {
        return UnknownZone;
      }
      if !(dto.types <= known.types) {
        return UnknownType;
      }
      var rule := Rule(nextId, dto.ratioFrom, dto.ratioTo, dto.priceMultiplier, dto.maxCap, dto.active, dto.zones, dto.types, now);
      rules, nextId := rules + [rule], nextId + 1;
      return Done;
    }

    method UpdateRule(id: int, dto: Patch, known: Catalogue) returns (outcome: Outcome)
      requires Valid()
      modifies this
      ensures Valid()
      ensures outcome == Verdict(old(View()), Update(id, dto), known)
      ensures View() == Apply(old(View()), Update(id, dto), known)
      ensures old(Disjoint(rules)) ==> (Disjoint(rules) <==> !old(UnsafeActivation(View(), Update(id, dto), known)))
    {
      if Disjoint(rules) {
        RewriteDisjointIff(View(), Update(id, dto), known);
      }
      ApplyWellFormed(View(), Update(id, dto), known);
      var index;
      outcome, index := CheckUpdate(id, dto, known);
      if outcome == Done {
        rules := rules[index := Merge(rules[index], dto)];
      }
    }

    /** The checks of an update, in their order, and the row it is about. */
    method CheckUpdate(id: int, dto: Patch, known: Catalogue) returns (outcome: Outcome, index: nat)
      ensures outcome == Verdict(View(), Update(id, dto), known)
      ensures HasId(rules, id) ==> index == IndexOf(rules, id)
    {
      var found := FindOne(id);
      if found.None? {
        return NotFound, 0;
      }
      index := found.value;
      var existing := rules[index];
      if dto.ratioFrom.Some? || dto.ratioTo.Some? {
        var from := if dto.ratioFrom.Some? then dto.ratioFrom.value else existing.ratioFrom;
        var to := if dto.ratioTo.Some? then dto.ratioTo.value else existing.ratioTo;
        var overlap := ValidateRatioOverlap(from, to, id);
        if overlap {
          return RangeOverlap, index;
        }
      }
      if dto.zones.Some? && !(dto.zones.value <= known.zones) {
        return UnknownZone, index;
      }
      if dto.types.Some? && !(dto.types.value <= known.types) {
        return UnknownType, index;
      }
      return Done, index;
    }

    method RemoveRule(id: int, known: Catalogue) returns (outcome: Outcome)
      requires Valid()
      modifies this
      ensures Valid()
      ensures outcome == Verdict(old(View()), Remove(id), known)
      ensures View() == Apply(old(View()), Remove(id), known)
      ensures old(Disjoint(rules)) ==> Disjoint(rules)
    {
      RemoveKeeps(View(), id, known);
      var index := FindOne(id);
      if index.None? {
        return NotFound;
      }
      rules := rules[..index.value] + rules[index.value + 1..];
      return Done;
    }

    method ToggleStatus(id: int, known: Catalogue) returns (outcome: Outcome)
      requires Valid()
      modifies this
      ensures Valid()
      ensures outcome == Verdict(old(View()), Toggle(id), known)
      ensures View() == Apply(old(View()), Toggle(id), known)
      ensures old(Disjoint(rules)) ==> (Disjoint(rules) <==> !old(UnsafeActivation(View(), Toggle(id), known)))
    {
      if Disjoint(rules) {
        RewriteDisjointIff(View(), Toggle(id), known);
      }
      ApplyWellFormed(View(), Toggle(id), known);
      var index := FindOne(id);
      if index.None? {
        return NotFound;
      }
      var existing := rules[index.value];
      rules := rules[index.value := existing.(active := !existing.active)];
      return Done;
    }
  }

  lemma {:induction false} FirstIsIndexOf(rules: seq<Rule>, id: int, i: nat)
    requires i < |rules| && rules[i].id == id && forall k | 0 <= k < i :: rules[k].id != id
    ensures IndexOf(rules, id) == i
  {
    if i > 0 {
      FirstIsIndexOf(rules[1..], id, i - 1);
    }
  }
}
