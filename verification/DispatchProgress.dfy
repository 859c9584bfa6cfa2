/** Timed progress of a popup chain: when timeout jobs run on time, a chain of `n`
    riders is accepted or public within `20 * n` seconds, exactly when the order
    row exists and no popup decline is refused for an earlier decline row. */
module DispatchProgress {
  import opened Common
  import opened EligibleRiders
  import opened Dispatch

  /** Each timeout job runs less than five seconds after it falls due. */
  const SLACK := 5_000

  /** No job is overdue by the slack at the clock reading `now`. */
  predicate OnTime(s: Chain, now: int) {
    forall r | r in s.jobs :: now < s.jobs[r] + 5_000
  }

  ghost predicate Timely(s: Chain, es: seq<Event>) {
    forall i | 0 <= i < |es| :: OnTime(Run(s, es[..i]), es[i].at)
  }

  /** The chain ended: a rider accepted or the order was announced. */
  predicate Resolved(s: Chain) {
    s.accepted.Entry? || s.broadcasts > 0
  }

  /** A start at `at` followed by answers and timeouts only, handled on time up to `until`. */
  ghost predicate TimelyRun(s: Chain, es: seq<Event>, at: int, eligible: seq<Driver>, until: int) {
    && es != [] && es[0] == Event(at, Start(eligible))
    && (forall i | 1 <= i < |es| :: !es[i].call.Start?)
    && Timely(s, es) && OnTime(Run(s, es), until)
  }

  /** Timeout handlers run for pending jobs only. */
  ghost predicate FiresPending(s: Chain, es: seq<Event>) {
    forall i | 0 <= i < |es| && es[i].call.Timeout? :: es[i].call.rider in Run(s, es[..i]).jobs
  }

  /** The holder declines and the decline row cannot be written, while the order is still undecided. */
  predicate Stalls(s: Chain, e: Event) {
    && e.call.Decline? && Holds(s, e.at, e.call.rider) && !Resolved(s)
    && (s.order.None? || e.call.rider in s.declines)
  }

  ghost predicate NeverStalls(s: Chain, es: seq<Event>) {
    forall i | 0 <= i < |es| :: !Stalls(Run(s, es[..i]), es[i])
  }

  ghost predicate SomebodyAccepts(s: Chain, es: seq<Event>) {
    exists i | 0 <= i < |es| :: Wins(Run(s, es[..i]), es[i])
  }

  predicate NoFeed(es: seq<Event>) {
    forall i | 0 <= i < |es| :: !es[i].call.FeedDecline?
  }

  /** Every timely run is resolved `20 * n` seconds after its start; `feed` says
      whether riders may meanwhile decline the order in their feed as well. */
  ghost predicate AlwaysResolves(s: Chain, eligible: seq<Driver>, feed: bool) {
    forall es, at, until | TimelyRun(s, es, at, eligible, until) && (feed || NoFeed(es)) && until >= at + 20_000 * |eligible| ::
      Resolved(Run(s, es))
  }

  /** The last offered rider holds the popup and has the only job. */
  predicate Waiting(s: Chain, at: int, list: seq<Driver>) {
    && s.order.Some? && !Resolved(s)
    && s.offered != [] && s.active.Entry? && s.queue.Entry?
    && s.offered + s.queue.value == list
    && s.active.value == s.offered[|s.offered| - 1].raiderId
    && s.jobs == map[s.active.value := s.active.expiresAt - SLACK]
    && s.active.expiresAt <= at + ACTIVE_TTL * |s.offered|
    && s.active.expiresAt < s.queue.expiresAt
  }

  /** What a timely run keeps: the chain waits for an answer, or it ended and no job is left. */
  predicate OnSchedule(s: Chain, at: int, list: seq<Driver>) {
    Sound(s, Some(list)) && (Waiting(s, at, list) || (Resolved(s) && s.jobs == map[]))
  }

  /** The next offer is made before the popup expires, so it starts less than
      twenty seconds after the one before. */
  lemma NextWaits(s: Chain, now: int, at: int, list: seq<Driver>, jobs: map<int, int>, declines: set<int>)
    requires Waiting(s, at, list) && now < s.active.expiresAt && jobs == map[]
    ensures var t := PopupNext(s.(jobs := jobs, declines := declines), now);
      Waiting(t, at, list) || (Resolved(t) && t.jobs == map[])
  {
    var q := s.queue.value;
    if q != [] {
      assert s.offered + q == (s.offered + [q[0]]) + q[1..];
    }
  }

  /** Removing the fired job before or after the next offer makes no difference. */
  lemma TimeoutIsNext(s: Chain, now: int, at: int, list: seq<Driver>)
    requires Waiting(s, at, list) && Distinct(list) && now < s.active.expiresAt
    ensures TimeoutOf(s, now, s.active.value) == PopupNext(s.(jobs := map[]), now)
  {
    assert list[|s.offered| - 1].raiderId == s.active.value;
    if s.queue.value != [] {
      assert list[|s.offered|] == s.queue.value[0];
      assert s.queue.value[0].raiderId != s.active.value;
    }
  }

  lemma WaitingStep(s: Chain, e: Event, at: int, list: seq<Driver>)
    requires Waiting(s, at, list) && Distinct(list) && e.at < s.active.expiresAt && !e.call.Start? && !Stalls(s, e)
    ensures var t := Step(s, e); Waiting(t, at, list) || (Resolved(t) && t.jobs == map[])
  {
    match e.call
    case Accept(rider) =>
    case Decline(rider) =>
      NextWaits(s, e.at, at, list, s.jobs - {s.active.value}, s.declines + {s.active.value});
    case Timeout(rider) =>
      if rider == s.active.value {
        TimeoutIsNext(s, e.at, at, list);
        NextWaits(s, e.at, at, list, map[], s.declines);
      } else {
        assert s.jobs - {rider} == s.jobs;
      }
    case FeedDecline(_) =>
  }

  /** A chain that ended has offered everybody, so no step finds a next rider. */
  lemma ResolvedStep(s: Chain, e: Event, list: seq<Driver>)
    requires Sound(s, Some(list)) && Resolved(s) && s.jobs == map[] && !e.call.Start?
    ensures Resolved(Step(s, e)) && Step(s, e).jobs == map[]
  {
    assert s.queue.Entry? ==> s.queue.value == [];
  }

  lemma StepOnSchedule(s: Chain, e: Event, at: int, list: seq<Driver>)
    requires OnSchedule(s, at, list) && Distinct(list) && OnTime(s, e.at) && !e.call.Start? && !Stalls(s, e)
    ensures OnSchedule(Step(s, e), at, list)
  {
    StepSound(s, e, Some(list));
    if Waiting(s, at, list) {
      assert s.active.value in s.jobs;
      WaitingStep(s, e, at, list);
    } else {
      ResolvedStep(s, e, list);
    }
  }

  lemma StartOnSchedule(s: Chain, at: int, list: seq<Driver>)
    requires Fresh(s) && s.order.Some?
    ensures OnSchedule(StartChain(s, at, list), at, list)
  {
    StartSound(s, at, list);
    if list != [] {
      assert [list[0]] + list[1..] == list;
    }
  }

  lemma {:induction false} RunOnSchedule(s: Chain, es: seq<Event>, at: int, list: seq<Driver>)
    requires Fresh(s) && s.order.Some? && Distinct(list)
    requires es != [] && es[0] == Event(at, Start(list)) && Timely(s, es) && NeverStalls(s, es)
    requires forall i | 1 <= i < |es| :: !es[i].call.Start?
    ensures OnSchedule(Run(s, es), at, list)
  {
    var before, e := es[..|es| - 1], es[|es| - 1];
    if before == [] {
      StartOnSchedule(s, at, list);
      assert Run(s, before) == s;
    } else {
      assert forall i | 0 <= i < |before| :: before[..i] == es[..i];
      RunOnSchedule(s, before, at, list);
      StepOnSchedule(Run(s, before), e, at, list);
    }
  }

  /** A pending job that runs on time finds its rider still holding the popup, and
      the queue key alive: in every run with at most one start. */
  lemma {:induction false} TimeoutFindsItsOffer(s: Chain, es: seq<Event>, now: int, rider: int)
    requires Fresh(s) && OneStart(es) && (Started(es).Some? ==> Distinct(Started(es).value))
    requires OnTime(Run(s, es), now) && rider in Run(s, es).jobs
    ensures Holds(Run(s, es), now, rider)
    ensures Run(s, es).queue.Get(now).Some? && Run(s, es).accepted.NoEntry?
  {
    RunOneJob(s, es);
    RunSound(s, es);
    QueueOutlivesPopup(s, es, now, rider);
  }

  lemma WaitingIsEarly(s: Chain, at: int, list: seq<Driver>, now: int)
    requires Waiting(s, at, list) && OnTime(s, now)
    ensures now < at + 20_000 * |list|
  {
    assert s.active.value in s.jobs;
    assert |s.offered| <= |list|;
    assert ACTIVE_TTL * |s.offered| <= ACTIVE_TTL * |list|;
  }

  lemma {:induction false} ResolvesInTime(s: Chain, es: seq<Event>, at: int, list: seq<Driver>, until: int)
    requires Fresh(s) && s.order.Some? && Distinct(list) && NeverStalls(s, es)
    requires TimelyRun(s, es, at, list, until) && until >= at + 20_000 * |list|
    ensures Resolved(Run(s, es))
  {
    RunOnSchedule(s, es, at, list);
    if Waiting(Run(s, es), at, list) {
      WaitingIsEarly(Run(s, es), at, list, until);
    }
  }

  // ---------- Which runs stall ----------

  /** Nothing is left to go on but an accept by the rider who still holds the popup. */
  predicate Stuck(s: Chain) {
    && s.jobs == map[] && !Resolved(s)
    && (s.order.None? || (s.active.Entry? && s.active.value in s.declines))
  }

  lemma StallSticks(s: Chain, e: Event)
    requires OneJob(s) && Stalls(s, e)
    ensures Stuck(Step(s, e))
  {
    assert s.jobs - {e.call.rider} == map[];
  }

  lemma StuckStays(s: Chain, e: Event)
    requires Stuck(s) && !e.call.Start? && !Wins(s, e)
    requires e.call.Timeout? ==> e.call.rider in s.jobs
    ensures Stuck(Step(s, e))
  {
  }

  lemma {:induction false} RunStuck(s: Chain, es: seq<Event>, i: nat)
    requires i <= |es| && Stuck(Run(s, es[..i])) && FiresPending(s, es) && !SomebodyAccepts(s, es)
    requires forall k | i <= k < |es| :: !es[k].call.Start?
    ensures Stuck(Run(s, es))
  {
    if i == |es| {
      assert es[..i] == es;
    } else {
      var before, e := es[..|es| - 1], es[|es| - 1];
      assert forall k | 0 <= k <= |before| :: before[..k] == es[..k];
      assert forall k | 0 <= k < |before| :: Wins(Run(s, before[..k]), before[k]) <==> Wins(Run(s, es[..k]), es[k]);
      RunStuck(s, before, i);
      StuckStays(Run(s, before), e);
    }
  }

  lemma {:induction false} StartedByHead(es: seq<Event>)
    requires es != [] && es[0].call.Start? && forall i | 1 <= i < |es| :: !es[i].call.Start?
    ensures OneStart(es) && Started(es) == Some(es[0].call.eligible)
  {
    if |es| > 1 {
      StartedByHead(es[..|es| - 1]);
    }
  }

  lemma {:induction false} MissingRowSticks(s: Chain, es: seq<Event>, at: int, list: seq<Driver>)
    requires Fresh(s) && s.order.None? && es != [] && es[0] == Event(at, Start(list))
    ensures Stuck(Run(s, es[..1]))
  {
    assert es[..1][..0] == [];
    assert Run(s, es[..1]) == StartChain(s, at, list);
  }

  lemma {:induction false} StallAtSticks(s: Chain, es: seq<Event>, at: int, list: seq<Driver>, i: nat)
    requires Fresh(s) && Distinct(list) && i < |es| && es[0] == Event(at, Start(list))
    requires forall k | 1 <= k < |es| :: !es[k].call.Start?
    requires Stalls(Run(s, es[..i]), es[i])
    ensures Stuck(Run(s, es[..i + 1]))
  {
    assert es[..i + 1][..i] == es[..i];
    if i > 0 {
      StartedByHead(es[..i]);
    }
    RunOneJob(s, es[..i]);
    StallSticks(Run(s, es[..i]), es[i]);
  }

  /** Without an accept, a run with a stall or without an order row is stuck. */
  lemma {:induction false} StallDecides(s: Chain, es: seq<Event>, at: int, list: seq<Driver>, until: int)
    requires Fresh(s) && Distinct(list) && TimelyRun(s, es, at, list, until) && FiresPending(s, es)
    requires !SomebodyAccepts(s, es) && !(s.order.Some? && NeverStalls(s, es))
    ensures Stuck(Run(s, es))
  {
    if s.order.None? {
      MissingRowSticks(s, es, at, list);
      RunStuck(s, es, 1);
    } else {
      var i :| 0 <= i < |es| && Stalls(Run(s, es[..i]), es[i]);
      StallAtSticks(s, es, at, list, i);
      RunStuck(s, es, i + 1);
    }
  }

  lemma {:induction false} AcceptResolves(s: Chain, es: seq<Event>)
    requires SomebodyAccepts(s, es) && es != [] && forall i | 1 <= i < |es| :: !es[i].call.Start?
    ensures Resolved(Run(s, es))
  {
    var i :| 0 <= i < |es| && Wins(Run(s, es[..i]), es[i]);
    assert es[..i + 1][..i] == es[..i];
    assert Run(s, es[..i + 1]) == Step(Run(s, es[..i]), es[i]);
    AcceptLocks(Run(s, es[..i]), es[i]);
    LockedStays(s, es, i + 1);
  }

  /** A timely run of a chain of `n` riders has ended `20 * n` seconds after its
      start if and only if somebody accepted, or the order row exists and no popup
      decline by a rider with a decline row was made while the order was undecided. */
  lemma {:induction false} ResolvesIff(s: Chain, es: seq<Event>, at: int, list: seq<Driver>, until: int)
    requires Fresh(s) && Distinct(list) && TimelyRun(s, es, at, list, until) && FiresPending(s, es)
    requires until >= at + 20_000 * |list|
    ensures Resolved(Run(s, es)) <==> SomebodyAccepts(s, es) || (s.order.Some? && NeverStalls(s, es))
  {
    if SomebodyAccepts(s, es) {
      AcceptResolves(s, es);
    } else if s.order.Some? && NeverStalls(s, es) {
      ResolvesInTime(s, es, at, list, until);
    } else {
      StallDecides(s, es, at, list, until);
    }
  }

  // ---------- Which orders can stall ----------

  /** No rider who still has to answer has a decline row, and none can get one in the feed. */
  predicate Clean(s: Chain, list: seq<Driver>, feed: bool) {
    Resolved(s) ||
    (&& s.order.Some? && (feed ==> s.order.value.status != Pending)
     && forall i | 0 <= i < |list| && |s.offered| - 1 <= i :: list[i].raiderId !in s.declines)
  }

  lemma CleanNext(s: Chain, now: int, at: int, list: seq<Driver>, jobs: map<int, int>, declines: set<int>, feed: bool)
    requires Waiting(s, at, list) && Distinct(list) && Clean(s, list, feed) && now < s.active.expiresAt
    requires declines <= s.declines + {s.active.value}
    ensures Clean(PopupNext(s.(jobs := jobs, declines := declines), now), list, feed)
  {
    if s.queue.value != [] {
      assert list[|s.offered| - 1].raiderId == s.active.value;
      forall i | |s.offered| <= i < |list|
        ensures list[i].raiderId !in declines
      {
        assert list[i].raiderId != list[|s.offered| - 1].raiderId;
      }
    }
  }

  lemma CleanStep(s: Chain, e: Event, at: int, list: seq<Driver>, feed: bool)
    requires OnSchedule(s, at, list) && Distinct(list) && OnTime(s, e.at) && Clean(s, list, feed)
    requires !e.call.Start? && (e.call.FeedDecline? ==> feed)
    ensures !Stalls(s, e) && Clean(Step(s, e), list, feed)
  {
    if Waiting(s, at, list) {
      assert s.active.value in s.jobs;
      assert list[|s.offered| - 1].raiderId == s.active.value;
      match e.call
      case Accept(_) =>
      case Decline(rider) => CleanNext(s, e.at, at, list, s.jobs - {rider}, s.declines + {s.active.value}, feed);
      case Timeout(rider) =>
        CleanNext(s, e.at, at, list, s.jobs, s.declines, feed);
        assert s.(jobs := s.jobs, declines := s.declines) == s;
      case FeedDecline(_) =>
    } else {
      ResolvedStep(s, e, list);
    }
  }

  lemma {:induction false} PrefixTimely(s: Chain, es: seq<Event>)
    requires es != [] && Timely(s, es)
    ensures Timely(s, es[..|es| - 1])
  {
    var before := es[..|es| - 1];
    forall i | 0 <= i < |before|
      ensures OnTime(Run(s, before[..i]), before[i].at)
    {
      assert before[..i] == es[..i];
    }
  }

  lemma {:induction false} NeverStallsExtends(s: Chain, es: seq<Event>)
    requires es != [] && NeverStalls(s, es[..|es| - 1]) && !Stalls(Run(s, es[..|es| - 1]), es[|es| - 1])
    ensures NeverStalls(s, es)
  {
    var before := es[..|es| - 1];
    forall i | 0 <= i < |es|
      ensures !Stalls(Run(s, es[..i]), es[i])
    {
      if i < |before| {
        assert before[..i] == es[..i];
        assert !Stalls(Run(s, before[..i]), before[i]);
      }
    }
  }

  lemma StartClean(s: Chain, at: int, list: seq<Driver>, feed: bool)
    requires Fresh(s) && s.order.Some? && Ids(list) !! s.declines
    requires list != [] && feed ==> s.order.value.status != Pending
    ensures Clean(StartChain(s, at, list), list, feed)
  {
    assert forall i | 0 <= i < |list| :: list[i].raiderId in Ids(list);
  }

  lemma {:induction false} RunClean(s: Chain, es: seq<Event>, at: int, list: seq<Driver>, feed: bool)
    requires Fresh(s) && s.order.Some? && Ids(list) !! s.declines && Distinct(list)
    requires list != [] && feed ==> s.order.value.status != Pending
    requires es != [] && es[0] == Event(at, Start(list)) && Timely(s, es) && (feed || NoFeed(es))
    requires forall i | 1 <= i < |es| :: !es[i].call.Start?
    ensures OnSchedule(Run(s, es), at, list) && Clean(Run(s, es), list, feed) && NeverStalls(s, es)
  {
    var before, e := es[..|es| - 1], es[|es| - 1];
    if before == [] {
      assert Run(s, before) == s;
      StartOnSchedule(s, at, list);
      StartClean(s, at, list, feed);
      assert !Stalls(s, e);
    } else {
      PrefixTimely(s, es);
      RunClean(s, before, at, list, feed);
      CleanStep(Run(s, before), e, at, list, feed);
      StepOnSchedule(Run(s, before), e, at, list);
      NeverStallsExtends(s, es);
    }
  }

  /** Start, then every rider up to the `k`-th declines at once. */
  function AllDecline(list: seq<Driver>, k: nat): (es: seq<Event>)
    requires k <= |list|
    ensures |es| == k + 1
  {
    if k == 0 then [Event(0, Start(list))] else AllDecline(list, k - 1) + [Event(0, Decline(list[k - 1].raiderId))]
  }

  lemma {:induction false} AllDeclineShape(list: seq<Driver>, k: nat, i: nat)
    requires k <= |list| && i <= k
    ensures AllDecline(list, k)[..i + 1] == AllDecline(list, i)
    ensures AllDecline(list, k)[i].at == 0 && (AllDecline(list, k)[i].call.Start? <==> i == 0)
    ensures !AllDecline(list, k)[i].call.FeedDecline?
    ensures AllDecline(list, k)[0] == Event(0, Start(list))
  {
    if i < k {
      AllDeclineShape(list, k - 1, i);
      assert AllDecline(list, k)[..i + 1] == AllDecline(list, k - 1)[..i + 1];
    } else if k > 0 {
      AllDeclineShape(list, k - 1, k - 1);
    }
  }

  /** The chain waits for the `k`-th rider, everything having happened at time zero. */
  predicate WaitsFor(s: Chain, list: seq<Driver>, k: nat)
    requires k < |list|
  {
    && s.order.Some? && !Resolved(s)
    && s.offered == list[..k + 1] && s.queue == Entry(list[k + 1..], QUEUE_TTL)
    && s.active == Entry(list[k].raiderId, ACTIVE_TTL)
    && s.jobs == map[list[k].raiderId := POPUP_TIMEOUT]
  }

  lemma DeclineMovesOn(t: Chain, list: seq<Driver>, k: nat)
    requires Distinct(list) && k + 1 < |list| && WaitsFor(t, list, k) && list[k].raiderId !in t.declines
    ensures var u := DeclineBy(t, 0, list[k].raiderId);
      WaitsFor(u, list, k + 1) && u.declines == t.declines + {list[k].raiderId}
  {
    var r := list[k].raiderId;
    assert list[..k + 2] == list[..k + 1] + [list[k + 1]];
    assert list[k + 1..][0] == list[k + 1] && list[k + 1..][1..] == list[k + 2..];
    var u := t.(jobs := t.jobs - {r}, declines := t.declines + {r});
    assert u.jobs == map[];
    assert DeclineBy(t, 0, r) == PopupNext(u, 0);
    assert PopupNext(u, 0) == Offer(u, 0, list[k + 1], list[k + 2..]);
  }

  lemma StartWaits(s: Chain, list: seq<Driver>)
    requires Fresh(s) && s.order.Some? && list != []
    ensures WaitsFor(StartChain(s, 0, list), list, 0) && StartChain(s, 0, list).declines == s.declines
  {
    assert list[..1] == [list[0]];
  }

  /** The chain after that run, handler by handler. */
  function AfterDeclines(s: Chain, list: seq<Driver>, k: nat): Chain
    requires k <= |list|
  {
    if k == 0 then StartChain(s, 0, list) else DeclineBy(AfterDeclines(s, list, k - 1), 0, list[k - 1].raiderId)
  }

  lemma {:induction false} AllDeclineRun(s: Chain, list: seq<Driver>, k: nat)
    requires k <= |list|
    ensures Run(s, AllDecline(list, k)) == AfterDeclines(s, list, k)
  {
    var es := AllDecline(list, k);
    if k == 0 {
      assert es[..0] == [];
    } else {
      AllDeclineRun(s, list, k - 1);
      assert es[..|es| - 1] == AllDecline(list, k - 1);
    }
  }

  /** While the declining riders have no decline row, each decline offers the order to the next one. */
  lemma {:induction false} AllDeclineWaits(s: Chain, list: seq<Driver>, k: nat)
    requires Fresh(s) && s.order.Some? && Distinct(list) && k < |list|
    requires forall i | 0 <= i < k :: list[i].raiderId !in s.declines
    ensures var t := AfterDeclines(s, list, k);
      && WaitsFor(t, list, k)
      && forall i | k <= i < |list| :: list[i].raiderId in t.declines <==> list[i].raiderId in s.declines
  {
    if k == 0 {
      StartWaits(s, list);
    } else {
      AllDeclineWaits(s, list, k - 1);
      DeclineMovesOn(AfterDeclines(s, list, k - 1), list, k - 1);
    }
  }

  lemma StuckDecline(t: Chain, list: seq<Driver>, k: nat)
    requires k < |list| && WaitsFor(t, list, k) && list[k].raiderId in t.declines
    ensures var u := DeclineBy(t, 0, list[k].raiderId); !Resolved(u) && u.jobs == map[]
  {
  }

  lemma WaitsOnTime(t: Chain, list: seq<Driver>, k: nat)
    requires k < |list| && WaitsFor(t, list, k)
    ensures OnTime(t, 0)
  {
  }

  lemma {:induction false} AllDeclinePrefix(s: Chain, list: seq<Driver>, k: nat, i: nat)
    requires i <= k <= |list|
    ensures Run(s, AllDecline(list, k)[..i + 1]) == AfterDeclines(s, list, i)
  {
    AllDeclineShape(list, k, i);
    AllDeclineRun(s, list, i);
  }

  lemma {:induction false} WaitsTimely(s: Chain, list: seq<Driver>, k: nat)
    requires Fresh(s) && s.order.Some? && Distinct(list) && k < |list|
    requires forall i | 0 <= i < k :: list[i].raiderId !in s.declines
    ensures OnTime(AfterDeclines(s, list, k), 0)
  {
    AllDeclineWaits(s, list, k);
    WaitsOnTime(AfterDeclines(s, list, k), list, k);
  }

  lemma {:induction false} AllDeclineTimely(s: Chain, list: seq<Driver>, k: nat, i: nat)
    requires Fresh(s) && s.order.Some? && Distinct(list) && k < |list| && i <= k
    requires forall n | 0 <= n < k :: list[n].raiderId !in s.declines
    ensures OnTime(Run(s, AllDecline(list, k + 1)[..i + 1]), AllDecline(list, k + 1)[i + 1].at)
  {
    AllDeclinePrefix(s, list, k + 1, i);
    AllDeclineShape(list, k + 1, i + 1);
    WaitsTimely(s, list, i);
  }

  /** A rider with an earlier decline row stalls the chain: the second row is
      refused after the timeout job was removed, and nothing is left to go on. */
  lemma {:induction false} PriorDeclineStalls(s: Chain, list: seq<Driver>, k: nat)
    requires Fresh(s) && s.order.Some? && Distinct(list) && k < |list|
    requires forall i | 0 <= i < k :: list[i].raiderId !in s.declines
    requires list[k].raiderId in s.declines
    ensures var t := Run(s, AllDecline(list, k + 1)); !Resolved(t) && t.jobs == map[]
    ensures Timely(s, AllDecline(list, k + 1))
  {
    AllDeclineOnTime(s, list, k);
    AllDeclineWaits(s, list, k);
    AllDeclineRun(s, list, k + 1);
    StuckDecline(AfterDeclines(s, list, k), list, k);
  }

  lemma {:induction false} AllDeclineOnTime(s: Chain, list: seq<Driver>, k: nat)
    requires Fresh(s) && s.order.Some? && Distinct(list) && k < |list|
    requires forall i | 0 <= i < k :: list[i].raiderId !in s.declines
    ensures Timely(s, AllDecline(list, k + 1))
  {
    var es := AllDecline(list, k + 1);
    forall i | 0 <= i < |es|
      ensures OnTime(Run(s, es[..i]), es[i].at)
    {
      if i == 0 {
        assert es[..0] == [];
      } else {
        AllDeclineTimely(s, list, k, i - 1);
      }
    }
  }

  lemma FirstDecliner(s: Chain, list: seq<Driver>) returns (k: nat)
    requires !(Ids(list) !! s.declines)
    ensures k < |list| && list[k].raiderId in s.declines
    ensures forall i | 0 <= i < k :: list[i].raiderId !in s.declines
  {
    var r :| r in Ids(list) && r in s.declines;
    var d :| d in list && d.raiderId == r;
    k := 0;
    while list[k].raiderId !in s.declines
      invariant k < |list|
      invariant forall i | 0 <= i < k :: list[i].raiderId !in s.declines
      invariant exists i | k <= i < |list| :: list[i].raiderId in s.declines
      decreases |list| - k
    {
      k := k + 1;
    }
  }

  /** Without an order row the first offer schedules no timeout. */
  lemma {:induction false} MissingOrderStalls(s: Chain, list: seq<Driver>)
    requires Fresh(s) && s.order.None?
    ensures var t := Run(s, [Event(0, Start(list))]); !Resolved(t) && t.jobs == map[]
    ensures Timely(s, [Event(0, Start(list))])
  {
    var es := [Event(0, Start(list))];
    assert es[..0] == [];
  }

  /** The feed alone is enough to stall a PENDING order: its first rider declines
      there and then declines the popup. */
  function FeedThenPopup(rider: int, list: seq<Driver>): seq<Event> {
    [Event(0, Start(list)), Event(0, FeedDecline(rider)), Event(0, Decline(rider))]
  }

  lemma {:induction false} FeedDeclineStalls(s: Chain, list: seq<Driver>)
    requires Fresh(s) && s.order.Some? && s.order.value.status == Pending && list != []
    ensures var es := FeedThenPopup(list[0].raiderId, list);
      Timely(s, es) && !Resolved(Run(s, es)) && Run(s, es).jobs == map[]
  {
    var r := list[0].raiderId;
    var es := FeedThenPopup(r, list);
    var t := StartChain(s, 0, list);
    StartWaits(s, list);
    WaitsOnTime(t, list, 0);
    var u := FeedDeclineBy(t, r);
    assert WaitsFor(u, list, 0) && r in u.declines;
    WaitsOnTime(u, list, 0);
    StuckDecline(u, list, 0);
    assert es[..0] == [] && es[..1][..0] == [] && es[..2][..1] == es[..1] && es[..3] == es && es[..3][..2] == es[..2];
    assert Run(s, es[..0]) == s && Run(s, es[..1]) == t;
    assert Run(s, es[..2]) == u;
    assert Run(s, es) == DeclineBy(u, 0, r);
  }

  lemma {:induction false} StalledRun(s: Chain, list: seq<Driver>, feed: bool)
    requires Fresh(s) && Distinct(list)
    requires !(s.order.Some? && Ids(list) !! s.declines && (list != [] && feed ==> s.order.value.status != Pending))
    ensures exists es :: TimelyRun(s, es, 0, list, 20_000 * |list|) && (feed || NoFeed(es)) && !Resolved(Run(s, es))
  {
    var until := 20_000 * |list|;
    if s.order.None? {
      var es := [Event(0, Start(list))];
      MissingOrderStalls(s, list);
      assert TimelyRun(s, es, 0, list, until) && NoFeed(es) && !Resolved(Run(s, es));
    } else if !(Ids(list) !! s.declines) {
      var k := FirstDecliner(s, list);
      var es := AllDecline(list, k + 1);
      PriorDeclineStalls(s, list, k);
      forall i | 0 <= i < |es|
        ensures (es[i].call.Start? <==> i == 0) && !es[i].call.FeedDecline?
      {
        AllDeclineShape(list, k + 1, i);
      }
      AllDeclineShape(list, k + 1, 0);
      assert TimelyRun(s, es, 0, list, until) && NoFeed(es) && !Resolved(Run(s, es));
    } else {
      var es := FeedThenPopup(list[0].raiderId, list);
      FeedDeclineStalls(s, list);
      assert TimelyRun(s, es, 0, list, until) && !Resolved(Run(s, es));
    }
  }

  /** Every timely run of a chain of `n` riders ends in acceptance or the public
      queue within `20 * n` seconds if and only if the order row exists, no eligible
      rider has a decline row at the start, and, where riders may decline in their
      feed, the order is not PENDING or nobody is eligible. */
  lemma {:induction false} AlwaysResolvesIff(s: Chain, list: seq<Driver>, feed: bool)
    requires Fresh(s) && Distinct(list)
    ensures AlwaysResolves(s, list, feed) <==>
      s.order.Some? && Ids(list) !! s.declines && (list != [] && feed ==> s.order.value.status != Pending)
  {
    if s.order.Some? && Ids(list) !! s.declines && (list != [] && feed ==> s.order.value.status != Pending) {
      forall es, at, until | TimelyRun(s, es, at, list, until) && (feed || NoFeed(es)) && until >= at + 20_000 * |list|
        ensures Resolved(Run(s, es))
      {
        RunClean(s, es, at, list, feed);
        ResolvesInTime(s, es, at, list, until);
      }
    } else {
      StalledRun(s, list, feed);
    }
  }
}
