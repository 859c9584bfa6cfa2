/** The auto-popup chain of one order: three Redis keys with a time to live, the
    pending timeout jobs, the order row and its decline rows, which the order feed
    writes as well. Every handler is one atomic step at a clock reading in
    milliseconds; a key is gone once its expiry time is reached. */
module Dispatch {
  import opened Common
  import opened EligibleRiders

  const POPUP_TIMEOUT := 15_000
  const ACTIVE_TTL := 20_000
  const QUEUE_TTL := 600_000
  const ACCEPTED_TTL := 3_600_000

  datatype Entry<+T> = NoEntry | Entry(value: T, expiresAt: int) {
    function Get(now: int): Option<T> {
      if Entry? && now < expiresAt then Some(value) else None
    }
  }

  datatype Order = Order(status: OrderStatus, rider: Option<int>, confirmed: bool, assignedAt: Option<int>)

  /** `jobs` maps a rider to the due time of its timeout job (one job id per rider),
      `declines` holds the order's decline rows (unique per rider), `offered` the
      riders made active so far, `broadcasts` the public-queue announcements. */
  datatype Chain = Chain(
    queue: Entry<seq<Driver>>,
    active: Entry<int>,
    accepted: Entry<int>,
    jobs: map<int, int>,
    order: Option<Order>,
    declines: set<int>,
    offered: seq<Driver>,
    broadcasts: nat)

  datatype Call =
    | Start(eligible: seq<Driver>)
    | Accept(rider: int)
    | Decline(rider: int)
    | Timeout(rider: int)
    | FeedDecline(rider: int)

  datatype Event = Event(at: int, call: Call)

  // ---------- The handlers as state functions ----------

  /** Updating a missing order row fails before anything is announced. */
  function ToPublicQueue(s: Chain): Chain {
    if s.order.None? then s
    else s.(order := Some(s.order.value.(status := Pending)), broadcasts := s.broadcasts + 1)
  }

  function Offer(s: Chain, now: int, d: Driver, rest: seq<Driver>): Chain {
    var offering := s.(
      queue := Entry(rest, now + QUEUE_TTL),
      active := Entry(d.raiderId, now + ACTIVE_TTL),
      offered := s.offered + [d]);
    if s.order.None? || d.raiderId in s.jobs then offering
    else offering.(jobs := s.jobs[d.raiderId := now + POPUP_TIMEOUT])
  }

  function PopupNext(s: Chain, now: int): Chain {
    if s.accepted.Get(now).Some? then s
    else
      match s.queue.Get(now)
      case None => ToPublicQueue(s)
      case Some(queue) => if queue == [] then ToPublicQueue(s) else Offer(s, now, queue[0], queue[1..])
  }

  function StartChain(s: Chain, now: int, eligible: seq<Driver>): Chain {
    if s.accepted.Get(now).Some? then s
    else if eligible == [] then ToPublicQueue(s)
    else PopupNext(s.(queue := Entry(eligible, now + QUEUE_TTL)), now)
  }

  /** The rider currently holds the popup. */
  predicate Holds(s: Chain, now: int, rider: int) {
    s.active.Get(now) == Some(rider)
  }

  /** The Redis part is done before the row update, so it stays when the row is missing. */
  function AcceptBy(s: Chain, now: int, rider: int): Chain {
    if !Holds(s, now, rider) then s
    else
      var locked := s.(accepted := Entry(rider, now + ACCEPTED_TTL), queue := NoEntry, active := NoEntry, jobs := s.jobs - {rider});
      if s.order.None? then locked
      else locked.(order := Some(Order(Ongoing, Some(rider), true, Some(now))))
  }

  /** The decline row needs the order row and is unique per rider; when it cannot
      be written the handler stops after removing the timeout job. */
  function DeclineBy(s: Chain, now: int, rider: int): Chain {
    if !Holds(s, now, rider) then s
    else
      var answered := s.(jobs := s.jobs - {rider});
      if s.order.None? || rider in s.declines then answered
      else PopupNext(answered.(declines := s.declines + {rider}), now)
  }

  /** The job leaves the job table when its handler has run. */
  function TimeoutOf(s: Chain, now: int, rider: int): Chain {
    var t := if s.accepted.Get(now).Some? || !Holds(s, now, rider) then s else PopupNext(s, now);
    t.(jobs := t.jobs - {rider})
  }

  /** A rider takes a PENDING order out of its feed; the feed does not look at the popup keys. */
  function FeedDeclineBy(s: Chain, rider: int): Chain {
    if s.order.None? || s.order.value.status != Pending || rider in s.declines then s
    else s.(declines := s.declines + {rider})
  }

  function Step(s: Chain, e: Event): Chain {
    match e.call
    case Start(eligible) => StartChain(s, e.at, eligible)
    case Accept(rider) => AcceptBy(s, e.at, rider)
    case Decline(rider) => DeclineBy(s, e.at, rider)
    case Timeout(rider) => TimeoutOf(s, e.at, rider)
    case FeedDecline(rider) => FeedDeclineBy(s, rider)
  }

  /** The chain after the events, in the order they are handled. */
  function Run(s: Chain, es: seq<Event>): Chain {
    if es == [] then s else Step(Run(s, es[..|es| - 1]), es[|es| - 1])
  }

  // ---------- Runs ----------

  /** Nothing has been stored for the order yet. */
  predicate Fresh(s: Chain) {
    && s.queue.NoEntry? && s.active.NoEntry? && s.accepted.NoEntry?
    && s.jobs == map[] && s.offered == [] && s.broadcasts == 0
  }

  /** The eligible list of the run's start, if it has one. */
  function Started(es: seq<Event>): Option<seq<Driver>> {
    if es == [] then None
    else if es[|es| - 1].call.Start? then Some(es[|es| - 1].call.eligible)
    else Started(es[..|es| - 1])
  }

  ghost predicate OneStart(es: seq<Event>) {
    forall i, j | 0 <= i < j < |es| :: !(es[i].call.Start? && es[j].call.Start?)
  }

  /** The rider's accept succeeds in `s`. */
  predicate Wins(s: Chain, e: Event) {
    e.call.Accept? && Holds(s, e.at, e.call.rider)
  }

  function Ids(ds: seq<Driver>): set<int> {
    set d | d in ds :: d.raiderId
  }

  /** What every handler keeps, whatever the clock readings are. Entries are
      described even after they expire. */
  predicate Sound(s: Chain, eligible: Option<seq<Driver>>) {
    match eligible
    case None =>
      s.queue.NoEntry? && s.active.NoEntry? && s.accepted.NoEntry? && s.jobs == map[] && s.offered == [] && s.broadcasts == 0
    case Some(list) =>
      && s.offered <= list
      && (s.queue.Entry? ==> s.offered + s.queue.value == list)
      && (s.active.Entry? ==>
        && s.offered != [] && s.active.value == s.offered[|s.offered| - 1].raiderId
        && s.queue.Entry? && s.active.expiresAt < s.queue.expiresAt)
      && (s.accepted.Entry? ==>
        && s.queue.NoEntry? && s.active.NoEntry? && s.accepted.value in Ids(list)
        && (s.order.Some? ==> s.order.value.rider == Some(s.accepted.value) && s.order.value.status == Ongoing && s.order.value.confirmed))
      && (s.accepted.NoEntry? && list != [] ==> s.active.Entry?)
      && (s.broadcasts > 0 ==> s.offered == list)
      && (s.broadcasts > 0 && s.accepted.NoEntry? ==> s.order.Some? && s.order.value.status == Pending)
  }

  /** Moving on to the next rider, whatever was done to jobs and declines before. */
  lemma NextSound(s: Chain, now: int, list: seq<Driver>, jobs: map<int, int>, declines: set<int>)
    requires Sound(s, Some(list)) && s.active.Entry? && now < s.active.expiresAt
    ensures Sound(PopupNext(s.(jobs := jobs, declines := declines), now), Some(list))
  {
    if s.queue.value != [] {
      assert s.offered + s.queue.value == (s.offered + [s.queue.value[0]]) + s.queue.value[1..];
    }
  }

  lemma AcceptSound(s: Chain, now: int, rider: int, list: seq<Driver>)
    requires Sound(s, Some(list))
    ensures Sound(AcceptBy(s, now, rider), Some(list))
  {
    if s.active.Entry? {
      assert s.offered[|s.offered| - 1] in list;
    }
  }

  lemma JobsDoNotMatter(s: Chain, list: seq<Driver>, jobs: map<int, int>)
    requires Sound(s, Some(list))
    ensures Sound(s.(jobs := jobs), Some(list))
  {
  }

  lemma StepSound(s: Chain, e: Event, eligible: Option<seq<Driver>>)
    requires Sound(s, eligible) && !e.call.Start?
    ensures Sound(Step(s, e), eligible)
  {
    if eligible.Some? {
      match e.call
      case Accept(rider) =>
        AcceptSound(s, e.at, rider, eligible.value);
      case Decline(rider) =>
        if Holds(s, e.at, rider) {
          NextSound(s, e.at, eligible.value, s.jobs - {rider}, s.declines + {rider});
        }
      case Timeout(rider) =>
        if Holds(s, e.at, rider) {
          NextSound(s, e.at, eligible.value, s.jobs, s.declines);
          JobsDoNotMatter(PopupNext(s, e.at), eligible.value, PopupNext(s, e.at).jobs - {rider});
        }
      case FeedDecline(_) =>
    }
  }

  lemma StartSound(s: Chain, now: int, list: seq<Driver>)
    requires Sound(s, None)
    ensures Sound(StartChain(s, now, list), Some(list))
  {
    if list != [] {
      assert [list[0]] + list[1..] == list;
    }
  }

  lemma {:induction false} RunSound(s: Chain, es: seq<Event>)
    requires Fresh(s) && OneStart(es)
    ensures Sound(Run(s, es), Started(es))
    ensures Started(es).None? ==> forall i | 0 <= i < |es| :: !es[i].call.Start?
  {
    if es != [] {
      var before, e := es[..|es| - 1], es[|es| - 1];
      RunSound(s, before);
      if e.call.Start? {
        NoStart(before);
        StartSound(Run(s, before), e.at, e.call.eligible);
      } else {
        StepSound(Run(s, before), e, Started(before));
      }
    }
  }

  lemma {:induction false} NoStart(es: seq<Event>)
    requires forall i | 0 <= i < |es| :: !es[i].call.Start?
    ensures Started(es) == None
  {
    if es != [] {
      NoStart(es[..|es| - 1]);
    }
  }

  // ---------- Main results ----------

  /** Two chains agree on everything but the pending jobs. */
  predicate SameButJobs(s: Chain, t: Chain) {
    s.(jobs := map[]) == t.(jobs := map[])
  }

  /** A rider accepted: only the accepted key is left, and the row says ONGOING. */
  predicate Locked(s: Chain) {
    s.accepted.Entry? && s.queue.NoEntry? && s.active.NoEntry? && (s.order.Some? ==> s.order.value.status == Ongoing)
  }

  /** No start comes at or after the expiry of the accepted key. */
  predicate StartsBefore(es: seq<Event>, expiry: int) {
    forall i | 0 <= i < |es| && es[i].call.Start? :: es[i].at < expiry
  }

  lemma AcceptLocks(s: Chain, e: Event)
    requires Wins(s, e)
    ensures Locked(Step(s, e))
  {
  }

  /** Whoever declines the popup it holds, or a PENDING order in the feed, gets a
      decline row; nobody else does, and no row is ever removed. */
  lemma DeclineRows(s: Chain, e: Event)
    ensures Step(s, e).declines == s.declines +
      if s.order.Some? && e.call.Decline? && s.active.Get(e.at) == Some(e.call.rider) then {e.call.rider}
      else if s.order.Some? && e.call.FeedDecline? && s.order.value.status == Pending then {e.call.rider}
      else {}
  {
  }

  /** A rider made active holds the popup for twenty seconds, the queue is kept for
      ten minutes, and the timeout job falls due after fifteen seconds; an accept
      is remembered for an hour. */
  lemma Lifetimes(s: Chain, e: Event, list: seq<Driver>)
    requires Sound(s, Some(list)) && Distinct(list) && OneJob(s) && !e.call.Start?
    ensures var t := Step(s, e);
      && (|t.offered| > |s.offered| ==>
        && t.active == Entry(t.offered[|s.offered|].raiderId, e.at + 20_000)
        && t.queue.Entry? && t.queue.expiresAt == e.at + 600_000
        && (s.order.Some? ==> t.jobs == map[t.offered[|s.offered|].raiderId := e.at + 15_000]))
      && (Wins(s, e) ==> t.accepted == Entry(e.call.rider, e.at + 3_600_000))
  {
    if s.active.Entry? && s.queue.Entry? && s.queue.value != [] {
      var k := |s.offered|;
      assert list[k - 1] == s.offered[k - 1] && list[k] == s.queue.value[0];
      assert list[k].raiderId != list[k - 1].raiderId;
    }
  }

  lemma LockedStep(s: Chain, e: Event)
    requires Locked(s) && (e.call.Start? ==> e.at < s.accepted.expiresAt)
    ensures Locked(Step(s, e)) && SameButJobs(s, Step(s, e)) && !Wins(s, e)
  {
  }

  lemma {:induction false} LockedStays(s: Chain, es: seq<Event>, i: nat)
    requires i <= |es| && Locked(Run(s, es[..i])) && StartsBefore(es[i..], Run(s, es[..i]).accepted.expiresAt)
    ensures Locked(Run(s, es)) && SameButJobs(Run(s, es[..i]), Run(s, es))
  {
    if i == |es| {
      assert es[..i] == es;
    } else {
      var before, e := es[..|es| - 1], es[|es| - 1];
      assert before[..i] == es[..i];
      assert forall k | 0 <= k < |before| - i :: before[i..][k] == es[i..][k];
      assert es[i..][|es| - 1 - i] == e;
      LockedStays(s, before, i);
      LockedStep(Run(s, before), e);
    }
  }

  /** The riders on the eligible list of any start. */
  function EverListed(es: seq<Event>): set<int> {
    if es == [] then {}
    else
      var e := es[|es| - 1];
      EverListed(es[..|es| - 1]) + if e.call.Start? then Ids(e.call.eligible) else {}
  }

  /** What every run keeps, with any number of starts: whoever is offered the
      order was on some list, and the active rider is the one offered last. */
  predicate Traced(s: Chain, listed: set<int>) {
    && Ids(s.offered) <= listed
    && (s.queue.Entry? ==> Ids(s.queue.value) <= listed)
    && (s.active.Entry? ==> s.offered != [] && s.active.value == s.offered[|s.offered| - 1].raiderId)
  }

  lemma NextTraced(s: Chain, now: int, listed: set<int>)
    requires Traced(s, listed)
    ensures Traced(PopupNext(s, now), listed)
  {
    if s.queue.Get(now).Some? && s.queue.value != [] {
      var d, rest := s.queue.value[0], s.queue.value[1..];
      assert d.raiderId in Ids(s.queue.value);
      forall r | r in Ids(rest)
        ensures r in listed
      {
        var x :| x in rest && x.raiderId == r;
        assert x in s.queue.value;
      }
      assert Ids(s.offered + [d]) == Ids(s.offered) + {d.raiderId};
    }
  }

  lemma StartTraced(s: Chain, now: int, list: seq<Driver>, listed: set<int>)
    requires Traced(s, listed)
    ensures Traced(StartChain(s, now, list), listed + Ids(list))
  {
    NextTraced(s.(queue := Entry(list, now + QUEUE_TTL)), now, listed + Ids(list));
  }

  lemma DeclineTraced(s: Chain, now: int, rider: int, listed: set<int>)
    requires Traced(s, listed)
    ensures Traced(DeclineBy(s, now, rider), listed)
  {
    NextTraced(s.(jobs := s.jobs - {rider}, declines := s.declines + {rider}), now, listed);
  }

  lemma StepTraced(s: Chain, e: Event, listed: set<int>)
    requires Traced(s, listed)
    ensures Traced(Step(s, e), listed + if e.call.Start? then Ids(e.call.eligible) else {})
  {
    match e.call
    case Start(list) => StartTraced(s, e.at, list, listed);
    case Accept(rider) =>
    case Decline(rider) => DeclineTraced(s, e.at, rider, listed);
    case Timeout(rider) => NextTraced(s, e.at, listed);
    case FeedDecline(rider) =>
  }

  lemma {:induction false} RunTraced(s: Chain, es: seq<Event>)
    requires Fresh(s)
    ensures Traced(Run(s, es), EverListed(es))
  {
    if es != [] {
      RunTraced(s, es[..|es| - 1]);
      StepTraced(Run(s, es[..|es| - 1]), es[|es| - 1], EverListed(es[..|es| - 1]));
    }
  }

  /** In every run, with any number of starts: as long as no start comes at or
      after the expiry of the accepted key, a successful accept is the only one.
      The winner was on a list and is the rider most recently offered the order;
      whatever comes later offers the order to nobody, does not announce it, and
      leaves the order row assigned to the winner. */
  lemma {:induction false} AcceptedOnceUntilExpiry(s: Chain, es: seq<Event>, i: nat, j: nat)
    requires Fresh(s) && i < j <= |es|
    requires Wins(Run(s, es[..i]), es[i]) && StartsBefore(es[i + 1..j], es[i].at + 3_600_000)
    ensures es[i].call.rider in EverListed(es[..i])
    ensures Run(s, es[..i]).offered != [] && Run(s, es[..i]).offered[|Run(s, es[..i]).offered| - 1].raiderId == es[i].call.rider
    ensures s.order.Some? ==> Run(s, es[..j]).order == Some(Order(Ongoing, Some(es[i].call.rider), true, Some(es[i].at)))
    ensures Run(s, es[..j]).offered == Run(s, es[..i]).offered && Run(s, es[..j]).broadcasts == Run(s, es[..i]).broadcasts
    ensures j < |es| ==> !Wins(Run(s, es[..j]), es[j])
  {
    var t := Run(s, es[..i]);
    RunTraced(s, es[..i]);
    assert t.offered[|t.offered| - 1] in t.offered;
    RowStays(s, es[..i]);
    assert es[..i + 1][..i] == es[..i];
    assert Run(s, es[..i + 1]) == Step(t, es[i]);
    assert es[..j][..i + 1] == es[..i + 1] && es[..j][i + 1..] == es[i + 1..j];
    LockedStays(s, es[..j], i + 1);
  }

  lemma {:induction false} NoSecondStart(es: seq<Event>, i: nat)
    requires OneStart(es) && i <= |es| && Started(es[..i]).Some?
    ensures forall k | i <= k < |es| :: !es[k].call.Start?
  {
    if es[i - 1].call.Start? {
      assert forall k | i <= k < |es| :: !(es[i - 1].call.Start? && es[k].call.Start?);
    } else {
      assert es[..i][..i - 1] == es[..i - 1];
      NoSecondStart(es, i - 1);
    }
  }

  /** In a run with at most one start, a successful accept is the only one. The
      winner was on the eligible list and is the rider most recently offered the
      order; whatever comes later, including the expiry of the accepted key, offers
      the order to nobody, does not announce it, and leaves the order row assigned
      to the winner. */
  lemma {:induction false} AcceptedOnce(s: Chain, es: seq<Event>, i: nat, j: nat)
    requires Fresh(s) && OneStart(es) && i < j <= |es|
    requires Wins(Run(s, es[..i]), es[i])
    ensures Started(es[..i]).Some? && es[i].call.rider in Ids(Started(es[..i]).value)
    ensures Run(s, es[..i]).offered != [] && Run(s, es[..i]).offered[|Run(s, es[..i]).offered| - 1].raiderId == es[i].call.rider
    ensures s.order.Some? ==> Run(s, es[..j]).order == Some(Order(Ongoing, Some(es[i].call.rider), true, Some(es[i].at)))
    ensures Run(s, es[..j]).offered == Run(s, es[..i]).offered && Run(s, es[..j]).broadcasts == Run(s, es[..i]).broadcasts
    ensures j < |es| ==> !Wins(Run(s, es[..j]), es[j])
  {
    RunSound(s, es[..i]);
    WinnerListed(Run(s, es[..i]), es[i], Started(es[..i]));
    NoSecondStart(es, i);
    AcceptedOnceUntilExpiry(s, es, i, j);
  }

  lemma WinnerListed(s: Chain, e: Event, eligible: Option<seq<Driver>>)
    requires Sound(s, eligible) && Wins(s, e)
    ensures eligible.Some? && e.call.rider in Ids(eligible.value)
  {
    assert s.offered[|s.offered| - 1] in eligible.value;
  }

  /** The bound on later starts is exact: a start leaves an accepted order alone
      if and only if the accepted key lives. After its hour the chain starts again
      and the order can be offered, announced and reassigned. */
  lemma RestartHarmlessIff(s: Chain, now: int, list: seq<Driver>)
    requires Locked(s) && s.order.Some?
    ensures StartChain(s, now, list) == s <==> now < s.accepted.expiresAt
    ensures now >= s.accepted.expiresAt && list != [] ==>
      Wins(StartChain(s, now, list), Event(now, Accept(list[0].raiderId)))
  {
    var t := StartChain(s, now, list);
    assert now >= s.accepted.expiresAt ==> t.broadcasts == s.broadcasts + 1 || t.active.Entry?;
  }

  /** No handler creates or removes the order row. */
  lemma {:induction false} RowStays(s: Chain, es: seq<Event>)
    ensures Run(s, es).order.Some? <==> s.order.Some?
  {
    if es != [] {
      RowStays(s, es[..|es| - 1]);
    }
  }

  /** Offered riders followed by the stored queue are the eligible list, so riders
      are offered in order and at most once each; the public queue is reached only
      after all of them were offered, and until somebody accepts the order is PENDING there. */
  lemma {:induction false} OfferedPrefix(s: Chain, es: seq<Event>)
    requires Fresh(s) && OneStart(es) && Started(es).Some?
    ensures var t, list := Run(s, es), Started(es).value;
      && t.offered <= list
      && (t.queue.Entry? ==> t.offered + t.queue.value == list)
      && (t.broadcasts > 0 ==> t.offered == list)
      && (t.broadcasts > 0 && t.accepted.NoEntry? ==> t.order.Some? && t.order.value.status == Pending)
      && (Distinct(list) ==> Distinct(t.offered))
  {
    RunSound(s, es);
  }

  /** A rider who answers or times out while holding the popup always finds the
      queue key alive: it outlives the popup. So the chain never falls into the
      public queue because its queue expired. */
  lemma {:induction false} QueueOutlivesPopup(s: Chain, es: seq<Event>, now: int, rider: int)
    requires Fresh(s) && OneStart(es) && Holds(Run(s, es), now, rider)
    ensures Run(s, es).queue.Get(now).Some? && Run(s, es).accepted.NoEntry?
  {
    RunSound(s, es);
  }

  /** The only job that can be pending is the active rider's, due five seconds
      before the popup's key expires. */
  predicate OneJob(s: Chain) {
    || s.jobs == map[]
    || (s.active.Entry? && s.accepted.NoEntry? && s.jobs == map[s.active.value := s.active.expiresAt - (ACTIVE_TTL - POPUP_TIMEOUT)])
  }

  lemma NextOneJob(s: Chain, now: int, list: seq<Driver>, jobs: map<int, int>, declines: set<int>)
    requires Sound(s, Some(list)) && Distinct(list) && s.active.Entry? && now < s.active.expiresAt
    requires jobs.Keys <= {s.active.value}
    ensures var t := PopupNext(s.(jobs := jobs, declines := declines), now);
      OneJob(t.(jobs := t.jobs - {s.active.value}))
    ensures jobs == map[] ==> OneJob(PopupNext(s.(jobs := jobs, declines := declines), now))
  {
    var k := |s.offered|;
    assert list[k - 1] == s.offered[k - 1];
    if s.queue.value != [] {
      assert list[k] == s.queue.value[0];
      assert list[k].raiderId != list[k - 1].raiderId;
    }
  }

  lemma StepOneJob(s: Chain, e: Event, list: seq<Driver>)
    requires Sound(s, Some(list)) && Distinct(list) && OneJob(s) && !e.call.Start?
    ensures OneJob(Step(s, e))
  {
    match e.call
    case Accept(rider) =>
    case Decline(rider) =>
      if Holds(s, e.at, rider) {
        assert s.jobs - {rider} == map[];
        NextOneJob(s, e.at, list, s.jobs - {rider}, s.declines + {rider});
      }
    case Timeout(rider) =>
      if Holds(s, e.at, rider) {
        NextOneJob(s, e.at, list, s.jobs, s.declines);
        assert s.(jobs := s.jobs, declines := s.declines) == s;
      }
    case FeedDecline(_) =>
  }

  lemma {:induction false} RunOneJob(s: Chain, es: seq<Event>)
    requires Fresh(s) && OneStart(es) && (Started(es).Some? ==> Distinct(Started(es).value))
    ensures OneJob(Run(s, es))
  {
    if es != [] {
      var before, e := es[..|es| - 1], es[|es| - 1];
      RunSound(s, before);
      if e.call.Start? {
        NoStart(before);
      } else {
        RunOneJob(s, before);
        if Started(before).Some? {
          StepOneJob(Run(s, before), e, Started(before).value);
        }
      }
    }
  }

  // ---------- The service ----------

  class AutoPopupService {
    var queueKey: Entry<seq<Driver>>
    var activeKey: Entry<int>
    var acceptedKey: Entry<int>
    var jobs: map<int, int>
    var order: Option<Order>
    var declines: set<int>
    var offered: seq<Driver>
    var broadcasts: nat

    ghost function View(): Chain
      reads this
    {
      Chain(queueKey, activeKey, acceptedKey, jobs, order, declines, offered, broadcasts)
    }

    constructor (order: Option<Order>, declines: set<int>)
      ensures Fresh(View()) && this.order == order && this.declines == declines
    {
      queueKey, activeKey, acceptedKey, jobs := NoEntry, NoEntry, NoEntry, map[];
      this.order, this.declines, offered, broadcasts := order, declines, [], 0;
    }

    method MoveToPublicQueue()
      modifies this
      ensures View() == ToPublicQueue(old(View()))
    {
      if order.None? {
        return;
      }
      order := Some(order.value.(status := Pending));
      broadcasts := broadcasts + 1;
    }

    method PopupNextDriver(now: int)
      modifies this
      ensures View() == PopupNext(old(View()), now)
    {
      if acceptedKey.Get(now).Some? {
        return;
      }
      var raw := queueKey.Get(now);
      if raw.None? {
        MoveToPublicQueue();
        return;
      }
      var queue := raw.value;
      if |queue| == 0 {
        MoveToPublicQueue();
        return;
      }
      var driver := queue[0];
      queue := queue[1..];
      queueKey := Entry(queue, now + QUEUE_TTL);
      activeKey := Entry(driver.raiderId, now + (POPUP_TIMEOUT + 5_000));
      offered := offered + [driver];
      if order.None? {
        return;
      }
      if driver.raiderId !in jobs {
        jobs := jobs[driver.raiderId := now + POPUP_TIMEOUT];
      }
    }

    /** `eligible` is what the search for riders returned. */
    method StartPopupChain(now: int, eligible: seq<Driver>)
      modifies this
      ensures View() == StartChain(old(View()), now, eligible)
    {
      if acceptedKey.Get(now).Some? {
        return;
      }
      if |eligible| == 0 {
        MoveToPublicQueue();
        return;
      }
      queueKey := Entry(eligible, now + QUEUE_TTL);
      PopupNextDriver(now);
    }

    /** `ok` is false when the handler throws. */
    method HandleDriverAccepted(now: int, rider: int) returns (ok: bool)
      modifies this
      ensures View() == AcceptBy(old(View()), now, rider)
      ensures ok <==> old(Holds(View(), now, rider) && order.Some?)
    {
      var activeRaider := activeKey.Get(now);
      if activeRaider.None? || activeRaider.value != rider {
        return false;
      }
      acceptedKey := Entry(rider, now + ACCEPTED_TTL);
      queueKey := NoEntry;
      activeKey := NoEntry;
      jobs := jobs - {rider};
      if order.None? {
        return false;
      }
      order := Some(Order(Ongoing, Some(rider), true, Some(now)));
      return true;
    }

    method HandleDriverDeclined(now: int, rider: int) returns (ok: bool)
      modifies this
      ensures View() == DeclineBy(old(View()), now, rider)
      ensures !ok <==> old(Holds(View(), now, rider) && (order.None? || rider in declines))
    {
      var activeRaider := activeKey.Get(now);
      if activeRaider.None? || activeRaider.value != rider {
        return true;
      }
      jobs := jobs - {rider};
      if order.None? || rider in declines {
        return false;
      }
      declines := declines + {rider};
      PopupNextDriver(now);
      return true;
    }

    /** The order feed's decline, which writes to the same table; `ok` is false when it throws. */
    method DeclineOrderInFeed(rider: int) returns (ok: bool)
      modifies this
      ensures View() == FeedDeclineBy(old(View()), rider)
      ensures ok <==> old(order.Some? && order.value.status == Pending && rider !in declines)
    {
      if order.None? || order.value.status != Pending {
        return false;
      }
      if rider in declines {
        return false;
      }
      declines := declines + {rider};
      return true;
    }

    method HandlePopupTimeout(now: int, rider: int)
      modifies this
      ensures View() == TimeoutOf(old(View()), now, rider)
    {
      if acceptedKey.Get(now).None? {
        var activeRaider := activeKey.Get(now);
        if activeRaider.Some? && activeRaider.value == rider {
          PopupNextDriver(now);
        }
      }
      jobs := jobs - {rider};
    }
  }
}
