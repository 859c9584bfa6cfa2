/** Orders, rider availability and online sessions under interleaved competition
    jobs, go-online, go-offline and logout steps. Each step is atomic and carries
    the clock reading, in milliseconds, that it uses. */
module Fleet {
  import opened Common
  import opened Rounding
  import opened Competition

  datatype Session = Session(startAt: int, endAt: Option<int>)

  datatype Rider = Rider(online: bool, available: bool, sessions: seq<Session>)

  datatype Order = Order(status: OrderStatus, rider: Option<int>, competitionClosed: bool, competitors: seq<int>)

  datatype State = State(orders: map<int, Order>, riders: map<int, Rider>)

  /** What a competition job reads besides the order: `ready` says that a pickup
      with coordinates and a configuration exist. */
  datatype Job = Job(order: int, ready: bool, infos: map<int, RiderInfo>, weights: Weights)

  datatype Step =
    | GoOnline(rider: int)
    | GoOffline(rider: int)
    | Logout(rider: int)
    | Compete(job: Job)
    | AcceptPopup(order: int, rider: int)

  datatype Event = Event(at: int, step: Step)

  // ---------- The steps as state functions ----------

  predicate HasOpen(ss: seq<Session>) {
    exists i | 0 <= i < |ss| :: ss[i].endAt.None?
  }

  /** Closes the latest open session. */
  function CloseLatest(ss: seq<Session>, now: int): seq<Session> {
    if ss == [] then []
    else if ss[|ss| - 1].endAt.None? then ss[|ss| - 1 := ss[|ss| - 1].(endAt := Some(now))]
    else CloseLatest(ss[..|ss| - 1], now) + [ss[|ss| - 1]]
  }

  function OpenOnce(ss: seq<Session>, now: int): seq<Session> {
    if HasOpen(ss) then ss else ss + [Session(now, None)]
  }

  predicate Busy(s: State, rider: int) {
    exists o | o in s.orders :: s.orders[o].rider == Some(rider) && s.orders[o].status == Ongoing
  }

  /** The rider the job would assign, absent when the job stops early. */
  function Winner(s: State, job: Job): Option<int> {
    if job.order !in s.orders || s.orders[job.order].competitionClosed || !job.ready then None
    else
      match SelectWinner(s.orders[job.order].competitors, job.infos, job.weights)
      case None => None
      case Some(w) => if w.detail.driverId in s.riders then Some(w.detail.driverId) else None
  }

  function Apply(s: State, e: Event): State {
    match e.step
    case GoOnline(r) =>
      if r !in s.riders then s
      else s.(riders := s.riders[r := Rider(true, !Busy(s, r), OpenOnce(s.riders[r].sessions, e.at))])
    case GoOffline(r) =>
      if r !in s.riders then s
      else s.(riders := s.riders[r := Rider(false, false, CloseLatest(s.riders[r].sessions, e.at))])
    case Logout(r) =>
      if r !in s.riders then s
      else s.(riders := s.riders[r := s.riders[r].(online := false, sessions := CloseLatest(s.riders[r].sessions, e.at))])
    case Compete(job) =>
      var winner := Winner(s, job);
      if winner.None? then s
      else State(
        s.orders[job.order := s.orders[job.order].(rider := winner, competitionClosed := true, status := Ongoing)],
        s.riders[winner.value := s.riders[winner.value].(available := false)])
    case AcceptPopup(o, r) =>
      if o !in s.orders then s
      else s.(orders := s.orders[o := s.orders[o].(rider := Some(r), status := Ongoing)])
  }

  function Run(s: State, es: seq<Event>): State {
    if es == [] then s else Apply(Run(s, es[..|es| - 1]), es[|es| - 1])
  }

  // ---------- Availability ----------

  /** No rider marked available holds an ONGOING order. */
  predicate AvailableAreFree(s: State) {
    forall r | r in s.riders && s.riders[r].available :: !Busy(s, r)
  }

  /** Accepting a popup does not touch the availability flag. */
  predicate AcceptsWhileAvailable(s: State, e: Event) {
    e.step.AcceptPopup? && e.step.order in s.orders && e.step.rider in s.riders && s.riders[e.step.rider].available
  }

  lemma ReassignBusy(s: State, t: State, order: int, rider: int)
    requires order in s.orders && t.orders.Keys == s.orders.Keys
    requires forall o | o in s.orders && o != order :: t.orders[o] == s.orders[o]
    requires t.orders[order].rider == Some(rider) && t.orders[order].status == Ongoing
    ensures Busy(t, rider)
    ensures forall r | r != rider && Busy(t, r) :: Busy(s, r)
  {
    forall r | r != rider && Busy(t, r)
      ensures Busy(s, r)
    {
      var o :| o in t.orders && t.orders[o].rider == Some(r) && t.orders[o].status == Ongoing;
      assert o != order && s.orders[o] == t.orders[o];
    }
  }

  /** A step keeps available riders free of ONGOING orders if and only if it is not
      a popup accepted by a rider who is marked available. */
  lemma ApplyFreeIff(s: State, e: Event)
    requires AvailableAreFree(s)
    ensures AvailableAreFree(Apply(s, e)) <==> !AcceptsWhileAvailable(s, e)
  {
    var t := Apply(s, e);
    match e.step
    case GoOnline(r) => assert t.orders == s.orders && forall x :: Busy(t, x) == Busy(s, x);
    case GoOffline(r) => assert t.orders == s.orders && forall x :: Busy(t, x) == Busy(s, x);
    case Logout(r) => assert t.orders == s.orders && forall x :: Busy(t, x) == Busy(s, x);
    case Compete(job) =>
      if Winner(s, job).Some? {
        ReassignBusy(s, t, job.order, Winner(s, job).value);
      }
    case AcceptPopup(o, r) =>
      if o in s.orders {
        ReassignBusy(s, t, o, r);
      }
  }

  /** Over every interleaving of competition jobs, redelivered or not, with
      go-online, go-offline and logout, a rider holding an ONGOING order is never
      marked available. */
  lemma {:induction false} RunFree(s: State, es: seq<Event>)
    requires AvailableAreFree(s) && forall i | 0 <= i < |es| :: !es[i].step.AcceptPopup?
    ensures AvailableAreFree(Run(s, es))
  {
    if es != [] {
      RunFree(s, es[..|es| - 1]);
      ApplyFreeIff(Run(s, es[..|es| - 1]), es[|es| - 1]);
    }
  }

  /** The step is a competition job that assigns the order. */
  predicate Assigns(s: State, e: Event, order: int) {
    e.step.Compete? && e.step.job.order == order && Winner(s, e.step.job).Some?
  }

  predicate Closed(s: State, order: int) {
    order in s.orders && s.orders[order].competitionClosed
  }

  lemma ClosedStep(s: State, e: Event, order: int)
    requires Closed(s, order)
    ensures Closed(Apply(s, e), order)
  {
  }

  lemma {:induction false} ClosedStays(s: State, es: seq<Event>, i: nat, order: int)
    requires i <= |es| && Closed(Run(s, es[..i]), order)
    ensures Closed(Run(s, es), order)
  {
    if i == |es| {
      assert es[..i] == es;
    } else {
      assert es[..|es| - 1][..i] == es[..i];
      ClosedStays(s, es[..|es| - 1], i, order);
      ClosedStep(Run(s, es[..|es| - 1]), es[|es| - 1], order);
    }
  }

  /** An order is assigned by competition at most once, however often its job is delivered. */
  lemma {:induction false} AssignedOnce(s: State, es: seq<Event>, i: nat, j: nat, order: int)
    requires i < j < |es| && Assigns(Run(s, es[..i]), es[i], order)
    ensures !Assigns(Run(s, es[..j]), es[j], order)
  {
    assert es[..i + 1][..i] == es[..i];
    assert es[..j][..i + 1] == es[..i + 1];
    ClosedStays(s, es[..j], i + 1, order);
  }

  // ---------- What one step does to the rows ----------

  /** The orders that are ONGOING with the rider. */
  function Carried(s: State, rider: int): set<int> {
    set o | o in s.orders && s.orders[o].status == Ongoing && s.orders[o].rider == Some(rider)
  }

  /** Going online sets the flag and makes a rider available exactly when it carries
      no order; going offline clears both flags; logging out only the online flag;
      winning a competition only the availability; nothing else touches a rider's flags. */
  lemma FlagsAfter(s: State, e: Event, rider: int)
    requires rider in s.riders
    ensures rider in Apply(s, e).riders
    ensures var before, after := s.riders[rider], Apply(s, e).riders[rider];
      && after.online == (e.step == GoOnline(rider) || (before.online && e.step != GoOffline(rider) && e.step != Logout(rider)))
      && (e.step == GoOnline(rider) ==> (after.available <==> Carried(s, rider) == {}))
      && (e.step == GoOffline(rider) ==> !after.available)
      && (e.step != GoOnline(rider) && e.step != GoOffline(rider) ==>
        (after.available <==> before.available && !(e.step.Compete? && Winner(s, e.step.job) == Some(rider))))
  {
    CarriedIff(s, rider);
  }

  lemma CarriedIff(s: State, rider: int)
    ensures Carried(s, rider) != {} <==> Busy(s, rider)
  {
    if Busy(s, rider) {
      var o :| o in s.orders && s.orders[o].rider == Some(rider) && s.orders[o].status == Ongoing;
      assert o in Carried(s, rider);
    }
    if !Busy(s, rider) {
      assert forall o :: o !in Carried(s, rider);
    }
  }

  /** A competition gives its order to the winner and closes it, a popup accept gives
      it to the accepting rider; both make it ONGOING, and no other order changes. */
  lemma OrderAfter(s: State, e: Event, order: int)
    requires order in s.orders
    ensures order in Apply(s, e).orders
    ensures OrderFollows(s.orders[order], Apply(s, e).orders[order], e, order, if Assigns(s, e, order) then Winner(s, e.step.job) else None)
  {
    match e.step
    case GoOnline(_) =>
    case GoOffline(_) =>
    case Logout(_) =>
    case Compete(_) =>
    case AcceptPopup(_, _) =>
  }

  predicate OrderFollows(before: Order, after: Order, e: Event, order: int, winner: Option<int>) {
    && after.competitors == before.competitors
    && (winner.Some? ==> after.rider == winner && after.status == Ongoing && after.competitionClosed)
    && (e.step.AcceptPopup? && e.step.order == order ==>
      after.rider == Some(e.step.rider) && after.status == Ongoing && after.competitionClosed == before.competitionClosed)
    && (winner.None? && !(e.step.AcceptPopup? && e.step.order == order) ==> after == before)
  }

  /** A job assigns exactly when its order exists, is open and ready, a competitor
      is in the race, and the rider chosen is known; it chooses as the competition does. */
  lemma WinnerIff(s: State, job: Job)
    ensures Winner(s, job).Some? <==>
      && job.order in s.orders && !s.orders[job.order].competitionClosed && job.ready
      && SelectWinner(s.orders[job.order].competitors, job.infos, job.weights).Some?
      && SelectWinner(s.orders[job.order].competitors, job.infos, job.weights).value.detail.driverId in s.riders
    ensures Winner(s, job).Some? ==>
      && job.order in s.orders && Winner(s, job) == Chosen(s.orders[job.order].competitors, job)
      && Winner(s, job).value in s.orders[job.order].competitors && InRace(Winner(s, job).value, job.infos)
  {
    if job.order in s.orders {
      WinnerByFigures(s.orders[job.order].competitors, job.infos, job.weights);
    }
  }

  function Chosen(competitors: seq<int>, job: Job): Option<int> {
    var w := SelectWinner(competitors, job.infos, job.weights);
    if w.Some? then Some(w.value.detail.driverId) else None
  }

  // ---------- Sessions ----------

  /** Sessions follow one another: each is closed before the next one starts, so
      only the last can be open, and none reaches past `now`. */
  predicate InOrder(ss: seq<Session>, now: int) {
    && (forall i | 0 <= i < |ss| :: Within(ss[i], now))
    && (forall i, j | 0 <= i < j < |ss| :: Before(ss[i], ss[j]))
  }

  predicate Within(s: Session, now: int) {
    s.startAt <= now && (s.endAt.Some? ==> s.startAt <= s.endAt.value <= now)
  }

  predicate Before(s: Session, t: Session) {
    s.endAt.Some? && s.endAt.value <= t.startAt
  }

  lemma PrefixInOrder(ss: seq<Session>, now: int)
    requires InOrder(ss, now) && ss != []
    ensures InOrder(ss[..|ss| - 1], now)
    ensures forall i | 0 <= i < |ss| - 1 :: ss[i].endAt.Some?
  {
    var rest := ss[..|ss| - 1];
    forall i | 0 <= i < |rest|
      ensures Within(rest[i], now) && ss[i].endAt.Some?
    {
      assert rest[i] == ss[i] && Before(ss[i], ss[|ss| - 1]);
    }
    forall i, j | 0 <= i < j < |rest|
      ensures Before(rest[i], rest[j])
    {
      assert rest[i] == ss[i] && rest[j] == ss[j];
    }
  }

  lemma {:induction false} CloseInOrder(ss: seq<Session>, before: int, now: int)
    requires InOrder(ss, before) && before <= now
    ensures InOrder(CloseLatest(ss, now), now) && |CloseLatest(ss, now)| == |ss|
    ensures !HasOpen(CloseLatest(ss, now))
  {
    LaterInOrder(ss, before, now);
    if ss != [] {
      PrefixInOrder(ss, before);
      if ss[|ss| - 1].endAt.Some? {
        AllClosed(ss, now);
      } else {
        LastChanged(ss, ss[|ss| - 1].(endAt := Some(now)), now);
      }
    }
  }

  lemma LastChanged(ss: seq<Session>, last: Session, now: int)
    requires InOrder(ss, now) && ss != []
    requires last.startAt == ss[|ss| - 1].startAt && Within(last, now)
    ensures InOrder(ss[|ss| - 1 := last], now)
  {
    var tt := ss[|ss| - 1 := last];
    forall i | 0 <= i < |tt|
      ensures Within(tt[i], now)
    {
      assert i < |ss| - 1 ==> tt[i] == ss[i];
    }
    forall i, j | 0 <= i < j < |tt|
      ensures Before(tt[i], tt[j])
    {
      assert tt[i] == ss[i] && tt[j].startAt == ss[j].startAt && Before(ss[i], ss[j]);
    }
  }

  lemma {:induction false} AllClosed(ss: seq<Session>, now: int)
    requires forall i | 0 <= i < |ss| :: ss[i].endAt.Some?
    ensures CloseLatest(ss, now) == ss
  {
    if ss != [] {
      AllClosed(ss[..|ss| - 1], now);
    }
  }

  lemma OpenInOrder(ss: seq<Session>, before: int, now: int)
    requires InOrder(ss, before) && before <= now
    ensures InOrder(OpenOnce(ss, now), now)
    ensures ss <= OpenOnce(ss, now)
  {
    LaterInOrder(ss, before, now);
    var tt := OpenOnce(ss, now);
    forall i, j | 0 <= i < j < |tt|
      ensures Before(tt[i], tt[j])
    {
      assert tt[i] == ss[i];
      if j < |ss| {
        assert tt[j] == ss[j] && Before(ss[i], ss[j]);
      } else {
        assert ss[i].endAt.Some? && Within(ss[i], before);
      }
    }
  }

  lemma LaterInOrder(ss: seq<Session>, before: int, now: int)
    requires InOrder(ss, before) && before <= now
    ensures InOrder(ss, now)
  {
    forall i | 0 <= i < |ss|
      ensures Within(ss[i], now)
    {
      assert Within(ss[i], before);
    }
  }

  predicate SessionsInOrder(s: State, now: int) {
    forall r | r in s.riders :: InOrder(s.riders[r].sessions, now)
  }

  lemma ApplySessions(s: State, e: Event, before: int)
    requires SessionsInOrder(s, before) && before <= e.at
    ensures SessionsInOrder(Apply(s, e), e.at)
  {
    forall r | r in Apply(s, e).riders
      ensures InOrder(Apply(s, e).riders[r].sessions, e.at)
    {
      ApplySessionsOf(s, e, before, r);
    }
  }

  lemma ApplySessionsOf(s: State, e: Event, before: int, r: int)
    requires r in s.riders && InOrder(s.riders[r].sessions, before) && before <= e.at
    ensures r in Apply(s, e).riders && InOrder(Apply(s, e).riders[r].sessions, e.at)
  {
    var ss := s.riders[r].sessions;
    CloseInOrder(ss, before, e.at);
    OpenInOrder(ss, before, e.at);
    LaterInOrder(ss, before, e.at);
    assert Apply(s, e).riders[r].sessions in {ss, CloseLatest(ss, e.at), OpenOnce(ss, e.at)};
  }

  predicate MonotoneClock(es: seq<Event>, from: int, to: int) {
    && from <= to
    && (forall i | 0 <= i < |es| :: from <= es[i].at <= to)
    && (forall i, j | 0 <= i < j < |es| :: es[i].at <= es[j].at)
  }

  /** With a clock that never runs backwards a rider has at most one open session, and no two sessions overlap. */
  lemma {:induction false} RunSessions(s: State, es: seq<Event>, from: int, to: int)
    requires SessionsInOrder(s, from) && MonotoneClock(es, from, to)
    ensures SessionsInOrder(Run(s, es), to)
  {
    if es != [] {
      var at := es[|es| - 1].at;
      RunSessions(s, es[..|es| - 1], from, at);
      ApplySessions(Run(s, es[..|es| - 1]), es[|es| - 1], at);
    }
    forall r | r in Run(s, es).riders
      ensures InOrder(Run(s, es).riders[r].sessions, to)
    {
      LaterInOrder(Run(s, es).riders[r].sessions, if es == [] then from else es[|es| - 1].at, to);
    }
  }

  /** An open session counts up to `now`. */
  function EndOf(session: Session, now: int): int {
    session.endAt.GetOr(now)
  }

  function OnlineTime(ss: seq<Session>, now: int): int {
    if ss == [] then 0
    else OnlineTime(ss[..|ss| - 1], now) + (EndOf(ss[|ss| - 1], now) - ss[|ss| - 1].startAt)
  }

  /** The ONLINE_HOURS metric. */
  function OnlineHours(ss: seq<Session>, now: int): real {
    To2(OnlineTime(ss, now) as real / 3_600_000.0)
  }

  lemma {:induction false} OnlineTimeBounded(ss: seq<Session>, now: int)
    requires InOrder(ss, now) && ss != []
    ensures 0 <= OnlineTime(ss, now) <= EndOf(ss[|ss| - 1], now) - ss[0].startAt
  {
    assert Within(ss[|ss| - 1], now);
    if |ss| > 1 {
      PrefixInOrder(ss, now);
      OnlineTimeBounded(ss[..|ss| - 1], now);
      assert Before(ss[|ss| - 2], ss[|ss| - 1]);
    }
  }

  /** ONLINE_HOURS never exceeds the time since the first session by more than the rounding of two decimals. */
  lemma {:induction false} OnlineHoursBounded(s: State, es: seq<Event>, from: int, now: int, rider: int)
    requires SessionsInOrder(s, from) && MonotoneClock(es, from, now)
    requires rider in Run(s, es).riders && Run(s, es).riders[rider].sessions != []
    ensures var ss := Run(s, es).riders[rider].sessions;
      0.0 <= OnlineHours(ss, now) <= (now - ss[0].startAt) as real / 3_600_000.0 + 0.005
  {
    RunSessions(s, es, from, now);
    var ss := Run(s, es).riders[rider].sessions;
    OnlineTimeBounded(ss, now);
    To2Near(OnlineTime(ss, now) as real / 3_600_000.0);
    To2Monotone(0.0, OnlineTime(ss, now) as real / 3_600_000.0);
    To2Fixed(0);
  }

  /** A rider is online exactly while one of its sessions is open. */
  predicate OnlineIffOpen(r: Rider) {
    r.online <==> HasOpen(r.sessions)
  }

  lemma {:induction false} ClosedHasNoOpen(ss: seq<Session>, now: int)
    requires !HasOpen(ss)
    ensures CloseLatest(ss, now) == ss
  {
    AllClosed(ss, now);
  }

  /** Between two readings of the clock exactly an open session gains the time that passed. */
  lemma {:induction false} OnlineTimePasses(ss: seq<Session>, before: int, now: int)
    requires InOrder(ss, before) && before <= now
    ensures OnlineTime(ss, now) == OnlineTime(ss, before) + if HasOpen(ss) then now - before else 0
  {
    if ss != [] {
      var rest := ss[..|ss| - 1];
      PrefixInOrder(ss, before);
      OnlineTimePasses(rest, before, now);
      assert !HasOpen(rest);
      assert HasOpen(ss) ==> ss[|ss| - 1].endAt.None?;
    }
  }

  /** Opening or closing a session at the current time changes no online time. */
  lemma {:induction false} SwitchKeepsTime(ss: seq<Session>, now: int)
    requires InOrder(ss, now)
    ensures OnlineTime(OpenOnce(ss, now), now) == OnlineTime(ss, now)
    ensures OnlineTime(CloseLatest(ss, now), now) == OnlineTime(ss, now)
  {
    assert (ss + [Session(now, None)])[..|ss|] == ss;
    if ss != [] {
      if ss[|ss| - 1].endAt.Some? {
        ClosedHasNoOpen(ss, now);
      } else {
        assert CloseLatest(ss, now)[..|ss| - 1] == ss[..|ss| - 1];
        SameTime(ss[..|ss| - 1], CloseLatest(ss, now)[..|ss| - 1], now);
      }
    }
  }

  lemma {:induction false} SameTime(ss: seq<Session>, tt: seq<Session>, now: int)
    requires ss == tt
    ensures OnlineTime(ss, now) == OnlineTime(tt, now)
  {
  }

  /** What a step may do to the online flag and the sessions of a rider. */
  predicate Switched(before: Rider, after: Rider, now: int) {
    || (after.online == before.online && after.sessions == before.sessions)
    || (after.online && after.sessions == OpenOnce(before.sessions, now))
    || (!after.online && after.sessions == CloseLatest(before.sessions, now))
  }

  lemma ApplySwitches(s: State, e: Event, rider: int)
    requires rider in s.riders
    ensures rider in Apply(s, e).riders && Switched(s.riders[rider], Apply(s, e).riders[rider], e.at)
  {
    match e.step
    case GoOnline(r) =>
    case GoOffline(r) =>
    case Logout(r) =>
    case Compete(job) =>
      var winner := Winner(s, job);
      assert winner.Some? ==> winner.value in s.riders;
    case AcceptPopup(_, _) =>
  }

  lemma {:induction false} SwitchOnline(before: Rider, after: Rider, now: int)
    requires OnlineIffOpen(before) && InOrder(before.sessions, now) && Switched(before, after, now)
    ensures OnlineIffOpen(after) && OnlineTime(after.sessions, now) == OnlineTime(before.sessions, now)
  {
    var ss := before.sessions;
    CloseInOrder(ss, now, now);
    SwitchKeepsTime(ss, now);
    if !HasOpen(ss) {
      assert OpenOnce(ss, now)[|ss|].endAt.None?;
    }
  }

  /** The time between `from` and `now` that the rider spent with the online flag set. */
  function FlaggedTime(s: State, es: seq<Event>, from: int, now: int, rider: int): int {
    var online := rider in Run(s, es).riders && Run(s, es).riders[rider].online;
    if es == [] then (if online then now - from else 0)
    else
      var last := es[|es| - 1].at;
      FlaggedTime(s, es[..|es| - 1], from, last, rider) + if online then now - last else 0
  }

  /** Over every run with a monotone clock the sessions measure exactly the time
      the rider was online: nothing is counted twice, lost, or counted offline. */
  lemma {:induction false} SessionsMeasureOnlineTime(s: State, es: seq<Event>, from: int, now: int, rider: int)
    requires SessionsInOrder(s, from) && MonotoneClock(es, from, now)
    requires rider in s.riders && OnlineIffOpen(s.riders[rider])
    ensures rider in Run(s, es).riders && OnlineIffOpen(Run(s, es).riders[rider])
    ensures OnlineTime(Run(s, es).riders[rider].sessions, now)
      == OnlineTime(s.riders[rider].sessions, from) + FlaggedTime(s, es, from, now, rider)
  {
    if es == [] {
      OnlineTimePasses(s.riders[rider].sessions, from, now);
    } else {
      var before, e := es[..|es| - 1], es[|es| - 1];
      SessionsMeasureOnlineTime(s, before, from, e.at, rider);
      RunSessions(s, before, from, e.at);
      ApplySwitches(Run(s, before), e, rider);
      SwitchOnline(Run(s, before).riders[rider], Run(s, es).riders[rider], e.at);
      ApplySessions(Run(s, before), e, e.at);
      OnlineTimePasses(Run(s, es).riders[rider].sessions, e.at, now);
    }
  }

  /** ONLINE_HOURS of a rider that started without sessions is the time spent
      online, in hours, to the nearest hundredth. */
  lemma {:induction false} OnlineHoursExact(s: State, es: seq<Event>, from: int, now: int, rider: int)
    requires SessionsInOrder(s, from) && MonotoneClock(es, from, now)
    requires rider in s.riders && !s.riders[rider].online && s.riders[rider].sessions == []
    ensures rider in Run(s, es).riders
    ensures Abs(OnlineHours(Run(s, es).riders[rider].sessions, now) - FlaggedTime(s, es, from, now, rider) as real / 3_600_000.0) <= 0.005
  {
    SessionsMeasureOnlineTime(s, es, from, now, rider);
    To2Near(OnlineTime(Run(s, es).riders[rider].sessions, now) as real / 3_600_000.0);
  }

  // ---------- The services ----------

  class RaiderService {
    var orders: map<int, Order>
    var riders: map<int, Rider>

    ghost function View(): State
      reads this
    {
      State(orders, riders)
    }

    constructor (s: State)
      ensures View() == s
    {
      orders, riders := s.orders, s.riders;
    }

    method SetOnline(rider: int, now: int)
      modifies this
      ensures View() == Apply(old(View()), Event(now, GoOnline(rider)))
      ensures old(AvailableAreFree(View())) ==> AvailableAreFree(View())
    {
      if AvailableAreFree(View()) {
        ApplyFreeIff(View(), Event(now, GoOnline(rider)));
      }
      if rider !in riders {
        return;
      }
      var r := riders[rider];
      if !HasOpen(r.sessions) {
        r := r.(sessions := r.sessions + [Session(now, None)]);
      }
      var ongoing := exists o | o in orders :: orders[o].rider == Some(rider) && orders[o].status == Ongoing;
      r := r.(online := true, available := !ongoing);
      riders := riders[rider := r];
    }

    method CloseActiveSession(ss: seq<Session>, now: int) returns (t: seq<Session>)
      ensures t == CloseLatest(ss, now)
    {
      t := ss;
      var i := |ss|;
      assert ss[..i] == ss;
      while i > 0
        invariant 0 <= i <= |ss| && t == ss
        invariant CloseLatest(ss, now) == CloseLatest(ss[..i], now) + ss[i..]
      {
        i := i - 1;
        assert ss[..i + 1][..i] == ss[..i];
        if ss[i].endAt.None? {
          t := ss[i := ss[i].(endAt := Some(now))];
          return;
        }
      }
    }

    method SetOffline(rider: int, now: int)
      modifies this
      ensures View() == Apply(old(View()), Event(now, GoOffline(rider)))
      ensures old(AvailableAreFree(View())) ==> AvailableAreFree(View())
    {
      if AvailableAreFree(View()) {
        ApplyFreeIff(View(), Event(now, GoOffline(rider)));
      }
      if rider !in riders {
        return;
      }
      var sessions := CloseActiveSession(riders[rider].sessions, now);
      riders := riders[rider := riders[rider].(sessions := sessions, online := false, available := false)];
    }

    /** The rider part of logging out; the availability flag stays. */
    method LogoutRider(rider: int, now: int)
      modifies this
      ensures View() == Apply(old(View()), Event(now, Logout(rider)))
      ensures old(AvailableAreFree(View())) ==> AvailableAreFree(View())
    {
      if AvailableAreFree(View()) {
        ApplyFreeIff(View(), Event(now, Logout(rider)));
      }
      if rider !in riders {
        return;
      }
      riders := riders[rider := riders[rider].(online := false)];
      var sessions := CloseActiveSession(riders[rider].sessions, now);
      riders := riders[rider := riders[rider].(sessions := sessions)];
    }

    /** The order and the winner's flag are written together; the losers are the
        other competitors. */
    method RunCompetition(job: Job, now: int) returns (losers: seq<int>)
      modifies this
      ensures View() == Apply(old(View()), Event(now, Compete(job)))
      ensures old(AvailableAreFree(View())) ==> AvailableAreFree(View())
      ensures var winner := old(Winner(View(), job));
        losers == if winner.Some? then Losers(old(orders)[job.order].competitors, winner.value) else []
    {
      if AvailableAreFree(View()) {
        ApplyFreeIff(View(), Event(now, Compete(job)));
      }
      losers := [];
      if job.order !in orders {
        return;
      }
      var order := orders[job.order];
      if order.competitionClosed || !job.ready {
        return;
      }
      var winner := SelectWinner(order.competitors, job.infos, job.weights);
      if winner.None? || winner.value.detail.driverId !in riders {
        return;
      }
      var id := winner.value.detail.driverId;
      orders := orders[job.order := order.(rider := Some(id), competitionClosed := true, status := Ongoing)];
      riders := riders[id := riders[id].(available := false)];
      losers := Losers(order.competitors, id);
    }
  }
}
