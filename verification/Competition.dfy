/** How the competition job picks the winner among the riders competing for an order. */
module Competition {
  import opened Common
  import opened Rounding
  import opened Sorting

  /** A rider as the job reads it; `distance` is the distance to the pickup. */
  datatype RiderInfo = RiderInfo(hasLocation: bool, locationActive: bool, distance: real, tierScore: real, rating: int, followers: int)

  datatype Detail = Detail(driverId: int, tierScore: real, rating: int, followers: int, distance: real)

  datatype Weights = Weights(rank: real, rating: real, followers: real)

  datatype Scored = Scored(detail: Detail, score: real)

  const MAX_DISTANCE := 2_000_000.0
  const ELITE_TIER := 1.5

  function Filter<T(!new)>(s: seq<T>, p: T -> bool): (t: seq<T>)
    ensures forall x :: x in t <==> x in s && p(x)
    ensures |t| <= |s|
  {
    if s == [] then []
    else (if p(s[0]) then [s[0]] else []) + Filter(s[1..], p)
  }

  /** The rider exists and has an active location. */
  predicate Valid(id: int, riders: map<int, RiderInfo>) {
    id in riders && riders[id].hasLocation && riders[id].locationActive
  }

  function DetailOf(id: int, riders: map<int, RiderInfo>): Detail
    requires id in riders
  {
    var r := riders[id];
    Detail(id, r.tierScore, r.rating, r.followers, r.distance)
  }

  /** The valid competitors, in list order. */
  function ValidDrivers(drivers: seq<int>, riders: map<int, RiderInfo>): (ds: seq<Detail>)
    ensures forall d :: d in ds <==> exists id :: id in drivers && Valid(id, riders) && d == DetailOf(id, riders)
  {
    if drivers == [] then []
    else
      var rest := ValidDrivers(drivers[1..], riders);
      assert drivers == [drivers[0]] + drivers[1..];
      if Valid(drivers[0], riders) then [DetailOf(drivers[0], riders)] + rest else rest
  }

  predicate Nearby(d: Detail) {
    d.distance <= MAX_DISTANCE
  }

  predicate Elite(d: Detail) {
    d.tierScore >= ELITE_TIER
  }

  function NearbyDrivers(drivers: seq<int>, riders: map<int, RiderInfo>): seq<Detail> {
    Filter(ValidDrivers(drivers, riders), Nearby)
  }

  function Candidates(drivers: seq<int>, riders: map<int, RiderInfo>): seq<Detail> {
    var nearby := NearbyDrivers(drivers, riders);
    var elite := Filter(nearby, Elite);
    if |elite| > 0 then elite else nearby
  }

  function RawScore(d: Detail, w: Weights): real {
    d.tierScore * w.rank + d.rating as real * w.rating + d.followers as real * w.followers - d.distance * 0.1
  }

  function ScoreAll(ds: seq<Detail>, w: Weights): (ss: seq<Scored>)
    ensures |ss| == |ds| && forall i | 0 <= i < |ds| :: ss[i] == Scored(ds[i], To3(RawScore(ds[i], w)))
  {
    seq(|ds|, i requires 0 <= i < |ds| => Scored(ds[i], To3(RawScore(ds[i], w))))
  }

  predicate ScoresNoLess(a: Scored, b: Scored) {
    a.score >= b.score
  }

  /** The head of the list sorted by descending score, if there is a candidate. */
  function SelectWinner(drivers: seq<int>, riders: map<int, RiderInfo>, w: Weights): Option<Scored> {
    var sorted := StableSort(ScoresNoLess, ScoreAll(Candidates(drivers, riders), w));
    if sorted == [] then None else Some(sorted[0])
  }

  function Losers(drivers: seq<int>, winner: int): seq<int> {
    Filter(drivers, id => id != winner)
  }

  /** The first of the best rounded scores. */
  predicate FirstBest(cs: seq<Detail>, w: Weights, k: nat) {
    && k < |cs|
    && (forall j | 0 <= j < k :: To3(RawScore(cs[j], w)) < To3(RawScore(cs[k], w)))
    && (forall j | 0 <= j < |cs| :: To3(RawScore(cs[j], w)) <= To3(RawScore(cs[k], w)))
  }

  /** A competition with a nearby valid rider has a winner. The winner is a nearby
      valid competitor, elite if there is a nearby elite one, has the best rounded
      score with ties going to the earlier candidate, and a raw score within 0.001
      of every candidate's. */
  lemma WinnerIsBest(drivers: seq<int>, riders: map<int, RiderInfo>, w: Weights) returns (k: nat)
    requires NearbyDrivers(drivers, riders) != []
    ensures var cs := Candidates(drivers, riders); k < |cs| && cs[k] in NearbyDrivers(drivers, riders)
    ensures SelectWinner(drivers, riders, w) == Some(Scored(Candidates(drivers, riders)[k], To3(RawScore(Candidates(drivers, riders)[k], w))))
    ensures Candidates(drivers, riders)[k].driverId in drivers && Valid(Candidates(drivers, riders)[k].driverId, riders)
    ensures (exists d :: d in NearbyDrivers(drivers, riders) && Elite(d)) ==> Elite(Candidates(drivers, riders)[k])
    ensures var cs := Candidates(drivers, riders);
      && FirstBest(cs, w, k)
      && (forall j | 0 <= j < |cs| :: RawScore(cs[j], w) <= RawScore(cs[k], w) + 0.001)
  {
    var nearby := NearbyDrivers(drivers, riders);
    var elite := Filter(nearby, Elite);
    var cs := Candidates(drivers, riders);
    var scored := ScoreAll(cs, w);
    k := StableSortHead(ScoresNoLess, scored);
    assert cs[k] in cs && cs[k] in nearby;
    if d :| d in nearby && Elite(d) {
      assert d in elite;
    }
    RoundedBestIsNear(cs, w, k);
  }

  // ---------- List order ----------

  predicate NearbyRider(id: int, riders: map<int, RiderInfo>) {
    Valid(id, riders) && Nearby(DetailOf(id, riders))
  }

  /** A competitor the winner is chosen from. */
  ghost predicate Candidate(id: int, drivers: seq<int>, riders: map<int, RiderInfo>) {
    && NearbyRider(id, riders)
    && ((exists e :: e in drivers && NearbyRider(e, riders) && Elite(DetailOf(e, riders))) ==> Elite(DetailOf(id, riders)))
  }

  function Details(ids: seq<int>, riders: map<int, RiderInfo>): (ds: seq<Detail>)
    requires forall i | 0 <= i < |ids| :: ids[i] in riders
    ensures |ds| == |ids| && forall k | 0 <= k < |ids| :: ds[k] == DetailOf(ids[k], riders)
  {
    seq(|ids|, k requires 0 <= k < |ids| => DetailOf(ids[k], riders))
  }

  lemma DetailsCons(id: int, ids: seq<int>, riders: map<int, RiderInfo>)
    requires id in riders && forall i | 0 <= i < |ids| :: ids[i] in riders
    ensures Details([id] + ids, riders) == [DetailOf(id, riders)] + Details(ids, riders)
  {
  }

  lemma {:induction false} FilterCons<T(!new)>(x: T, s: seq<T>, p: T -> bool)
    ensures Filter([x] + s, p) == if p(x) then [x] + Filter(s, p) else Filter(s, p)
  {
    assert ([x] + s)[0] == x && ([x] + s)[1..] == s;
  }

  lemma HeadAndTail<T>(s: seq<T>)
    requires s != []
    ensures s == [s[0]] + s[1..]
  {
  }

  function Shifted(at: seq<nat>): (r: seq<nat>)
    ensures |r| == |at| && forall k | 0 <= k < |at| :: r[k] == at[k] + 1
  {
    seq(|at|, k requires 0 <= k < |at| => at[k] + 1)
  }

  /** `at` lists, in ascending order, exactly the positions of `s` where `p` holds. */
  ghost predicate Positions<T(!new)>(at: seq<nat>, s: seq<T>, p: T -> bool) {
    && (forall k | 0 <= k < |at| :: at[k] < |s|)
    && (forall k, l | 0 <= k < l < |at| :: at[k] < at[l])
    && (forall i: nat | i < |s| && p(s[i]) :: exists k :: 0 <= k < |at| && at[k] == i)
  }

  lemma PositionsCons<T(!new)>(at: seq<nat>, s: seq<T>, p: T -> bool)
    requires s != [] && Positions(at, s[1..], p)
    ensures Positions(if p(s[0]) then [0] + Shifted(at) else Shifted(at), s, p)
  {
    var r := if p(s[0]) then [0] + Shifted(at) else Shifted(at);
    var skip := if p(s[0]) then 1 else 0;
    forall i: nat | i < |s| && p(s[i])
      ensures exists k :: 0 <= k < |r| && r[k] == i
    {
      if i == 0 {
        assert r[0] == 0;
      } else {
        assert s[i] == s[1..][i - 1];
        var k :| 0 <= k < |at| && at[k] == i - 1;
        assert r[k + skip] == i;
      }
    }
  }

  /** `t` holds the elements of `s` at those positions. */
  predicate Picked<T(==)>(at: seq<nat>, s: seq<T>, t: seq<T>) {
    |at| == |t| && forall k | 0 <= k < |at| :: at[k] < |s| && t[k] == s[at[k]]
  }

  lemma PickedCons<T>(at: seq<nat>, s: seq<T>, t: seq<T>)
    requires s != [] && Picked(at, s[1..], t)
    ensures Picked([0] + Shifted(at), s, [s[0]] + t) && Picked(Shifted(at), s, t)
  {
    assert forall k | 0 <= k < |at| :: s[at[k] + 1] == s[1..][at[k]];
  }

  /** A filter keeps the elements where its predicate holds, in list order. */
  lemma {:induction false} FilterPositions<T(!new)>(s: seq<T>, p: T -> bool) returns (at: seq<nat>)
    ensures Positions(at, s, p) && Picked(at, s, Filter(s, p))
  {
    at := [];
    if s != [] {
      var rest := FilterPositions(s[1..], p);
      PositionsCons(rest, s, p);
      PickedCons(rest, s, Filter(s[1..], p));
      at := if p(s[0]) then [0] + Shifted(rest) else Shifted(rest);
      FilterHead(s, p);
    }
  }

  lemma {:induction false} FilterHead<T(!new)>(s: seq<T>, p: T -> bool)
    requires s != []
    ensures Filter(s, p) == if p(s[0]) then [s[0]] + Filter(s[1..], p) else Filter(s[1..], p)
  {
  }

  lemma {:induction false} FilterTwice<T(!new)>(s: seq<T>, p: T -> bool, q: T -> bool, r: T -> bool)
    requires forall i | 0 <= i < |s| :: r(s[i]) <==> p(s[i]) && q(s[i])
    ensures Filter(Filter(s, p), q) == Filter(s, r)
  {
    if s != [] {
      FilterTwice(s[1..], p, q, r);
      HeadAndTail(s);
      FilterCons(s[0], s[1..], p);
      FilterCons(s[0], s[1..], r);
      FilterCons(s[0], Filter(s[1..], p), q);
    }
  }

  lemma {:induction false} KeptAreRiders(ids: seq<int>, riders: map<int, RiderInfo>, p: int -> bool)
    requires forall id | p(id) :: id in riders
    ensures forall i | 0 <= i < |Filter(ids, p)| :: Filter(ids, p)[i] in riders && p(Filter(ids, p)[i])
  {
    var kept := Filter(ids, p);
    forall i | 0 <= i < |kept|
      ensures kept[i] in riders && p(kept[i])
    {
      var id := kept[i];
      assert id in kept;
      assert p(id);
    }
  }

  lemma {:induction false} FilterDetailsCons(id: int, rest: seq<int>, riders: map<int, RiderInfo>, q: Detail -> bool, r: int -> bool)
    requires id in riders && (r(id) <==> q(DetailOf(id, riders)))
    requires forall i | 0 <= i < |rest| :: rest[i] in riders
    requires forall i | 0 <= i < |Filter(rest, r)| :: Filter(rest, r)[i] in riders
    requires Filter(Details(rest, riders), q) == Details(Filter(rest, r), riders)
    ensures forall i | 0 <= i < |Filter([id] + rest, r)| :: Filter([id] + rest, r)[i] in riders
    ensures Filter(Details([id] + rest, riders), q) == Details(Filter([id] + rest, r), riders)
  {
    FilterCons(id, rest, r);
    DetailsCons(id, rest, riders);
    FilterCons(DetailOf(id, riders), Details(rest, riders), q);
    if r(id) {
      DetailsCons(id, Filter(rest, r), riders);
    }
  }

  lemma {:induction false} FilterDetails(ids: seq<int>, riders: map<int, RiderInfo>, q: Detail -> bool, r: int -> bool)
    requires forall i | 0 <= i < |ids| :: ids[i] in riders
    requires forall i | 0 <= i < |ids| :: r(ids[i]) <==> q(DetailOf(ids[i], riders))
    ensures forall i | 0 <= i < |Filter(ids, r)| :: Filter(ids, r)[i] in riders
    ensures Filter(Details(ids, riders), q) == Details(Filter(ids, r), riders)
  {
    if ids != [] {
      FilterDetails(ids[1..], riders, q, r);
      HeadAndTail(ids);
      FilterDetailsCons(ids[0], ids[1..], riders, q, r);
    }
  }

  /** The valid drivers are the competitor list without the invalid riders: nothing is reordered, dropped or doubled. */
  lemma {:induction false} ValidDriversInOrder(drivers: seq<int>, riders: map<int, RiderInfo>, valid: int -> bool)
    requires forall id :: valid(id) <==> Valid(id, riders)
    ensures forall i | 0 <= i < |Filter(drivers, valid)| :: Filter(drivers, valid)[i] in riders
    ensures ValidDrivers(drivers, riders) == Details(Filter(drivers, valid), riders)
  {
    if drivers != [] {
      ValidDriversInOrder(drivers[1..], riders, valid);
      HeadAndTail(drivers);
      FilterCons(drivers[0], drivers[1..], valid);
      if valid(drivers[0]) {
        DetailsCons(drivers[0], Filter(drivers[1..], valid), riders);
      }
    }
  }

  /** One more filter on riders already filtered. */
  lemma {:induction false} FilterMore(drivers: seq<int>, riders: map<int, RiderInfo>, p: int -> bool, q: Detail -> bool, r: int -> bool)
    requires forall id | p(id) :: id in riders
    requires forall id :: r(id) <==> p(id) && q(DetailOf(id, riders))
    ensures forall i | 0 <= i < |Filter(drivers, p)| :: Filter(drivers, p)[i] in riders
    ensures forall i | 0 <= i < |Filter(drivers, r)| :: Filter(drivers, r)[i] in riders
    ensures Filter(Details(Filter(drivers, p), riders), q) == Details(Filter(drivers, r), riders)
  {
    KeptAreRiders(drivers, riders, p);
    FilterDetails(Filter(drivers, p), riders, q, r);
    forall i | 0 <= i < |drivers|
      ensures r(drivers[i]) <==> p(drivers[i]) && r(drivers[i])
    {
      var id := drivers[i];
      assert r(id) ==> p(id);
    }
    FilterTwice(drivers, p, r, r);
  }

  /** The candidates are the competitor list without the riders that are no
      candidates: nothing is reordered, dropped or doubled. */
  lemma {:induction false} CandidatesInOrder(drivers: seq<int>, riders: map<int, RiderInfo>)
    ensures var ids := Filter(drivers, id => Candidate(id, drivers, riders));
      (forall i | 0 <= i < |ids| :: ids[i] in riders) && Candidates(drivers, riders) == Details(ids, riders)
  {
    var valid := (id: int) => Valid(id, riders);
    var nearby := (id: int) => NearbyRider(id, riders);
    var elite := (id: int) => NearbyRider(id, riders) && Elite(DetailOf(id, riders));
    var candidate := (id: int) => Candidate(id, drivers, riders);
    ValidDriversInOrder(drivers, riders, valid);
    FilterMore(drivers, riders, valid, Nearby, nearby);
    FilterMore(drivers, riders, nearby, Elite, elite);
    if |Filter(drivers, elite)| > 0 {
      var e := Filter(drivers, elite)[0];
      assert e in Filter(drivers, elite);
      FilterSame(drivers, elite, candidate);
    } else {
      forall e | e in drivers
        ensures !elite(e)
      {
        assert e !in Filter(drivers, elite);
      }
      FilterSame(drivers, nearby, candidate);
    }
  }

  lemma {:induction false} FilterSame<T(!new)>(s: seq<T>, p: T -> bool, q: T -> bool)
    requires forall i | 0 <= i < |s| :: p(s[i]) <==> q(s[i])
    ensures Filter(s, p) == Filter(s, q)
  {
    if s != [] {
      FilterSame(s[1..], p, q);
      HeadAndTail(s);
      FilterCons(s[0], s[1..], p);
      FilterCons(s[0], s[1..], q);
    }
  }

  /** The details belong to the candidate with that id. */
  ghost predicate IsAt(d: Detail, id: int, drivers: seq<int>, riders: map<int, RiderInfo>) {
    Candidate(id, drivers, riders) && d == DetailOf(id, riders)
  }

  /** `at` are the positions of the candidates in the competitor list. */
  ghost predicate StandAt(at: seq<nat>, drivers: seq<int>, riders: map<int, RiderInfo>) {
    && Positions(at, drivers, id => Candidate(id, drivers, riders)) && |at| == |Candidates(drivers, riders)|
    && forall k | 0 <= k < |at| :: at[k] < |drivers| && IsAt(Candidates(drivers, riders)[k], drivers[at[k]], drivers, riders)
  }

  /** The candidates by their positions in the competitor list. */
  lemma CandidatePositions(drivers: seq<int>, riders: map<int, RiderInfo>) returns (at: seq<nat>)
    ensures StandAt(at, drivers, riders)
  {
    var candidate := (id: int) => Candidate(id, drivers, riders);
    at := FilterPositions(drivers, candidate);
    CandidatesInOrder(drivers, riders);
    KeptAreRiders(drivers, riders, candidate);
  }

  lemma FirstBestAt(cs: seq<Detail>, w: Weights, k: nat, at: seq<nat>, j: nat)
    requires FirstBest(cs, w, k) && j < |cs| == |at|
    requires forall l, m | 0 <= l < m < |at| :: at[l] < at[m]
    ensures To3(RawScore(cs[j], w)) <= To3(RawScore(cs[k], w))
    ensures at[j] < at[k] ==> To3(RawScore(cs[j], w)) < To3(RawScore(cs[k], w))
  {
    assert k < j ==> at[k] < at[j];
  }

  function ScoreOf(id: int, riders: map<int, RiderInfo>, w: Weights): real
    requires id in riders
  {
    To3(RawScore(DetailOf(id, riders), w))
  }

  lemma NearbyHasWinner(id: int, drivers: seq<int>, riders: map<int, RiderInfo>)
    requires id in drivers && NearbyRider(id, riders)
    ensures NearbyDrivers(drivers, riders) != []
  {
    assert DetailOf(id, riders) in NearbyDrivers(drivers, riders);
  }

  /** No better than the rider at `p`, and worse if earlier in the list. */
  predicate NoBetter(i: nat, p: nat, drivers: seq<int>, riders: map<int, RiderInfo>, w: Weights)
    requires i < |drivers| && p < |drivers| && drivers[i] in riders && drivers[p] in riders
  {
    && ScoreOf(drivers[i], riders, w) <= ScoreOf(drivers[p], riders, w)
    && (i < p ==> ScoreOf(drivers[i], riders, w) < ScoreOf(drivers[p], riders, w))
  }

  lemma CandidateNoBetter(drivers: seq<int>, riders: map<int, RiderInfo>, w: Weights, k: nat, at: seq<nat>, i: nat)
    requires i < |drivers|
    ensures FirstBest(Candidates(drivers, riders), w, k) && StandAt(at, drivers, riders) && Candidate(drivers[i], drivers, riders) ==>
      IsAt(Candidates(drivers, riders)[k], drivers[at[k]], drivers, riders) && NoBetter(i, at[k], drivers, riders, w)
  {
    if FirstBest(Candidates(drivers, riders), w, k) && StandAt(at, drivers, riders) && Candidate(drivers[i], drivers, riders) {
      var candidate := (id: int) => Candidate(id, drivers, riders);
      assert candidate(drivers[i]);
      var j :| 0 <= j < |at| && at[j] == i;
      assert IsAt(Candidates(drivers, riders)[j], drivers[i], drivers, riders);
      FirstBestAt(Candidates(drivers, riders), w, k, at, j);
    }
  }

  /** The winner stands at the first position of the competitor list whose rider
      has the best rounded score of all candidates: ties go by list order. */
  lemma WinnerIsFirstBest(drivers: seq<int>, riders: map<int, RiderInfo>, w: Weights) returns (p: nat)
    requires exists id :: id in drivers && NearbyRider(id, riders)
    ensures p < |drivers| && Candidate(drivers[p], drivers, riders)
    ensures SelectWinner(drivers, riders, w) == Some(Scored(DetailOf(drivers[p], riders), ScoreOf(drivers[p], riders, w)))
    ensures forall i | 0 <= i < |drivers| && Candidate(drivers[i], drivers, riders) :: NoBetter(i, p, drivers, riders, w)
  {
    var id :| id in drivers && NearbyRider(id, riders);
    NearbyHasWinner(id, drivers, riders);
    var k := WinnerIsBest(drivers, riders, w);
    var at := CandidatePositions(drivers, riders);
    p := at[k];
    forall i | 0 <= i < |drivers| && Candidate(drivers[i], drivers, riders)
      ensures NoBetter(i, p, drivers, riders, w)
    {
      CandidateNoBetter(drivers, riders, w, k, at, i);
    }
  }

  // ---------- What the score rewards ----------

  /** A valid rider within two million kilometres. */
  predicate InRace(id: int, riders: map<int, RiderInfo>) {
    id in riders && riders[id].hasLocation && riders[id].locationActive && riders[id].distance <= 2_000_000.0
  }

  predicate EliteInRace(id: int, riders: map<int, RiderInfo>) {
    InRace(id, riders) && riders[id].tierScore >= 1.5
  }

  /** By how much the figures of `a` outweigh those of `b`: tier, rating and
      followers by their weights, and a tenth of a point for each kilometre nearer. */
  function Advantage(a: RiderInfo, b: RiderInfo, w: Weights): real {
    (a.tierScore - b.tierScore) * w.rank + (a.rating - b.rating) as real * w.rating + (a.followers - b.followers) as real * w.followers
    + (b.distance - a.distance) / 10.0
  }

  lemma ScoreIsLinear(a: int, b: int, riders: map<int, RiderInfo>, w: Weights)
    requires a in riders && b in riders
    ensures RawScore(DetailOf(a, riders), w) - RawScore(DetailOf(b, riders), w) == Advantage(riders[a], riders[b], w)
  {
    var x, y := riders[a], riders[b];
    Distribute(x.tierScore, y.tierScore, w.rank);
    Distribute(x.rating as real, y.rating as real, w.rating);
    Distribute(x.followers as real, y.followers as real, w.followers);
    assert (x.rating - y.rating) as real == x.rating as real - y.rating as real;
    assert (x.followers - y.followers) as real == x.followers as real - y.followers as real;
  }

  lemma Distribute(x: real, y: real, k: real)
    ensures (x - y) * k == x * k - y * k
  {
  }

  /** Without tier, rating, followers and distance the score is zero, so the score
      of a rider is its advantage over such a rider. */
  lemma ScoreOfNothing(id: int, w: Weights)
    ensures RawScore(Detail(id, 0.0, 0, 0, 0.0), w) == 0.0
  {
  }

  lemma CandidateInRace(id: int, drivers: seq<int>, riders: map<int, RiderInfo>)
    ensures Candidate(id, drivers, riders) <==>
      InRace(id, riders) && ((exists e :: e in drivers && EliteInRace(e, riders)) ==> EliteInRace(id, riders))
  {
    assert forall e :: InRace(e, riders) <==> NearbyRider(e, riders);
    assert forall e :: EliteInRace(e, riders) <==> NearbyRider(e, riders) && Elite(DetailOf(e, riders));
  }

  /** There is a winner exactly when a competitor is in the race. On the riders'
      own figures: the winner is in the race, elite if anybody is, and no rival of
      the same standing has an advantage beyond the rounding of three decimals. */
  lemma WinnerByFigures(drivers: seq<int>, riders: map<int, RiderInfo>, w: Weights)
    ensures SelectWinner(drivers, riders, w).Some? <==> exists id :: id in drivers && InRace(id, riders)
    ensures SelectWinner(drivers, riders, w).Some? ==>
      var winner := SelectWinner(drivers, riders, w).value.detail.driverId;
      && winner in drivers && InRace(winner, riders)
      && ((exists e :: e in drivers && EliteInRace(e, riders)) ==> EliteInRace(winner, riders))
      && (forall c | c in drivers && InRace(c, riders) && (EliteInRace(winner, riders) ==> EliteInRace(c, riders)) ::
        Advantage(riders[c], riders[winner], w) <= 0.001)
  {
    WinnerIffRace(drivers, riders, w);
    if exists id :: id in drivers && NearbyRider(id, riders) {
      var p := WinnerIsFirstBest(drivers, riders, w);
      CandidateInRace(drivers[p], drivers, riders);
      forall c | c in drivers && InRace(c, riders) && (EliteInRace(drivers[p], riders) ==> EliteInRace(c, riders))
        ensures Advantage(riders[c], riders[drivers[p]], w) <= 0.001
      {
        CandidateInRace(c, drivers, riders);
        var i :| 0 <= i < |drivers| && drivers[i] == c;
        assert Candidate(drivers[i], drivers, riders);
        assert NoBetter(i, p, drivers, riders, w);
        NoBetterAdvantage(c, drivers[p], riders, w);
      }
    }
  }

  lemma NoBetterAdvantage(c: int, winner: int, riders: map<int, RiderInfo>, w: Weights)
    requires c in riders && winner in riders && ScoreOf(c, riders, w) <= ScoreOf(winner, riders, w)
    ensures Advantage(riders[c], riders[winner], w) <= 0.001
  {
    ScoreIsLinear(c, winner, riders, w);
    To3Near(RawScore(DetailOf(c, riders), w));
    To3Near(RawScore(DetailOf(winner, riders), w));
  }

  lemma WinnerIffRace(drivers: seq<int>, riders: map<int, RiderInfo>, w: Weights)
    ensures SelectWinner(drivers, riders, w).Some? <==> exists id :: id in drivers && NearbyRider(id, riders)
    ensures (exists id :: id in drivers && NearbyRider(id, riders)) <==> exists id :: id in drivers && InRace(id, riders)
  {
    assert forall id :: InRace(id, riders) <==> NearbyRider(id, riders);
    if id :| id in drivers && NearbyRider(id, riders) {
      var p := WinnerIsFirstBest(drivers, riders, w);
    } else {
      NobodyNearby(drivers, riders);
      assert ScoreAll(Candidates(drivers, riders), w) == [];
    }
  }

  lemma NobodyNearby(drivers: seq<int>, riders: map<int, RiderInfo>)
    requires forall id | id in drivers :: !NearbyRider(id, riders)
    ensures Candidates(drivers, riders) == []
  {
    var nearby := NearbyDrivers(drivers, riders);
    forall d
      ensures d !in nearby
    {
    }
    EmptyOrMember(nearby);
    EmptyOrMember(Filter(nearby, Elite));
  }

  lemma EmptyOrMember<T>(s: seq<T>)
    ensures s == [] || exists x :: x in s
  {
    if s != [] {
      assert s[0] in s;
    }
  }

  /** No rival of the same standing who is at least as good on tier, rating and
      followers is more than ten metres nearer than the winner. */
  lemma WinnerIsNearest(drivers: seq<int>, riders: map<int, RiderInfo>, w: Weights, c: int)
    requires w.rank >= 0.0 && w.rating >= 0.0 && w.followers >= 0.0
    requires SelectWinner(drivers, riders, w).Some? && c in drivers && InRace(c, riders)
    ensures var winner := SelectWinner(drivers, riders, w).value.detail.driverId;
      winner in riders &&
      ((EliteInRace(winner, riders) ==> EliteInRace(c, riders))
       && riders[c].tierScore >= riders[winner].tierScore && riders[c].rating >= riders[winner].rating && riders[c].followers >= riders[winner].followers
       ==> riders[winner].distance <= riders[c].distance + 0.01)
  {
    WinnerByFigures(drivers, riders, w);
    var a, b := riders[c], riders[SelectWinner(drivers, riders, w).value.detail.driverId];
    if a.tierScore >= b.tierScore && a.rating >= b.rating && a.followers >= b.followers {
      AdvantageOfNearer(a, b, w);
    }
  }

  lemma AdvantageOfNearer(a: RiderInfo, b: RiderInfo, w: Weights)
    requires w.rank >= 0.0 && w.rating >= 0.0 && w.followers >= 0.0
    requires a.tierScore >= b.tierScore && a.rating >= b.rating && a.followers >= b.followers
    ensures Advantage(a, b, w) >= (b.distance - a.distance) / 10.0
  {
    ProductNonNegative(a.tierScore - b.tierScore, w.rank);
    ProductNonNegative((a.rating - b.rating) as real, w.rating);
    ProductNonNegative((a.followers - b.followers) as real, w.followers);
  }

  lemma ProductNonNegative(x: real, y: real)
    requires x >= 0.0 && y >= 0.0
    ensures x * y >= 0.0
  {
  }

  lemma RoundedBestIsNear(cs: seq<Detail>, w: Weights, k: nat)
    requires k < |cs| && forall j | 0 <= j < |cs| :: To3(RawScore(cs[j], w)) <= To3(RawScore(cs[k], w))
    ensures forall j | 0 <= j < |cs| :: RawScore(cs[j], w) <= RawScore(cs[k], w) + 0.001
  {
    forall j | 0 <= j < |cs|
      ensures RawScore(cs[j], w) <= RawScore(cs[k], w) + 0.001
    {
      To3Near(RawScore(cs[j], w));
      To3Near(RawScore(cs[k], w));
    }
  }

  /** Every competitor other than the winner is told it lost, in list order, and the winner never is. */
  lemma {:induction false} LosersAreTheRest(drivers: seq<int>, winner: int)
    ensures winner !in Losers(drivers, winner)
    ensures forall id | id in drivers && id != winner :: id in Losers(drivers, winner)
    ensures multiset(Losers(drivers, winner)) == multiset(drivers)[winner := 0]
  {
    if drivers != [] {
      LosersAreTheRest(drivers[1..], winner);
      assert drivers == [drivers[0]] + drivers[1..];
      assert Losers(drivers, winner) == (if drivers[0] != winner then [drivers[0]] else []) + Losers(drivers[1..], winner);
    }
  }
}
