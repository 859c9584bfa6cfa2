/** The hourly statistics job: batches read with an id cursor, three tries per rider. */
module StatsSync {
  import opened Common

  const BATCH_SIZE := 100
  const RETRIES := 2

  datatype Row = Row(id: int, active: bool, suspended: bool)

  /** Rows listed by their primary key, which starts at one. */
  predicate Table(rows: seq<Row>) {
    (forall i | 0 <= i < |rows| :: rows[i].id > 0) && (forall i, j | 0 <= i < j < |rows| :: rows[i].id < rows[j].id)
  }

  predicate Increasing(ids: seq<int>) {
    forall i, j | 0 <= i < j < |ids| :: ids[i] < ids[j]
  }

  /** The ids of the active raiders that are not suspended, in id order. */
  function Wanted(rows: seq<Row>): (ids: seq<int>)
    ensures forall id :: id in ids <==> exists r :: r in rows && r.active && !r.suspended && r.id == id
  {
    if rows == [] then []
    else
      var rest := Wanted(rows[1..]);
      assert rows == [rows[0]] + rows[1..];
      if rows[0].active && !rows[0].suspended then [rows[0].id] + rest else rest
  }

  lemma PrependIncreasing(id: int, ids: seq<int>)
    requires Increasing(ids) && forall x | x in ids :: id < x
    ensures Increasing([id] + ids)
  {
    assert forall i | 0 <= i < |ids| :: ids[i] in ids;
  }

  lemma {:induction false} WantedIncreasing(rows: seq<Row>)
    requires Table(rows)
    ensures Increasing(Wanted(rows)) && forall id | id in Wanted(rows) :: id > 0
  {
    if rows != [] {
      WantedIncreasing(rows[1..]);
      PrependIncreasing(rows[0].id, Wanted(rows[1..]));
    }
  }

  /** The position of the first id that is not below `cursor`. */
  function Seek(ids: seq<int>, cursor: int): (k: nat)
    ensures k <= |ids|
    ensures forall i | 0 <= i < k :: ids[i] < cursor
    ensures k < |ids| ==> ids[k] >= cursor
  {
    if ids == [] || ids[0] >= cursor then 0 else 1 + Seek(ids[1..], cursor)
  }

  function Take(ids: seq<int>, n: nat): seq<int> {
    if |ids| <= n then ids else ids[..n]
  }

  function Drop(ids: seq<int>, n: nat): seq<int> {
    if |ids| <= n then [] else ids[n..]
  }

  /** A page starts at the cursor, skips it, and takes one batch. A cursor of zero is no cursor. */
  function Page(ids: seq<int>, cursor: Option<int>): seq<int> {
    if cursor.None? || cursor.value == 0 then Take(ids, BATCH_SIZE)
    else Take(Drop(ids[Seek(ids, cursor.value)..], 1), BATCH_SIZE)
  }

  /** The page after the `n`-th wanted id consists of the following ids. */
  lemma PageFollows(ids: seq<int>, n: nat)
    requires Increasing(ids) && 0 < n <= |ids| && ids[n - 1] > 0
    ensures Page(ids, Some(ids[n - 1])) == Take(ids[n..], BATCH_SIZE)
  {
    var k := Seek(ids, ids[n - 1]);
    assert k == n - 1;
    assert Drop(ids[k..], 1) == ids[n..];
  }

  function LastOf(ids: seq<int>): Option<int> {
    if ids == [] then None else Some(ids[|ids| - 1])
  }

  /** With the cursor on the last visited id the next page continues the list, and it is empty only at the end. */
  lemma NextPage(ids: seq<int>, visited: seq<int>)
    requires Increasing(ids) && visited <= ids && forall id | id in ids :: id > 0
    ensures Page(ids, LastOf(visited)) == Take(ids[|visited|..], BATCH_SIZE)
    ensures visited + Page(ids, LastOf(visited)) <= ids
    ensures Page(ids, LastOf(visited)) == [] ==> visited == ids
  {
    if visited != [] {
      assert visited[|visited| - 1] == ids[|visited| - 1] && ids[|visited| - 1] in ids;
      PageFollows(ids, |visited|);
    }
  }

  /** A batch is a hundred riders, or all that are left. */
  lemma PageLength(ids: seq<int>, visited: seq<int>)
    requires Increasing(ids) && visited <= ids && forall id | id in ids :: id > 0
    ensures |Page(ids, LastOf(visited))| == if |ids| - |visited| < 100 then |ids| - |visited| else 100
  {
    NextPage(ids, visited);
  }

  /** `fails(id, attempt)` says whether computing and storing the rider's statistics throws. */
  predicate Succeeds(fails: (int, nat) -> bool, id: int) {
    exists a: nat | a <= RETRIES :: !fails(id, a)
  }

  method SyncStatsWithRetry(id: int, fails: (int, nat) -> bool) returns (ok: bool, tries: nat)
    ensures ok <==> Succeeds(fails, id)
    ensures ok <==> !(fails(id, 0) && fails(id, 1) && fails(id, 2))
    ensures 1 <= tries <= 3
    ensures forall a: nat | a < tries - 1 :: fails(id, a)
    ensures ok <==> !fails(id, tries - 1)
  {
    var attempt: nat := 0;
    while true
      invariant attempt <= RETRIES
      invariant forall a: nat | a < attempt :: fails(id, a)
      decreases RETRIES - attempt
    {
      if !fails(id, attempt) {
        return true, attempt + 1;
      }
      if attempt == RETRIES {
        return false, attempt + 1;
      }
      attempt := attempt + 1;
    }
  }

  function CountSuccesses(ids: seq<int>, fails: (int, nat) -> bool): nat {
    if ids == [] then 0
    else CountSuccesses(ids[..|ids| - 1], fails) + if Succeeds(fails, ids[|ids| - 1]) then 1 else 0
  }

  lemma {:induction false} CountAppend(xs: seq<int>, ys: seq<int>, fails: (int, nat) -> bool)
    ensures CountSuccesses(xs + ys, fails) == CountSuccesses(xs, fails) + CountSuccesses(ys, fails)
  {
    if ys == [] {
      assert xs + ys == xs;
    } else {
      assert (xs + ys)[..|xs + ys| - 1] == xs + ys[..|ys| - 1];
      CountAppend(xs, ys[..|ys| - 1], fails);
    }
  }

  method SyncBatch(batch: seq<int>, fails: (int, nat) -> bool) returns (synced: nat, tries: seq<nat>)
    ensures synced == CountSuccesses(batch, fails) && synced <= |batch|
    ensures |tries| == |batch| && forall i | 0 <= i < |tries| :: 1 <= tries[i] <= 3
  {
    synced, tries := 0, [];
    for i := 0 to |batch|
      invariant synced == CountSuccesses(batch[..i], fails) && synced <= i
      invariant |tries| == i && forall k | 0 <= k < i :: 1 <= tries[k] <= 3
    {
      assert batch[..i + 1][..i] == batch[..i];
      var ok, n := SyncStatsWithRetry(batch[i], fails);
      tries := tries + [n];
      if ok {
        synced := synced + 1;
      }
    }
    assert batch[..|batch|] == batch;
  }

  /** Over a fixed table the loop ends, and the riders it handles are the active,
      unsuspended ones, each exactly once and in id order, with at most three tries
      each; every one of them is counted as synced or as failed. */
  method SyncAllRaiderStats(rows: seq<Row>, fails: (int, nat) -> bool)
    returns (visited: seq<int>, tries: seq<nat>, totalSynced: nat, totalFailed: nat)
    requires Table(rows)
    ensures visited == Wanted(rows) && Increasing(visited)
    ensures |tries| == |visited| && forall i | 0 <= i < |tries| :: 1 <= tries[i] <= 3
    ensures totalSynced == CountSuccesses(visited, fails)
    ensures totalSynced + totalFailed == |visited|
  {
    var ids := Wanted(rows);
    WantedIncreasing(rows);
    var cursor: Option<int> := None;
    visited, tries, totalSynced, totalFailed := [], [], 0, 0;
    while true
      invariant visited <= ids && cursor == LastOf(visited)
      invariant |tries| == |visited| && forall i | 0 <= i < |tries| :: 1 <= tries[i] <= 3
      invariant totalSynced == CountSuccesses(visited, fails) && totalSynced + totalFailed == |visited|
      decreases |ids| - |visited|
    {
      var batch := Page(ids, cursor);
      NextPage(ids, visited);
      if |batch| == 0 {
        break;
      }
      var synced, n := SyncBatch(batch, fails);
      CountAppend(visited, batch, fails);
      totalSynced := totalSynced + synced;
      totalFailed := totalFailed + (|batch| - synced);
      visited, tries := visited + batch, tries + n;
      cursor := Some(batch[|batch| - 1]);
    }
  }
}
