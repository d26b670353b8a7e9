/** One job's rows in the v0 store (control/db.py): its shards, requests, results and
    workers, and what each statement of the store does to them.

    A shard is named by its `idx`, so the shards table is a sequence. The trail of a shard
    is the part of the events table that concerns it. Times are integers. */
module LeaseDb {
  import opened Base

  type RequestId = string
  type WorkerId = string

  datatype JobStatus = Running | Finished | Cancelled

  datatype ShardState = Pending | Leased | Done

  datatype Mark = Claimed(worker: WorkerId) | Expired(holder: Option<WorkerId>)
                | Killed(worker: WorkerId) | Completed(worker: WorkerId)

  datatype Shard = Shard(state: ShardState, leaseWorker: Option<WorkerId>, leaseExp: Option<int>,
                         attempts: nat, trail: seq<Mark>)

  datatype Request = Request(id: RequestId, shard: nat, prompt: string)

  /** One entry of a posted `results` list, and one row of the results table. */
  datatype Row = Row(id: RequestId, output: string, accepted: bool)
  datatype ResultRow = ResultRow(shard: nat, output: string, accepted: bool, worker: WorkerId, ts: int)

  datatype WorkerState = Starting | Up | Dead
  datatype Worker = Worker(state: WorkerState, started: int, lastSeen: Option<int>)

  datatype Db = Db(status: JobStatus, nRequests: nat, shards: seq<Shard>, requests: seq<Request>,
                   results: map<RequestId, ResultRow>, workers: map<WorkerId, Worker>)

  const FRESH := Shard(Pending, None, None, 0, [])

  // ------------------------------------------------------------------ the statements

  function Release(s: Shard, mark: Mark): Shard {
    s.(state := Pending, leaseWorker := None, leaseExp := None, trail := s.trail + [mark])
  }

  predicate Overdue(s: Shard, now: int) {
    s.state == Leased && s.leaseExp.Some? && s.leaseExp.value < now
  }

  function ReapShard(s: Shard, now: int): Shard {
    if Overdue(s, now) then Release(s, Expired(s.leaseWorker)) else s
  }

  function Reap(db: Db, now: int): Db {
    db.(shards := seq(|db.shards|, i requires 0 <= i < |db.shards| => ReapShard(db.shards[i], now)))
  }

  predicate Holds(s: Shard, w: WorkerId) {
    s.state == Leased && s.leaseWorker == Some(w)
  }

  function KillShard(s: Shard, w: WorkerId): Shard {
    if Holds(s, w) then Release(s, Killed(w)) else s
  }

  function KillWorker(db: Db, w: WorkerId): Db {
    db.(shards := seq(|db.shards|, i requires 0 <= i < |db.shards| => KillShard(db.shards[i], w)),
        workers := if w in db.workers then db.workers[w := db.workers[w].(state := Dead)] else db.workers)
  }

  function ExtendLease(db: Db, sh: nat, w: WorkerId, exp: int): Db {
    if sh < |db.shards| && Holds(db.shards[sh], w)
    then db.(shards := db.shards[sh := db.shards[sh].(leaseExp := Some(exp))])
    else db
  }

  function FinishShard(db: Db, sh: nat, w: WorkerId): Db {
    if sh < |db.shards|
    then var s := db.shards[sh];
         db.(shards := db.shards[sh := s.(state := Done, leaseWorker := None, leaseExp := None,
                                          trail := s.trail + [Completed(w)])])
    else db
  }

  /** ON CONFLICT keeps the shard_id of the first insert and takes the rest from the new row. */
  function Upsert(results: map<RequestId, ResultRow>, sh: nat, w: WorkerId, row: Row, now: int)
    : map<RequestId, ResultRow>
  {
    var first := if row.id in results then results[row.id].shard else sh;
    results[row.id := ResultRow(first, row.output, row.accepted, w, now)]
  }

  function UpsertAll(results: map<RequestId, ResultRow>, sh: nat, w: WorkerId, rows: seq<Row>, now: int)
    : map<RequestId, ResultRow>
  {
    if rows == [] then results
    else Upsert(UpsertAll(results, sh, w, rows[..|rows| - 1], now), sh, w, rows[|rows| - 1], now)
  }

  function PutResults(db: Db, sh: nat, w: WorkerId, rows: seq<Row>, now: int): Db {
    db.(results := UpsertAll(db.results, sh, w, rows, now))
  }

  /** ORDER BY idx LIMIT 1 over the pending shards, from index i on. */
  function FirstPending(shards: seq<Shard>, i: nat): (r: Option<nat>)
    requires i <= |shards|
    ensures r.Some? ==> i <= r.value < |shards| && shards[r.value].state == Pending
    ensures r.Some? ==> forall j :: i <= j < r.value ==> shards[j].state != Pending
    ensures r.None? ==> forall j :: i <= j < |shards| ==> shards[j].state != Pending
    decreases |shards| - i
  {
    if i == |shards| then None
    else if shards[i].state == Pending then Some(i)
    else FirstPending(shards, i + 1)
  }

  function Lease(db: Db, sh: nat, w: WorkerId, exp: int): Db
    requires sh < |db.shards|
  {
    var s := db.shards[sh];
    db.(shards := db.shards[sh := Shard(Leased, Some(w), Some(exp), s.attempts + 1, s.trail + [Claimed(w)])])
  }

  /** The LEFT JOIN: the shard's requests that have no result, in table order. */
  function Unanswered(requests: seq<Request>, results: map<RequestId, ResultRow>, sh: nat): (u: seq<Request>)
    ensures forall r :: r in u <==> r in requests && r.shard == sh && r.id !in results
  {
    if requests == [] then []
    else
      var rest := Unanswered(requests[..|requests| - 1], results, sh);
      var r := requests[|requests| - 1];
      if r.shard == sh && r.id !in results then rest + [r] else rest
  }

  function Outstanding(shards: seq<Shard>): (n: nat)
    ensures n <= |shards|
  {
    if shards == [] then 0
    else Outstanding(shards[..|shards| - 1]) + (if shards[|shards| - 1].state == Done then 0 else 1)
  }

  function Remaining(db: Db): int {
    db.nRequests - |db.results|
  }

  lemma {:induction false} OutstandingUpdate(shards: seq<Shard>, i: nat, s: Shard)
    requires i < |shards|
    ensures Outstanding(shards[i := s])
         == Outstanding(shards) - (if shards[i].state == Done then 0 else 1) + (if s.state == Done then 0 else 1)
  {
    var last := |shards| - 1;
    var t := shards[i := s];
    if i < last {
      OutstandingUpdate(shards[..last], i, s);
      assert t[..last] == shards[..last][i := s];
    } else {
      assert t[..last] == shards[..last];
    }
  }

  /** Claim: lease the first pending shard; one whose requests are all answered is finished
      on the spot and the claim is tried again. */
  function Claim(db: Db, w: WorkerId, exp: int): (r: (Db, Option<(nat, seq<Request>)>))
    ensures r.0.requests == db.requests && r.0.results == db.results && |r.0.shards| == |db.shards|
    ensures r.1.None? ==> forall i :: 0 <= i < |r.0.shards| ==> r.0.shards[i].state != Pending
    ensures r.1.Some? ==>
      var (sh, todo) := r.1.value;
      sh < |r.0.shards| && Holds(r.0.shards[sh], w) && todo != [] && todo == Unanswered(db.requests, db.results, sh)
    ensures forall i :: 0 <= i < |db.shards| && db.shards[i].state != Pending ==> r.0.shards[i] == db.shards[i]
    decreases Outstanding(db.shards)
  {
    match FirstPending(db.shards, 0)
    case None => (db, None)
    case Some(sh) =>
      var leased := Lease(db, sh, w, exp);
      var todo := Unanswered(db.requests, db.results, sh);
      if todo != [] then (leased, Some((sh, todo)))
      else
        var finished := FinishShard(leased, sh, w);
        OutstandingUpdate(db.shards, sh, leased.shards[sh]);
        OutstandingUpdate(leased.shards, sh, finished.shards[sh]);
        Claim(finished, w, exp)
  }

  /** The tail of w_results: read the status, and flip a running job with nothing left. */
  function Flip(db: Db): Db {
    if Remaining(db) == 0 && db.status == Running then db.(status := Finished) else db
  }

  /** POST /w/results, run without interruption. */
  function HandleResults(db: Db, sh: nat, w: WorkerId, rows: seq<Row>, done: bool, now: int, exp: int): Db {
    var put := if rows != [] then PutResults(db, sh, w, rows, now) else db;
    Flip(if done then FinishShard(put, sh, w) else ExtendLease(put, sh, w, exp))
  }

  // ------------------------------------------------------------------ job creation

  predicate DistinctBelow(input: seq<(RequestId, string)>, n: nat)
    requires n <= |input|
  {
    forall i, j :: 0 <= i < j < n ==> input[i].0 != input[j].0
  }

  predicate Distinct(input: seq<(RequestId, string)>) {
    DistinctBelow(input, |input|)
  }

  function ShardCount(n: nat, size: int): nat {
    if size > 0 then (n + size - 1) / size else 0
  }

  /** Requests 0..n of the input, each in the shard its position falls into. */
  function Rowed(input: seq<(RequestId, string)>, n: nat, size: int): (r: seq<Request>)
    requires n <= |input| && size > 0
    ensures |r| == n
    ensures forall k :: 0 <= k < n ==> r[k] == Request(input[k].0, k / size, input[k].1)
  {
    seq(n, k requires 0 <= k < n => Request(input[k].0, k / size, input[k].1))
  }

  lemma RowedNext(input: seq<(RequestId, string)>, j: nat, size: int)
    requires j < |input| && size > 0
    ensures Rowed(input, j + 1, size) == Rowed(input, j, size) + [Request(input[j].0, j / size, input[j].1)]
  {
  }

  /** What create_job commits, or None when it raises and rolls back: a zero shard size is a
      ValueError from range(), a repeated request id violates the primary key, and a negative
      size makes range() empty, so no shard and no request row is written at all. */
  function Created(input: seq<(RequestId, string)>, size: int): Option<Db> {
    if size == 0 || (size > 0 && !Distinct(input)) then None
    else Some(Db(Running, |input|, seq(ShardCount(|input|, size), _ => FRESH),
                 if size > 0 then Rowed(input, |input|, size) else [], map[], map[]))
  }

  /** executemany over one chunk: the primary key refuses an id that is already there. */
  method InsertRequests(table: seq<Request>, input: seq<(RequestId, string)>, i: nat, stop: nat, size: int)
    returns (ok: bool, filled: seq<Request>)
    requires i < stop <= |input| && size > 0 && table == Rowed(input, i, size) && DistinctBelow(input, i)
    requires forall j :: i <= j < stop ==> j / size == i / size
    ensures ok ==> filled == Rowed(input, stop, size) && DistinctBelow(input, stop)
    ensures !ok ==> !Distinct(input)
  {
    filled := table;
    var j := i;
    while j < stop
      invariant i <= j <= stop
      invariant filled == Rowed(input, j, size) && DistinctBelow(input, j)
    {
      if exists k :: 0 <= k < |filled| && filled[k].id == input[j].0 {
        return false, table;
      }
      assert forall k :: 0 <= k < j ==> filled[k].id == input[k].0;
      RowedNext(input, j, size);
      filled := filled + [Request(input[j].0, i / size, input[j].1)];
      j := j + 1;
    }
    return true, filled;
  }

  // ------------------------------------------------------------------ the store

  class Store {
    var status: JobStatus
    var nRequests: nat
    var shards: seq<Shard>
    var requests: seq<Request>
    var results: map<RequestId, ResultRow>
    var workers: map<WorkerId, Worker>

    function View(): Db
      reads this
    {
      Db(status, nRequests, shards, requests, results, workers)
    }

    constructor ()
      ensures View() == Db(Running, 0, [], [], map[], map[])
    {
      status, nRequests, shards, requests, results, workers := Running, 0, [], [], map[], map[];
    }

    /** create_job: chunks of the input become shards, all rows of one transaction. */
    method CreateJob(input: seq<(RequestId, string)>, size: int) returns (ok: bool)
      modifies this
      ensures ok == Created(input, size).Some?
      ensures View() == if ok then Created(input, size).value else old(View())
    {
      if size == 0 {
        return false;
      }
      var newShards: seq<Shard>, newRequests: seq<Request> := [], [];
      if size > 0 {
        var i := 0;
        while i < |input|
          invariant 0 <= i <= |input| && (i == |input| || i % size == 0)
          invariant |newShards| == ShardCount(i, size) && forall k :: 0 <= k < |newShards| ==> newShards[k] == FRESH
          invariant newRequests == Rowed(input, i, size) && DistinctBelow(input, i)
          invariant View() == old(View())
        {
          var stop := if i + size < |input| then i + size else |input|;
          ChunkIndex(i, stop, size);
          newShards := newShards + [FRESH];
          var inserted;
          inserted, newRequests := InsertRequests(newRequests, input, i, stop, size);
          if !inserted {
            return false;
          }
          i := stop;
        }
      }
      assert size > 0 ==> newShards == Created(input, size).value.shards;
      status, nRequests, shards, requests, results, workers :=
        Running, |input|, newShards, newRequests, map[], map[];
      return true;
    }

    /** reap: the overdue rows are selected first and released one by one. */
    method ReapExpired(now: int) returns (released: nat)
      modifies this
      ensures View() == Reap(old(View()), now)
    {
      var before := shards;
      var rows := seq(|before|, i requires 0 <= i < |before| => Overdue(before[i], now));
      released := 0;
      var i := 0;
      while i < |rows|
        invariant 0 <= i <= |rows| == |shards| == |before|
        invariant View() == old(View()).(shards := shards)
        invariant forall k :: 0 <= k < |shards| ==>
          shards[k] == if k < i then ReapShard(before[k], now) else before[k]
      {
        if rows[i] {
          shards := shards[i := Release(shards[i], Expired(shards[i].leaseWorker))];
          released := released + 1;
        }
        i := i + 1;
      }
      assert shards == Reap(old(View()), now).shards;
    }

    method ClaimShard(w: WorkerId, exp: int) returns (grant: Option<(nat, seq<Request>)>)
      modifies this
      ensures (View(), grant) == Claim(old(View()), w, exp)
      decreases Outstanding(shards)
    {
      var pick := FirstPending(shards, 0);
      if pick.None? {
        return None;
      }
      var sh := pick.value;
      shards := shards[sh := Shard(Leased, Some(w), Some(exp), shards[sh].attempts + 1,
                                   shards[sh].trail + [Claimed(w)])];
      var todo := Unanswered(requests, results, sh);
      if todo != [] {
        return Some((sh, todo));
      }
      label leased: OutstandingUpdate(old(shards), sh, shards[sh]);
      Finish(sh, w);
      OutstandingUpdate(old@leased(shards), sh, shards[sh]);
      grant := ClaimShard(w, exp);
    }

    method Extend(sh: nat, w: WorkerId, exp: int)
      modifies this
      ensures View() == ExtendLease(old(View()), sh, w, exp)
    {
      if sh < |shards| && shards[sh].leaseWorker == Some(w) && shards[sh].state == Leased {
        shards := shards[sh := shards[sh].(leaseExp := Some(exp))];
      }
    }

    /** finish_shard asks neither who holds the shard nor whether it has results. */
    method Finish(sh: nat, w: WorkerId)
      modifies this
      ensures View() == FinishShard(old(View()), sh, w)
    {
      if sh < |shards| {
        shards := shards[sh := shards[sh].(state := Done, leaseWorker := None, leaseExp := None,
                                           trail := shards[sh].trail + [Completed(w)])];
      }
    }

    method Put(sh: nat, w: WorkerId, rows: seq<Row>, now: int)
      modifies this
      ensures View() == PutResults(old(View()), sh, w, rows, now)
    {
      var i := 0;
      while i < |rows|
        invariant 0 <= i <= |rows|
        invariant View() == old(View()).(results := UpsertAll(old(results), sh, w, rows[..i], now))
      {
        assert rows[..i + 1][..i] == rows[..i];
        results := Upsert(results, sh, w, rows[i], now);
        i := i + 1;
      }
      assert rows[..|rows|] == rows;
    }

    /** kill_worker: mark the worker dead and free every shard it holds, in one transaction. */
    method Kill(w: WorkerId)
      modifies this
      ensures View() == KillWorker(old(View()), w)
    {
      if w in workers {
        workers := workers[w := workers[w].(state := Dead)];
      }
      var before := shards;
      shards := seq(|before|, i requires 0 <= i < |before| =>
                    if Holds(before[i], w) then Release(before[i], Killed(w)) else before[i]);
    }

    /** POST /w/results: store, then finish or extend, then flip the job if nothing is left. */
    method Results(sh: nat, w: WorkerId, rows: seq<Row>, done: bool, now: int, exp: int)
      modifies this
      ensures View() == HandleResults(old(View()), sh, w, rows, done, now, exp)
    {
      if rows != [] {
        Put(sh, w, rows, now);
      }
      if done {
        Finish(sh, w);
      } else {
        Extend(sh, w, exp);
      }
      if nRequests - |results| == 0 && status == Running {
        status := Finished;
      }
    }
  }

  /** The positions of one chunk share a quotient, and the next chunk starts a new one. */
  lemma ChunkIndex(i: nat, stop: nat, size: int)
    requires size > 0 && i % size == 0 && i < stop <= i + size
    ensures forall j :: i <= j < stop ==> j / size == i / size
    ensures ShardCount(i, size) == i / size
    ensures ShardCount(stop, size) == i / size + 1
    ensures stop == i + size ==> stop % size == 0
  {
    var q := i / size;
    assert i == q * size;
    forall j | i <= j < stop ensures j / size == q { Quotient(j, q, size); }
    Quotient(i + size - 1, q, size);
    Quotient(stop + size - 1, q + 1, size);
    Quotient(i + size, q + 1, size);
  }

  lemma Quotient(j: int, q: int, size: int)
    requires size > 0 && q * size <= j < q * size + size
    ensures j / size == q && j % size == j - q * size
  {
    var d := j / size;
    assert j == d * size + j % size;
    if d < q { Multiples(d + 1, q, size); }
    if d > q { Multiples(q + 1, d, size); }
  }

  lemma Multiples(a: int, b: int, c: int)
    requires a <= b && c > 0
    ensures a * c <= b * c
  {
    assert b * c == a * c + (b - a) * c;
  }
}
