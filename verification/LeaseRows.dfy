/** What each statement of the store does to each row, over the columns themselves. */
module LeaseRows {
  import opened Base
  import opened LeaseDb
  import opened LeaseProtocol
  import opened LeaseTheorems

  /** A lease that has run out is released and its holder noted; no other shard changes, and a
      lease that runs out now has not run out. */
  lemma ReapExactly(db: Db, now: int, i: nat)
    requires i < |db.shards|
    ensures var s, after := db.shards[i], Reap(db, now).shards[i];
            if s.state == Leased && s.leaseExp.Some? && s.leaseExp.value < now
            then after.state == Pending && after.leaseWorker == None && after.leaseExp == None && after.attempts == s.attempts
                 && after.trail == s.trail + [Expired(s.leaseWorker)]
            else after == s
    ensures Reap(db, now) == db.(shards := Reap(db, now).shards) && |Reap(db, now).shards| == |db.shards|
  {
  }

  /** A kill frees what the worker holds and nothing else, and marks it dead. */
  lemma KillExactly(db: Db, w: WorkerId, i: nat)
    requires i < |db.shards|
    ensures var s, after := db.shards[i], KillWorker(db, w).shards[i];
            if s.state == Leased && s.leaseWorker == Some(w)
            then after.state == Pending && after.leaseWorker == None && after.leaseExp == None && after.attempts == s.attempts
                 && after.trail == s.trail + [Killed(w)]
            else after == s
    ensures KillWorker(db, w).workers.Keys == db.workers.Keys
    ensures forall v :: v in db.workers ==>
              KillWorker(db, w).workers[v] == if v == w then db.workers[v].(state := Dead) else db.workers[v]
    ensures KillWorker(db, w) == db.(shards := KillWorker(db, w).shards, workers := KillWorker(db, w).workers)
  {
  }

  /** An extension moves the expiry of a lease its caller holds, and nothing else. */
  lemma ExtendExactly(db: Db, sh: nat, w: WorkerId, exp: int, i: nat)
    requires i < |db.shards|
    ensures var s, after := db.shards[i], ExtendLease(db, sh, w, exp).shards[i];
            if i == sh && s.state == Leased && s.leaseWorker == Some(w) then after == s.(leaseExp := Some(exp)) else after == s
    ensures ExtendLease(db, sh, w, exp) == db.(shards := ExtendLease(db, sh, w, exp).shards)
  {
  }

  /** A finish ends its shard for whoever asks, and no other shard. */
  lemma FinishExactly(db: Db, sh: nat, w: WorkerId, i: nat)
    requires i < |db.shards|
    ensures var s, after := db.shards[i], FinishShard(db, sh, w).shards[i];
            if i == sh
            then after.state == Done && after.leaseWorker == None && after.leaseExp == None && after.attempts == s.attempts
                 && after.trail == s.trail + [Completed(w)]
            else after == s
    ensures FinishShard(db, sh, w) == db.(shards := FinishShard(db, sh, w).shards)
  {
  }

  /** A pending shard with a request that has no result. */
  predicate Open(db: Db, i: nat) {
    i < |db.shards| && db.shards[i].state == Pending && exists r :: r in db.requests && r.shard == i && r.id !in db.results
  }

  predicate FirstOpen(db: Db, i: nat) {
    Open(db, i) && forall j :: 0 <= j < i ==> !Open(db, j)
  }

  lemma PassedOver(a: Db, b: Db, sh: nat)
    requires sh < |a.shards| && |b.shards| == |a.shards| && b.requests == a.requests && b.results == a.results
    requires Unanswered(a.requests, a.results, sh) == [] && b.shards[sh].state == Done
    requires forall i :: 0 <= i < |a.shards| && i != sh ==> b.shards[i] == a.shards[i]
    ensures forall i :: 0 <= i < |a.shards| ==> (Open(a, i) <==> Open(b, i))
  {
    assert forall r :: r in a.requests && r.shard == sh ==> r.id in a.results by {
      forall r | r in a.requests && r.shard == sh ensures r.id in a.results {
        assert r !in Unanswered(a.requests, a.results, sh);
      }
    }
  }

  /** What a claim leaves: the first open shard leased to the one who asks, until the time it
      says, with the answered ones before it done; or no open shard at all. */
  predicate ClaimLeaves(a: Db, b: Db, grant: Option<(nat, seq<Request>)>, w: WorkerId, exp: int) {
    |b.shards| == |a.shards| &&
    if grant.Some? then
      var sh := grant.value.0;
      && FirstOpen(a, sh)
      && b.shards[sh] == Shard(Leased, Some(w), Some(exp), a.shards[sh].attempts + 1, a.shards[sh].trail + [Claimed(w)])
      && (forall i :: 0 <= i < sh && a.shards[i].state == Pending ==> b.shards[i].state == Done)
      && (forall i :: sh < i < |a.shards| ==> b.shards[i] == a.shards[i])
    else
      && (forall i :: 0 <= i < |a.shards| ==> !Open(a, i))
      && (forall i :: 0 <= i < |a.shards| && a.shards[i].state == Pending ==> b.shards[i].state == Done)
  }

  lemma {:induction false} ClaimExactly(db: Db, w: WorkerId, exp: int)
    ensures ClaimLeaves(db, Claim(db, w, exp).0, Claim(db, w, exp).1, w, exp)
    decreases Outstanding(db.shards)
  {
    var pick := FirstPending(db.shards, 0);
    if pick.Some? {
      var sh, todo := pick.value, Unanswered(db.requests, db.results, pick.value);
      var leased := Lease(db, sh, w, exp);
      if todo == [] {
        var finished := FinishShard(leased, sh, w);
        FewerLeft(db, sh, w, exp);
        ClaimExactly(finished, w, exp);
        ClaimGoesOn(db, finished, Claim(finished, w, exp).0, Claim(finished, w, exp).1, sh, w, exp);
      } else {
        ClaimStops(db, sh, w, exp);
      }
    }
  }

  lemma FewerLeft(db: Db, sh: nat, w: WorkerId, exp: int)
    requires sh < |db.shards| && db.shards[sh].state == Pending
    ensures Outstanding(FinishShard(Lease(db, sh, w, exp), sh, w).shards) < Outstanding(db.shards)
  {
    var leased := Lease(db, sh, w, exp);
    OutstandingUpdate(db.shards, sh, leased.shards[sh]);
    OutstandingUpdate(leased.shards, sh, FinishShard(leased, sh, w).shards[sh]);
  }

  lemma ClaimStops(db: Db, sh: nat, w: WorkerId, exp: int)
    requires FirstPending(db.shards, 0) == Some(sh) && Unanswered(db.requests, db.results, sh) != []
    ensures ClaimLeaves(db, Lease(db, sh, w, exp), Some((sh, Unanswered(db.requests, db.results, sh))), w, exp)
  {
    assert Unanswered(db.requests, db.results, sh)[0] in Unanswered(db.requests, db.results, sh);
  }

  lemma ClaimGoesOn(a: Db, b: Db, d: Db, grant: Option<(nat, seq<Request>)>, sh: nat, w: WorkerId, exp: int)
    requires FirstPending(a.shards, 0) == Some(sh) && Unanswered(a.requests, a.results, sh) == []
    requires |b.shards| == |a.shards| && b.requests == a.requests && b.results == a.results && b.shards[sh].state == Done
    requires forall i :: 0 <= i < |a.shards| && i != sh ==> b.shards[i] == a.shards[i]
    requires ClaimLeaves(b, d, grant, w, exp) && d.shards[sh] == b.shards[sh]
    ensures ClaimLeaves(a, d, grant, w, exp)
  {
    PassedOver(a, b, sh);
  }

  /** A results message finishes its shard if it says done, extends it otherwise if its sender
      holds it, and leaves every other shard alone. */
  lemma ResultsShards(db: Db, sh: nat, w: WorkerId, rows: seq<Row>, done: bool, now: int, exp: int, i: nat)
    requires i < |db.shards|
    ensures var after := HandleResults(db, sh, w, rows, done, now, exp);
            && |after.shards| == |db.shards| && after.requests == db.requests && after.workers == db.workers
            && var s, t := db.shards[i], after.shards[i];
               if i != sh then t == s
               else if done then t.state == Done && t.trail == s.trail + [Completed(w)]
               else if s.state == Leased && s.leaseWorker == Some(w) then t == s.(leaseExp := Some(exp))
               else t == s
  {
    var put := if rows != [] then PutResults(db, sh, w, rows, now) else db;
    if done {
      FinishExactly(put, sh, w, i);
      FlipExactly(FinishShard(put, sh, w));
    } else {
      ExtendExactly(put, sh, w, exp, i);
      FlipExactly(ExtendLease(put, sh, w, exp));
    }
  }

  /** It stores what it carries, and finishes a running job with a result for each request, and no
      other job. */
  lemma ResultsFinish(db: Db, sh: nat, w: WorkerId, rows: seq<Row>, done: bool, now: int, exp: int)
    ensures var after := HandleResults(db, sh, w, rows, done, now, exp);
            && after.results.Keys == db.results.Keys + (set q | q in rows :: q.id) && after.nRequests == db.nRequests
            && after.status == if db.status == Running && |after.results| == db.nRequests then Finished else db.status
  {
    PutKeys(db, sh, w, rows, now);
    FlipExactly(if done then FinishShard(PutResults(db, sh, w, rows, now), sh, w) else ExtendLease(PutResults(db, sh, w, rows, now), sh, w, exp));
  }

  lemma PutKeys(db: Db, sh: nat, w: WorkerId, rows: seq<Row>, now: int)
    ensures PutResults(db, sh, w, rows, now).results.Keys == db.results.Keys + (set q | q in rows :: q.id)
  {
    UpsertAllKeys(db.results, sh, w, rows, now);
  }

  lemma FlipExactly(db: Db)
    ensures Flip(db) == db.(status := if db.status == Running && |db.results| == db.nRequests then Finished else db.status)
  {
  }

  /** create_job raises exactly for a zero size, or a positive one and some id given twice. */
  lemma CreatedExactly(input: seq<(RequestId, string)>, size: int)
    ensures Created(input, size).None? <==>
              size == 0 || (size > 0 && exists i, j :: 0 <= i < j < |input| && input[i].0 == input[j].0)
    ensures Created(input, size).Some? ==>
              var job := Created(input, size).value;
              && job.status == Running && job.results == map[] && job.workers == map[]
              && forall s :: s in job.shards ==>
                   s.state == Pending && s.leaseWorker == None && s.leaseExp == None && s.attempts == 0 && s.trail == []
  {
  }

  /** At any time the server may reap, the controller kill, a worker extend or leave, and the
      client cancel, with exactly these effects on the store. */
  lemma AnyTime(c: Config, s: Sys, now: int, w: WorkerId, sh: nat, exp: int)
    ensures Enabled(c, s, LReap(now)) && Apply(c, s, LReap(now)) == s.(db := Reap(s.db, now))
    ensures Enabled(c, s, LKill(w)) && Apply(c, s, LKill(w)) == s.(db := KillWorker(s.db, w))
    ensures Enabled(c, s, LBeat(w, sh, exp)) && Apply(c, s, LBeat(w, sh, exp)) == s.(db := ExtendLease(s.db, sh, w, exp))
    ensures Enabled(c, s, LLeave(w)) && Apply(c, s, LLeave(w)).db == s.db
    ensures Enabled(c, s, LCancel) && Apply(c, s, LCancel) == s.(db := s.db.(status := Cancelled))
  {
  }

  // ------------------------------------------------------------------ how long a lease lasts

  /** What leaves `w`'s lease on `sh` alone until `exp`: no reap later than that, no kill of `w`,
      no finish of the shard, and no heartbeat of `w` that shortens it. */
  predicate LeavesLease(s: Sys, l: Label, sh: nat, w: WorkerId, exp: int) {
    && (l.LReap? ==> l.now <= exp)
    && (l.LKill? ==> l.worker != w)
    && Finishes(s, l) != Some(sh)
    && (l.LBeat? && l.worker == w && l.shard == sh ==> l.exp >= exp)
  }

  predicate LeftAlone(c: Config, s: Sys, ls: seq<Label>, sh: nat, w: WorkerId, exp: int)
    requires Valid(c, s, ls)
    decreases |ls|
  {
    ls == [] || (LeavesLease(s, ls[0], sh, w, exp) && LeftAlone(c, Apply(c, s, ls[0]), ls[1..], sh, w, exp))
  }

  predicate HeldBy(db: Db, sh: nat, w: WorkerId, exp: int) {
    sh < |db.shards| && db.shards[sh].state == Leased && db.shards[sh].leaseWorker == Some(w)
    && db.shards[sh].leaseExp.Some? && db.shards[sh].leaseExp.value >= exp
  }

  lemma StepHeld(c: Config, s: Sys, l: Label, sh: nat, w: WorkerId, exp: int)
    requires Enabled(c, s, l) && LeavesLease(s, l, sh, w, exp) && HeldBy(s.db, sh, w, exp)
    ensures HeldBy(Apply(c, s, l).db, sh, w, exp)
    ensures Apply(c, s, l).db.shards[sh].attempts == s.db.shards[sh].attempts
  {
  }

  /** A lease lasts until its expiry: over any run that leaves it alone, its holder keeps it, and
      nobody else is given the shard. */
  lemma {:induction false} LeaseLasts(c: Config, s: Sys, ls: seq<Label>, sh: nat, w: WorkerId, exp: int)
    requires Valid(c, s, ls) && LeftAlone(c, s, ls, sh, w, exp) && HeldBy(s.db, sh, w, exp)
    ensures HeldBy(Run(c, s, ls).db, sh, w, exp)
    ensures Run(c, s, ls).db.shards[sh].attempts == s.db.shards[sh].attempts
    decreases |ls|
  {
    if ls != [] {
      StepHeld(c, s, ls[0], sh, w, exp);
      LeaseLasts(c, Apply(c, s, ls[0]), ls[1..], sh, w, exp);
    }
  }

  /** So a claim is good for the whole time it was given. */
  lemma ClaimLasts(c: Config, s: Sys, n: nat, exp: int, todo: seq<Request>, ls: seq<Label>)
    requires Enabled(c, s, LClaim(n, exp, todo)) && FirstPending(s.db.shards, 0).Some?
    requires Valid(c, Apply(c, s, LClaim(n, exp, todo)), ls)
    requires LeftAlone(c, Apply(c, s, LClaim(n, exp, todo)), ls, FirstPending(s.db.shards, 0).value, s.calls[n].worker, exp)
    ensures var sh := FirstPending(s.db.shards, 0).value;
            HeldBy(Run(c, Apply(c, s, LClaim(n, exp, todo)), ls).db, sh, s.calls[n].worker, exp)
  {
    LeaseLasts(c, Apply(c, s, LClaim(n, exp, todo)), ls, FirstPending(s.db.shards, 0).value, s.calls[n].worker, exp);
  }
}
