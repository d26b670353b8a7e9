/** What every run of the lease protocol keeps, and where the code promises less than it appears
    to when a job is created or a post is lost. */
module LeaseTheorems {
  import opened Base
  import opened LeaseDb
  import opened LeaseProtocol

  // ------------------------------------------------------------------ creation

  /** Request k of the input lands in shard k / size, and that shard exists. */
  lemma Partition(input: seq<(RequestId, string)>, size: int)
    requires size > 0 && Created(input, size).Some?
    ensures var job := Created(input, size).value;
            && |job.requests| == |input| == job.nRequests
            && |job.shards| * size < |input| + size && |input| <= |job.shards| * size
            && (forall k :: 0 <= k < |input| ==> job.requests[k].id == input[k].0 && job.requests[k].prompt == input[k].1)
            && (forall k :: 0 <= k < |input| ==>
                  var sh := job.requests[k].shard; sh < |job.shards| && sh * size <= k < sh * size + size)
  {
    var n, job := |input|, Created(input, size).value;
    var count := ShardCount(n, size);
    assert n + size - 1 == count * size + (n + size - 1) % size;
    forall k | 0 <= k < n ensures k / size < count && k / size * size <= k < k / size * size + size {
      assert k == k / size * size + k % size;
      if k / size >= count { Multiples(count, k / size, size); }
    }
  }

  /** create_job keeps every request exactly when the shard size is positive (or there is
      nothing to keep); a negative size commits a job none of whose requests exist. */
  lemma PartitionExactly(input: seq<(RequestId, string)>, size: int)
    requires Created(input, size).Some?
    ensures |Created(input, size).value.requests| == |input| <==> size > 0 || |input| == 0
    ensures size < 0 ==> Created(input, size).value == Db(Running, |input|, [], [], map[], map[])
  {
  }

  lemma InitInv(c: Config, input: seq<(RequestId, string)>, size: int)
    requires size > 0 && Created(input, size).Some?
    ensures Inv(c, Init(Created(input, size).value)) && Complete(Init(Created(input, size).value))
  {
    Partition(input, size);
    var job := Created(input, size).value;
    assert forall i :: 0 <= i < |input| ==> job.requests[i].id == input[i].0;
    assert After(FRESH.trail) == Some(Free);
  }

  // ------------------------------------------------------------------ output refinement

  /** One pass over the input on one machine. */
  function Sequential(c: Config, input: seq<(RequestId, string)>): map<RequestId, (string, bool)> {
    if input == [] then map[]
    else
      var (id, prompt) := input[|input| - 1];
      Sequential(c, input[..|input| - 1])[id := (c.engine(prompt), c.accept(c.engine(prompt)))]
  }

  function Outputs(db: Db): map<RequestId, (string, bool)> {
    map id | id in db.results :: (db.results[id].output, db.results[id].accepted)
  }

  lemma {:induction false} SequentialAt(c: Config, input: seq<(RequestId, string)>)
    requires Distinct(input)
    ensures Sequential(c, input).Keys == set k | 0 <= k < |input| :: input[k].0
    ensures forall k :: 0 <= k < |input| ==>
              input[k].0 in Sequential(c, input)
              && Sequential(c, input)[input[k].0] == (c.engine(input[k].1), c.accept(c.engine(input[k].1)))
  {
    if input != [] {
      var init := input[..|input| - 1];
      SequentialAt(c, init);
      assert forall k :: 0 <= k < |init| ==> input[k] == init[k];
    }
  }

  lemma SequentialKeys(c: Config, input: seq<(RequestId, string)>, size: int)
    requires size > 0 && Created(input, size).Some?
    ensures Sequential(c, input).Keys == Ids(Created(input, size).value.requests)
  {
  }

  lemma HonestAgrees(c: Config, input: seq<(RequestId, string)>, size: int, db: Db, id: RequestId)
    requires size > 0 && Created(input, size).Some?
    requires db.requests == Created(input, size).value.requests && Honest(c, db) && id in db.results
    ensures id in Sequential(c, input) && Outputs(db)[id] == Sequential(c, input)[id]
  {
    SequentialAt(c, input);
    Partition(input, size);
    var r :| r in db.requests && r.id == id;
    var k :| 0 <= k < |db.requests| && db.requests[k] == r;
    assert input[k].0 == id && input[k].1 == r.prompt;
  }

  ghost predicate Within(a: map<RequestId, (string, bool)>, b: map<RequestId, (string, bool)>) {
    forall id :: id in a ==> id in b && a[id] == b[id]
  }

  lemma TableWithin(c: Config, input: seq<(RequestId, string)>, size: int, db: Db)
    requires size > 0 && Created(input, size).Some?
    requires db.requests == Created(input, size).value.requests && Honest(c, db)
    ensures Within(Outputs(db), Sequential(c, input))
  {
    forall id | id in Outputs(db)
      ensures id in Sequential(c, input) && Outputs(db)[id] == Sequential(c, input)[id]
    {
      HonestAgrees(c, input, size, db, id);
    }
  }

  lemma WithinAll(a: map<RequestId, (string, bool)>, b: map<RequestId, (string, bool)>)
    requires Within(a, b)
    ensures a.Keys == b.Keys <==> a == b
  {
  }

  lemma TableAgrees(c: Config, input: seq<(RequestId, string)>, size: int, db: Db)
    requires size > 0 && Created(input, size).Some?
    requires db.requests == Created(input, size).value.requests && DbInv(c, db)
    ensures Within(Outputs(db), Sequential(c, input))
    ensures Remaining(db) == 0 <==> Outputs(db) == Sequential(c, input)
  {
    TableWithin(c, input, size, db);
    RemainingBounds(c, db);
    SequentialKeys(c, input, size);
    assert Outputs(db).Keys == db.results.Keys;
    WithinAll(Outputs(db), Sequential(c, input));
  }

  /** Whatever was processed twice, late or by whom, the result table is a part of the
      sequential table; it is all of it exactly when nothing remains. */
  lemma OutputRefinement(c: Config, input: seq<(RequestId, string)>, size: int, ls: seq<Label>)
    requires size > 0 && Created(input, size).Some?
    requires Valid(c, Init(Created(input, size).value), ls)
    ensures var end := Run(c, Init(Created(input, size).value), ls).db;
            && Within(Outputs(end), Sequential(c, input))
            && (Remaining(end) == 0 <==> Outputs(end) == Sequential(c, input))
  {
    var s0 := Init(Created(input, size).value);
    InitInv(c, input, size);
    RunInv(c, s0, ls);
    RunGrows(c, s0, ls);
    TableAgrees(c, input, size, Run(c, s0, ls).db);
  }

  // ------------------------------------------------------------------ done means complete

  predicate DoneOnlyAnswered(db: Db) {
    forall i :: 0 <= i < |db.shards| && db.shards[i].state == Done ==> Answered(db, i)
  }

  /** While no worker sends `done` after a post that gave up, a done shard has every result,
      in every reachable state, and stays done to the end of the run. */
  lemma DoneMeansComplete(c: Config, input: seq<(RequestId, string)>, size: int, ls: seq<Label>, more: seq<Label>)
    requires size > 0 && Created(input, size).Some?
    requires Valid(c, Init(Created(input, size).value), ls)
    requires ReliableRun(c, Init(Created(input, size).value), ls)
    requires Valid(c, Run(c, Init(Created(input, size).value), ls), more)
    ensures var mid := Run(c, Init(Created(input, size).value), ls);
            var end := Run(c, mid, more);
            && DoneOnlyAnswered(mid.db)
            && forall i :: 0 <= i < |mid.db.shards| && mid.db.shards[i].state == Done ==>
                 i < |end.db.shards| && end.db.shards[i].state == Done && Answered(end.db, i)
  {
    var s0 := Init(Created(input, size).value);
    InitInv(c, input, size);
    RunComplete(c, s0, ls);
    RunGrows(c, Run(c, s0, ls), more);
    GrowsKeeps(Run(c, s0, ls), Run(c, Run(c, s0, ls), more).db);
  }

  /** The shard a step finishes, if it finishes one. */
  function Finishes(s: Sys, l: Label): Option<nat> {
    if l.LFinishEmpty? && l.call in s.calls && s.calls[l.call].Emptied? then Some(s.calls[l.call].shard)
    else if l.LDeliver? && l.msg.DoneMsg? then Some(l.msg.shard)
    else None
  }

  /** A shard finished by the step has a result for each of its requests already. */
  predicate FinishAnswered(s: Sys, l: Label) {
    Finishes(s, l).Some? && Finishes(s, l).value < |s.db.shards| ==> Answered(s.db, Finishes(s, l).value)
  }

  predicate EachFinishAnswered(c: Config, s: Sys, ls: seq<Label>)
    requires Valid(c, s, ls)
    decreases |ls|
  {
    ls == [] || (FinishAnswered(s, ls[0]) && EachFinishAnswered(c, Apply(c, s, ls[0]), ls[1..]))
  }

  predicate AlwaysDoneOnlyAnswered(c: Config, s: Sys, ls: seq<Label>)
    requires Valid(c, s, ls)
    decreases |ls|
  {
    DoneOnlyAnswered(s.db) && (ls == [] || AlwaysDoneOnlyAnswered(c, Apply(c, s, ls[0]), ls[1..]))
  }

  lemma StepDoneExactly(c: Config, s: Sys, l: Label)
    requires DoneOnlyAnswered(s.db) && Enabled(c, s, l)
    ensures DoneOnlyAnswered(Apply(c, s, l).db) <==> FinishAnswered(s, l)
  {
    var t := Apply(c, s, l);
    StepGrows(c, s, l);
    GrowsKeeps(s, t.db);
    if !FinishAnswered(s, l) {
      assert t.db.shards[Finishes(s, l).value].state == Done;
    }
  }

  /** finish_shard could keep the promise itself: it is kept over a whole run exactly when
      each shard that is finished has all its results at that moment. */
  lemma {:induction false} DoneExactly(c: Config, s: Sys, ls: seq<Label>)
    requires DoneOnlyAnswered(s.db) && Valid(c, s, ls)
    ensures AlwaysDoneOnlyAnswered(c, s, ls) <==> EachFinishAnswered(c, s, ls)
    decreases |ls|
  {
    if ls != [] {
      StepDoneExactly(c, s, ls[0]);
      if FinishAnswered(s, ls[0]) {
        DoneExactly(c, Apply(c, s, ls[0]), ls[1..]);
      }
    }
  }

  /** A chunk whose post gives up, followed by a `done` that gets through, leaves the shard
      done, its request unanswered, and nothing outstanding for any worker to claim. */
  lemma LostPostStrandsRequest(c: Config, w: WorkerId, id: RequestId, prompt: string) returns (ls: seq<Label>)
    requires c.chunk > 0
    ensures Created([(id, prompt)], 1).Some?
    ensures var s0 := Init(Created([(id, prompt)], 1).value);
            && Valid(c, s0, ls)
            && var end := Run(c, s0, ls).db;
               && |end.shards| == 1 && end.shards[0].state == Done && !Answered(end, 0)
               && Remaining(end) == 1 && Outstanding(end.shards) == 0 && end.status == Running
  {
    var r := Request(id, 0, prompt);
    OneRequest(id, prompt);
    ls := StrandingRun(c, w, id, prompt);
    Stranding(FinishShard(Holding(w, r).db, 0, w), r);
  }

  /** The run, and that the lost chunk may still arrive at its end. */
  lemma StrandingRun(c: Config, w: WorkerId, id: RequestId, prompt: string) returns (ls: seq<Label>)
    requires c.chunk > 0
    ensures Created([(id, prompt)], 1).Some?
    ensures var r, s0 := Request(id, 0, prompt), Init(Created([(id, prompt)], 1).value);
            Valid(c, s0, ls) && LostChunk(Holding(w, r), Run(c, s0, ls), w, r)
  {
    var r := Request(id, 0, prompt);
    var g := Grant(w, 0, [r]);
    var s0, s2 := Init(Lone(r)), Holding(w, r);
    var lose := [LPost(w), LReturn(w, true), LSendDone(w), LDeliver(DoneMsg(w, 0), 0)];
    ls := [LCheckClaim(0, w)] + ([LClaim(0, 0, [r])] + ([LReceive(g)] + lose));
    OneRequest(id, prompt);
    ClaimLone(c, Lone(r), w, r);
    ReceiveLone(c, w, r);
    LoseAndFinish(c, s2, w, r);
    RunStep(c, s2.(agents := map[]), [LReceive(g)] + lose);
    RunStep(c, s0.(calls := map[0 := Checked(w)]), [LClaim(0, 0, [r])] + ([LReceive(g)] + lose));
    RunStep(c, s0, ls);
  }

  /** The shard is done without its chunk, which has been sent; the handler of the done message
      has yet to read the job. */
  predicate LostChunk(s: Sys, t: Sys, w: WorkerId, r: Request) {
    && t.db == FinishShard(s.db, 0, w) && Chunk(w, 0, [r]) in t.sent
    && t.handlers == s.handlers + 1 && t.readers == s.readers && t.flips == s.flips
  }

  /** The job of one request. */
  function Lone(r: Request): Db {
    Db(Running, 1, [FRESH], [r], map[], map[])
  }

  /** The one request is claimed by `w`, which has started on it. */
  function Holding(w: WorkerId, r: Request): Sys {
    Sys(Lease(Lone(r), 0, w, 0), map[w := Working(0, [r], 0, false, false)], {}, {}, {Grant(w, 0, [r])}, map[], 0, 0, 0)
  }

  lemma ClaimLone(c: Config, db: Db, w: WorkerId, r: Request)
    requires FirstPending(db.shards, 0) == Some(0) && Unanswered(db.requests, db.results, 0) == [r]
    ensures var s := Init(db).(calls := map[0 := Checked(w)]);
            Enabled(c, s, LClaim(0, 0, [r]))
            && Apply(c, s, LClaim(0, 0, [r])) == Sys(Lease(db, 0, w, 0), map[], {}, {}, {Grant(w, 0, [r])}, map[], 0, 0, 0)
  {
  }

  lemma ReceiveLone(c: Config, w: WorkerId, r: Request)
    ensures var s1, g := Holding(w, r).(agents := map[]), Grant(w, 0, [r]);
            Enabled(c, s1, LReceive(g)) && Apply(c, s1, LReceive(g)) == Holding(w, r)
  {
  }

  lemma OneRequest(id: RequestId, prompt: string)
    ensures var r := Request(id, 0, prompt);
            && Created([(id, prompt)], 1) == Some(Lone(r))
            && Unanswered(Lone(r).requests, Lone(r).results, 0) == [r] && FirstPending(Lone(r).shards, 0) == Some(0)
  {
    var r := Request(id, 0, prompt);
    assert Created([(id, prompt)], 1).value.shards == [FRESH];
    assert Created([(id, prompt)], 1).value.requests == [r];
    assert [r][..0] == [];
  }

  lemma Stranding(db: Db, r: Request)
    requires db.requests == [r] && r.id !in db.results && |db.shards| == 1 && db.shards[0].state == Done && r.shard == 0
    ensures !Answered(db, 0) && Outstanding(db.shards) == 0
  {
  }

  lemma LoseAndFinish(c: Config, s: Sys, w: WorkerId, r: Request)
    requires c.chunk > 0 && w in s.agents && s.agents[w] == Working(0, [r], 0, false, false)
    ensures var lose := [LPost(w), LReturn(w, true), LSendDone(w), LDeliver(DoneMsg(w, 0), 0)];
            Valid(c, s, lose) && LostChunk(s, Run(c, s, lose), w, r)
  {
    var lose := [LPost(w), LReturn(w, true), LSendDone(w), LDeliver(DoneMsg(w, 0), 0)];
    var s3 := Apply(c, s, LPost(w));
    assert |Batch(c, s3.agents[w])| == 1 && Batch(c, s.agents[w]) == [r];
    var s4 := Apply(c, s3, LReturn(w, true));
    var s5 := Apply(c, s4, LSendDone(w));
    assert lose[1..][1..][1..][1..] == [];
    RunStep(c, s5, lose[1..][1..][1..]);
    RunStep(c, s4, lose[1..][1..]);
    RunStep(c, s3, lose[1..]);
    RunStep(c, s, lose);
  }

  lemma RunStep(c: Config, s: Sys, ls: seq<Label>)
    requires ls != [] && Enabled(c, s, ls[0]) && Valid(c, Apply(c, s, ls[0]), ls[1..])
    ensures Valid(c, s, ls) && Run(c, s, ls) == Run(c, Apply(c, s, ls[0]), ls[1..])
  {
  }

  // ------------------------------------------------------------------ job completion

  /** In every reachable state the result keys are request ids, what remains is their
      number and never grows, and a finished job has a result for every request. */
  lemma JobCompletion(c: Config, input: seq<(RequestId, string)>, size: int, ls: seq<Label>, more: seq<Label>)
    requires size > 0 && Created(input, size).Some?
    requires Valid(c, Init(Created(input, size).value), ls)
    requires Valid(c, Run(c, Init(Created(input, size).value), ls), more)
    ensures var mid := Run(c, Init(Created(input, size).value), ls).db;
            var end := Run(c, Run(c, Init(Created(input, size).value), ls), more).db;
            && mid.results.Keys <= Ids(mid.requests)
            && Remaining(mid) == |Ids(mid.requests) - mid.results.Keys|
            && 0 <= Remaining(end) <= Remaining(mid)
            && (mid.status == Finished ==> mid.results.Keys == Ids(mid.requests))
  {
    var s0 := Init(Created(input, size).value);
    InitInv(c, input, size);
    RunInv(c, s0, ls);
    var mid := Run(c, s0, ls);
    RunInv(c, mid, more);
    RunGrows(c, mid, more);
    RemainingCount(c, mid.db);
    RemainingBounds(c, Run(c, mid, more).db);
    RemainingFalls(c, mid.db, Run(c, mid, more).db);
  }

  lemma RemainingCount(c: Config, db: Db)
    requires DbInv(c, db)
    ensures db.results.Keys <= Ids(db.requests) && Remaining(db) == |Ids(db.requests) - db.results.Keys|
    ensures Remaining(db) == 0 ==> db.results.Keys == Ids(db.requests)
  {
    RemainingBounds(c, db);
    var ids, keys := Ids(db.requests), db.results.Keys;
    assert keys * ids == keys;
    assert |ids - keys| + |ids * keys| == |ids|;
  }

  // ------------------------------------------------------------------ lease accounting

  /** A trail's claims exceed its releases by one while the shard is held, by nothing while
      it is free, and by at most one once it is over. */
  lemma {:induction false} Balance(trail: seq<Mark>)
    requires After(trail).Some?
    ensures match After(trail).value
            case Free => Claims(trail) == Releases(trail)
            case Held(_) => Claims(trail) == Releases(trail) + 1
            case Over => Releases(trail) <= Claims(trail) <= Releases(trail) + 1
  {
    if trail != [] {
      Balance(trail[..|trail| - 1]);
    }
  }

  /** Two claims of one shard have the expiry of the first holder's lease, or that holder's
      kill, between them. */
  lemma {:induction false} ClaimsSeparated(trail: seq<Mark>, i: nat, j: nat)
    requires After(trail).Some? && i < j < |trail|
    requires trail[i].Claimed? && trail[j].Claimed?
    ensures exists k :: i < k < j && (trail[k] == Expired(Some(trail[i].worker)) || trail[k] == Killed(trail[i].worker))
  {
    Prefix(trail, j + 1);
    assert trail[..j + 1][..j] == trail[..j];
    HeldSince(trail[..j], i);
  }

  lemma {:induction false} Prefix(trail: seq<Mark>, n: nat)
    requires After(trail).Some? && n <= |trail|
    ensures After(trail[..n]).Some?
    decreases |trail| - n
  {
    if n < |trail| {
      Prefix(trail, n + 1);
      assert trail[..n + 1][..n] == trail[..n];
    } else {
      assert trail[..n] == trail;
    }
  }

  /** A shard that was claimed and is free again was released by its holder's expiry or kill. */
  lemma {:induction false} HeldSince(trail: seq<Mark>, i: nat)
    requires i < |trail| && trail[i].Claimed? && After(trail).Some?
    ensures (After(trail) == Some(Held(trail[i].worker)))
         || After(trail) == Some(Over)
         || exists k :: i < k < |trail| && (trail[k] == Expired(Some(trail[i].worker)) || trail[k] == Killed(trail[i].worker))
  {
    var n := |trail| - 1;
    if i < n {
      Prefix(trail, n);
      HeldSince(trail[..n], i);
    }
  }

  /** In every reachable state: claims minus releases is 0, 1, or 0..1 as the shard is
      pending, leased or done; attempts counts the claims; holder and expiry are set exactly
      while leased; and successive claims are separated by a release of the first holder. */
  lemma LeaseAccounting(c: Config, input: seq<(RequestId, string)>, size: int, ls: seq<Label>, i: nat)
    requires size > 0 && Created(input, size).Some?
    requires Valid(c, Init(Created(input, size).value), ls)
    requires i < |Run(c, Init(Created(input, size).value), ls).db.shards|
    ensures var s := Run(c, Init(Created(input, size).value), ls).db.shards[i];
            && s.attempts == Claims(s.trail)
            && (s.state == Pending ==> Claims(s.trail) == Releases(s.trail))
            && (s.state == Leased ==> Claims(s.trail) == Releases(s.trail) + 1)
            && (s.state == Done ==> Releases(s.trail) <= Claims(s.trail) <= Releases(s.trail) + 1)
            && (s.leaseWorker.Some? <==> s.state == Leased) && (s.leaseExp.Some? <==> s.state == Leased)
            && forall a, b :: 0 <= a < b < |s.trail| && s.trail[a].Claimed? && s.trail[b].Claimed? ==>
                 exists k :: a < k < b && (s.trail[k] == Expired(Some(s.trail[a].worker)) || s.trail[k] == Killed(s.trail[a].worker))
  {
    var s0 := Init(Created(input, size).value);
    InitInv(c, input, size);
    RunInv(c, s0, ls);
    var s := Run(c, s0, ls).db.shards[i];
    assert s in Run(c, s0, ls).db.shards;
    Balance(s.trail);
    forall a, b | 0 <= a < b < |s.trail| && s.trail[a].Claimed? && s.trail[b].Claimed?
      ensures exists k :: a < k < b && (s.trail[k] == Expired(Some(s.trail[a].worker)) || s.trail[k] == Killed(s.trail[a].worker))
    {
      ClaimsSeparated(s.trail, a, b);
    }
  }

  // ------------------------------------------------------------------ progress

  lemma {:induction false} FewerOutstanding(a: seq<Shard>, b: seq<Shard>)
    requires |a| == |b|
    requires forall i :: 0 <= i < |a| && a[i].state == Done ==> b[i].state == Done
    ensures Outstanding(b) <= Outstanding(a)
    ensures (exists i :: 0 <= i < |a| && a[i].state != Done && b[i].state == Done) ==> Outstanding(b) < Outstanding(a)
  {
    if a != [] {
      var n := |a| - 1;
      FewerOutstanding(a[..n], b[..n]);
      if i :| 0 <= i < |a| && a[i].state != Done && b[i].state == Done {
        if i < n {
          assert a[..n][i].state != Done && b[..n][i].state == Done;
        }
      }
    }
  }

  /** claim recurses after finishing an empty shard. Whatever other requests run before and
      after that finish, the recursive call starts with strictly fewer outstanding shards. */
  lemma ClaimRetryDescends(c: Config, s: Sys, n: nat, exp: int, before: seq<Label>, after: seq<Label>)
    requires Enabled(c, s, LClaim(n, exp, [])) && FirstPending(s.db.shards, 0).Some?
    requires Valid(c, Apply(c, s, LClaim(n, exp, [])), before) && LFinishEmpty(n) !in before
    requires Valid(c, Run(c, Apply(c, s, LClaim(n, exp, [])), before), [LFinishEmpty(n)] + after)
    ensures Outstanding(Run(c, Run(c, Apply(c, s, LClaim(n, exp, [])), before), [LFinishEmpty(n)] + after).db.shards)
            < Outstanding(s.db.shards)
  {
    var sh := FirstPending(s.db.shards, 0).value;
    var s0 := Apply(c, s, LClaim(n, exp, []));
    var s1 := Run(c, s0, before);
    StillEmptied(c, s0, n, before);
    var s2 := Apply(c, s1, LFinishEmpty(n));
    assert ([LFinishEmpty(n)] + after)[1..] == after;
    var s3 := Run(c, s2, after);
    StepGrows(c, s, LClaim(n, exp, []));
    RunGrows(c, s0, before);
    StepGrows(c, s1, LFinishEmpty(n));
    RunGrows(c, s2, after);
    assert s2.db.shards[sh].state == Done;
    FewerOutstanding(s.db.shards, s3.db.shards);
  }

  /** Nobody but the claim itself moves on from the shard it found answered. */
  lemma {:induction false} StillEmptied(c: Config, s: Sys, n: nat, ls: seq<Label>)
    requires Valid(c, s, ls) && LFinishEmpty(n) !in ls && n in s.calls && s.calls[n].Emptied?
    ensures n in Run(c, s, ls).calls && Run(c, s, ls).calls[n] == s.calls[n]
    decreases |ls|
  {
    if ls != [] {
      assert ls[0] in ls;
      StillEmptied(c, Apply(c, s, ls[0]), n, ls[1..]);
    }
  }

  /** No step, of a live worker or a dead one's messages, adds work. */
  lemma WorkNeverGrows(c: Config, s: Sys, ls: seq<Label>)
    requires Inv(c, s) && Valid(c, s, ls)
    ensures Outstanding(Run(c, s, ls).db.shards) <= Outstanding(s.db.shards)
    ensures Remaining(Run(c, s, ls).db) <= Remaining(s.db)
  {
    RunInv(c, s, ls);
    RunGrows(c, s, ls);
    FewerOutstanding(s.db.shards, Run(c, s, ls).db.shards);
    RemainingFalls(c, s.db, Run(c, s, ls).db);
  }

  /** Some time is later than every lease. */
  lemma {:induction false} LateEnough(shards: seq<Shard>) returns (late: int)
    ensures forall h :: h in shards && h.leaseExp.Some? ==> h.leaseExp.value < late
  {
    late := 0;
    if shards != [] {
      var last := shards[|shards| - 1];
      late := LateEnough(shards[..|shards| - 1]);
      if last.leaseExp.Some? && last.leaseExp.value >= late {
        late := last.leaseExp.value + 1;
      }
    }
  }
}
