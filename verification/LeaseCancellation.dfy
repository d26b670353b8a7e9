/** Whether a cancelled job can still end as done: the results handler reads the status, counts
    and writes in three transactions (control/app.py, w_results; control/db.py, status). */
module LeaseCancellation {
  import opened Base
  import opened LeaseDb
  import opened LeaseProtocol
  import opened LeaseTheorems

  // ------------------------------------------------------------------ what is still on its way

  predicate Live(s: Sys, w: WorkerId) {
    w in s.agents ==> !s.agents[w].Gone?
  }

  /** The answer is in a message that was sent, or with a worker that can still send it. */
  ghost predicate InFlight(s: Sys, r: Request) {
    || (exists m :: m in s.sent && m.Chunk? && r in m.batch)
    || (exists g :: g in s.grants && Live(s, g.worker) && r in g.todo)
  }

  /** Nothing but another claim can bring the shard an answer it lacks. */
  ghost predicate Lacks(s: Sys, i: nat) {
    exists r :: r in s.db.requests && r.shard == i && r.id !in s.db.results && !InFlight(s, r)
  }

  ghost function Lacking(s: Sys): set<nat> {
    set i | 0 <= i < |s.db.shards| && Lacks(s, i)
  }

  /** The claim requests that have read the job as running, of workers that are still there. */
  function LiveCalls(s: Sys): set<nat> {
    set n | n in s.calls && Live(s, s.calls[n].worker)
  }

  /** Every answer that is missing is on its way, or in a shard that is not done and left for one
      of the claims that are already past the check of the job's status, one claim a shard. */
  ghost predicate Completable(s: Sys) {
    |Lacking(s)| <= |LiveCalls(s)| && forall i :: i in Lacking(s) ==> s.db.shards[i].state != Done
  }

  /** A working agent works on what some claim granted it. */
  predicate Told(s: Sys) {
    forall w :: w in s.agents && s.agents[w].Working? ==> Grant(w, s.agents[w].shard, s.agents[w].todo) in s.grants
  }

  lemma StepTold(c: Config, s: Sys, l: Label)
    requires Told(s) && Enabled(c, s, l)
    ensures Told(Apply(c, s, l))
  {
  }

  lemma {:induction false} RunTold(c: Config, s: Sys, ls: seq<Label>)
    requires Told(s) && Valid(c, s, ls)
    ensures Told(Run(c, s, ls))
    decreases |ls|
  {
    if ls != [] {
      StepTold(c, s, ls[0]);
      RunTold(c, Apply(c, s, ls[0]), ls[1..]);
    }
  }

  // ------------------------------------------------------------------ nothing else is possible

  /** Once the job has stopped running, a step makes nothing in flight that was not, and gives a
      shard an answer's prospect only by using up a claim. */
  lemma StaysLacking(c: Config, s: Sys, l: Label, i: nat)
    requires Inv(c, s) && Told(s) && Enabled(c, s, l) && i in Lacking(s)
    ensures i in Lacking(Apply(c, s, l)) || (l.LClaim? && FirstPending(s.db.shards, 0) == Some(i) && l.todo != []
                                             && Live(s, s.calls[l.call].worker))
  {
    var t := Apply(c, s, l);
    var r :| r in s.db.requests && r.shard == i && r.id !in s.db.results && !InFlight(s, r);
    StepGrows(c, s, l);
    NotAnswered(c, s, l, r);
    NewFlight(c, s, l, r);
  }

  lemma NotAnswered(c: Config, s: Sys, l: Label, r: Request)
    requires Inv(c, s) && Enabled(c, s, l) && r in s.db.requests && r.id !in s.db.results && !InFlight(s, r)
    ensures r.id !in Apply(c, s, l).db.results
  {
    if l.LDeliver? && l.msg.Chunk? {
      var m := l.msg;
      UpsertAllKeys(s.db.results, m.shard, m.worker, Rows(c, m.batch), l.now);
      forall q | q in Rows(c, m.batch) ensures q.id != r.id {
        var k :| 0 <= k < |m.batch| && Rows(c, m.batch)[k] == q;
        assert m.batch[k] in m.batch && MsgOk(s.db, m, m in s.stored);
        OtherRequest(s.db.requests, m.batch[k], r);
      }
    }
  }

  lemma OtherRequest(requests: seq<Request>, a: Request, b: Request)
    requires UniqueIds(requests) && a in requests && b in requests && a != b
    ensures a.id != b.id
  {
  }

  lemma PostInFlight(c: Config, s: Sys, w: WorkerId, r: Request)
    requires Told(s) && Enabled(c, s, LPost(w)) && r in Batch(c, s.agents[w])
    ensures InFlight(s, r)
  {
    var a := s.agents[w];
    assert Grant(w, a.shard, a.todo) in s.grants && r in a.todo;
  }

  lemma NewFlight(c: Config, s: Sys, l: Label, r: Request)
    requires Inv(c, s) && Told(s) && Enabled(c, s, l) && r in s.db.requests && !InFlight(s, r)
    ensures InFlight(Apply(c, s, l), r) ==>
              l.LClaim? && FirstPending(s.db.shards, 0) == Some(r.shard) && l.todo != [] && Live(s, s.calls[l.call].worker)
  {
    var t := Apply(c, s, l);
    if l.LPost? {
      forall q | q in Batch(c, s.agents[l.worker]) ensures InFlight(s, q) { PostInFlight(c, s, l.worker, q); }
    }
    if l.LClaim? {
      ClaimCovers(s, l, t);
    }
  }

  lemma FewerCalls(c: Config, s: Sys, l: Label)
    requires Enabled(c, s, l) && s.db.status != Running
    ensures LiveCalls(Apply(c, s, l)) <= LiveCalls(s)
    ensures l.LClaim? && FirstPending(s.db.shards, 0).Some? && l.todo != [] && Live(s, s.calls[l.call].worker) ==>
              l.call in LiveCalls(s) && l.call !in LiveCalls(Apply(c, s, l))
  {
  }

  /** What cannot be completed cannot be completed after another step either. */
  lemma StepIncomplete(c: Config, s: Sys, l: Label)
    requires Inv(c, s) && Told(s) && Enabled(c, s, l) && s.db.status != Running && Completable(Apply(c, s, l))
    ensures Completable(s)
  {
    var t := Apply(c, s, l);
    FewerCalls(c, s, l);
    StepGrows(c, s, l);
    forall i | i in Lacking(s) ensures s.db.shards[i].state != Done { StaysLacking(c, s, l, i); }
    var pick := FirstPending(s.db.shards, 0);
    if l.LClaim? && pick.Some? && l.todo != [] && Live(s, s.calls[l.call].worker) {
      forall i | i in Lacking(s) ensures i in Lacking(t) + {pick.value} { StaysLacking(c, s, l, i); }
      SubsetSize(Lacking(s), Lacking(t) + {pick.value});
      SubsetSize(LiveCalls(t), LiveCalls(s) - {l.call});
    } else {
      forall i | i in Lacking(s) ensures i in Lacking(t) { StaysLacking(c, s, l, i); }
      SubsetSize(Lacking(s), Lacking(t));
      SubsetSize(LiveCalls(t), LiveCalls(s));
    }
  }

  /** A handler has counted nothing remaining, or can still count it. */
  ghost predicate Revivable(s: Sys) {
    s.flips > 0 || (s.readers > 0 && Completable(s))
  }

  ghost predicate Doomed(s: Sys) {
    s.db.status == Cancelled && !Revivable(s)
  }

  ghost predicate CanEnd(c: Config, s: Sys) {
    exists ls :: Valid(c, s, ls) && Run(c, s, ls).db.status == Finished
  }

  lemma NothingLacks(c: Config, s: Sys)
    requires DbInv(c, s.db) && Remaining(s.db) == 0
    ensures Completable(s)
  {
    RemainingBounds(c, s.db);
    assert forall r :: r in s.db.requests ==> r.id in s.db.results;
    assert Lacking(s) == {};
  }

  lemma StepDoomed(c: Config, s: Sys, l: Label)
    requires Inv(c, s) && Told(s) && Doomed(s) && Enabled(c, s, l)
    ensures Doomed(Apply(c, s, l))
  {
    if s.readers > 0 {
      if Completable(Apply(c, s, l)) { StepIncomplete(c, s, l); }
      if Remaining(s.db) == 0 { NothingLacks(c, s); }
    }
  }

  lemma {:induction false} StaysCancelled(c: Config, s: Sys, ls: seq<Label>)
    requires Inv(c, s) && Told(s) && Doomed(s) && Valid(c, s, ls)
    ensures Run(c, s, ls).db.status == Cancelled
    decreases |ls|
  {
    if ls != [] {
      StepInv(c, s, ls[0]);
      StepTold(c, s, ls[0]);
      StepDoomed(c, s, ls[0]);
      StaysCancelled(c, Apply(c, s, ls[0]), ls[1..]);
    }
  }

  // ------------------------------------------------------------------ and everything that is left

  /** `t` is a state some run of steps leads to. */
  ghost predicate Reaches(c: Config, s: Sys, t: Sys) {
    exists ls :: Valid(c, s, ls) && Run(c, s, ls) == t
  }

  lemma {:induction false} RunsOn(c: Config, s: Sys, a: seq<Label>, b: seq<Label>)
    requires Valid(c, s, a) && Valid(c, Run(c, s, a), b)
    ensures Valid(c, s, a + b) && Run(c, s, a + b) == Run(c, Run(c, s, a), b)
    decreases |a|
  {
    if a == [] {
      assert a + b == b;
    } else {
      assert (a + b)[1..] == a[1..] + b;
      RunsOn(c, Apply(c, s, a[0]), a[1..], b);
    }
  }

  lemma ReachesOn(c: Config, s: Sys, t: Sys, u: Sys)
    requires Reaches(c, s, t) && Reaches(c, t, u)
    ensures Reaches(c, s, u)
  {
    var a :| Valid(c, s, a) && Run(c, s, a) == t;
    var b :| Valid(c, t, b) && Run(c, t, b) == u;
    RunsOn(c, s, a, b);
  }

  lemma ReachesStep(c: Config, s: Sys, l: Label)
    requires Enabled(c, s, l)
    ensures Reaches(c, s, Apply(c, s, l))
  {
    RunStep(c, s, [l]);
  }

  lemma ReachesInv(c: Config, s: Sys, t: Sys)
    requires Inv(c, s) && Told(s) && Reaches(c, s, t)
    ensures Inv(c, t) && Told(t) && Grows(s.db, t.db)
  {
    var ls :| Valid(c, s, ls) && Run(c, s, ls) == t;
    RunInv(c, s, ls);
    RunTold(c, s, ls);
    RunGrows(c, s, ls);
  }

  /** The same but for what one agent has done and sent. */
  predicate Posted(s: Sys, t: Sys, w: WorkerId) {
    && s.sent <= t.sent && w in t.agents && t.agents[w] == Asking
    && t == s.(agents := s.agents[w := Asking], sent := t.sent)
  }

  ghost predicate Sent(s: Sys, r: Request) {
    exists m :: m in s.sent && m.Chunk? && r in m.batch
  }

  /** An agent can post the rest of its shard, whether or not anything of it arrives. */
  lemma {:induction false} PostsRest(c: Config, s: Sys, w: WorkerId) returns (t: Sys)
    requires c.chunk > 0 && IsWorking(s, w) && !s.agents[w].awaiting
    ensures Reaches(c, s, t) && Posted(s, t, w)
    ensures forall r :: r in s.agents[w].todo[s.agents[w].next..] ==> Sent(t, r)
    decreases |s.agents[w].todo| - s.agents[w].next
  {
    var a := s.agents[w];
    if a.next == |a.todo| {
      t := Apply(c, s, LSendDone(w));
      ReachesStep(c, s, LSendDone(w));
    } else {
      var s1 := Apply(c, s, LPost(w));
      var s2 := Apply(c, s1, LReturn(w, true));
      ReachesStep(c, s, LPost(w));
      ReachesStep(c, s1, LReturn(w, true));
      t := PostsRest(c, s2, w);
      ReachesOn(c, s, s1, s2);
      ReachesOn(c, s, s2, t);
      RestSent(c, a, w, s1, s2, t);
    }
  }

  lemma RestSent(c: Config, a: Agent, w: WorkerId, s1: Sys, s2: Sys, t: Sys)
    requires a.Working? && a.next < |a.todo| && Chunk(w, a.shard, Batch(c, a)) in s1.sent && s1.sent <= s2.sent <= t.sent
    requires IsWorking(s2, w) && s2.agents[w].todo == a.todo && s2.agents[w].next == a.next + |Batch(c, a)|
    requires forall r :: r in a.todo[s2.agents[w].next..] ==> Sent(t, r)
    ensures forall r :: r in a.todo[a.next..] ==> Sent(t, r)
  {
    assert a.todo[a.next..] == Batch(c, a) + a.todo[s2.agents[w].next..];
  }

  /** Any agent that has not left can be brought back to asking. */
  lemma ComesBack(c: Config, s: Sys, w: WorkerId) returns (t: Sys)
    requires c.chunk > 0 && Inv(c, s) && Live(s, w) && w in s.agents
    ensures Reaches(c, s, t) && Posted(s, t, w)
  {
    var a := s.agents[w];
    if a.Asking? {
      t := s;
      assert s.agents[w := Asking] == s.agents;
      assert Valid(c, s, []) && Run(c, s, []) == s;
    } else {
      assert AgentOk(s.db, a);
      if a.awaiting {
        var s1 := Apply(c, s, LReturn(w, true));
        ReachesStep(c, s, LReturn(w, true));
        t := PostsRest(c, s1, w);
        ReachesOn(c, s, s1, t);
      } else {
        t := PostsRest(c, s, w);
      }
    }
  }

  /** What a worker that is still there was granted can be posted. */
  lemma GrantPosted(c: Config, s: Sys, g: Grant) returns (t: Sys)
    requires c.chunk > 0 && Inv(c, s) && g in s.grants && Live(s, g.worker)
    ensures Reaches(c, s, t) && Posted(s, t, g.worker)
    ensures forall r :: r in g.todo ==> Sent(t, r)
  {
    if g.worker in s.agents {
      var s1 := ComesBack(c, s, g.worker);
      t := AskingPosts(c, s1, g);
      ReachesOn(c, s, s1, t);
      assert t.agents == s.agents[g.worker := Asking];
    } else {
      t := AskingPosts(c, s, g);
    }
  }

  lemma AskingPosts(c: Config, s: Sys, g: Grant) returns (t: Sys)
    requires c.chunk > 0 && g in s.grants && (g.worker in s.agents ==> s.agents[g.worker] == Asking)
    ensures Reaches(c, s, t) && Posted(s, t, g.worker)
    ensures forall r :: r in g.todo ==> Sent(t, r)
  {
    var s1 := Apply(c, s, LReceive(g));
    ReachesStep(c, s, LReceive(g));
    t := PostsRest(c, s1, g.worker);
    ReachesOn(c, s, s1, t);
    assert g.todo[0..] == g.todo;
    assert t.agents == s.agents[g.worker := Asking];
  }

  // ----- what the moves below keep

  /** As many claims, nothing new in the way, and the status and its readers as they were. */
  ghost predicate NoWorse(s: Sys, t: Sys) {
    && t.db.status == s.db.status && t.readers == s.readers && t.flips == s.flips
    && LiveCalls(t) == LiveCalls(s) && Lacking(t) <= Lacking(s)
    && forall i :: i in Lacking(t) && t.db.shards[i].state == Done ==> s.db.shards[i].state == Done
  }

  lemma NoWorseCompletable(s: Sys, t: Sys)
    requires Completable(s) && NoWorse(s, t)
    ensures Completable(t)
  {
    SubsetSize(Lacking(t), Lacking(s));
  }

  lemma PostedNoWorse(s: Sys, t: Sys, w: WorkerId)
    requires Posted(s, t, w) && Live(s, w)
    ensures NoWorse(s, t)
  {
    forall v ensures Live(t, v) <==> Live(s, v) {}
    forall i | i in Lacking(t) ensures i in Lacking(s) {
      var r :| r in t.db.requests && r.shard == i && r.id !in t.db.results && !InFlight(t, r);
      assert !InFlight(s, r);
    }
  }

  lemma PutAnswers(c: Config, db: Db, sh: nat, w: WorkerId, batch: seq<Request>, r: Request)
    requires DbInv(c, db) && (forall q :: q in batch ==> q in db.requests) && r in batch && r.id !in db.results
    ensures Remaining(PutResults(db, sh, w, Rows(c, batch), 0)) < Remaining(db)
  {
    var after := PutResults(db, sh, w, Rows(c, batch), 0);
    PutHonest(c, db, sh, w, batch, 0);
    UpsertAllKeys(db.results, sh, w, Rows(c, batch), 0);
    SubsetSize(db.results.Keys, after.results.Keys - {r.id});
  }

  /** More results, and all else as it was. */
  lemma AnswersNoWorse(s: Sys, t: Sys)
    requires t.sent == s.sent && t.grants == s.grants && t.agents == s.agents && t.calls == s.calls
    requires t.readers == s.readers && t.flips == s.flips && t.db == s.db.(results := t.db.results)
    requires s.db.results.Keys <= t.db.results.Keys
    ensures NoWorse(s, t)
  {
    forall i | i in Lacking(t) ensures i in Lacking(s) {
      var q :| q in t.db.requests && q.shard == i && q.id !in t.db.results && !InFlight(t, q);
      assert !InFlight(s, q);
    }
  }

  /** A chunk that was sent can arrive. */
  lemma ChunkArrives(c: Config, s: Sys, m: Msg, r: Request) returns (t: Sys)
    requires Inv(c, s) && m in s.sent && m.Chunk? && r in m.batch && r.id !in s.db.results
    ensures Reaches(c, s, t) && NoWorse(s, t) && Remaining(t.db) < Remaining(s.db)
  {
    t := Apply(c, s, LDeliver(m, 0));
    ReachesStep(c, s, LDeliver(m, 0));
    StepGrows(c, s, LDeliver(m, 0));
    assert MsgOk(s.db, m, m in s.stored);
    PutAnswers(c, s.db, m.shard, m.worker, m.batch, r);
    AnswersNoWorse(s, t);
  }

  /** An answer on its way can arrive. */
  lemma FlightArrives(c: Config, s: Sys, r: Request) returns (t: Sys)
    requires c.chunk > 0 && Inv(c, s) && Told(s) && InFlight(s, r) && r.id !in s.db.results
    ensures Reaches(c, s, t) && NoWorse(s, t) && Remaining(t.db) < Remaining(s.db)
  {
    if m :| m in s.sent && m.Chunk? && r in m.batch {
      t := ChunkArrives(c, s, m, r);
    } else {
      var g :| g in s.grants && Live(s, g.worker) && r in g.todo;
      var s1 := GrantPosted(c, s, g);
      ReachesInv(c, s, s1);
      PostedNoWorse(s, s1, g.worker);
      assert Sent(s1, r);
      var m :| m in s1.sent && m.Chunk? && r in m.batch;
      t := ChunkArrives(c, s1, m, r);
      ReachesOn(c, s, s1, t);
    }
  }

  // ----- when nothing is on its way

  /** Every answer that is missing is one nobody is about to send. */
  ghost predicate Quiet(s: Sys) {
    forall r :: r in s.db.requests && r.id !in s.db.results ==> !InFlight(s, r)
  }

  /** The claims that found an answered shard and have yet to finish it. */
  function EmptiedCalls(s: Sys): set<nat> {
    set n | n in s.calls && s.calls[n].Emptied?
  }

  /** Shards changed, and who has called; what is on its way is as it was. */
  lemma ShardsNoWorse(s: Sys, t: Sys)
    requires t.sent == s.sent && t.grants == s.grants && t.agents == s.agents && t.readers == s.readers && t.flips == s.flips
    requires t.db == s.db.(shards := t.db.shards) && |t.db.shards| == |s.db.shards| && t.calls.Keys == s.calls.Keys
    requires forall n :: n in s.calls ==> t.calls[n].worker == s.calls[n].worker
    requires forall i :: 0 <= i < |s.db.shards| && t.db.shards[i].state == Done && s.db.shards[i].state != Done ==> Answered(s.db, i)
    ensures NoWorse(s, t) && (Quiet(s) ==> Quiet(t))
  {
    forall r ensures InFlight(t, r) <==> InFlight(s, r) {}
    forall i ensures i in Lacking(t) <==> i in Lacking(s) { assert Lacks(t, i) <==> Lacks(s, i); }
  }

  /** A claim that is about to finish an answered shard does so. */
  lemma EmptyFinishes(c: Config, s: Sys, n: nat) returns (t: Sys)
    requires Inv(c, s) && n in EmptiedCalls(s)
    ensures Reaches(c, s, t) && NoWorse(s, t) && (Quiet(s) ==> Quiet(t)) && Remaining(t.db) == Remaining(s.db)
    ensures EmptiedCalls(t) == EmptiedCalls(s) - {n} && n in t.calls && t.calls[n] == Checked(s.calls[n].worker)
    ensures t.db == FinishShard(s.db, s.calls[n].shard, s.calls[n].worker)
  {
    t := Apply(c, s, LFinishEmpty(n));
    ReachesStep(c, s, LFinishEmpty(n));
    ShardsNoWorse(s, t);
  }

  /** Every lease runs out and is reaped. */
  lemma AllReaped(c: Config, s: Sys) returns (t: Sys)
    requires Inv(c, s)
    ensures Reaches(c, s, t) && NoWorse(s, t) && (Quiet(s) ==> Quiet(t)) && Remaining(t.db) == Remaining(s.db) && t.calls == s.calls
    ensures |t.db.shards| == |s.db.shards|
    ensures forall i :: 0 <= i < |s.db.shards| ==> t.db.shards[i].state == if s.db.shards[i].state == Done then Done else Pending
  {
    var late := LateEnough(s.db.shards);
    t := Apply(c, s, LReap(late));
    ReachesStep(c, s, LReap(late));
    forall i | 0 <= i < |s.db.shards| ensures t.db.shards[i].state == if s.db.shards[i].state == Done then Done else Pending {
      assert Columns(s.db.shards[i]);
    }
    ShardsNoWorse(s, t);
  }

  /** A claim takes the first pending shard, which is one that lacks answers. */
  lemma ClaimTakes(c: Config, s: Sys, n: nat, sh: nat) returns (t: Sys)
    requires Inv(c, s) && Quiet(s) && Completable(s) && n in LiveCalls(s) && s.calls[n].Checked?
    requires FirstPending(s.db.shards, 0) == Some(sh) && Unanswered(s.db.requests, s.db.results, sh) != []
    ensures Reaches(c, s, t) && Completable(t) && Lacking(t) < Lacking(s) && t.db == Lease(s.db, sh, s.calls[n].worker, 0)
    ensures t.readers == s.readers && t.flips == s.flips
  {
    var w, todo := s.calls[n].worker, Unanswered(s.db.requests, s.db.results, sh);
    t := Apply(c, s, LClaim(n, 0, todo));
    ReachesStep(c, s, LClaim(n, 0, todo));
    assert todo[0] in todo && Lacks(s, sh);
    GrantCovers(s, t, Grant(w, sh, todo));
    assert LiveCalls(t) == LiveCalls(s) - {n};
  }

  /** A grant of all that a shard lacks, to a worker that is there, leaves only the other shards lacking. */
  lemma GrantCovers(s: Sys, t: Sys, g: Grant)
    requires Quiet(s) && t.sent == s.sent && t.agents == s.agents && t.grants == s.grants + {g} && Live(s, g.worker)
    requires t.db == s.db.(shards := t.db.shards) && |t.db.shards| == |s.db.shards|
    requires forall r :: r in g.todo <==> r in s.db.requests && r.shard == g.shard && r.id !in s.db.results
    ensures Lacking(t) == Lacking(s) - {g.shard}
  {
    forall r | r in s.db.requests && r.id !in s.db.results ensures InFlight(t, r) <==> r.shard == g.shard {
      assert !InFlight(s, r);
      assert r.shard == g.shard ==> g in t.grants && r in g.todo;
    }
    forall i ensures i in Lacking(t) <==> i in Lacking(s) - {g.shard} {
      assert Lacks(t, i) <==> Lacks(s, i) && i != g.shard;
    }
  }

  /** A claim takes the first pending shard and finds it answered. */
  lemma ClaimEmpties(c: Config, s: Sys, n: nat, sh: nat) returns (t: Sys)
    requires n in s.calls && s.calls[n].Checked?
    requires FirstPending(s.db.shards, 0) == Some(sh) && Unanswered(s.db.requests, s.db.results, sh) == []
    ensures Reaches(c, s, t) && NoWorse(s, t) && (Quiet(s) ==> Quiet(t))
    ensures t.db == Lease(s.db, sh, s.calls[n].worker, 0) && t.calls == s.calls[n := Emptied(s.calls[n].worker, sh)]
  {
    t := Apply(c, s, LClaim(n, 0, []));
    ReachesStep(c, s, LClaim(n, 0, []));
    ShardsNoWorse(s, t);
  }

  /** It finishes that shard, and can be made again. */
  lemma ClaimPasses(c: Config, s: Sys, n: nat, sh: nat) returns (t: Sys)
    requires Inv(c, s) && Told(s) && n in s.calls && s.calls[n].Checked?
    requires FirstPending(s.db.shards, 0) == Some(sh) && Unanswered(s.db.requests, s.db.results, sh) == []
    ensures Reaches(c, s, t) && NoWorse(s, t) && (Quiet(s) ==> Quiet(t)) && Remaining(t.db) == Remaining(s.db)
    ensures EmptiedCalls(t) == EmptiedCalls(s) && Outstanding(t.db.shards) < Outstanding(s.db.shards)
  {
    var s1 := ClaimEmpties(c, s, n, sh);
    ReachesInv(c, s, s1);
    t := EmptyFinishes(c, s1, n);
    ReachesOn(c, s, s1, t);
    FewerPassed(s.db, sh, s.calls[n].worker);
    SameEmptied(s, s1, t, n);
  }

  lemma FewerPassed(db: Db, sh: nat, w: WorkerId)
    requires sh < |db.shards| && db.shards[sh].state == Pending
    ensures Outstanding(FinishShard(Lease(db, sh, w, 0), sh, w).shards) < Outstanding(db.shards)
  {
    var a := Lease(db, sh, w, 0);
    OutstandingUpdate(db.shards, sh, a.shards[sh]);
    OutstandingUpdate(a.shards, sh, FinishShard(a, sh, w).shards[sh]);
  }

  lemma SameEmptied(s: Sys, s1: Sys, t: Sys, n: nat)
    requires n in s.calls && s.calls[n].Checked? && n in s1.calls
    requires s1.calls == s.calls[n := s1.calls[n]] && s1.calls[n].Emptied? && EmptiedCalls(t) == EmptiedCalls(s1) - {n}
    ensures EmptiedCalls(t) == EmptiedCalls(s)
  {
  }

  // ----- to the end

  /** How far a state is from one in which everything is answered. */
  function Missing(s: Sys): nat {
    if Remaining(s.db) > 0 then Remaining(s.db) else 0
  }

  ghost predicate Nearer(t: Sys, s: Sys) {
    || Remaining(t.db) < Remaining(s.db)
    || (Remaining(t.db) == Remaining(s.db) && Lacking(t) <= Lacking(s)
        && (Lacking(t) < Lacking(s)
            || EmptiedCalls(t) < EmptiedCalls(s)
            || (EmptiedCalls(t) == EmptiedCalls(s) && Outstanding(t.db.shards) < Outstanding(s.db.shards))))
  }

  /** Something can always be done about a missing answer. */
  lemma OneMove(c: Config, s: Sys) returns (t: Sys)
    requires c.chunk > 0 && Inv(c, s) && Told(s) && Completable(s) && Remaining(s.db) > 0
    ensures Reaches(c, s, t) && Completable(t) && Nearer(t, s) && t.readers == s.readers && t.flips == s.flips
    ensures t.db.status == s.db.status
  {
    if Quiet(s) {
      var n := SomeCall(c, s);
      if s.calls[n].Emptied? {
        t := EmptyFinishes(c, s, n);
        NoWorseCompletable(s, t);
      } else {
        t := CallMoves(c, s, n);
      }
    } else {
      var r :| r in s.db.requests && r.id !in s.db.results && InFlight(s, r);
      t := FlightArrives(c, s, r);
      NoWorseCompletable(s, t);
    }
  }

  /** A missing answer nobody is about to send is lacking in a shard, and there is a claim for it. */
  lemma SomeCall(c: Config, s: Sys) returns (n: nat)
    requires Inv(c, s) && Completable(s) && Quiet(s) && Remaining(s.db) > 0
    ensures n in LiveCalls(s) && exists i :: i in Lacking(s)
  {
    RemainingBounds(c, s.db);
    var r :| r in s.db.requests && r.id !in s.db.results;
    assert Lacks(s, r.shard) && r.shard in Lacking(s);
    assert LiveCalls(s) != {};
    n :| n in LiveCalls(s);
  }

  /** With every lease run out, a claim takes a shard that lacks answers or finishes one that does not. */
  lemma CallMoves(c: Config, s: Sys, n: nat) returns (t: Sys)
    requires Inv(c, s) && Told(s) && Completable(s) && Quiet(s) && n in LiveCalls(s) && s.calls[n].Checked?
    requires exists i :: i in Lacking(s)
    ensures Reaches(c, s, t) && Completable(t) && Nearer(t, s) && t.readers == s.readers && t.flips == s.flips
    ensures t.db.status == s.db.status
  {
    var i :| i in Lacking(s);
    var s1 := AllReaped(c, s);
    ReachesInv(c, s, s1);
    NoWorseCompletable(s, s1);
    FewerOutstanding(s.db.shards, s1.db.shards);
    assert s1.db.shards[i].state == Pending;
    var sh := FirstPending(s1.db.shards, 0).value;
    if Unanswered(s1.db.requests, s1.db.results, sh) != [] {
      t := ClaimTakes(c, s1, n, sh);
    } else {
      t := ClaimPasses(c, s1, n, sh);
      NoWorseCompletable(s1, t);
    }
    ReachesOn(c, s, s1, t);
  }

  lemma NearerBy(t: Sys, s: Sys)
    requires Nearer(t, s) && Remaining(s.db) > 0
    ensures Missing(t) < Missing(s)
         || (Missing(t) == Missing(s) && |Lacking(t)| < |Lacking(s)|)
         || (Missing(t) == Missing(s) && |Lacking(t)| == |Lacking(s)| && |EmptiedCalls(t)| < |EmptiedCalls(s)|)
         || (Missing(t) == Missing(s) && |Lacking(t)| == |Lacking(s)| && |EmptiedCalls(t)| == |EmptiedCalls(s)|
             && Outstanding(t.db.shards) < Outstanding(s.db.shards))
  {
    if Remaining(t.db) == Remaining(s.db) {
      if Lacking(t) < Lacking(s) {
        SubsetSmaller(Lacking(t), Lacking(s));
      } else {
        assert Lacking(t) == Lacking(s);
      }
      if EmptiedCalls(t) < EmptiedCalls(s) {
        SubsetSmaller(EmptiedCalls(t), EmptiedCalls(s));
      }
    }
  }

  lemma {:induction false} Completes(c: Config, s: Sys) returns (t: Sys)
    requires c.chunk > 0 && Inv(c, s) && Told(s) && Completable(s)
    ensures Reaches(c, s, t) && Remaining(t.db) == 0 && t.readers == s.readers && t.flips == s.flips
    ensures t.db.status == s.db.status
    decreases Missing(s), |Lacking(s)|, |EmptiedCalls(s)|, Outstanding(s.db.shards)
  {
    RemainingBounds(c, s.db);
    if Remaining(s.db) == 0 {
      t := s;
      assert Valid(c, s, []) && Run(c, s, []) == s;
    } else {
      var s1 := OneMove(c, s);
      ReachesInv(c, s, s1);
      NearerBy(s1, s);
      t := Completes(c, s1);
      ReachesOn(c, s, s1, t);
    }
  }

  // ------------------------------------------------------------------ exactly when

  lemma CanFinish(c: Config, s: Sys) returns (t: Sys)
    requires c.chunk > 0 && Inv(c, s) && Told(s) && Revivable(s)
    ensures Reaches(c, s, t) && t.db.status == Finished
  {
    if s.flips > 0 {
      t := Apply(c, s, LSetFinished);
      ReachesStep(c, s, LSetFinished);
    } else {
      var s1 := Completes(c, s);
      var s2 := Apply(c, s1, LCount);
      t := Apply(c, s2, LSetFinished);
      ReachesStep(c, s1, LCount);
      ReachesStep(c, s2, LSetFinished);
      ReachesOn(c, s, s1, s2);
      ReachesOn(c, s, s2, t);
    }
  }

  /** A cancelled job can still end as done exactly when a results handler has counted nothing
      remaining and is about to write, or one has read the job as running before the cancel and
      every missing answer can still arrive: it is on its way, or left for a claim that had also
      read the job as running. */
  lemma CancelHolds(c: Config, input: seq<(RequestId, string)>, size: int, past: seq<Label>)
    requires c.chunk > 0 && size > 0 && Created(input, size).Some? && Valid(c, Init(Created(input, size).value), past)
    requires Run(c, Init(Created(input, size).value), past).db.status == Cancelled
    ensures var s := Run(c, Init(Created(input, size).value), past);
            CanEnd(c, s) <==> s.flips > 0 || (s.readers > 0 && Completable(s))
  {
    var s0 := Init(Created(input, size).value);
    var s := Run(c, s0, past);
    InitInv(c, input, size);
    RunInv(c, s0, past);
    RunTold(c, s0, past);
    if Revivable(s) {
      Revives(c, s);
    } else {
      NeverFinishes(c, s);
    }
  }

  lemma Revives(c: Config, s: Sys)
    requires c.chunk > 0 && Inv(c, s) && Told(s) && Revivable(s)
    ensures CanEnd(c, s)
  {
    var t := CanFinish(c, s);
  }

  lemma NeverFinishes(c: Config, s: Sys)
    requires Inv(c, s) && Told(s) && Doomed(s)
    ensures !CanEnd(c, s)
  {
    forall ls | Valid(c, s, ls) ensures Run(c, s, ls).db.status != Finished { StaysCancelled(c, s, ls); }
  }

  /** The run in which it happens: a handler reads the job as running while an answer is missing,
      the job is cancelled, the answer arrives late, and the handler counts and writes. */
  lemma CancelledThenDone(c: Config, w: WorkerId, id: RequestId, prompt: string)
    returns (before: seq<Label>, after: seq<Label>)
    requires c.chunk > 0
    ensures Created([(id, prompt)], 1).Some?
    ensures var s0 := Init(Created([(id, prompt)], 1).value);
            && Valid(c, s0, before) && Run(c, s0, before).db.status == Cancelled
            && Remaining(Run(c, s0, before).db) == 1 && Run(c, s0, before).flips == 0
            && Valid(c, Run(c, s0, before), after) && Run(c, Run(c, s0, before), after).db.status == Finished
  {
    var r, s0 := Request(id, 0, prompt), Init(Created([(id, prompt)], 1).value);
    var lost := StrandingRun(c, w, id, prompt);
    var s := Run(c, s0, lost);
    before, after := lost + [LReadJob, LCancel], [LDeliver(Chunk(w, 0, [r]), 0), LCount, LSetFinished];
    var t := ReadAndCancel(c, s);
    RunsOn(c, s0, lost, [LReadJob, LCancel]);
    LateChunkCounts(c, t, w, r);
  }

  lemma ReadAndCancel(c: Config, s: Sys) returns (t: Sys)
    requires s.handlers > 0 && s.db.status == Running
    ensures Valid(c, s, [LReadJob, LCancel]) && t == Run(c, s, [LReadJob, LCancel])
    ensures t == s.(db := s.db.(status := Cancelled), handlers := s.handlers - 1, readers := s.readers + 1)
  {
    t := Apply(c, Apply(c, s, LReadJob), LCancel);
    assert [LReadJob, LCancel][1..] == [LCancel];
    RunStep(c, Apply(c, s, LReadJob), [LCancel]);
    RunStep(c, s, [LReadJob, LCancel]);
  }

  lemma LateChunkCounts(c: Config, s: Sys, w: WorkerId, r: Request)
    requires Chunk(w, 0, [r]) in s.sent && s.readers > 0 && s.db.nRequests == 1 && s.db.results == map[]
    ensures var ls := [LDeliver(Chunk(w, 0, [r]), 0), LCount, LSetFinished];
            Valid(c, s, ls) && Run(c, s, ls).db.status == Finished
  {
    var ls := [LDeliver(Chunk(w, 0, [r]), 0), LCount, LSetFinished];
    var s1 := Apply(c, s, ls[0]);
    OneResult(c, s.db, w, r);
    var s2 := Apply(c, s1, LCount);
    assert ls[1..][1..] == [LSetFinished] && ls[1..][0] == LCount;
    RunStep(c, s2, [LSetFinished]);
    RunStep(c, s1, ls[1..]);
    RunStep(c, s, ls);
  }

  lemma OneResult(c: Config, db: Db, w: WorkerId, r: Request)
    requires db.nRequests == 1 && db.results == map[]
    ensures Remaining(PutResults(db, 0, w, Rows(c, [r]), 0)) == 0
  {
    var rows := Rows(c, [r]);
    UpsertAllKeys(db.results, 0, w, rows, 0);
    assert rows == [Answer(c, r)];
    assert PutResults(db, 0, w, rows, 0).results.Keys == {r.id};
  }
}
