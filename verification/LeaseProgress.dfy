/** Whether a running job can still end as done. */
module LeaseProgress {
  import opened Base
  import opened LeaseDb
  import opened LeaseProtocol
  import opened LeaseTheorems
  import opened LeaseCancellation

  /** A done shard that lacks an answer nobody is about to send. */
  ghost predicate Stranded(s: Sys, i: nat) {
    i in Lacking(s) && s.db.shards[i].state == Done
  }

  // ------------------------------------------------------------------ what is stranded stays so

  lemma StepStranded(c: Config, s: Sys, l: Label, i: nat)
    requires Inv(c, s) && Told(s) && Enabled(c, s, l) && Stranded(s, i)
    ensures Stranded(Apply(c, s, l), i)
  {
    StaysLacking(c, s, l, i);
    StepGrows(c, s, l);
  }

  lemma {:induction false} NeverFinished(c: Config, s: Sys, ls: seq<Label>, i: nat)
    requires Inv(c, s) && Told(s) && Valid(c, s, ls) && Stranded(s, i)
    ensures Run(c, s, ls).db.status != Finished
    decreases |ls|
  {
    if ls == [] {
      if s.db.status == Finished {
        NothingLacks(c, s);
        RemainingBounds(c, s.db);
      }
    } else {
      StepInv(c, s, ls[0]);
      StepTold(c, s, ls[0]);
      StepStranded(c, s, ls[0], i);
      NeverFinished(c, Apply(c, s, ls[0]), ls[1..], i);
    }
  }

  /** Nothing was ever granted, sent or counted. */
  predicate Idle(s: Sys) {
    && s.db.shards == [] && s.grants == {} && s.sent == {} && s.db.status != Finished
    && s.handlers == 0 && s.readers == 0 && s.flips == 0
    && forall w :: w in s.agents ==> !s.agents[w].Working?
  }

  lemma {:induction false} StaysIdle(c: Config, s: Sys, ls: seq<Label>)
    requires Idle(s) && Valid(c, s, ls)
    ensures Idle(Run(c, s, ls))
    decreases |ls|
  {
    if ls != [] {
      StepIdle(c, s, ls[0]);
      StaysIdle(c, Apply(c, s, ls[0]), ls[1..]);
    }
  }

  lemma StepIdle(c: Config, s: Sys, l: Label)
    requires Idle(s) && Enabled(c, s, l)
    ensures Idle(Apply(c, s, l))
  {
  }

  // ------------------------------------------------------------------ and all else can be answered

  lemma {:induction false} Bounded<T>(xs: set<T>, f: T -> nat) returns (n: nat)
    ensures forall x :: x in xs ==> f(x) < n
  {
    n := 0;
    if x :| x in xs {
      n := Bounded(xs - {x}, f);
      if n <= f(x) {
        n := f(x) + 1;
      }
    }
  }

  /** A worker nobody has heard of, and a claim nobody has made. */
  lemma Fresh(s: Sys) returns (w: WorkerId, n: nat)
    ensures w !in s.agents && n !in s.calls
  {
    var k := Bounded(s.agents.Keys, (v: WorkerId) => |v|);
    w := seq(k, _ => 'w');
    n := Bounded(s.calls.Keys, (m: nat) => m);
  }

  /** The same, with one more claim past its check of the status. */
  lemma OneMoreCall(c: Config, s: Sys) returns (t: Sys)
    requires s.db.status == Running
    ensures Reaches(c, s, t) && t == s.(calls := t.calls) && |LiveCalls(t)| == |LiveCalls(s)| + 1
  {
    var w, n := Fresh(s);
    t := Apply(c, s, LCheckClaim(n, w));
    ReachesStep(c, s, LCheckClaim(n, w));
    LiveAdded(s, n, w);
  }

  lemma LiveAdded(s: Sys, n: nat, w: WorkerId)
    requires w !in s.agents && n !in s.calls
    ensures |LiveCalls(s.(calls := s.calls[n := Checked(w)]))| == |LiveCalls(s)| + 1
  {
    var t := s.(calls := s.calls[n := Checked(w)]);
    forall k ensures k in LiveCalls(t) <==> k in LiveCalls(s) + {n} {
      assert k != n ==> (k in t.calls <==> k in s.calls);
    }
    assert n !in LiveCalls(s) && LiveCalls(t) == LiveCalls(s) + {n};
  }

  lemma {:induction false} CallsEnough(c: Config, s: Sys, k: nat) returns (t: Sys)
    requires s.db.status == Running
    ensures Reaches(c, s, t) && t == s.(calls := t.calls) && |LiveCalls(t)| >= k
  {
    if k == 0 {
      t := s;
      assert Valid(c, s, []) && Run(c, s, []) == s;
    } else {
      var s1 := CallsEnough(c, s, k - 1);
      t := OneMoreCall(c, s1);
      ReachesOn(c, s, s1, t);
    }
  }

  lemma SameLacking(s: Sys, t: Sys)
    requires t == s.(calls := t.calls)
    ensures Lacking(t) == Lacking(s)
  {
    forall r ensures InFlight(t, r) <==> InFlight(s, r) {}
    forall i ensures i in Lacking(t) <==> i in Lacking(s) { assert Lacks(t, i) <==> Lacks(s, i); }
  }

  /** While the job runs, new workers can come and claim what is missing. */
  lemma RunningCompletes(c: Config, s: Sys) returns (t: Sys)
    requires c.chunk > 0 && Inv(c, s) && Told(s) && s.db.status == Running && forall i: nat :: !Stranded(s, i)
    ensures Reaches(c, s, t) && Remaining(t.db) == 0 && t.db.status == Running
  {
    var s1 := CallsEnough(c, s, |Lacking(s)|);
    SameLacking(s, s1);
    ReachesInv(c, s, s1);
    assert forall i :: i in Lacking(s1) ==> !Stranded(s, i);
    t := Completes(c, s1);
    ReachesOn(c, s, s1, t);
  }

  /** An answer came in some message. */
  predicate Heard(s: Sys) {
    s.db.results != map[] ==> s.sent != {}
  }

  lemma {:induction false} RunHeard(c: Config, s: Sys, ls: seq<Label>)
    requires Heard(s) && Valid(c, s, ls)
    ensures Heard(Run(c, s, ls))
    decreases |ls|
  {
    if ls != [] { RunHeard(c, Apply(c, s, ls[0]), ls[1..]); }
  }

  /** A message that arrives once more counts again, and finishes the job. */
  lemma CountsAgain(c: Config, s: Sys) returns (t: Sys)
    requires Inv(c, s) && s.db.status == Running && Remaining(s.db) == 0 && s.sent != {}
    ensures Reaches(c, s, t) && t.db.status == Finished
  {
    var m :| m in s.sent;
    var s1 := Apply(c, s, LDeliver(m, 0));
    StepInv(c, s, LDeliver(m, 0));
    StepRemains(c, s, m);
    ReachesStep(c, s, LDeliver(m, 0));
    t := ReadCountWrite(c, s1);
    ReachesOn(c, s, s1, t);
  }

  lemma StepRemains(c: Config, s: Sys, m: Msg)
    requires Inv(c, s) && m in s.sent && Remaining(s.db) == 0
    ensures Remaining(Apply(c, s, LDeliver(m, 0)).db) == 0
  {
    StepInv(c, s, LDeliver(m, 0));
    StepGrows(c, s, LDeliver(m, 0));
    RemainingFalls(c, s.db, Apply(c, s, LDeliver(m, 0)).db);
    RemainingBounds(c, Apply(c, s, LDeliver(m, 0)).db);
  }

  lemma ReadCountWrite(c: Config, s: Sys) returns (t: Sys)
    requires s.handlers > 0 && s.db.status == Running && Remaining(s.db) == 0
    ensures Reaches(c, s, t) && t.db.status == Finished
  {
    var s1 := Apply(c, s, LReadJob);
    var s2 := Apply(c, s1, LCount);
    t := Apply(c, s2, LSetFinished);
    ReachesStep(c, s, LReadJob);
    ReachesStep(c, s1, LCount);
    ReachesStep(c, s2, LSetFinished);
    ReachesOn(c, s, s1, s2);
    ReachesOn(c, s, s2, t);
  }

  lemma RunningFinishes(c: Config, s: Sys)
    requires c.chunk > 0 && Inv(c, s) && Told(s) && Heard(s) && s.db.status == Running && s.db.nRequests > 0
    requires forall i: nat :: !Stranded(s, i)
    ensures CanEnd(c, s)
  {
    var s1 := RunningCompletes(c, s);
    ReachesInv(c, s, s1);
    var ls :| Valid(c, s, ls) && Run(c, s, ls) == s1;
    RunHeard(c, s, ls);
    var t := CountsAgain(c, s1);
    ReachesOn(c, s, s1, t);
  }

  lemma AllStored(c: Config, db: Db, sh: nat, w: WorkerId, batch: seq<Request>, now: int)
    ensures Stored(PutResults(db, sh, w, Rows(c, batch), now), batch)
  {
    UpsertAllKeys(db.results, sh, w, Rows(c, batch), now);
    forall r | r in batch ensures r.id in UpsertAll(db.results, sh, w, Rows(c, batch), now) {
      var k :| 0 <= k < |batch| && batch[k] == r;
      assert Rows(c, batch)[k] in Rows(c, batch);
    }
  }

  /** A post takes the next requests in order, a chunk of them or all that are left. */
  lemma BatchExactly(c: Config, a: Agent)
    requires a.Working? && a.next <= |a.todo|
    ensures |Batch(c, a)| == if c.chunk < |a.todo| - a.next then c.chunk else |a.todo| - a.next
    ensures forall k :: 0 <= k < |Batch(c, a)| ==> Batch(c, a)[k] == a.todo[a.next + k]
  {
  }

  /** A post that is answered has stored all of its batch and moves its worker on by that. */
  lemma PostAnswered(c: Config, s: Sys, w: WorkerId, now: int)
    requires Enabled(c, s, LPost(w))
    ensures var a := s.agents[w];
            var s2 := Apply(c, Apply(c, s, LPost(w)), LDeliver(Chunk(w, a.shard, Batch(c, a)), now));
            && Stored(s2.db, Batch(c, a)) && Enabled(c, s2, LReturn(w, false))
            && Apply(c, s2, LReturn(w, false)).agents[w] == a.(next := a.next + |Batch(c, a)|)
  {
    var a := s.agents[w];
    AllStored(c, s.db, a.shard, w, Batch(c, a), now);
  }

  // ------------------------------------------------------------------ exactly when

  /** A running job can still end as done exactly when it has a request and no done shard lacks an
      answer that nobody is about to send. */
  lemma RunningHolds(c: Config, input: seq<(RequestId, string)>, size: int, past: seq<Label>)
    requires c.chunk > 0 && size > 0 && Created(input, size).Some? && Valid(c, Init(Created(input, size).value), past)
    requires Run(c, Init(Created(input, size).value), past).db.status == Running
    ensures var s := Run(c, Init(Created(input, size).value), past);
            CanEnd(c, s) <==> input != [] && forall i: nat :: !Stranded(s, i)
  {
    var s0 := Init(Created(input, size).value);
    var s := Run(c, s0, past);
    InitInv(c, input, size);
    RunInv(c, s0, past);
    RunTold(c, s0, past);
    RunHeard(c, s0, past);
    RunGrows(c, s0, past);
    if input == [] {
      assert Idle(s0);
      forall ls | Valid(c, s, ls) ensures Run(c, s, ls).db.status != Finished {
        StaysIdle(c, s0, past);
        StaysIdle(c, s, ls);
      }
    } else if i: nat :| Stranded(s, i) {
      forall ls | Valid(c, s, ls) ensures Run(c, s, ls).db.status != Finished { NeverFinished(c, s, ls, i); }
    } else {
      RunningFinishes(c, s);
    }
  }

  /** So while no worker sends done after a post that gave up, it always can. */
  lemma ReliableCanEnd(c: Config, input: seq<(RequestId, string)>, size: int, past: seq<Label>)
    requires c.chunk > 0 && size > 0 && Created(input, size).Some? && Valid(c, Init(Created(input, size).value), past)
    requires ReliableRun(c, Init(Created(input, size).value), past) && input != []
    requires Run(c, Init(Created(input, size).value), past).db.status == Running
    ensures CanEnd(c, Run(c, Init(Created(input, size).value), past))
  {
    var s0 := Init(Created(input, size).value);
    var s := Run(c, s0, past);
    InitInv(c, input, size);
    RunComplete(c, s0, past);
    assert forall i: nat :: i < |s.db.shards| && Answered(s.db, i) ==> !Lacks(s, i);
    RunningHolds(c, input, size, past);
  }
}
