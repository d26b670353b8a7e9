/** The lease protocol as a step system: the store of LeaseDb, the agents of worker/agent.py,
    and the messages between them, any of which may arrive late, twice or never. */
module LeaseProtocol {
  import opened Base
  import opened LeaseDb

  /** What every worker runs, per prompt, and how many requests it posts at a time. */
  datatype Config = Config(engine: string -> string, accept: string -> bool, chunk: nat)

  datatype Agent =
    | Asking
      // `next` requests are behind it, a post may be awaiting its answer, and `lost` says
      // that some earlier post gave up after its retries.
    | Working(shard: nat, todo: seq<Request>, next: nat, awaiting: bool, lost: bool)
    | Gone

  /** A results message. A chunk carries the answers to its batch, which the engine determines. */
  datatype Msg = Chunk(worker: WorkerId, shard: nat, batch: seq<Request>)
               | DoneMsg(worker: WorkerId, shard: nat)

  datatype Grant = Grant(worker: WorkerId, shard: nat, todo: seq<Request>)

  /** A claim request between its transactions: it has read the job as running, or it has leased
      a shard that turned out to be fully answered and has yet to finish it. */
  datatype Call = Checked(worker: WorkerId) | Emptied(worker: WorkerId, shard: nat)

  /** `stored` are the messages delivered at least once. Of the results handlers, `handlers` have
      yet to read the job's status, `readers` have read it as running and have yet to count the
      results, and `flips` have counted nothing remaining and have yet to write the status. */
  datatype Sys = Sys(db: Db, agents: map<WorkerId, Agent>, sent: set<Msg>, stored: set<Msg>,
                     grants: set<Grant>, calls: map<nat, Call>, handlers: nat, readers: nat, flips: nat)

  datatype Label =
    | LCheckClaim(call: nat, worker: WorkerId)
    | LClaim(call: nat, exp: int, todo: seq<Request>)
    | LFinishEmpty(call: nat)
    | LReceive(grant: Grant)
    | LPost(worker: WorkerId)
    | LReturn(worker: WorkerId, gaveUp: bool)
    | LSendDone(worker: WorkerId)
    | LLeave(worker: WorkerId)
    | LDeliver(msg: Msg, now: int)
    | LReadJob
    | LCount
    | LSetFinished
    | LCancel
    | LReap(now: int)
    | LKill(worker: WorkerId)
    | LBeat(worker: WorkerId, shard: nat, exp: int)

  function Answer(c: Config, r: Request): Row {
    Row(r.id, c.engine(r.prompt), c.accept(c.engine(r.prompt)))
  }

  function Rows(c: Config, batch: seq<Request>): seq<Row> {
    seq(|batch|, i requires 0 <= i < |batch| => Answer(c, batch[i]))
  }

  function Batch(c: Config, a: Agent): seq<Request>
    requires a.Working? && a.next <= |a.todo|
  {
    a.todo[a.next..if a.next + c.chunk < |a.todo| then a.next + c.chunk else |a.todo|]
  }

  predicate IsWorking(s: Sys, w: WorkerId) {
    w in s.agents && s.agents[w].Working? && s.agents[w].next <= |s.agents[w].todo|
  }

  predicate Enabled(c: Config, s: Sys, l: Label) {
    match l
    case LCheckClaim(n, w) => n !in s.calls && s.db.status == Running
    case LClaim(n, exp, todo) =>
      // The rows of a claim come in no particular order.
      var pick := FirstPending(s.db.shards, 0);
      && n in s.calls && s.calls[n].Checked?
      && (pick.Some? ==> multiset(todo) == multiset(Unanswered(s.db.requests, s.db.results, pick.value)))
    case LFinishEmpty(n) => n in s.calls && s.calls[n].Emptied?
    case LReceive(g) => g in s.grants && (g.worker !in s.agents || s.agents[g.worker].Asking?)
    case LPost(w) =>
      && IsWorking(s, w) && !s.agents[w].awaiting
      && s.agents[w].next < |s.agents[w].todo|
    case LReturn(w, gaveUp) =>
      && IsWorking(s, w) && s.agents[w].awaiting
      && (!gaveUp ==> Chunk(w, s.agents[w].shard, Batch(c, s.agents[w])) in s.stored)
    case LSendDone(w) =>
      IsWorking(s, w) && !s.agents[w].awaiting && s.agents[w].next == |s.agents[w].todo|
    case LDeliver(m, now) => m in s.sent
    case LReadJob => s.handlers > 0
    case LCount => s.readers > 0
    case LSetFinished => s.flips > 0
    case _ => true
  }

  function Apply(c: Config, s: Sys, l: Label): Sys
    requires Enabled(c, s, l)
  {
    match l
    case LCheckClaim(n, w) => s.(calls := s.calls[n := Checked(w)])
    case LClaim(n, exp, todo) =>
      var w := s.calls[n].worker;
      (match FirstPending(s.db.shards, 0)
       case None => s.(calls := s.calls - {n})
       case Some(sh) =>
         if todo == [] then s.(db := Lease(s.db, sh, w, exp), calls := s.calls[n := Emptied(w, sh)])
         else s.(db := Lease(s.db, sh, w, exp), grants := s.grants + {Grant(w, sh, todo)}, calls := s.calls - {n}))
    case LFinishEmpty(n) =>
      // The claim calls itself again, without another look at the job.
      var call := s.calls[n];
      s.(db := FinishShard(s.db, call.shard, call.worker), calls := s.calls[n := Checked(call.worker)])
    case LReceive(g) => s.(agents := s.agents[g.worker := Working(g.shard, g.todo, 0, false, false)])
    case LPost(w) =>
      var a := s.agents[w];
      s.(agents := s.agents[w := a.(awaiting := true)], sent := s.sent + {Chunk(w, a.shard, Batch(c, a))})
    case LReturn(w, gaveUp) =>
      var a := s.agents[w];
      s.(agents := s.agents[w := a.(next := a.next + |Batch(c, a)|, awaiting := false, lost := a.lost || gaveUp)])
    case LSendDone(w) =>
      s.(agents := s.agents[w := Asking], sent := s.sent + {DoneMsg(w, s.agents[w].shard)})
    case LLeave(w) => s.(agents := s.agents[w := Gone])
    case LDeliver(m, now) =>
      // The lease extension that follows a chunk is its own transaction: an LBeat step.
      (match m
       case Chunk(w, sh, batch) =>
         s.(db := PutResults(s.db, sh, w, Rows(c, batch), now), stored := s.stored + {m}, handlers := s.handlers + 1)
       case DoneMsg(w, sh) =>
         s.(db := FinishShard(s.db, sh, w), stored := s.stored + {m}, handlers := s.handlers + 1))
    case LReadJob =>
      s.(handlers := s.handlers - 1, readers := if s.db.status == Running then s.readers + 1 else s.readers)
    case LCount =>
      s.(readers := s.readers - 1, flips := if Remaining(s.db) == 0 then s.flips + 1 else s.flips)
    case LSetFinished => s.(db := s.db.(status := Finished), flips := s.flips - 1)
    case LCancel => s.(db := s.db.(status := Cancelled))
    case LReap(now) => s.(db := Reap(s.db, now))
    case LKill(w) => s.(db := KillWorker(s.db, w))
    case LBeat(w, sh, exp) => s.(db := ExtendLease(s.db, sh, w, exp))
  }

  function Init(job: Db): Sys {
    Sys(job, map[], {}, {}, {}, map[], 0, 0, 0)
  }

  predicate Valid(c: Config, s: Sys, ls: seq<Label>)
    decreases |ls|
  {
    ls == [] || (Enabled(c, s, ls[0]) && Valid(c, Apply(c, s, ls[0]), ls[1..]))
  }

  function Run(c: Config, s: Sys, ls: seq<Label>): Sys
    requires Valid(c, s, ls)
    decreases |ls|
  {
    if ls == [] then s else Run(c, Apply(c, s, ls[0]), ls[1..])
  }

  // ------------------------------------------------------------------ the invariant

  predicate Answered(db: Db, sh: nat) {
    forall r :: r in db.requests && r.shard == sh ==> r.id in db.results
  }

  predicate UniqueIds(requests: seq<Request>) {
    forall i, j :: 0 <= i < |requests| && 0 <= j < |requests| && requests[i].id == requests[j].id ==> i == j
  }

  function Ids(requests: seq<Request>): set<RequestId> {
    set r | r in requests :: r.id
  }

  /** Every stored output is the one the engine gives for that request's prompt. */
  predicate Honest(c: Config, db: Db) {
    && db.results.Keys <= Ids(db.requests)
    && forall r :: r in db.requests && r.id in db.results ==>
         Row(r.id, db.results[r.id].output, db.results[r.id].accepted) == Answer(c, r)
  }

  /** Holder and expiry are set exactly when the shard is leased. */
  predicate Columns(s: Shard) {
    (s.state == Leased) == s.leaseWorker.Some? == s.leaseExp.Some?
  }

  predicate DbInv(c: Config, db: Db) {
    && db.nRequests == |db.requests| && UniqueIds(db.requests)
    && (forall r :: r in db.requests ==> r.shard < |db.shards|)
    && Honest(c, db)
    && (forall s :: s in db.shards ==> Columns(s) && Traced(s))
  }

  predicate Covers(db: Db, sh: nat, todo: seq<Request>) {
    && sh < |db.shards|
    && (forall r :: r in todo ==> r in db.requests && r.shard == sh)
    && (forall r :: r in db.requests && r.shard == sh ==> r.id in db.results || r in todo)
  }

  predicate Stored(db: Db, batch: seq<Request>) {
    forall r :: r in batch ==> r.id in db.results
  }

  predicate MsgOk(db: Db, m: Msg, stored: bool) {
    m.Chunk? ==> (forall r :: r in m.batch ==> r in db.requests) && (stored ==> Stored(db, m.batch))
  }

  predicate AgentOk(db: Db, a: Agent) {
    a.Working? ==>
      && Covers(db, a.shard, a.todo) && a.next <= |a.todo|
      && (!a.lost ==> Stored(db, a.todo[..a.next]))
  }

  predicate Inv(c: Config, s: Sys) {
    && DbInv(c, s.db)
    && (forall m :: m in s.sent ==> MsgOk(s.db, m, m in s.stored))
    && s.stored <= s.sent
    && (forall g :: g in s.grants ==> Covers(s.db, g.shard, g.todo))
    && (forall n :: n in s.calls && s.calls[n].Emptied? ==> Answered(s.db, s.calls[n].shard))
    && (forall w :: w in s.agents ==> AgentOk(s.db, s.agents[w]))
    && (s.flips > 0 || s.db.status == Finished ==> Remaining(s.db) == 0)
  }

  /** What additionally holds when a worker whose posts were lost never sends `done`. */
  predicate Complete(s: Sys) {
    && (forall i :: 0 <= i < |s.db.shards| && s.db.shards[i].state == Done ==> Answered(s.db, i))
    && (forall m :: m in s.sent && m.DoneMsg? ==> Answered(s.db, m.shard))
  }

  predicate Reliable(s: Sys, l: Label) {
    l.LSendDone? && IsWorking(s, l.worker) ==> !s.agents[l.worker].lost
  }

  predicate ReliableRun(c: Config, s: Sys, ls: seq<Label>)
    requires Valid(c, s, ls)
    decreases |ls|
  {
    ls == [] || (Reliable(s, ls[0]) && ReliableRun(c, Apply(c, s, ls[0]), ls[1..]))
  }

  // ------------------------------------------------------------------ trails

  /** Where a shard's trail leaves it; None when the trail is not a legal history. */
  datatype Phase = Free | Held(worker: WorkerId) | Over

  function After(trail: seq<Mark>): Option<Phase> {
    if trail == [] then Some(Free)
    else
      var before := After(trail[..|trail| - 1]);
      match trail[|trail| - 1]
      case Claimed(w) => if before == Some(Free) then Some(Held(w)) else None
      case Expired(h) => if h.Some? && before == Some(Held(h.value)) then Some(Free) else None
      case Killed(w) => if before == Some(Held(w)) then Some(Free) else None
      case Completed(_) => if before.Some? then Some(Over) else None
  }

  function Claims(trail: seq<Mark>): nat {
    if trail == [] then 0
    else Claims(trail[..|trail| - 1]) + (if trail[|trail| - 1].Claimed? then 1 else 0)
  }

  function Releases(trail: seq<Mark>): nat {
    if trail == [] then 0
    else
      var m := trail[|trail| - 1];
      Releases(trail[..|trail| - 1]) + (if m.Expired? || m.Killed? then 1 else 0)
  }

  predicate Traced(s: Shard) {
    && s.attempts == Claims(s.trail)
    && After(s.trail) == Some(match s.state
                              case Pending => Free
                              case Leased => if s.leaseWorker.Some? then Held(s.leaseWorker.value) else Free
                              case Done => Over)
  }

  // ------------------------------------------------------------------ monotonicity

  /** No step forgets a request, a result or a finished shard. */
  predicate Grows(a: Db, b: Db) {
    && b.requests == a.requests && b.nRequests == a.nRequests && |b.shards| == |a.shards|
    && a.results.Keys <= b.results.Keys
    && forall i :: 0 <= i < |a.shards| && a.shards[i].state == Done ==> b.shards[i].state == Done
  }

  lemma {:induction false} UpsertAllKeys(results: map<RequestId, ResultRow>, sh: nat, w: WorkerId, rows: seq<Row>, now: int)
    ensures var u := UpsertAll(results, sh, w, rows, now);
            && u.Keys == results.Keys + (set r | r in rows :: r.id)
            && (forall id :: id in results && (forall r :: r in rows ==> r.id != id) ==> u[id] == results[id])
            && (forall id :: id in u ==>
                  (id in results && u[id] == results[id])
                  || exists r :: r in rows && r.id == id && u[id].output == r.output && u[id].accepted == r.accepted)
  {
    if rows != [] {
      var init, last := rows[..|rows| - 1], rows[|rows| - 1];
      UpsertAllKeys(results, sh, w, init, now);
      assert rows == init + [last];
    }
  }

  /** The last entry of a post about a request. */
  function LastOf(rows: seq<Row>, id: RequestId): (r: Option<Row>)
    ensures r.Some? ==> r.value in rows && r.value.id == id
    ensures r.None? ==> forall q :: q in rows ==> q.id != id
  {
    if rows == [] then None
    else if rows[|rows| - 1].id == id then Some(rows[|rows| - 1])
    else LastOf(rows[..|rows| - 1], id)
  }

  /** A stored row keeps the shard it was first stored under, and says the rest as the last entry
      posted about it does; what a post does not mention, it leaves alone. */
  lemma {:induction false} LastPostWins(results: map<RequestId, ResultRow>, sh: nat, w: WorkerId, rows: seq<Row>, now: int,
                                        id: RequestId)
    ensures var u, last := UpsertAll(results, sh, w, rows, now), LastOf(rows, id);
            if last.Some?
            then id in u && u[id] == ResultRow(if id in results then results[id].shard else sh,
                                               last.value.output, last.value.accepted, w, now)
            else (id in u <==> id in results) && (id in u ==> u[id] == results[id])
  {
    if rows != [] {
      LastPostWins(results, sh, w, rows[..|rows| - 1], now, id);
    }
  }

  lemma StepGrows(c: Config, s: Sys, l: Label)
    requires Enabled(c, s, l)
    ensures Grows(s.db, Apply(c, s, l).db)
  {
    if l.LDeliver? && l.msg.Chunk? {
      UpsertAllKeys(s.db.results, l.msg.shard, l.msg.worker, Rows(c, l.msg.batch), l.now);
    }
  }

  lemma PutHonest(c: Config, db: Db, sh: nat, w: WorkerId, batch: seq<Request>, now: int)
    requires Honest(c, db) && UniqueIds(db.requests)
    requires forall r :: r in batch ==> r in db.requests
    ensures Honest(c, PutResults(db, sh, w, Rows(c, batch), now))
    ensures Stored(PutResults(db, sh, w, Rows(c, batch), now), batch)
  {
    var rows := Rows(c, batch);
    var after := PutResults(db, sh, w, rows, now);
    UpsertAllKeys(db.results, sh, w, rows, now);
    forall q | q in rows ensures exists r :: r in batch && q == Answer(c, r) {
      var i :| 0 <= i < |rows| && rows[i] == q;
      assert batch[i] in batch && q == Answer(c, batch[i]);
    }
    forall r | r in batch ensures r.id in after.results {
      var i :| 0 <= i < |batch| && batch[i] == r;
      assert rows[i] in rows && rows[i].id == r.id;
    }
    forall r | r in db.requests && r.id in after.results
      ensures Row(r.id, after.results[r.id].output, after.results[r.id].accepted) == Answer(c, r)
    {
      if !(r.id in db.results && after.results[r.id] == db.results[r.id]) {
        var q :| q in rows && q.id == r.id && after.results[r.id].output == q.output
                 && after.results[r.id].accepted == q.accepted;
        var b :| b in batch && q == Answer(c, b);
        SameRequest(db.requests, b, r);
      }
    }
  }

  lemma SameRequest(requests: seq<Request>, a: Request, b: Request)
    requires UniqueIds(requests) && a in requests && b in requests && a.id == b.id
    ensures a == b
  {
  }

  // ------------------------------------------------------------------ preservation

  /** Each mark a statement leaves on a shard is legal where it is left. */
  lemma ShardSteps(s: Shard, w: WorkerId, now: int, exp: int)
    requires Columns(s) && Traced(s)
    ensures Columns(ReapShard(s, now)) && Traced(ReapShard(s, now))
    ensures Columns(KillShard(s, w)) && Traced(KillShard(s, w))
    ensures var d := s.(state := Done, leaseWorker := None, leaseExp := None, trail := s.trail + [Completed(w)]);
            Columns(d) && Traced(d)
    ensures s.state == Pending ==>
              var l := Shard(Leased, Some(w), Some(exp), s.attempts + 1, s.trail + [Claimed(w)]);
              Columns(l) && Traced(l)
  {
  }

  lemma DbSteps(c: Config, db: Db, sh: nat, w: WorkerId, now: int, exp: int)
    requires DbInv(c, db)
    ensures DbInv(c, Reap(db, now)) && DbInv(c, KillWorker(db, w)) && DbInv(c, FinishShard(db, sh, w))
    ensures DbInv(c, ExtendLease(db, sh, w, exp))
    ensures sh < |db.shards| && db.shards[sh].state == Pending ==> DbInv(c, Lease(db, sh, w, exp))
  {
    forall s | s in db.shards
      ensures Columns(ReapShard(s, now)) && Traced(ReapShard(s, now))
      ensures Columns(KillShard(s, w)) && Traced(KillShard(s, w))
    {
      ShardSteps(s, w, now, exp);
    }
    if sh < |db.shards| {
      ShardSteps(db.shards[sh], w, now, exp);
    }
  }

  lemma GrowsKeeps(s: Sys, b: Db)
    requires Grows(s.db, b)
    ensures forall m, st :: MsgOk(s.db, m, st) ==> MsgOk(b, m, st)
    ensures forall sh, todo :: Covers(s.db, sh, todo) ==> Covers(b, sh, todo)
    ensures forall sh :: Answered(s.db, sh) ==> Answered(b, sh)
    ensures forall a :: AgentOk(s.db, a) ==> AgentOk(b, a)
  {
  }

  /** Results within the request set can only be fewer than, or exactly, the requests. */
  lemma RemainingBounds(c: Config, db: Db)
    requires DbInv(c, db)
    ensures |Ids(db.requests)| == db.nRequests
    ensures 0 <= Remaining(db)
    ensures Remaining(db) == 0 <==> db.results.Keys == Ids(db.requests)
  {
    IdCount(db.requests);
    SubsetSize(db.results.Keys, Ids(db.requests));
    if Remaining(db) == 0 {
      SubsetSameSize(db.results.Keys, Ids(db.requests));
    }
  }

  lemma {:induction false} IdCount(requests: seq<Request>)
    requires UniqueIds(requests)
    ensures |Ids(requests)| == |requests|
  {
    if requests != [] {
      var init, last := requests[..|requests| - 1], requests[|requests| - 1];
      IdCount(init);
      assert requests == init + [last];
      assert Ids(requests) == Ids(init) + {last.id};
      assert last.id !in Ids(init);
    }
  }

  lemma RemainingFalls(c: Config, a: Db, b: Db)
    requires DbInv(c, a) && DbInv(c, b) && Grows(a, b)
    ensures Remaining(b) <= Remaining(a)
  {
    SubsetSize(a.results.Keys, b.results.Keys);
  }

  lemma StepDb(c: Config, s: Sys, l: Label)
    requires Inv(c, s) && Enabled(c, s, l)
    ensures DbInv(c, Apply(c, s, l).db)
  {
    match l
    case LClaim(n, exp, todo) =>
      var pick := FirstPending(s.db.shards, 0);
      if pick.Some? { DbSteps(c, s.db, pick.value, s.calls[n].worker, 0, exp); }
    case LFinishEmpty(n) => DbSteps(c, s.db, s.calls[n].shard, s.calls[n].worker, 0, 0);
    case LDeliver(m, now) =>
      match m {
        case Chunk(w, sh, batch) => PutHonest(c, s.db, sh, w, batch, now);
        case DoneMsg(w, sh) => DbSteps(c, s.db, sh, w, 0, 0);
      }
    case LReap(now) => DbSteps(c, s.db, 0, "", now, 0);
    case LKill(w) => DbSteps(c, s.db, 0, w, 0, 0);
    case LBeat(w, sh, exp) => DbSteps(c, s.db, sh, w, 0, exp);
    case _ =>
  }

  ghost predicate MsgsOk(s: Sys) {
    (forall m :: m in s.sent ==> MsgOk(s.db, m, m in s.stored)) && s.stored <= s.sent
  }

  lemma StepMsgs(c: Config, s: Sys, l: Label)
    requires Inv(c, s) && Enabled(c, s, l)
    ensures MsgsOk(Apply(c, s, l))
  {
    StepGrows(c, s, l);
    GrowsKeeps(s, Apply(c, s, l).db);
    if l.LDeliver? && l.msg.Chunk? {
      PutHonest(c, s.db, l.msg.shard, l.msg.worker, l.msg.batch, l.now);
    }
  }

  ghost predicate HoldersOk(s: Sys) {
    && (forall g :: g in s.grants ==> Covers(s.db, g.shard, g.todo))
    && (forall n :: n in s.calls && s.calls[n].Emptied? ==> Answered(s.db, s.calls[n].shard))
    && (forall w :: w in s.agents ==> AgentOk(s.db, s.agents[w]))
  }

  lemma StepHolders(c: Config, s: Sys, l: Label)
    requires Inv(c, s) && Enabled(c, s, l)
    ensures HoldersOk(Apply(c, s, l))
  {
    var t := Apply(c, s, l);
    StepGrows(c, s, l);
    GrowsKeeps(s, t.db);
    if l.LClaim? {
      ClaimCovers(s, l, t);
    } else if l.LReturn? {
      ReturnStored(c, s, l.worker, l.gaveUp);
    }
  }

  /** The base invariant is kept by every step, lost posts or not. */
  lemma StepInv(c: Config, s: Sys, l: Label)
    requires Inv(c, s) && Enabled(c, s, l)
    ensures Inv(c, Apply(c, s, l))
  {
    var t := Apply(c, s, l);
    StepMsgs(c, s, l);
    StepHolders(c, s, l);
    StepDb(c, s, l);
    StepGrows(c, s, l);
    RemainingFalls(c, s.db, t.db);
    RemainingBounds(c, t.db);
  }

  lemma ClaimCovers(s: Sys, l: Label, t: Sys)
    requires l.LClaim? && FirstPending(s.db.shards, 0).Some? ==>
      var sh := FirstPending(s.db.shards, 0).value;
      && multiset(l.todo) == multiset(Unanswered(s.db.requests, s.db.results, sh))
      && sh < |s.db.shards| && exists w :: t.db == Lease(s.db, sh, w, l.exp)
    ensures l.LClaim? && FirstPending(s.db.shards, 0).Some? ==>
      var sh := FirstPending(s.db.shards, 0).value;
      Covers(t.db, sh, l.todo) && (l.todo == [] ==> Answered(t.db, sh))
  {
    if l.LClaim? && FirstPending(s.db.shards, 0).Some? {
      var sh := FirstPending(s.db.shards, 0).value;
      var u := Unanswered(s.db.requests, s.db.results, sh);
      forall r ensures r in l.todo <==> r in u {
        assert r in multiset(l.todo) <==> r in multiset(u);
      }
    }
  }

  lemma ReturnStored(c: Config, s: Sys, w: WorkerId, gaveUp: bool)
    requires Inv(c, s) && Enabled(c, s, LReturn(w, gaveUp))
    ensures AgentOk(s.db, Apply(c, s, LReturn(w, gaveUp)).agents[w])
  {
  }

  ghost predicate DonesAnswered(s: Sys) {
    forall m :: m in s.sent && m.DoneMsg? ==> Answered(s.db, m.shard)
  }

  lemma StepDones(c: Config, s: Sys, l: Label)
    requires Inv(c, s) && Complete(s) && Enabled(c, s, l) && Reliable(s, l)
    ensures DonesAnswered(Apply(c, s, l))
  {
    StepGrows(c, s, l);
    GrowsKeeps(s, Apply(c, s, l).db);
    if l.LSendDone? {
      var a := s.agents[l.worker];
      assert AgentOk(s.db, a);
      assert a.todo[..a.next] == a.todo;
    }
  }

  /** Where earlier chunks were stored before `done` is sent, a finished shard is an answered one. */
  lemma StepComplete(c: Config, s: Sys, l: Label)
    requires Inv(c, s) && Complete(s) && Enabled(c, s, l) && Reliable(s, l)
    ensures Complete(Apply(c, s, l))
  {
    StepDones(c, s, l);
    StepGrows(c, s, l);
    GrowsKeeps(s, Apply(c, s, l).db);
  }

  lemma {:induction false} RunInv(c: Config, s: Sys, ls: seq<Label>)
    requires Inv(c, s) && Valid(c, s, ls)
    ensures Inv(c, Run(c, s, ls))
    decreases |ls|
  {
    if ls != [] {
      StepInv(c, s, ls[0]);
      RunInv(c, Apply(c, s, ls[0]), ls[1..]);
    }
  }

  lemma {:induction false} RunComplete(c: Config, s: Sys, ls: seq<Label>)
    requires Inv(c, s) && Complete(s) && Valid(c, s, ls) && ReliableRun(c, s, ls)
    ensures Inv(c, Run(c, s, ls)) && Complete(Run(c, s, ls))
    decreases |ls|
  {
    if ls != [] {
      StepInv(c, s, ls[0]);
      StepComplete(c, s, ls[0]);
      RunComplete(c, Apply(c, s, ls[0]), ls[1..]);
    }
  }

  lemma {:induction false} RunGrows(c: Config, s: Sys, ls: seq<Label>)
    requires Valid(c, s, ls)
    ensures Grows(s.db, Run(c, s, ls).db)
    decreases |ls|
  {
    if ls != [] {
      StepGrows(c, s, ls[0]);
      RunGrows(c, Apply(c, s, ls[0]), ls[1..]);
    }
  }
}
