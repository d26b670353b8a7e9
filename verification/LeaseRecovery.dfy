/** A job outlives every worker it ever had: one fresh worker running the loop of worker/agent.py
    finishes it while the server goes on reaping, whatever the departed workers had sent. */
module LeaseRecovery {
  import opened Base
  import opened LeaseDb
  import opened LeaseProtocol
  import opened LeaseTheorems

  /** A transaction that reaches the store from elsewhere: of a request some departed worker had
      already sent, or of the server's own reaper. */
  datatype Stale =
    | StaleChunk(worker: WorkerId, shard: nat, batch: seq<Request>, now: int)
    | StaleDone(worker: WorkerId, shard: nat)
    | StaleBeat(worker: WorkerId, shard: nat, exp: int)
    | StaleClaim(worker: WorkerId, exp: int)
    | StaleCount
    | ServerReap(now: int)

  /** What the protocol's invariant says of requests already sent (see Inv and Complete). */
  predicate StaleOk(db: Db, m: Stale) {
    match m
    case StaleChunk(w, sh, batch, now) => forall r :: r in batch ==> r in db.requests
    case StaleDone(w, sh) => Answered(db, sh)
    case _ => true
  }

  /** The lease extension after a chunk, and the count and write of a results handler, are
      transactions of their own. */
  function Arrive(c: Config, db: Db, m: Stale): Db {
    match m
    case StaleChunk(w, sh, batch, now) => PutResults(db, sh, w, Rows(c, batch), now)
    case StaleDone(w, sh) => FinishShard(db, sh, w)
    case StaleBeat(w, sh, exp) => ExtendLease(db, sh, w, exp)
    case StaleClaim(w, exp) => Claim(db, w, exp).0
    case StaleCount => if Remaining(db) == 0 then db.(status := Finished) else db
    case ServerReap(now) => Reap(db, now)
  }

  function Arrivals(c: Config, db: Db, ms: seq<Stale>): Db {
    if ms == [] then db
    else Arrive(c, Arrivals(c, db, ms[..|ms| - 1]), ms[|ms| - 1])
  }

  // ------------------------------------------------------------------ what messages keep

  /** Nobody has cancelled the job, and it is not finished with work left. */
  predicate Settled(db: Db) {
    db.status != Cancelled && (db.status == Finished ==> Remaining(db) == 0)
  }

  /** What one transaction keeps; `sound` says that what it finishes, if anything, was answered. */
  predicate Keeps(c: Config, a: Db, b: Db, sound: bool) {
    && DbInv(c, b) && Grows(a, b)
    && (Settled(a) ==> Settled(b))
    && (sound && DoneOnlyAnswered(a) ==> DoneOnlyAnswered(b))
  }

  lemma KeepsTrans(c: Config, a: Db, b: Db, d: Db, sound: bool)
    requires Keeps(c, a, b, sound) && Keeps(c, b, d, sound)
    ensures Keeps(c, a, d, sound)
  {
  }

  lemma SettledKeeps(c: Config, a: Db, b: Db)
    requires DbInv(c, a) && DbInv(c, b) && Grows(a, b) && a.status == b.status && Settled(a)
    ensures Settled(b)
  {
    RemainingFalls(c, a, b);
    RemainingBounds(c, b);
  }

  lemma PutKeeps(c: Config, db: Db, sh: nat, w: WorkerId, batch: seq<Request>, now: int)
    requires DbInv(c, db) && forall r :: r in batch ==> r in db.requests
    ensures var after := PutResults(db, sh, w, Rows(c, batch), now);
            && Keeps(c, db, after, true) && Stored(after, batch)
            && (forall id :: id in after.results ==> id in db.results || id in Ids(batch))
  {
    PutHonest(c, db, sh, w, batch, now);
    PutAdds(c, db, sh, w, batch, now);
    var after := PutResults(db, sh, w, Rows(c, batch), now);
    if Settled(db) { SettledKeeps(c, db, after); }
  }

  lemma PutAdds(c: Config, db: Db, sh: nat, w: WorkerId, batch: seq<Request>, now: int)
    ensures PutResults(db, sh, w, Rows(c, batch), now).results.Keys == db.results.Keys + Ids(batch)
  {
    var rows := Rows(c, batch);
    UpsertAllKeys(db.results, sh, w, rows, now);
    forall r | r in batch ensures r.id in set q | q in rows :: q.id {
      var i :| 0 <= i < |batch| && batch[i] == r;
      assert rows[i] in rows && rows[i].id == r.id;
    }
    forall q | q in rows ensures q.id in Ids(batch) {
      var i :| 0 <= i < |rows| && rows[i] == q;
      assert batch[i] in batch;
    }
  }

  /** Reaping, extending and finishing. */
  lemma ShardsKeep(c: Config, db: Db, sh: nat, w: WorkerId, now: int, exp: int)
    requires DbInv(c, db)
    ensures Keeps(c, db, FinishShard(db, sh, w), Answered(db, sh))
    ensures Keeps(c, db, ExtendLease(db, sh, w, exp), true) && Keeps(c, db, Reap(db, now), true)
  {
    DbSteps(c, db, sh, w, now, exp);
  }

  lemma FlipKeeps(c: Config, db: Db)
    requires DbInv(c, db)
    ensures Keeps(c, db, Flip(db), true)
  {
  }

  function Tail(db: Db, sh: nat, w: WorkerId, done: bool, exp: int): Db {
    if done then FinishShard(db, sh, w) else ExtendLease(db, sh, w, exp)
  }

  lemma TailKeeps(c: Config, db: Db, sh: nat, w: WorkerId, done: bool, exp: int)
    requires DbInv(c, db)
    ensures Keeps(c, db, Flip(Tail(db, sh, w, done, exp)), done ==> Answered(db, sh))
  {
    ShardsKeep(c, db, sh, w, 0, exp);
    FlipKeeps(c, Tail(db, sh, w, done, exp));
  }

  lemma ResultsKeep(c: Config, db: Db, sh: nat, w: WorkerId, batch: seq<Request>, done: bool, now: int, exp: int)
    requires DbInv(c, db) && forall r :: r in batch ==> r in db.requests
    ensures Keeps(c, db, HandleResults(db, sh, w, Rows(c, batch), done, now, exp), done ==> Answered(db, sh))
  {
    var put := if Rows(c, batch) != [] then PutResults(db, sh, w, Rows(c, batch), now) else db;
    PutKeeps(c, db, sh, w, batch, now);
    assert Answered(db, sh) ==> Answered(put, sh);
    TailKeeps(c, put, sh, w, done, exp);
    KeepsTrans(c, db, put, Flip(Tail(put, sh, w, done, exp)), done ==> Answered(db, sh));
  }

  lemma ResultsAdd(c: Config, db: Db, sh: nat, w: WorkerId, batch: seq<Request>, done: bool, now: int, exp: int)
    ensures var after := HandleResults(db, sh, w, Rows(c, batch), done, now, exp);
            && after.results.Keys == db.results.Keys + Ids(batch)
            && (done && sh < |db.shards| ==> after.shards[sh].state == Done)
  {
    PutAdds(c, db, sh, w, batch, now);
  }

  /** What a claim keeps; the one lease it adds is the one it grants. */
  predicate ClaimKept(c: Config, a: Db, b: Db, grant: Option<(nat, seq<Request>)>) {
    && DbInv(c, b) && Grows(a, b) && b.status == a.status && b.results == a.results
    && (DoneOnlyAnswered(a) ==> DoneOnlyAnswered(b))
    && (forall i :: 0 <= i < |a.shards| && b.shards[i].state == Leased ==>
          a.shards[i].state == Leased || (grant.Some? && i == grant.value.0))
  }

  lemma FinishEmptyKeeps(c: Config, db: Db, sh: nat, w: WorkerId, exp: int)
    requires DbInv(c, db) && sh < |db.shards| && db.shards[sh].state == Pending
    ensures ClaimKept(c, db, Lease(db, sh, w, exp), Some((sh, [])))
    ensures Unanswered(db.requests, db.results, sh) == [] ==> ClaimKept(c, db, FinishShard(Lease(db, sh, w, exp), sh, w), None)
  {
    DbSteps(c, db, sh, w, 0, exp);
    DbSteps(c, Lease(db, sh, w, exp), sh, w, 0, exp);
    var todo := Unanswered(db.requests, db.results, sh);
    if todo == [] {
      forall r | r in db.requests && r.shard == sh ensures r.id in db.results {
        assert r !in todo;
      }
    }
  }

  lemma {:induction false} ClaimKeeps(c: Config, db: Db, w: WorkerId, exp: int)
    requires DbInv(c, db)
    ensures ClaimKept(c, db, Claim(db, w, exp).0, Claim(db, w, exp).1)
    decreases Outstanding(db.shards)
  {
    var pick := FirstPending(db.shards, 0);
    if pick.Some? {
      var sh := pick.value;
      FinishEmptyKeeps(c, db, sh, w, exp);
      var leased := Lease(db, sh, w, exp);
      var todo := Unanswered(db.requests, db.results, sh);
      if todo == [] {
        var finished := FinishShard(leased, sh, w);
        OutstandingUpdate(db.shards, sh, leased.shards[sh]);
        OutstandingUpdate(leased.shards, sh, finished.shards[sh]);
        ClaimKeeps(c, finished, w, exp);
        ClaimKeptOn(c, db, finished, Claim(finished, w, exp).0, Claim(finished, w, exp).1);
      } else {
        ClaimKeptAs(c, db, leased, sh, todo);
      }
    }
  }

  lemma ClaimKeptOn(c: Config, a: Db, b: Db, d: Db, grant: Option<(nat, seq<Request>)>)
    requires ClaimKept(c, a, b, None) && ClaimKept(c, b, d, grant)
    ensures ClaimKept(c, a, d, grant)
  {
  }

  lemma ClaimKeptAs(c: Config, a: Db, b: Db, sh: nat, todo: seq<Request>)
    requires ClaimKept(c, a, b, Some((sh, [])))
    ensures ClaimKept(c, a, b, Some((sh, todo)))
  {
  }

  lemma ClaimKeptKeeps(c: Config, a: Db, b: Db, grant: Option<(nat, seq<Request>)>)
    requires ClaimKept(c, a, b, grant)
    ensures Keeps(c, a, b, true)
  {
  }

  lemma ArriveKeeps(c: Config, db: Db, m: Stale)
    requires DbInv(c, db) && StaleOk(db, m)
    ensures Keeps(c, db, Arrive(c, db, m), true)
  {
    match m
    case StaleChunk(w, sh, batch, now) => PutKeeps(c, db, sh, w, batch, now);
    case StaleDone(w, sh) => ShardsKeep(c, db, sh, w, 0, 0);
    case StaleBeat(w, sh, exp) => ShardsKeep(c, db, sh, w, 0, exp);
    case StaleClaim(w, exp) =>
      ClaimKeeps(c, db, w, exp);
      ClaimKeptKeeps(c, db, Claim(db, w, exp).0, Claim(db, w, exp).1);
    case StaleCount =>
    case ServerReap(now) => ShardsKeep(c, db, 0, "", now, 0);
  }

  lemma StaleStays(a: Db, b: Db, m: Stale)
    requires Grows(a, b) && StaleOk(a, m)
    ensures StaleOk(b, m)
  {
  }

  lemma {:induction false} ArrivalsKeep(c: Config, db: Db, ms: seq<Stale>)
    requires DbInv(c, db) && forall m :: m in ms ==> StaleOk(db, m)
    ensures Keeps(c, db, Arrivals(c, db, ms), true)
  {
    if ms != [] {
      var before, m := Arrivals(c, db, ms[..|ms| - 1]), ms[|ms| - 1];
      ArrivalsKeep(c, db, ms[..|ms| - 1]);
      assert m in ms;
      StaleStays(db, before, m);
      ArriveKeeps(c, before, m);
      KeepsTrans(c, db, before, Arrivals(c, db, ms), true);
    }
  }

  // ------------------------------------------------------------------ lost for good

  /** A request of a shard that no claim will be given: it is done, or somebody holds it. */
  predicate Stranded(db: Db, r: Request) {
    && r in db.requests && r.shard < |db.shards|
    && db.shards[r.shard].state != Pending && r.id !in db.results
  }

  ghost predicate NoChunks(noise: nat -> seq<Stale>) {
    forall k, m :: m in noise(k) ==> !m.StaleChunk?
  }

  ghost predicate NoReaps(noise: nat -> seq<Stale>) {
    forall k, m :: m in noise(k) ==> !m.ServerReap?
  }

  ghost predicate NoClaims(noise: nat -> seq<Stale>) {
    forall k, m :: m in noise(k) ==> !m.StaleClaim?
  }

  /** Nothing is missing from the shards a claim would not be given. */
  predicate HeldAnswered(db: Db) {
    forall i :: 0 <= i < |db.shards| && db.shards[i].state != Pending ==> Answered(db, i)
  }

  predicate OthersAnswered(db: Db, mine: Option<nat>) {
    forall i :: 0 <= i < |db.shards| && db.shards[i].state == Leased && mine != Some(i) ==> Answered(db, i)
  }

  /** What the worker's loop is up against: what arrives at the k-th opportunity, the store it
      starts from, a time after which the claims have stopped (if there is one), a request that is
      lost for good (if there is one), and whether nobody else is left with work. */
  datatype World = World(noise: nat -> seq<Stale>, start: Db, calm: Option<(nat, int)>, stranded: Option<Request>, alone: bool)

  ghost predicate Sound(v: World) {
    && (forall k, m :: m in v.noise(k) ==> StaleOk(v.start, m))
    && (v.stranded.Some? ==> NoChunks(v.noise) && Stranded(v.start, v.stranded.value)
                             && (v.start.shards[v.stranded.value.shard].state == Done || NoReaps(v.noise)))
    && (v.alone ==> NoClaims(v.noise) && HeldAnswered(v.start))
    && (v.calm.Some? ==> Settles(v.start, v.noise, v.calm.value.0, v.calm.value.1))
  }

  /** What the loop keeps of the store. */
  predicate Kept(c: Config, v: World, db: Db) {
    && DbInv(c, db) && Grows(v.start, db) && Settled(db)
    && (DoneOnlyAnswered(v.start) ==> DoneOnlyAnswered(db))
    && (v.stranded.Some? ==> Stranded(db, v.stranded.value))
  }

  lemma KeepsKept(c: Config, v: World, a: Db, b: Db)
    requires Kept(c, v, a) && Keeps(c, a, b, true)
    requires v.stranded.Some? ==> Stranded(b, v.stranded.value)
    ensures Kept(c, v, b)
  {
  }

  /** Without chunks nothing is answered, and without reaps no shard can be claimed again. */
  lemma {:induction false} StillStranded(c: Config, db: Db, ms: seq<Stale>, r: Request)
    requires Stranded(db, r) && forall m :: m in ms ==> !m.StaleChunk? && (m.ServerReap? ==> db.shards[r.shard].state == Done)
    ensures Stranded(Arrivals(c, db, ms), r)
    ensures db.shards[r.shard].state == Done ==> Arrivals(c, db, ms).shards[r.shard].state == Done
  {
    if ms != [] {
      assert ms[|ms| - 1] in ms;
      StillStranded(c, db, ms[..|ms| - 1], r);
    }
  }

  lemma ArrivalsKept(c: Config, v: World, db: Db, k: nat)
    requires Sound(v) && Kept(c, v, db)
    ensures Kept(c, v, Arrivals(c, db, v.noise(k))) && Grows(db, Arrivals(c, db, v.noise(k)))
  {
    var ms := v.noise(k);
    forall m | m in ms ensures StaleOk(db, m) { StaleStays(v.start, db, m); }
    ArrivalsKeep(c, db, ms);
    if v.stranded.Some? { StillStranded(c, db, ms, v.stranded.value); }
    KeepsKept(c, v, db, Arrivals(c, db, ms));
  }

  // ------------------------------------------------------------------ other people's leases

  /** Every lease but one's own runs out by `bound`. */
  predicate HeldUntil(db: Db, bound: int, mine: Option<nat>) {
    forall i :: 0 <= i < |db.shards| && db.shards[i].state == Leased && mine != Some(i) ==>
      db.shards[i].leaseExp.Some? && db.shards[i].leaseExp.value <= bound
  }

  predicate OnlyMine(db: Db, mine: Option<nat>) {
    forall i :: 0 <= i < |db.shards| && db.shards[i].state == Leased ==> mine == Some(i)
  }

  predicate GivenUntil(m: Stale, bound: int) {
    m.StaleBeat? || m.StaleClaim? ==> m.exp <= bound
  }

  predicate EndsReaped(ms: seq<Stale>, bound: int) {
    ms != [] && ms[|ms| - 1].ServerReap? && ms[|ms| - 1].now > bound
  }

  /** No claim arrives after the opportunity `last`, which ends with a reap that is later than
      any lease there is or that is given or extended until then. */
  ghost predicate Settles(start: Db, noise: nat -> seq<Stale>, last: nat, bound: int) {
    && HeldUntil(start, bound, None) && EndsReaped(noise(last), bound)
    && (forall k: nat, m :: k <= last && m in noise(k) ==> GivenUntil(m, bound))
    && (forall k: nat, m :: k > last && m in noise(k) ==> !m.StaleClaim?)
  }

  /** Before opportunity `k`. */
  predicate Leases(v: World, db: Db, k: nat, mine: Option<nat>) {
    && (v.calm.Some? ==> if k <= v.calm.value.0 then HeldUntil(db, v.calm.value.1, mine) else OnlyMine(db, mine))
    && (v.alone ==> OthersAnswered(db, mine))
  }

  lemma {:induction false} ClaimExpires(db: Db, w: WorkerId, exp: int)
    ensures var (after, grant) := Claim(db, w, exp);
            grant.Some? ==> db.shards[grant.value.0].state == Pending && after.shards[grant.value.0].leaseExp == Some(exp)
    decreases Outstanding(db.shards)
  {
    var pick := FirstPending(db.shards, 0);
    if pick.Some? {
      var sh := pick.value;
      var leased := Lease(db, sh, w, exp);
      if Unanswered(db.requests, db.results, sh) == [] {
        OutstandingUpdate(db.shards, sh, leased.shards[sh]);
        OutstandingUpdate(leased.shards, sh, FinishShard(leased, sh, w).shards[sh]);
        ClaimExpires(FinishShard(leased, sh, w), w, exp);
      }
    }
  }

  /** After a claim, the leases of before and the one it grants. */
  lemma ClaimHolds(c: Config, db: Db, w: WorkerId, exp: int, i: nat)
    requires DbInv(c, db) && i < |db.shards|
    ensures var (after, grant) := Claim(db, w, exp);
            after.shards[i].state == Leased ==>
              (db.shards[i].state == Leased && after.shards[i] == db.shards[i])
              || (grant.Some? && grant.value.0 == i && after.shards[i].leaseExp == Some(exp))
  {
    ClaimKeeps(c, db, w, exp);
    ClaimExpires(db, w, exp);
  }

  lemma ArriveHeld(c: Config, db: Db, m: Stale, bound: int, mine: Option<nat>)
    requires DbInv(c, db) && HeldUntil(db, bound, mine) && GivenUntil(m, bound)
    ensures HeldUntil(Arrive(c, db, m), bound, mine)
  {
    if m.StaleClaim? {
      forall i: nat | i < |db.shards| { ClaimHolds(c, db, m.worker, m.exp, i); }
    }
  }

  lemma ArriveMine(c: Config, db: Db, m: Stale, mine: Option<nat>)
    requires OnlyMine(db, mine) && !m.StaleClaim?
    ensures OnlyMine(Arrive(c, db, m), mine)
  {
  }

  lemma {:induction false} ArrivalsHeld(c: Config, db: Db, ms: seq<Stale>, bound: int, mine: Option<nat>)
    requires DbInv(c, db) && HeldUntil(db, bound, mine) && forall m :: m in ms ==> GivenUntil(m, bound) && StaleOk(db, m)
    ensures HeldUntil(Arrivals(c, db, ms), bound, mine)
    ensures EndsReaped(ms, bound) ==> OnlyMine(Arrivals(c, db, ms), mine)
  {
    if ms != [] {
      var init, m := ms[..|ms| - 1], ms[|ms| - 1];
      assert m in ms;
      ArrivalsHeld(c, db, init, bound, mine);
      ArrivalsKeep(c, db, init);
      ArriveHeld(c, Arrivals(c, db, init), m, bound, mine);
    }
  }

  lemma {:induction false} ArrivalsMine(c: Config, db: Db, ms: seq<Stale>, mine: Option<nat>)
    requires OnlyMine(db, mine) && forall m :: m in ms ==> !m.StaleClaim?
    ensures OnlyMine(Arrivals(c, db, ms), mine)
  {
    if ms != [] {
      assert ms[|ms| - 1] in ms;
      ArrivalsMine(c, db, ms[..|ms| - 1], mine);
      ArriveMine(c, Arrivals(c, db, ms[..|ms| - 1]), ms[|ms| - 1], mine);
    }
  }

  lemma ArriveAnswered(c: Config, db: Db, m: Stale, mine: Option<nat>)
    requires DbInv(c, db) && StaleOk(db, m) && OthersAnswered(db, mine) && !m.StaleClaim?
    ensures OthersAnswered(Arrive(c, db, m), mine)
  {
    var after := Arrive(c, db, m);
    ArriveKeeps(c, db, m);
    forall i | 0 <= i < |after.shards| && after.shards[i].state == Leased && mine != Some(i) ensures Answered(after, i) {
      assert db.shards[i].state == Leased && Answered(db, i);
    }
  }

  lemma {:induction false} ArrivalsAnswered(c: Config, db: Db, ms: seq<Stale>, mine: Option<nat>)
    requires DbInv(c, db) && OthersAnswered(db, mine) && forall m :: m in ms ==> StaleOk(db, m) && !m.StaleClaim?
    ensures OthersAnswered(Arrivals(c, db, ms), mine)
  {
    if ms != [] {
      var init, m := ms[..|ms| - 1], ms[|ms| - 1];
      assert m in ms;
      ArrivalsAnswered(c, db, init, mine);
      ArrivalsKeep(c, db, init);
      StaleStays(db, Arrivals(c, db, init), m);
      ArriveAnswered(c, Arrivals(c, db, init), m, mine);
    }
  }

  lemma ArrivalsLeases(c: Config, v: World, db: Db, k: nat, mine: Option<nat>)
    requires Sound(v) && Kept(c, v, db) && Leases(v, db, k, mine)
    ensures Leases(v, Arrivals(c, db, v.noise(k)), k + 1, mine)
  {
    forall m | m in v.noise(k) ensures StaleOk(db, m) { StaleStays(v.start, db, m); }
    if v.alone { ArrivalsAnswered(c, db, v.noise(k), mine); }
    if v.calm.Some? {
      var (last, bound) := v.calm.value;
      if k <= last {
        ArrivalsHeld(c, db, v.noise(k), bound, mine);
      } else {
        ArrivalsMine(c, db, v.noise(k), mine);
      }
    }
  }

  // ------------------------------------------------------------------ the fresh worker

  /** The stand-in engine, prompt by prompt, and the acceptance test applied to each output. */
  method Generate(c: Config, batch: seq<Request>) returns (rows: seq<Row>)
    ensures rows == Rows(c, batch)
  {
    rows := [];
    for i := 0 to |batch|
      invariant rows == Rows(c, batch[..i])
    {
      var out := c.engine(batch[i].prompt);
      rows := rows + [Row(batch[i].id, out, c.accept(out))];
      assert batch[..i + 1] == batch[..i] + [batch[i]];
    }
    assert batch[..|batch|] == batch;
  }

  /** The k-th opportunity for somebody else's transactions. */
  method Deliver(store: Store, c: Config, noise: nat -> seq<Stale>, k: nat, ghost v: World, ghost mine: Option<nat>)
    requires v.noise == noise && Sound(v) && Kept(c, v, store.View()) && Leases(v, store.View(), k, mine)
    modifies store
    ensures store.View() == Arrivals(c, old(store.View()), noise(k)) && Grows(old(store.View()), store.View())
    ensures Kept(c, v, store.View()) && Leases(v, store.View(), k + 1, mine)
  {
    ArrivalsKept(c, v, store.View(), k);
    ArrivalsLeases(c, v, store.View(), k, mine);
    var ms := noise(k);
    for i := 0 to |ms|
      invariant store.View() == Arrivals(c, old(store.View()), ms[..i])
    {
      assert ms[..i + 1][..i] == ms[..i];
      Take(store, c, ms[i]);
    }
    assert ms[..|ms|] == ms;
  }

  method Take(store: Store, c: Config, m: Stale)
    modifies store
    ensures store.View() == Arrive(c, old(store.View()), m)
  {
    match m {
      case StaleChunk(w, sh, batch, now) => var rows := Generate(c, batch); store.Put(sh, w, rows, now);
      case StaleDone(w, sh) => store.Finish(sh, w);
      case StaleBeat(w, sh, exp) => store.Extend(sh, w, exp);
      case StaleClaim(w, exp) => var grant := store.ClaimShard(w, exp);
      case StaleCount => if store.nRequests - |store.results| == 0 { store.status := Finished; }
      case ServerReap(now) => var n := store.ReapExpired(now);
    }
  }

  lemma PostKept(c: Config, v: World, db: Db, sh: nat, w: WorkerId, batch: seq<Request>, now: int, exp: int)
    requires Kept(c, v, db) && forall r :: r in batch ==> r in db.requests && r.shard == sh
    requires v.stranded.Some? ==> v.stranded.value.shard != sh
    ensures var after := HandleResults(db, sh, w, Rows(c, batch), false, now, exp);
            Kept(c, v, after) && Grows(db, after) && Stored(after, batch)
  {
    ResultsKeep(c, db, sh, w, batch, false, now, exp);
    ResultsAdd(c, db, sh, w, batch, false, now, exp);
    if v.stranded.Some? {
      OtherIds(db.requests, batch, v.stranded.value);
    }
  }

  lemma OtherIds(requests: seq<Request>, batch: seq<Request>, b: Request)
    requires UniqueIds(requests) && b in requests
    requires forall r :: r in batch ==> r in requests && r.shard != b.shard
    ensures b.id !in Ids(batch)
  {
  }

  lemma DoneKept(c: Config, v: World, db: Db, sh: nat, w: WorkerId, now: int, exp: int)
    requires Kept(c, v, db) && Answered(db, sh) && sh < |db.shards|
    ensures var after := HandleResults(db, sh, w, [], true, now, exp);
            Kept(c, v, after) && Grows(db, after) && after.shards[sh].state == Done
  {
    assert Rows(c, []) == [];
    ResultsKeep(c, db, sh, w, [], true, now, exp);
    ResultsAdd(c, db, sh, w, [], true, now, exp);
  }

  /** A post changes no lease but that of its own shard. */
  lemma PostLeases(v: World, db: Db, k: nat, sh: nat, w: WorkerId, rows: seq<Row>, done: bool, now: int, exp: int)
    requires Leases(v, db, k, Some(sh))
    ensures Leases(v, HandleResults(db, sh, w, rows, done, now, exp), k, Some(sh))
  {
    UpsertAllKeys(db.results, sh, w, rows, now);
    OtherShards(v, db, HandleResults(db, sh, w, rows, done, now, exp), k, sh);
  }

  lemma OtherShards(v: World, a: Db, b: Db, k: nat, sh: nat)
    requires Leases(v, a, k, Some(sh)) && b.requests == a.requests && |b.shards| == |a.shards|
    requires a.results.Keys <= b.results.Keys
    requires forall i :: 0 <= i < |a.shards| && i != sh ==> b.shards[i] == a.shards[i]
    ensures Leases(v, b, k, Some(sh))
  {
    forall i | 0 <= i < |a.shards| && Answered(a, i) ensures Answered(b, i) {}
  }

  /** One chunk: generate it, post it, and let the k-th arrivals come. */
  method PostChunk(store: Store, c: Config, w: WorkerId, sh: nat, batch: seq<Request>, noise: nat -> seq<Stale>, k: nat,
                   now: int, exp: int, ghost v: World)
    requires v.noise == noise && Sound(v) && Kept(c, v, store.View()) && Leases(v, store.View(), k, Some(sh))
    requires v.stranded.Some? ==> v.stranded.value.shard != sh
    requires forall r :: r in batch ==> r in store.requests && r.shard == sh
    modifies store
    ensures Kept(c, v, store.View()) && Leases(v, store.View(), k + 1, Some(sh)) && Grows(old(store.View()), store.View())
    ensures Stored(store.View(), batch)
  {
    var rows := Generate(c, batch);
    PostKept(c, v, store.View(), sh, w, batch, now, exp);
    PostLeases(v, store.View(), k, sh, w, rows, false, now, exp);
    store.Results(sh, w, rows, false, now, exp);
    Deliver(store, c, noise, k, v, Some(sh));
  }

  method PostDone(store: Store, c: Config, w: WorkerId, sh: nat, noise: nat -> seq<Stale>, k: nat,
                  now: int, exp: int, ghost v: World)
    requires v.noise == noise && Sound(v) && Kept(c, v, store.View()) && Leases(v, store.View(), k, Some(sh))
    requires Answered(store.View(), sh) && sh < |store.shards|
    modifies store
    ensures Kept(c, v, store.View()) && Leases(v, store.View(), k + 1, None) && Grows(old(store.View()), store.View())
    ensures sh < |store.shards| && store.shards[sh].state == Done
  {
    DoneKept(c, v, store.View(), sh, w, now, exp);
    PostLeases(v, store.View(), k, sh, w, [], true, now, exp);
    store.Results(sh, w, [], true, now, exp);
    Deliver(store, c, noise, k, v, Some(sh));
    NotMine(v, store.View(), k + 1, sh);
  }

  lemma NotMine(v: World, db: Db, k: nat, sh: nat)
    requires Leases(v, db, k, Some(sh)) && sh < |db.shards| && db.shards[sh].state == Done
    ensures Leases(v, db, k, None)
  {
  }

  /** One shard: post it chunk by chunk, then post done. */
  method WorkShard(store: Store, c: Config, w: WorkerId, sh: nat, todo: seq<Request>, noise: nat -> seq<Stale>, k0: nat,
                   clock: nat -> int, lease: int, ghost v: World)
    returns (k: nat)
    requires c.chunk > 0 && v.noise == noise && Sound(v) && Kept(c, v, store.View()) && Leases(v, store.View(), k0, Some(sh))
    requires Covers(store.View(), sh, todo)
    requires v.stranded.Some? ==> v.stranded.value.shard != sh
    modifies store
    ensures k > k0 && Kept(c, v, store.View()) && Leases(v, store.View(), k, None) && Grows(old(store.View()), store.View())
    ensures sh < |store.shards| && store.shards[sh].state == Done
  {
    k := k0;
    var next := 0;
    while next < |todo|
      invariant 0 <= next <= |todo| && k >= k0
      invariant Kept(c, v, store.View()) && Leases(v, store.View(), k, Some(sh)) && Grows(old(store.View()), store.View())
      invariant Stored(store.View(), todo[..next])
    {
      var batch := todo[next..if next + c.chunk < |todo| then next + c.chunk else |todo|];
      assert todo[..next + |batch|] == todo[..next] + batch;
      PostChunk(store, c, w, sh, batch, noise, k, clock(k), clock(k) + lease, v);
      k, next := k + 1, next + |batch|;
    }
    assert todo[..next] == todo;
    PostDone(store, c, w, sh, noise, k, clock(k), clock(k) + lease, v);
    k := k + 1;
  }

  lemma {:induction false} NoneOutstanding(shards: seq<Shard>)
    ensures Outstanding(shards) == 0 <==> forall i :: 0 <= i < |shards| ==> shards[i].state == Done
  {
    if shards != [] {
      NoneOutstanding(shards[..|shards| - 1]);
    }
  }

  /** What a claim answers when some shard is granted, or none is pending. */
  predicate Granted(v: World, db: Db, k: nat, grant: Option<(nat, seq<Request>)>) {
    match grant
    case None => Leases(v, db, k, None) && forall i :: 0 <= i < |db.shards| ==> db.shards[i].state != Pending
    case Some((sh, todo)) =>
      && Leases(v, db, k, Some(sh)) && Covers(db, sh, todo) && db.shards[sh].state == Leased
      && (v.stranded.Some? ==> v.stranded.value.shard != sh)
  }

  lemma ClaimedLeases(c: Config, v: World, db: Db, k: nat, w: WorkerId, exp: int)
    requires DbInv(c, db) && Leases(v, db, k, None)
    ensures var (after, grant) := Claim(db, w, exp);
            Leases(v, after, k, if grant.Some? then Some(grant.value.0) else None)
  {
    forall i: nat | i < |db.shards| { ClaimHolds(c, db, w, exp, i); }
    forall i | 0 <= i < |db.shards| && Answered(db, i) ensures Answered(Claim(db, w, exp).0, i) {}
  }

  lemma ClaimedKept(c: Config, v: World, db: Db, k: nat, w: WorkerId, exp: int)
    requires Kept(c, v, db) && Leases(v, db, k, None)
    ensures var (after, grant) := Claim(db, w, exp);
            Kept(c, v, after) && Granted(v, after, k, grant) && Grows(db, after)
  {
    var (after, grant) := Claim(db, w, exp);
    ClaimKeeps(c, db, w, exp);
    ClaimKeptKeeps(c, db, after, grant);
    KeepsKept(c, v, db, after);
    ClaimExpires(db, w, exp);
    ClaimedLeases(c, v, db, k, w, exp);
  }

  /** The claim of one turn, after whatever arrives before it. */
  method Ask(store: Store, c: Config, w: WorkerId, noise: nat -> seq<Stale>, k: nat, exp: int, ghost v: World)
    returns (grant: Option<(nat, seq<Request>)>)
    requires v.noise == noise && Sound(v) && Kept(c, v, store.View()) && Leases(v, store.View(), k, None)
    modifies store
    ensures Kept(c, v, store.View()) && Granted(v, store.View(), k + 1, grant)
    ensures Outstanding(store.shards) <= Outstanding(old(store.shards))
  {
    Deliver(store, c, noise, k, v, None);
    ClaimedKept(c, v, store.View(), k + 1, w, exp);
    FewerOutstanding(old(store.shards), store.shards);
    ghost var before := store.shards;
    grant := store.ClaimShard(w, exp);
    FewerOutstanding(before, store.shards);
  }

  datatype Did = Worked | Idled | LeftForHome

  /** Shards are left, and all of them are leased. */
  predicate AllLeased(db: Db) {
    && (forall i :: 0 <= i < |db.shards| ==> db.shards[i].state != Pending)
    && exists i :: 0 <= i < |db.shards| && db.shards[i].state == Leased
  }

  predicate AllDone(db: Db) {
    forall i :: 0 <= i < |db.shards| ==> db.shards[i].state == Done
  }

  /** One turn of the worker's loop: it works a shard, waits while others hold all that is left,
      or goes home because nothing is. Once the claims have stopped it never has to wait. */
  method Turn(store: Store, c: Config, w: WorkerId, noise: nat -> seq<Stale>, k0: nat, clock: nat -> int, lease: int,
              ghost v: World)
    returns (did: Did, k: nat)
    requires c.chunk > 0 && v.noise == noise && Sound(v) && Kept(c, v, store.View()) && Leases(v, store.View(), k0, None)
    modifies store
    ensures k > k0 && Kept(c, v, store.View()) && Leases(v, store.View(), k, None)
    ensures did.Worked? ==> Outstanding(store.shards) < Outstanding(old(store.shards))
    ensures did.Idled? ==> Outstanding(store.shards) <= Outstanding(old(store.shards)) && AllLeased(store.View())
                           && (v.calm.Some? ==> k0 < v.calm.value.0)
    ensures did.LeftForHome? ==> AllDone(store.View())
  {
    var grant := Ask(store, c, w, noise, k0, clock(k0) + lease, v);
    k := k0 + 1;
    if grant.None? {
      NoneOutstanding(store.shards);
      return if Outstanding(store.shards) == 0 then LeftForHome else Idled, k;
    }
    ghost var leased := store.View();
    k := WorkShard(store, c, w, grant.value.0, grant.value.1, noise, k, clock, lease, v);
    FewerOutstanding(leased.shards, store.shards);
    did := Worked;
  }

  // ------------------------------------------------------------------ the loop

  /** One fresh worker's loop from any consistent store of a running job, whoever holds leases and
      whatever arrives: claim, work, wait, until told to stop, until nothing is outstanding, or
      until it has waited `limit` times in a row. It gives up only while others hold all that is
      left, and not at all if the claims stop and the server reaps after the last of their leases,
      both before it has waited that often. Otherwise the job completes whenever each shard
      already done was answered, and if no chunk arrives exactly then. */
  method Recover(store: Store, c: Config, w: WorkerId, noise: nat -> seq<Stale>, clock: nat -> int, lease: int, limit: nat)
    returns (gaveUp: bool)
    requires c.chunk > 0 && DbInv(c, store.View()) && store.status == Running
    requires forall k, m :: m in noise(k) ==> StaleOk(store.View(), m)
    modifies store
    ensures DbInv(c, store.View()) && Grows(old(store.View()), store.View())
    ensures gaveUp ==> AllLeased(store.View())
    ensures (exists last: nat, bound: int :: Settles(old(store.View()), noise, last, bound) && last < limit) ==> !gaveUp
    ensures !gaveUp && DoneOnlyAnswered(old(store.View())) ==> Remaining(store.View()) == 0
    ensures NoChunks(noise) && Remaining(store.View()) == 0 ==> DoneOnlyAnswered(old(store.View()))
    ensures NoChunks(noise) && NoReaps(noise) && Remaining(store.View()) == 0 ==> HeldAnswered(old(store.View()))
    ensures NoClaims(noise) && HeldAnswered(old(store.View())) ==> Remaining(store.View()) == 0
  {
    ghost var v := Facing(store.View(), noise, limit);
    StartKept(c, v);
    var k, idle := 0, 0;
    gaveUp := false;
    while store.status == Running
      invariant Kept(c, v, store.View()) && Leases(v, store.View(), k, None) && idle <= k
      decreases Outstanding(store.shards), limit - idle
    {
      var did;
      did, k := Turn(store, c, w, noise, k, clock, lease, v);
      if did.LeftForHome? {
        break;
      }
      idle := if did.Worked? then 0 else idle + 1;
      if did.Idled? && idle >= limit {
        gaveUp := true;
        break;
      }
    }
    Finale(c, v, store.View(), k, gaveUp);
  }

  /** What the loop is up against, from where it starts. */
  ghost function Facing(start: Db, noise: nat -> seq<Stale>, limit: nat): (v: World)
    requires forall k, m :: m in noise(k) ==> StaleOk(start, m)
    ensures v.noise == noise && v.start == start && Sound(v)
    ensures v.calm.Some? <==> exists last: nat, bound: int :: Settles(start, noise, last, bound) && last < limit
    ensures v.calm.Some? ==> v.calm.value.0 < limit
    ensures NoChunks(noise) && !DoneOnlyAnswered(start) ==> v.stranded.Some?
    ensures NoChunks(noise) && NoReaps(noise) && !HeldAnswered(start) ==> v.stranded.Some?
    ensures NoClaims(noise) && HeldAnswered(start) ==> v.alone
  {
    var calm :=
      if exists last: nat, bound: int :: Settles(start, noise, last, bound) && last < limit
      then var last: nat, bound: int :| Settles(start, noise, last, bound) && last < limit; Some((last, bound)) else None;
    var stranded :=
      if NoChunks(noise) && exists r :: Lost(start, noise, r) then var r :| Lost(start, noise, r); Some(r) else None;
    SomeLost(start, noise);
    World(noise, start, calm, stranded, NoClaims(noise) && HeldAnswered(start))
  }

  ghost predicate Lost(db: Db, noise: nat -> seq<Stale>, r: Request) {
    Stranded(db, r) && (db.shards[r.shard].state == Done || NoReaps(noise))
  }

  lemma SomeLost(db: Db, noise: nat -> seq<Stale>)
    ensures DoneOnlyAnswered(db) || exists r :: Lost(db, noise, r)
    ensures NoReaps(noise) ==> HeldAnswered(db) || exists r :: Lost(db, noise, r)
  {
    if !DoneOnlyAnswered(db) {
      var i :| 0 <= i < |db.shards| && db.shards[i].state == Done && !Answered(db, i);
      var r :| r in db.requests && r.shard == i && r.id !in db.results;
      assert Lost(db, noise, r);
    }
    if NoReaps(noise) && !HeldAnswered(db) {
      var i :| 0 <= i < |db.shards| && db.shards[i].state != Pending && !Answered(db, i);
      var r :| r in db.requests && r.shard == i && r.id !in db.results;
      assert Lost(db, noise, r);
    }
  }

  lemma StartKept(c: Config, v: World)
    requires DbInv(c, v.start) && v.start.status == Running && Sound(v)
    ensures Kept(c, v, v.start) && Leases(v, v.start, 0, None)
  {
  }

  lemma Finale(c: Config, v: World, db: Db, k: nat, gaveUp: bool)
    requires Sound(v) && Kept(c, v, db) && Leases(v, db, k, None)
    requires db.status == Running ==> if gaveUp then AllLeased(db) else AllDone(db)
    ensures (!gaveUp && DoneOnlyAnswered(v.start)) || v.alone ==> Remaining(db) == 0
    ensures v.stranded.Some? ==> Remaining(db) != 0
  {
    RemainingBounds(c, db);
    if db.status == Running && ((!gaveUp && DoneOnlyAnswered(v.start)) || v.alone) {
      forall r | r in db.requests ensures r.id in db.results {
        assert Answered(db, r.shard);
      }
    }
  }

  // ------------------------------------------------------------------ from every reachable state

  /** What can still arrive in a state: any message that was sent, the end of a claim that had
      found its shard answered, and claims, heartbeats, counts and reaps at any time. */
  predicate FromPast(s: Sys, m: Stale) {
    match m
    case StaleChunk(w, sh, batch, now) => Chunk(w, sh, batch) in s.sent
    case StaleDone(w, sh) => DoneMsg(w, sh) in s.sent || exists n :: n in s.calls && s.calls[n] == Emptied(w, sh)
    case _ => true
  }

  /** Every reachable state is one the loop can start from, and all its leases run out. */
  lemma RecoverableEverywhere(c: Config, input: seq<(RequestId, string)>, size: int, past: seq<Label>) returns (bound: int)
    requires size > 0 && Created(input, size).Some?
    requires Valid(c, Init(Created(input, size).value), past) && ReliableRun(c, Init(Created(input, size).value), past)
    ensures var s := Run(c, Init(Created(input, size).value), past);
            && DbInv(c, s.db) && DoneOnlyAnswered(s.db) && HeldUntil(s.db, bound, None)
            && (forall m :: FromPast(s, m) ==> StaleOk(s.db, m))
  {
    var s0 := Init(Created(input, size).value);
    InitInv(c, input, size);
    RunComplete(c, s0, past);
    var s := Run(c, s0, past);
    bound := LateEnough(s.db.shards);
    forall i | 0 <= i < |s.db.shards| ensures Columns(s.db.shards[i]) && s.db.shards[i] in s.db.shards {}
    forall m | FromPast(s, m) ensures StaleOk(s.db, m) {
      match m {
        case StaleChunk(w, sh, batch, now) => assert MsgOk(s.db, Chunk(w, sh, batch), Chunk(w, sh, batch) in s.stored);
        case _ =>
      }
    }
  }

  /** From every reachable state of a running job whose workers all stop for ever: whatever they
      had sent still arrives, some of it takes leases again, and one fresh worker leaves every
      request answered, provided the claims stop arriving and the server reaps once more after
      the last lease before the worker has waited `limit` times. */
  method RecoverReachable(store: Store, c: Config, ghost input: seq<(RequestId, string)>, ghost size: int, ghost past: seq<Label>,
                          w: WorkerId, noise: nat -> seq<Stale>, clock: nat -> int, lease: int, limit: nat,
                          ghost last: nat, ghost bound: int)
    requires c.chunk > 0 && size > 0 && Created(input, size).Some?
    requires Valid(c, Init(Created(input, size).value), past) && ReliableRun(c, Init(Created(input, size).value), past)
    requires store.View() == Run(c, Init(Created(input, size).value), past).db && store.status == Running
    requires forall k, m :: m in noise(k) ==> FromPast(Run(c, Init(Created(input, size).value), past), m)
    requires Settles(store.View(), noise, last, bound) && last < limit
    modifies store
    ensures Remaining(store.View()) == 0 && store.results.Keys == Ids(Created(input, size).value.requests)
  {
    ghost var _ := RecoverableEverywhere(c, input, size, past);
    RunGrows(c, Init(Created(input, size).value), past);
    var gaveUp := Recover(store, c, w, noise, clock, lease, limit);
    RemainingBounds(c, store.View());
  }

  /** One reap is not enough: a worker leaves, every lease is reaped, and a claim it had sent
      arrives afterwards. From the state that leaves, with no further reap and no chunk, `Recover`
      never answers everything, whoever asks: nothing is pending, and something is missing from
      what is held. */
  lemma LateClaimStrands(c: Config, u: WorkerId, id: RequestId, prompt: string) returns (before: seq<Label>, claim: Label)
    ensures Created([(id, prompt)], 1).Some?
    ensures var s0 := Init(Created([(id, prompt)], 1).value);
            Valid(c, s0, before) && ReliableRun(c, s0, before) && TakenAgain(c, Run(c, s0, before), u, claim)
  {
    OneRequest(id, prompt);
    before, claim := LeavesAndReaps(u, Request(id, 0, prompt)), LClaim(1, 0, [Request(id, 0, prompt)]);
    LateClaimRun(c, u, Request(id, 0, prompt));
  }

  lemma ReliableStep(c: Config, s: Sys, ls: seq<Label>)
    requires ls != [] && Enabled(c, s, ls[0]) && Reliable(s, ls[0])
    requires Valid(c, Apply(c, s, ls[0]), ls[1..]) && ReliableRun(c, Apply(c, s, ls[0]), ls[1..])
    ensures Valid(c, s, ls) && ReliableRun(c, s, ls) && Run(c, s, ls) == Run(c, Apply(c, s, ls[0]), ls[1..])
  {
  }

  /** Nobody holds a lease and `u` has left; then its claim takes all there is, with an answer
      missing, and no claim is given anything. */
  ghost predicate TakenAgain(c: Config, mid: Sys, u: WorkerId, claim: Label) {
    && OnlyMine(mid.db, None) && u in mid.agents && mid.agents[u] == Gone
    && claim.LClaim? && claim.call in mid.calls && mid.calls[claim.call] == Checked(u) && Enabled(c, mid, claim)
    && var end := Apply(c, mid, claim).db;
       && end.status == Running && AllLeased(end) && !HeldAnswered(end) && Remaining(end) == 1
       && forall w, exp :: Claim(end, w, exp) == (end, None)
  }

  /** The store after the lease has been reaped. */
  function Reaped(u: WorkerId, r: Request): Db {
    Lone(r).(shards := [FRESH.(attempts := 1, trail := [Claimed(u), Expired(Some(u))])])
  }

  lemma NonePending(db: Db, w: WorkerId, exp: int)
    requires forall i :: 0 <= i < |db.shards| ==> db.shards[i].state != Pending
    ensures Claim(db, w, exp) == (db, None)
  {
  }

  lemma LateClaimEnds(c: Config, mid: Sys, u: WorkerId, r: Request)
    requires mid.calls == map[1 := Checked(u)] && mid.db == Reaped(u, r) && r.shard == 0 && mid.agents == map[u := Gone]
    ensures TakenAgain(c, mid, u, LClaim(1, 0, [r]))
  {
    UnansweredOne(r);
    assert FirstPending(mid.db.shards, 0) == Some(0);
    var end := Apply(c, mid, LClaim(1, 0, [r])).db;
    assert end == Lease(mid.db, 0, u, 0);
    HeldByAnother(mid.db, u, r);
  }

  lemma UnansweredOne(r: Request)
    requires r.shard == 0
    ensures Unanswered([r], map[], 0) == [r]
  {
    assert [r][..0] == [];
  }

  lemma HeldByAnother(db: Db, u: WorkerId, r: Request)
    requires db == Reaped(u, r) && r.shard == 0
    ensures var end := Lease(db, 0, u, 0);
            && AllLeased(end) && !HeldAnswered(end) && Remaining(end) == 1
            && forall w, exp :: Claim(end, w, exp) == (end, None)
  {
    var end := Lease(db, 0, u, 0);
    assert r in end.requests && end.shards[0].state == Leased;
    forall w, exp ensures Claim(end, w, exp) == (end, None) { NonePending(end, w, exp); }
  }

  /** Two claims read the job as running, the first is granted, its worker leaves, and the lease
      is reaped. */
  function LeavesAndReaps(u: WorkerId, r: Request): seq<Label> {
    [LCheckClaim(0, u), LCheckClaim(1, u), LClaim(0, 0, [r]), LLeave(u), LReap(1)]
  }

  lemma LateClaimRun(c: Config, u: WorkerId, r: Request)
    requires r.shard == 0
    ensures var s, ls := Init(Lone(r)), LeavesAndReaps(u, r);
            Valid(c, s, ls) && ReliableRun(c, s, ls) && TakenAgain(c, Run(c, s, ls), u, LClaim(1, 0, [r]))
  {
    var s, ls := Init(Lone(r)), LeavesAndReaps(u, r);
    var s1, s2, s3, s4 := LateClaimStates(c, u, r);
    FiveSteps(c, s, s1, s2, s3, s4, ls);
    LateClaimEnds(c, Apply(c, s4, ls[4]), u, r);
  }

  lemma LateClaimStates(c: Config, u: WorkerId, r: Request) returns (s1: Sys, s2: Sys, s3: Sys, s4: Sys)
    requires r.shard == 0
    ensures var s := Init(Lone(r));
            && Enabled(c, s, LCheckClaim(0, u)) && s1 == Apply(c, s, LCheckClaim(0, u))
            && Enabled(c, s1, LCheckClaim(1, u)) && s2 == Apply(c, s1, LCheckClaim(1, u))
            && Enabled(c, s2, LClaim(0, 0, [r])) && s3 == Apply(c, s2, LClaim(0, 0, [r]))
            && Enabled(c, s3, LLeave(u)) && s4 == Apply(c, s3, LLeave(u)) && Enabled(c, s4, LReap(1))
            && var s5 := Apply(c, s4, LReap(1));
               s5.calls == map[1 := Checked(u)] && s5.agents == map[u := Gone] && s5.db == Reaped(u, r)
  {
    var s := Init(Lone(r));
    s1 := Apply(c, s, LCheckClaim(0, u));
    s2 := Apply(c, s1, LCheckClaim(1, u));
    UnansweredOne(r);
    FirstClaim(c, s2, u, r);
    s3 := Apply(c, s2, LClaim(0, 0, [r]));
    s4 := Apply(c, s3, LLeave(u));
    ReapsOne(s4.db, u, r);
  }

  lemma FirstClaim(c: Config, s: Sys, u: WorkerId, r: Request)
    requires s == Init(Lone(r)).(calls := map[0 := Checked(u), 1 := Checked(u)]) && Unanswered([r], map[], 0) == [r]
    ensures Enabled(c, s, LClaim(0, 0, [r]))
    ensures var t := Apply(c, s, LClaim(0, 0, [r]));
            t.calls == map[1 := Checked(u)] && t.agents == map[]
            && t.db == Lone(r).(shards := [Shard(Leased, Some(u), Some(0), 1, [Claimed(u)])])
  {
    assert FirstPending(s.db.shards, 0) == Some(0);
    assert FRESH.trail + [Claimed(u)] == [Claimed(u)];
    assert Lease(s.db, 0, u, 0).shards == [Shard(Leased, Some(u), Some(0), 1, [Claimed(u)])];
  }

  /** Five steps in a row, none of which sends a done. */
  lemma FiveSteps(c: Config, s: Sys, s1: Sys, s2: Sys, s3: Sys, s4: Sys, ls: seq<Label>)
    requires |ls| == 5 && (forall l :: l in ls ==> !l.LSendDone?)
    requires Enabled(c, s, ls[0]) && s1 == Apply(c, s, ls[0]) && Enabled(c, s1, ls[1]) && s2 == Apply(c, s1, ls[1])
    requires Enabled(c, s2, ls[2]) && s3 == Apply(c, s2, ls[2]) && Enabled(c, s3, ls[3]) && s4 == Apply(c, s3, ls[3])
    requires Enabled(c, s4, ls[4])
    ensures Valid(c, s, ls) && ReliableRun(c, s, ls) && Run(c, s, ls) == Apply(c, s4, ls[4])
  {
    assert forall i :: 0 <= i < 5 ==> ls[i] in ls;
    assert ls[5..] == [];
    ReliableStep(c, s4, ls[4..]);
    ReliableStep(c, s3, ls[3..]);
    ReliableStep(c, s2, ls[2..]);
    ReliableStep(c, s1, ls[1..]);
    ReliableStep(c, s, ls);
  }

  lemma ReapsOne(db: Db, u: WorkerId, r: Request)
    requires db == Lone(r).(shards := [Shard(Leased, Some(u), Some(0), 1, [Claimed(u)])])
    ensures Reap(db, 1) == Reaped(u, r)
  {
    assert [Claimed(u)] + [Expired(Some(u))] == [Claimed(u), Expired(Some(u))];
    assert Reap(db, 1).shards == Reaped(u, r).shards;
  }
}
