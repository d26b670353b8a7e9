/** One tick of the deadline controller (controller.py) over the store's workers table. */
module Fleet {
  import opened Base
  import opened LeaseDb

  datatype Policy = Policy(minWorkers: nat, maxWorkers: nat, launchPerTick: nat, bufferFrac: real, stale: int)

  /** What status() reported at the top of the tick, and the clock. */
  datatype Reading = Reading(running: bool, remaining: nat, rate: real, now: int, timeLeft: real, window: real)

  function Live(workers: map<WorkerId, Worker>): set<WorkerId> {
    set w | w in workers && workers[w].state != Dead
  }

  function Ceil(x: real): int {
    -(-x).Floor
  }

  function Usable(p: Policy, r: Reading): real {
    var spare := r.timeLeft - p.bufferFrac * r.window;
    if spare < 1.0 then 1.0 else spare
  }

  function Target(p: Policy, r: Reading, live: nat): int {
    if r.rate > 0.0 && live > 0
    then Ceil((r.remaining as real / Usable(p, r)) / (r.rate / live as real))
    else if p.minWorkers > live then p.minWorkers else live
  }

  function Clamp(p: Policy, want: int): int {
    var capped := if want < p.maxWorkers then want else p.maxWorkers;
    if capped > p.minWorkers then capped else p.minWorkers
  }

  /** Enough workers clear the need, and fewer than the quotient do not. */
  lemma Clearing(n: real, x: real, per: real, u: real, need: real, remaining: real)
    requires per > 0.0 && u > 0.0 && x * per == need && need * u == remaining
    ensures n >= x <==> n * per * u >= remaining
  {
    if n >= x {
      Scale(x, n, per);
      Scale(need, n * per, u);
    } else {
      StrictScale(n, x, per);
      StrictScale(n * per, need, u);
    }
  }

  lemma Divides(a: real, b: real)
    requires b > 0.0
    ensures a / b * b == a
  {
  }

  /** Once a rate is measured, the target is the least number of workers which, each at the
      measured rate per worker, clears what remains within the usable time. */
  lemma TargetIsLeast(p: Policy, r: Reading, live: nat, n: int)
    requires r.rate > 0.0 && live > 0
    ensures Target(p, r, live) as real * (r.rate / live as real) * Usable(p, r) >= r.remaining as real
    ensures n as real * (r.rate / live as real) * Usable(p, r) >= r.remaining as real ==> Target(p, r, live) <= n
  {
    var per, u := r.rate / live as real, Usable(p, r);
    var need := r.remaining as real / u;
    var x := need / per;
    Divides(r.remaining as real, u);
    Divides(need, per);
    Clearing(Ceil(x) as real, x, per, u, need, r.remaining as real);
    Clearing(n as real, x, per, u, need, r.remaining as real);
  }

  lemma Scale(a: real, b: real, c: real)
    requires a <= b && c > 0.0
    ensures a * c <= b * c
  {
  }

  lemma StrictScale(a: real, b: real, c: real)
    requires a < b && c > 0.0
    ensures a * c < b * c
  {
  }

  // ------------------------------------------------------------------ the wanted size

  /** `n` workers at the measured rate per worker clear what remains in the time that is left but
      for the buffer, and in a second at least. */
  predicate Clears(p: Policy, r: Reading, live: nat, n: int)
    requires live > 0
  {
    var spare := r.timeLeft - p.bufferFrac * r.window;
    n as real * (r.rate / live as real) * (if spare >= 1.0 then spare else 1.0) >= r.remaining as real
  }

  /** The wanted size lies between the bounds. Before a rate is measured it keeps the fleet as it
      is; after that it is enough unless the upper bound forbids it, and one less would not be
      enough unless the lower bound forbids that. */
  lemma WantedExactly(p: Policy, r: Reading, live: nat)
    requires p.minWorkers <= p.maxWorkers
    ensures var want := Clamp(p, Target(p, r, live));
            && p.minWorkers <= want <= p.maxWorkers
            && (r.rate <= 0.0 || live == 0 ==>
                  want == if live < p.minWorkers then p.minWorkers else if live > p.maxWorkers then p.maxWorkers else live)
            && (r.rate > 0.0 && live > 0 ==>
                  (want < p.maxWorkers ==> Clears(p, r, live, want)) && (want > p.minWorkers ==> !Clears(p, r, live, want - 1)))
  {
    if r.rate > 0.0 && live > 0 {
      var want := Clamp(p, Target(p, r, live));
      TargetIsLeast(p, r, live, want);
      TargetIsLeast(p, r, live, want - 1);
      if want < p.maxWorkers { MoreClears(p, r, live, Target(p, r, live), want); }
    }
  }

  lemma MoreClears(p: Policy, r: Reading, live: nat, m: int, n: int)
    requires live > 0 && r.rate > 0.0 && m <= n && Clears(p, r, live, m)
    ensures Clears(p, r, live, n)
  {
    var per, u := r.rate / live as real, Usable(p, r);
    Scale(m as real, n as real, per);
    Scale(m as real * per, n as real * per, u);
  }

  // ------------------------------------------------------------------ the release order

  function HasLease(shards: seq<Shard>, w: WorkerId): bool {
    exists s :: s in shards && Holds(s, w)
  }

  lemma HasLeaseExactly(shards: seq<Shard>, w: WorkerId)
    ensures HasLease(shards, w) <==> exists i :: 0 <= i < |shards| && shards[i].state == Leased && shards[i].leaseWorker == Some(w)
  {
    if HasLease(shards, w) {
      var s :| s in shards && Holds(s, w);
      var i :| 0 <= i < |shards| && shards[i] == s;
    }
    if i :| 0 <= i < |shards| && shards[i].state == Leased && shards[i].leaseWorker == Some(w) {
      assert shards[i] in shards && Holds(shards[i], w);
    }
  }

  /** The sort key (has a lease, most recently started first), compared. */
  predicate Before(shards: seq<Shard>, workers: map<WorkerId, Worker>, a: WorkerId, b: WorkerId)
    requires a in workers && b in workers
  {
    var la, lb := HasLease(shards, a), HasLease(shards, b);
    (!la && lb) || (la == lb && workers[a].started >= workers[b].started)
  }

  ghost predicate Listed(xs: seq<WorkerId>, s: set<WorkerId>) {
    && (forall x :: x in xs <==> x in s)
    && (forall i, j :: 0 <= i < j < |xs| ==> xs[i] != xs[j])
  }

  ghost predicate Ordered(shards: seq<Shard>, workers: map<WorkerId, Worker>, xs: seq<WorkerId>) {
    && (forall x :: x in xs ==> x in workers)
    && (forall i, j :: 0 <= i < j < |xs| ==> Before(shards, workers, xs[i], xs[j]))
  }

  function Insert(shards: seq<Shard>, workers: map<WorkerId, Worker>, xs: seq<WorkerId>, x: WorkerId): (r: seq<WorkerId>)
    requires x in workers && x !in xs && Ordered(shards, workers, xs)
    ensures forall y :: y in r <==> y == x || y in xs
    ensures Ordered(shards, workers, r) && |r| == |xs| + 1
    ensures (forall i, j :: 0 <= i < j < |xs| ==> xs[i] != xs[j]) ==> forall i, j :: 0 <= i < j < |r| ==> r[i] != r[j]
  {
    if xs == [] then [x]
    else
      assert xs == [xs[0]] + xs[1..];
      if Before(shards, workers, x, xs[0]) then
        assert forall j :: 0 <= j < |xs| ==> Before(shards, workers, x, xs[j]);
        [x] + xs
      else
        var rest := Insert(shards, workers, xs[1..], x);
        OrderedInFront(shards, workers, xs, rest, x);
        [xs[0]] + rest
  }

  lemma OrderedInFront(shards: seq<Shard>, workers: map<WorkerId, Worker>, xs: seq<WorkerId>, rest: seq<WorkerId>, x: WorkerId)
    requires xs != [] && x in workers && Ordered(shards, workers, xs) && Ordered(shards, workers, rest)
    requires Before(shards, workers, xs[0], x) && forall y :: y in rest <==> y == x || y in xs[1..]
    ensures Ordered(shards, workers, [xs[0]] + rest)
    ensures x != xs[0] && (forall i, j :: 0 <= i < j < |xs| ==> xs[i] != xs[j]) ==> xs[0] !in rest
  {
    forall j | 0 <= j < |rest| ensures Before(shards, workers, xs[0], rest[j]) {
      assert rest[j] in rest;
    }
  }

  // ------------------------------------------------------------------ the tick

  method Ranked(shards: seq<Shard>, workers: map<WorkerId, Worker>) returns (order: seq<WorkerId>)
    ensures Listed(order, Live(workers)) && Ordered(shards, workers, order) && |order| == |Live(workers)|
  {
    var todo := Live(workers);
    order := [];
    while todo != {}
      invariant todo <= Live(workers) && Listed(order, Live(workers) - todo)
      invariant Ordered(shards, workers, order) && |order| + |todo| == |Live(workers)|
    {
      var w :| w in todo;
      order := Insert(shards, workers, order, w);
      todo := todo - {w};
    }
  }

  /** Workers not heard from for longer than the stale limit are presumed preempted. */
  method Retire(store: Store, p: Policy, now: int)
    modifies store
    ensures store.status == old(store.status) && store.requests == old(store.requests) && store.results == old(store.results)
    ensures Live(store.workers) == Staying(old(store.workers), p, now)
    ensures store.workers.Keys == old(store.workers).Keys
    ensures forall w :: w in Live(store.workers) ==> store.workers[w] == old(store.workers[w])
    ensures forall w :: w in Live(store.workers) ==> HasLease(store.shards, w) == HasLease(old(store.shards), w)
  {
    ghost var before := store.workers;
    var todo := Live(store.workers);
    while todo != {}
      invariant todo <= Live(before) && store.status == old(store.status)
      invariant store.requests == old(store.requests) && store.results == old(store.results)
      invariant store.workers.Keys == before.Keys
      invariant forall w :: w in before ==>
        store.workers[w] == (if w in Live(before) - todo && Gone(before[w], p, now) then before[w].(state := Dead) else before[w])
      invariant forall w :: w in before && store.workers[w].state != Dead ==> HasLease(store.shards, w) == HasLease(old(store.shards), w)
    {
      var w :| w in todo;
      var row := store.workers[w];
      if row.lastSeen.Some? && now - row.lastSeen.value > p.stale {
        ghost var was := store.shards;
        store.Kill(w);
        assert store.shards == seq(|was|, i requires 0 <= i < |was| => KillShard(was[i], w));
        forall x | x != w ensures HasLease(store.shards, x) == HasLease(was, x) { OthersKeepLeases(was, w, x); }
      }
      todo := todo - {w};
    }
    forall w ensures w in Live(store.workers) <==> w in Live(before) && !Gone(before[w], p, now) {}
  }

  lemma OthersKeepLeases(shards: seq<Shard>, w: WorkerId, x: WorkerId)
    requires x != w
    ensures var after := seq(|shards|, i requires 0 <= i < |shards| => KillShard(shards[i], w));
            HasLease(after, x) == HasLease(shards, x)
  {
    var after := seq(|shards|, i requires 0 <= i < |shards| => KillShard(shards[i], w));
    if s :| s in shards && Holds(s, x) {
      var i :| 0 <= i < |shards| && shards[i] == s;
      assert after[i] in after && Holds(after[i], x);
    }
    if s :| s in after && Holds(s, x) {
      var i :| 0 <= i < |after| && after[i] == s;
      assert shards[i] in shards && Holds(shards[i], x);
    }
  }

  predicate Gone(row: Worker, p: Policy, now: int) {
    row.lastSeen.Some? && now - row.lastSeen.value > p.stale
  }

  /** The workers that are left once the stale ones are retired. */
  function Staying(workers: map<WorkerId, Worker>, p: Policy, now: int): set<WorkerId> {
    set w | w in Live(workers) && !Gone(workers[w], p, now)
  }

  lemma StayingExactly(workers: map<WorkerId, Worker>, p: Policy, now: int, w: WorkerId)
    ensures w in Staying(workers, p, now) <==>
              w in workers && workers[w].state != Dead
              && (workers[w].lastSeen == None || now - workers[w].lastSeen.value <= p.stale)
  {
  }

  /** Every launch works and brings a worker the table has not seen. */
  predicate AllNew(launched: seq<Option<WorkerId>>, count: nat, workers: map<WorkerId, Worker>)
    requires |launched| >= count
  {
    && (forall i :: 0 <= i < count ==> launched[i].Some? && launched[i].value !in workers)
    && (forall i, j :: 0 <= i < j < count ==> launched[i] != launched[j])
  }

  /** provider.launch() and register_worker(), until enough, or the first failure. */
  method Launch(store: Store, count: nat, launched: seq<Option<WorkerId>>, now: int)
    requires |launched| >= count
    modifies store
    ensures store.shards == old(store.shards) && store.status == old(store.status)
    ensures store.requests == old(store.requests) && store.results == old(store.results)
    ensures Live(old(store.workers)) <= Live(store.workers)
    ensures |Live(store.workers)| <= |Live(old(store.workers))| + count
    ensures AllNew(launched, count, old(store.workers)) ==> |Live(store.workers)| == |Live(old(store.workers))| + count
    ensures forall w :: w in store.workers ==>
              store.workers[w] == (if w in old(store.workers) then old(store.workers)[w] else Worker(Starting, now, Some(now)))
  {
    var i := 0;
    while i < count
      invariant 0 <= i <= count && store.shards == old(store.shards) && store.status == old(store.status)
      invariant store.requests == old(store.requests) && store.results == old(store.results)
      invariant Live(old(store.workers)) <= Live(store.workers)
      invariant |Live(store.workers)| <= |Live(old(store.workers))| + i
      invariant forall w :: w in store.workers ==> w in old(store.workers) || exists k :: 0 <= k < i && launched[k] == Some(w)
      invariant AllNew(launched, count, old(store.workers)) ==> |Live(store.workers)| == |Live(old(store.workers))| + i
      invariant old(store.workers).Keys <= store.workers.Keys
      invariant forall w :: w in store.workers ==>
        store.workers[w] == (if w in old(store.workers) then old(store.workers)[w] else Worker(Starting, now, Some(now)))
    {
      if launched[i].None? {
        return;
      }
      var w := launched[i].value;
      ghost var was := Live(store.workers);
      // ON CONFLICT leaves the state of a worker that registered itself first.
      if w !in store.workers {
        store.workers := store.workers[w := Worker(Starting, now, Some(now))];
      }
      assert Live(store.workers) <= was + {w};
      SubsetSize(Live(store.workers), was + {w});
      assert AllNew(launched, count, old(store.workers)) ==> Live(store.workers) == was + {w} && w !in was;
      i := i + 1;
    }
  }

  method Release(store: Store, order: seq<WorkerId>, count: nat)
    requires count <= |order| && Listed(order, Live(store.workers)) && |order| == |Live(store.workers)|
    modifies store
    ensures store.status == old(store.status) && store.requests == old(store.requests) && store.results == old(store.results)
    ensures Live(store.workers) == set w | w in order[count..]
    ensures |Live(store.workers)| == |order| - count
  {
    var i := 0;
    while i < count
      invariant 0 <= i <= count && store.status == old(store.status)
      invariant store.requests == old(store.requests) && store.results == old(store.results)
      invariant Live(store.workers) == (set w | w in order[i..])
      invariant |Live(store.workers)| == |order| - i
    {
      ghost var was := Live(store.workers);
      var w := order[i];
      assert order[i..] == [w] + order[i + 1..];
      assert w in was;
      store.Kill(w);
      assert Live(store.workers) == was - {w};
      i := i + 1;
    }
  }

  /** The size a tick steers to, after the stale workers are gone. */
  function Wanted(workers: map<WorkerId, Worker>, p: Policy, r: Reading): int {
    Clamp(p, Target(p, r, |Staying(workers, p, r.now)|))
  }

  /** How many a tick launches at most. */
  function Room(workers: map<WorkerId, Worker>, p: Policy, r: Reading): int {
    var missing := Wanted(workers, p, r) - |Staying(workers, p, r.now)|;
    if missing < p.launchPerTick then missing else p.launchPerTick
  }

  /** reap, retire, size, launch or release. True when the loop ends instead. The fleet never
      exceeds max_workers after a completed tick: a fleet that is too large comes down to the
      wanted size at once, one that is too small keeps everybody and grows by its launches, all
      of them if they work. Whoever a scale-down takes comes before whoever it keeps: no
      leaseholder goes while an idle worker stays, and of two alike the one started later goes. */
  method Tick(store: Store, p: Policy, r: Reading, capacity: bool, launched: seq<Option<WorkerId>>) returns (ended: bool)
    requires p.minWorkers <= p.maxWorkers && |launched| >= p.launchPerTick
    modifies store
    ensures ended <==> !r.running || r.remaining == 0
    ensures store.status == old(store.status) && store.requests == old(store.requests) && store.results == old(store.results)
    ensures ended ==> Live(store.workers) == Staying(old(store.workers), p, r.now)
    ensures !ended ==> |Live(store.workers)| <= p.maxWorkers
    ensures !ended && Wanted(old(store.workers), p, r) <= |Staying(old(store.workers), p, r.now)| ==>
              |Live(store.workers)| == Wanted(old(store.workers), p, r)
    ensures !ended && Wanted(old(store.workers), p, r) > |Staying(old(store.workers), p, r.now)| ==>
              && Staying(old(store.workers), p, r.now) <= Live(store.workers)
              && |Live(store.workers)| <= |Staying(old(store.workers), p, r.now)| + Room(old(store.workers), p, r)
              && (capacity && AllNew(launched, Room(old(store.workers), p, r), old(store.workers)) ==>
                    |Live(store.workers)| == |Staying(old(store.workers), p, r.now)| + Room(old(store.workers), p, r))
              && (!capacity ==> Live(store.workers) == Staying(old(store.workers), p, r.now))
    ensures !ended ==> forall a, b ::
      a in Live(old(store.workers)) && !Gone(old(store.workers[a]), p, r.now) && a !in Live(store.workers) &&
      b in Live(old(store.workers)) && b in Live(store.workers) ==>
      var shards := Reap(old(store.View()), r.now).shards;
      && (HasLease(shards, a) ==> HasLease(shards, b))
      && (HasLease(shards, a) == HasLease(shards, b) ==> old(store.workers)[a].started >= old(store.workers)[b].started)
  {
    var _ := store.ReapExpired(r.now);
    ghost var reaped := store.shards;
    Retire(store, p, r.now);
    if !r.running || r.remaining == 0 {
      return true;
    }
    ghost var mid := store.workers;
    var live := |Live(store.workers)|;
    var want := Clamp(p, Target(p, r, live));
    if want > live && capacity {
      var room := if want - live < p.launchPerTick then want - live else p.launchPerTick;
      Launch(store, room, launched, r.now);
    } else if want < live {
      var order := Ranked(store.shards, store.workers);
      ghost var shards := store.shards;
      Release(store, order, live - want);
      forall a, b | a in Live(mid) && a !in Live(store.workers) && b in Live(store.workers)
        ensures Before(shards, mid, a, b)
      {
        var i :| 0 <= i < |order| && order[i] == a;
        assert a !in order[live - want..];
        var j :| live - want <= j < |order| && order[j] == b;
        assert Before(shards, mid, order[i], order[j]);
      }
    }
    ended := false;
  }

  /** How many are launched: what is missing, and never more than the step allows. */
  lemma RoomExactly(workers: map<WorkerId, Worker>, p: Policy, r: Reading)
    ensures var missing := Wanted(workers, p, r) - |Staying(workers, p, r.now)|;
            && Room(workers, p, r) <= missing && Room(workers, p, r) <= p.launchPerTick
            && (Room(workers, p, r) == missing || Room(workers, p, r) == p.launchPerTick)
  {
  }
}
