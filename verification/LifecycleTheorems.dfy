/** What the lifecycle kernel promises about every reachable state. */
module LifecycleTheorems {
  import opened Base
  import opened LifecycleDefinition
  import opened LifecycleDb
  import opened LifecycleKernel

  lemma InitInv()
    ensures Inv(INIT)
  {
  }

  // ------------------------------------------------------------------ the history is a path

  /** The state an instance is in after its first `k` moves. */
  function StateAfter(m: Machine, rows: seq<Move>, k: nat): string
    requires k <= |rows|
  {
    if k == 0 then m.initial else rows[k - 1].target
  }

  lemma {:induction false} PathMeaning(m: Machine, rows: seq<Move>, k: nat)
    requires Path(m, rows).Some?
    ensures Path(m, rows).value == StateAfter(m, rows, |rows|)
    ensures k < |rows| ==>
              rows[k].fromRevision == k && rows[k].toRevision == k + 1 && rows[k].source == StateAfter(m, rows, k)
              && (rows[k].source, rows[k].target) in m.edges && rows[k].source !in m.terminal
  {
    if k + 1 < |rows| {
      PathMeaning(m, rows[..|rows| - 1], k);
    } else if k + 1 == |rows| && k > 0 {
      PathMeaning(m, rows[..|rows| - 1], k - 1);
    }
  }

  /** An instance's rows are revisions 1 to its revision, one each and in order, and lead along
      declared edges from the initial state to the state it is in. */
  lemma HistoryIsPath(ls: seq<Label>, i: nat)
    requires Valid(INIT, ls) && i in Run(INIT, ls).db.instances
    ensures var db := Run(INIT, ls).db; var inst := db.instances[i]; var rows := Rows(db.history, i);
            && inst.name in db.machines && |rows| == inst.revision
            && var m := db.machines[inst.name];
               && (forall k :: 0 <= k < |rows| ==>
                     rows[k].fromRevision == k && rows[k].toRevision == k + 1 && rows[k].source == StateAfter(m, rows, k)
                     && (rows[k].source, rows[k].target) in m.edges && rows[k].source !in m.terminal)
               && inst.state == StateAfter(m, rows, |rows|)
  {
    InitInv();
    RunInv(INIT, ls);
    var db := Run(INIT, ls).db;
    assert Placed(db, i) && Counted(db, i);
    var m, rows := db.machines[db.instances[i].name], Rows(db.history, i);
    PathMeaning(m, rows, 0);
    forall k | 0 <= k < |rows|
      ensures rows[k].fromRevision == k && rows[k].toRevision == k + 1 && rows[k].source == StateAfter(m, rows, k)
      ensures (rows[k].source, rows[k].target) in m.edges && rows[k].source !in m.terminal
    {
      PathMeaning(m, rows, k);
    }
  }

  // ------------------------------------------------------------------ who moves an instance

  /** Of the callers that presented a revision, one moved the instance if it has left that
      revision, and none if it has not. */
  lemma OneWinner(ls: seq<Label>, i: nat, revision: nat)
    requires Valid(INIT, ls)
    ensures MovesFrom(Run(INIT, ls).answers, i, revision) == if revision < Rev(Run(INIT, ls).db, i) then 1 else 0
  {
    InitInv();
    RunInv(INIT, ls);
  }

  /** What a step writes to the tables. */
  function NextDb(s: Sys, l: Label): Db
    requires Enabled(s, l)
  {
    match l
    case LSwap(c) => Swap(s.db, s.calls[c]).0
    case LCreate(ctx, name) => Create(s.db, ctx, name).0
    case LRegister(name, m) => s.db.(machines := s.db.machines[name := m])
    case _ => s.db
  }

  lemma StepDb(s: Sys, l: Label)
    requires Enabled(s, l)
    ensures Apply(s, l).db == NextDb(s, l)
  {
  }

  lemma StepInstance(s: Sys, l: Label, i: nat)
    requires Inv(s) && Enabled(s, l) && i in s.db.instances
    ensures i in NextDb(s, l).instances
    ensures var before, after := s.db.instances[i], NextDb(s, l).instances[i];
            after != before ==>
              && l.LSwap? && s.calls[l.c].req.instance == i
              && s.calls[l.c].req.state == before.state && s.calls[l.c].req.revision == before.revision
              && s.calls[l.c].name == before.name && Fires(s.db, s.calls[l.c].ctx, s.calls[l.c].req, s.calls[l.c].name)
              && after == before.(state := s.calls[l.c].req.target, revision := before.revision + 1)
  {
    if l.LSwap? {
      assert PhaseOk(s.db, s.calls[l.c]);
      SwapCases(s.db, s.calls[l.c]);
    } else {
      OthersMoveNothing(s, l, i);
    }
  }

  lemma OthersMoveNothing(s: Sys, l: Label, i: nat)
    requires Inv(s) && Enabled(s, l) && i in s.db.instances && !l.LSwap?
    ensures i in NextDb(s, l).instances && NextDb(s, l).instances[i] == s.db.instances[i]
  {
  }

  /** The only step that changes an instance is a swap whose caller described it exactly: the
      state alone, come back around a cycle, is never enough. */
  lemma StaleNeverMoves(ls: seq<Label>, l: Label, i: nat)
    requires Valid(INIT, ls) && Enabled(Run(INIT, ls), l) && i in Run(INIT, ls).db.instances
    ensures var s := Run(INIT, ls); var before := s.db.instances[i];
            && i in Apply(s, l).db.instances
            && var after := Apply(s, l).db.instances[i];
               after != before ==>
                 && l.LSwap? && s.calls[l.c].req.instance == i
                 && s.calls[l.c].req.state == before.state && s.calls[l.c].req.revision == before.revision
                 && after == before.(state := s.calls[l.c].req.target, revision := before.revision + 1)
  {
    InitInv();
    RunInv(INIT, ls);
    StepInstance(Run(INIT, ls), l, i);
    StepDb(Run(INIT, ls), l);
  }

  lemma TerminalStep(s: Sys, l: Label, i: nat)
    requires Inv(s) && Enabled(s, l) && i in s.db.instances
    requires s.db.instances[i].name in s.db.machines
    requires s.db.instances[i].state in s.db.machines[s.db.instances[i].name].terminal
    ensures i in Apply(s, l).db.instances && Apply(s, l).db.instances[i] == s.db.instances[i]
  {
    StepInstance(s, l, i);
    StepDb(s, l);
  }

  lemma {:induction false} TerminalRun(s: Sys, ls: seq<Label>, i: nat)
    requires Inv(s) && Valid(s, ls) && i in s.db.instances
    requires s.db.instances[i].name in s.db.machines
    requires s.db.instances[i].state in s.db.machines[s.db.instances[i].name].terminal
    ensures i in Run(s, ls).db.instances && Run(s, ls).db.instances[i] == s.db.instances[i]
    decreases |ls|
  {
    if ls != [] {
      StepInv(s, ls[0]);
      StepGrows(s, ls[0]);
      TerminalStep(s, ls[0], i);
      TerminalRun(Apply(s, ls[0]), ls[1..], i);
    }
  }

  /** An instance that has reached a terminal state never changes again. */
  lemma TerminalAbsorbing(ls: seq<Label>, more: seq<Label>, i: nat)
    requires Valid(INIT, ls) && i in Run(INIT, ls).db.instances && Valid(Run(INIT, ls), more)
    requires Run(INIT, ls).db.instances[i].name in Run(INIT, ls).db.machines
    requires Run(INIT, ls).db.instances[i].state in Run(INIT, ls).db.machines[Run(INIT, ls).db.instances[i].name].terminal
    ensures i in Run(Run(INIT, ls), more).db.instances
    ensures Run(Run(INIT, ls), more).db.instances[i] == Run(INIT, ls).db.instances[i]
  {
    InitInv();
    RunInv(INIT, ls);
    TerminalRun(Run(INIT, ls), more, i);
  }

  /** What validation accepts is a graph the kernel can run. */
  lemma AcceptedIsGraph(d: Definition, secret: string -> bool)
    requires WellFormed(d, secret)
    ensures Graph(Meaning(d))
  {
  }

  /** A call on its own moves the instance exactly when it is authorised, describes the row as
      it is, asks for an edge out of a state that is not terminal, and brings a free key. */
  lemma MovesExactly(ls: seq<Label>, ctx: Context, req: Request)
    requires Valid(INIT, ls)
    ensures var db := Run(INIT, ls).db;
            Call(db, ctx, req).1.Moved? <==>
              && "mutation:execute" in ctx.scopes && req.wellNamed && req.revision >= 0
              && req.instance in db.instances
              && var i := db.instances[req.instance];
                 && i.tenant == ctx.tenant && i.name in db.machines
                 && db.machines[i.name].scopes.read in ctx.scopes && db.machines[i.name].scopes.transition in ctx.scopes
                 && i.state == req.state && i.revision == req.revision
                 && (req.state, req.target) in db.machines[i.name].edges
                 && (req.key.Some? ==> ClaimKey(ctx.tenant, i.name, req.key.value) !in db.claims)
  {
    InitInv();
    RunInv(INIT, ls);
    CallMoves(Run(INIT, ls).db, ctx, req);
  }

  lemma CallMoves(db: Db, ctx: Context, req: Request)
    requires InstancesOk(db) && ClaimsOk(db)
    ensures Call(db, ctx, req).1.Moved? <==>
              && "mutation:execute" in ctx.scopes && req.wellNamed && req.revision >= 0
              && req.instance in db.instances
              && var i := db.instances[req.instance];
                 && i.tenant == ctx.tenant && i.name in db.machines
                 && db.machines[i.name].scopes.read in ctx.scopes && db.machines[i.name].scopes.transition in ctx.scopes
                 && i.state == req.state && i.revision == req.revision
                 && (req.state, req.target) in db.machines[i.name].edges
                 && (req.key.Some? ==> ClaimKey(ctx.tenant, i.name, req.key.value) !in db.claims)
  {
    if req.instance in db.instances {
      var i := db.instances[req.instance];
      ReplayOk(db, ctx, req, i.name);
      assert i.name in db.machines ==> Graph(db.machines[i.name]);
    }
  }

  // ------------------------------------------------------------------ keys

  function ClaimOf(a: Answer): Option<ClaimKey> {
    if a.Moved? || a.Replayed? then a.claim else None
  }

  /** One key of one machine version moves an instance at most once, exactly once if it is
      claimed, and everybody who was answered under it was told that one move. */
  lemma KeyMovesOnce(ls: seq<Label>, ck: ClaimKey)
    requires Valid(INIT, ls)
    ensures var s := Run(INIT, ls);
            && MovesUnder(s.answers, ck) == (if ck in s.db.claims then 1 else 0)
            && forall a :: a in s.answers && ClaimOf(a) == Some(ck) ==>
                 ck in s.db.claims && a.result == s.db.claims[ck].result && a.result in s.db.history
                 && a.request.instance == a.result.instance && a.request.revision == a.result.fromRevision
  {
    var s := Run(INIT, ls);
    InitInv();
    RunInv(INIT, ls);
    forall a | a in s.answers && ClaimOf(a) == Some(ck)
      ensures ck in s.db.claims && a.result == s.db.claims[ck].result && a.result in s.db.history
      ensures a.request.instance == a.result.instance && a.request.revision == a.result.fromRevision
    {
      assert Truthful(s.db, a);
      assert Verified(s.db, ck) && Describes(ck, s.db.claims[ck]);
    }
  }

  /** How the function answers wherever it looks at a taken key. */
  ghost predicate AlwaysTold(db: Db, ctx: Context, req: Request, name: Name, told: Answer) {
    && (forall state, revision :: Check(db, Resolved(ctx, req, name, state, revision)) == Finish(told))
    && (forall collided :: Again(db, Missed(ctx, req, name, collided)) == told)
  }

  lemma CallTold(db: Db, ctx: Context, req: Request, name: Name, told: Answer)
    requires AlwaysTold(db, ctx, req, name, told) && req.instance in db.instances && db.instances[req.instance].name == name
    ensures Begin(db, ctx, req).Go? ==> Call(db, ctx, req) == (db, told)
  {
  }

  /** Once a request has claimed its key, the same request replays the recorded move for ever:
      on its first look, after a lost race, and as a whole call, which then changes nothing. */
  lemma RetryReplays(ls: seq<Label>, more: seq<Label>, ctx: Context, req: Request, name: Name)
    requires Valid(INIT, ls) && Valid(Run(INIT, ls), more) && req.key.Some?
    requires KeyOf(ctx, req, name).value in Run(INIT, ls).db.claims
    requires Run(INIT, ls).db.claims[KeyOf(ctx, req, name).value].fingerprint == MaterialOf(ctx, req, name)
    ensures var db := Run(Run(INIT, ls), more).db;
            var told := Replayed(req, KeyOf(ctx, req, name), Run(INIT, ls).db.claims[KeyOf(ctx, req, name).value].result);
            AlwaysTold(db, ctx, req, name, told) && (Begin(db, ctx, req).Go? ==> Call(db, ctx, req) == (db, told))
  {
    var s, ck := Run(INIT, ls), KeyOf(ctx, req, name).value;
    InitInv();
    RunInv(INIT, ls);
    RunInv(s, more);
    ClaimTold(Run(s, more).db, ctx, req, name);
  }

  lemma ClaimTold(db: Db, ctx: Context, req: Request, name: Name)
    requires ClaimsOk(db) && req.key.Some? && KeyOf(ctx, req, name).value in db.claims
    requires db.claims[KeyOf(ctx, req, name).value].fingerprint == MaterialOf(ctx, req, name)
    ensures var told := Replayed(req, KeyOf(ctx, req, name), db.claims[KeyOf(ctx, req, name).value].result);
            AlwaysTold(db, ctx, req, name, told) && (Begin(db, ctx, req).Go? ==> Call(db, ctx, req) == (db, told))
  {
    var ck := KeyOf(ctx, req, name).value;
    ReplayOk(db, ctx, req, name);
    Behind(db, ck);
    CallTold(db, ctx, req, name, Replayed(req, Some(ck), db.claims[ck].result));
  }

  /** Behind a claim stands the instance its fingerprint names, of the machine it names. */
  lemma Behind(db: Db, ck: ClaimKey)
    requires ClaimsOk(db) && ck in db.claims
    ensures var i := db.claims[ck].fingerprint.instance; i in db.instances && db.instances[i].name == ck.name
  {
  }

  /** Another request under a taken key is refused wherever it looks, and moves nothing. */
  lemma ReuseRefused(ls: seq<Label>, ctx: Context, req: Request, name: Name)
    requires Valid(INIT, ls) && req.key.Some?
    requires KeyOf(ctx, req, name).value in Run(INIT, ls).db.claims
    requires Run(INIT, ls).db.claims[KeyOf(ctx, req, name).value].fingerprint != MaterialOf(ctx, req, name)
    ensures var db := Run(INIT, ls).db;
            && (forall state, revision :: Check(db, Resolved(ctx, req, name, state, revision)) == Finish(Refused(KeyReused)))
            && (forall collided :: Again(db, Missed(ctx, req, name, collided)) == Refused(KeyReused))
            && (forall p: Phase :: p.Ready? && p.ctx == ctx && p.req == req && p.name == name && req.revision >= 0 ==> Swap(db, p).0 == db)
  {
    InitInv();
    RunInv(INIT, ls);
    ReplayOk(Run(INIT, ls).db, ctx, req, name);
  }

  // ------------------------------------------------------------------ conservation

  ghost predicate OneToOne(db: Db) {
    && (forall ck :: ck in db.claims ==>
          db.claims[ck].record in db.provenance && db.provenance[db.claims[ck].record].move == db.claims[ck].result.id)
    && (forall r :: r in db.provenance ==> exists ck :: ck in db.claims && db.claims[ck].record == r)
    && (forall a, b :: a in db.claims && b in db.claims && a != b ==>
          db.claims[a].record != db.claims[b].record && db.claims[a].result.id != db.claims[b].result.id
          && db.provenance[db.claims[a].record].event != db.provenance[db.claims[b].record].event)
  }

  /** A history row for each revision, an audit event and an outbox intent for each and for the
      creation, and claims one to one with provenance, moves and events. */
  lemma Conservation(ls: seq<Label>, i: nat)
    requires Valid(INIT, ls)
    ensures var db := Run(INIT, ls).db;
            && (i in db.instances ==>
                  && |Rows(db.history, i)| == db.instances[i].revision
                  && Audits(db.audits, i) == db.instances[i].revision + 1
                  && Events(db.events, i) == db.instances[i].revision + 1)
            && (i !in db.instances ==> Rows(db.history, i) == [] && Audits(db.audits, i) == Events(db.events, i) == 0)
            && OneToOne(db)
  {
    var db := Run(INIT, ls).db;
    InitInv();
    RunInv(INIT, ls);
    assert Counted(db, i);
    ClaimsOneToOne(db);
  }

  lemma ClaimsOneToOne(db: Db)
    requires ClaimsOk(db)
    ensures OneToOne(db)
  {
  }

  /** No call is ever told that its key has no verifiable move behind it, or that the claim it
      collided with is not there. */
  lemma NeverUnverifiable(ls: seq<Label>, a: Answer)
    requires Valid(INIT, ls) && a in Run(INIT, ls).answers
    ensures a != Refused(Unverifiable) && a != Refused(Unexplained)
  {
    InitInv();
    RunInv(INIT, ls);
    assert Truthful(Run(INIT, ls).db, a);
  }
}
