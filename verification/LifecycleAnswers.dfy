/** Who may create and move instances, and what everybody else is told, over the columns themselves. */
module LifecycleAnswers {
  import opened Base
  import opened LifecycleDefinition
  import opened LifecycleDb
  import opened LifecycleKernel
  import opened LifecycleTheorems

  /** An instance is created exactly for a registered machine and a context with the scope that
      machine asks for and the right to execute; anybody else changes nothing. */
  lemma CreatesExactly(db: Db, ctx: Context, name: Name)
    ensures Create(db, ctx, name).1.Created? <==>
              name in db.machines && db.machines[name].scopes.create in ctx.scopes && "mutation:execute" in ctx.scopes
    ensures !Create(db, ctx, name).1.Created? ==>
              Create(db, ctx, name) == (db, if name in db.machines then Refused(Denied) else Refused(Undefined))
  {
  }

  /** It starts in the initial state at revision 0, with an audit event and an unlinked intent. */
  lemma CreatedRows(db: Db, ctx: Context, name: Name)
    requires Create(db, ctx, name).1.Created?
    ensures var (after, a) := Create(db, ctx, name);
            && a.instance == db.nextId && db.nextId < after.nextId
            && after.instances == db.instances[a.instance := Instance(ctx.tenant, name, db.machines[name].initial, 0)]
            && after.audits == db.audits + [Audit(ctx.tenant, a.instance, name, None)]
            && (exists e :: after.events == db.events + [e] && e.tenant == ctx.tenant && e.instance == a.instance
                            && e.name == name && e.link == None && db.nextId <= e.id < after.nextId)
            && after.machines == db.machines && after.history == db.history && after.claims == db.claims
            && after.provenance == db.provenance
  {
    var after := Create(db, ctx, name).0;
    assert after.events[|db.events|].link == None;
  }

  /** The context can see the instance: its tenant's, of a machine whose read scope it has. */
  predicate Sees(db: Db, ctx: Context, i: nat) {
    && i in db.instances && db.instances[i].tenant == ctx.tenant && db.instances[i].name in db.machines
    && db.machines[db.instances[i].name].scopes.read in ctx.scopes
  }

  /** Two requests are one under a key when they name the same move, reason included. */
  predicate SameRequest(f: Material, ctx: Context, i: Instance, req: Request) {
    && f.tenant == ctx.tenant && f.name == i.name && f.instance == req.instance && f.state == req.state
    && f.revision == req.revision && f.target == req.target && f.note == req.note
  }

  /** What one uninterrupted call is told, check by check. */
  predicate Told(db: Db, ctx: Context, req: Request, a: Answer) {
    if "mutation:execute" !in ctx.scopes then a == Refused(Denied)
    else if req.revision < 0 || !req.wellNamed then a == Refused(Invalid)
    else if !Sees(db, ctx, req.instance) then a == Refused(Conflict)
    else
      var i := db.instances[req.instance];
      var m := db.machines[i.name];
      if m.scopes.transition !in ctx.scopes then a == Refused(Denied)
      else if req.key.Some? && ClaimKey(ctx.tenant, i.name, req.key.value) in db.claims then
        var claim := db.claims[ClaimKey(ctx.tenant, i.name, req.key.value)];
        if SameRequest(claim.fingerprint, ctx, i, req) then a.Replayed? && a.request == req && a.result == claim.result
        else a == Refused(KeyReused)
      else if i.state != req.state || i.revision != req.revision then a == Refused(Conflict)
      else if i.state in m.terminal || (i.state, req.target) !in m.edges then a == Refused(NotAllowed)
      else a.Moved? && a.request == req
  }

  /** In every reachable state a call is told exactly that. */
  lemma CallTellsExactly(ls: seq<Label>, ctx: Context, req: Request)
    requires Valid(INIT, ls)
    ensures Told(Run(INIT, ls).db, ctx, req, Call(Run(INIT, ls).db, ctx, req).1)
  {
    InitInv();
    RunInv(INIT, ls);
    CallTells(Run(INIT, ls).db, ctx, req);
  }

  lemma CallTells(db: Db, ctx: Context, req: Request)
    requires InstancesOk(db) && ClaimsOk(db)
    ensures Told(db, ctx, req, Call(db, ctx, req).1)
  {
    if Sees(db, ctx, req.instance) {
      ReplayOk(db, ctx, req, db.instances[req.instance].name);
      assert Graph(db.machines[db.instances[req.instance].name]);
    }
  }

  /** A call that does not move changes nothing; one that does moves its one instance one revision
      on and writes one history row, one audit event, one intent and, under a key, one claim with
      its provenance, each of them about that move. */
  lemma CallWrites(db: Db, ctx: Context, req: Request)
    ensures var (after, a) := Call(db, ctx, req);
            if !a.Moved? then after == db
            else
              var i := db.instances[req.instance];
              && a.result.tenant == ctx.tenant && a.result.instance == req.instance && a.result.name == i.name
              && a.result.source == i.state == req.state && a.result.target == req.target
              && a.result.fromRevision == i.revision == req.revision && a.result.toRevision == i.revision + 1
              && after.instances == db.instances[req.instance := Instance(i.tenant, i.name, req.target, i.revision + 1)]
              && after.machines == db.machines && after.history == db.history + [a.result]
              && after.audits == db.audits + [Audit(ctx.tenant, req.instance, i.name, Some(a.result.id))]
  {
  }

  /** The intent is linked to the claim, and the provenance ties the two to the move. */
  lemma CallLinks(db: Db, ctx: Context, req: Request) returns (record: nat, event: nat)
    requires Call(db, ctx, req).1.Moved?
    ensures var (after, a) := Call(db, ctx, req);
            var name := db.instances[req.instance].name;
            && db.nextId <= a.result.id < record < event < after.nextId
            && after.events == db.events + [Event(event, ctx.tenant, req.instance, name, if req.key.Some? then Some(record) else None)]
            && if req.key.None? then after.claims == db.claims && after.provenance == db.provenance
               else
                 && after.claims == db.claims[ClaimKey(ctx.tenant, name, req.key.value) :=
                      Claim(record, Material(ctx.tenant, name, req.instance, req.state, req.revision, req.target, req.note), a.result)]
                 && after.provenance == db.provenance[record :=
                      Provenance(ctx.tenant, a.result.id, req.instance, name, req.revision, req.revision + 1, event)]
  {
    record, event := db.nextId + 1, db.nextId + 2;
  }

  /** What a call that has passed its checks comes to: whoever has taken its key meanwhile answers
      for it; otherwise it moves the instance if the row is still as described, and is refused. */
  predicate Ends(s: Sys, c: nat)
    requires c in s.calls && s.calls[c].Ready? && s.calls[c].req.revision >= 0
  {
    var ctx, req, t := s.calls[c].ctx, s.calls[c].req, Apply(s, LSwap(c));
    req.instance in s.db.instances &&
    var i := s.db.instances[req.instance];
    if req.key.Some? && ClaimKey(ctx.tenant, i.name, req.key.value) in s.db.claims then
      var claim := s.db.claims[ClaimKey(ctx.tenant, i.name, req.key.value)];
      t.db == s.db && Enabled(t, LAgain(c))
      && Apply(t, LAgain(c)) == Sys(s.db, s.calls - {c}, s.answers + [
           if SameRequest(claim.fingerprint, ctx, i, req) then Replayed(req, KeyOf(ctx, req, i.name), claim.result)
           else Refused(KeyReused)])
    else if i.state == req.state && i.revision == req.revision then
      c !in t.calls && |t.answers| == |s.answers| + 1 && t.answers[|s.answers|].Moved? && t.db != s.db
    else t.db == s.db && Enabled(t, LAgain(c))
         && Apply(t, LAgain(c)) == Sys(s.db, s.calls - {c}, s.answers + [Refused(Conflict)])
  }

  lemma EndsExactly(ls: seq<Label>, c: nat)
    requires Valid(INIT, ls) && c in Run(INIT, ls).calls && Run(INIT, ls).calls[c].Ready?
    ensures Run(INIT, ls).calls[c].req.revision >= 0 && Ends(Run(INIT, ls), c)
  {
    var s := Run(INIT, ls);
    InitInv();
    RunInv(INIT, ls);
    assert PhaseOk(s.db, s.calls[c]);
    SwapEnds(s, c);
  }

  lemma SwapEnds(s: Sys, c: nat)
    requires ClaimsOk(s.db) && c in s.calls && s.calls[c].Ready? && PhaseOk(s.db, s.calls[c])
    ensures Ends(s, c)
  {
    var p := s.calls[c];
    SwapIs(s.db, p);
    match Swap(s.db, p).1
    case Go(q) =>
      ReplayOk(s.db, p.ctx, p.req, p.name);
      AgainEnds(s, c, q);
    case Finish(a) =>
      assert Apply(s, LSwap(c)) == Sys(Swap(s.db, p).0, s.calls - {c}, s.answers + [a]);
  }

  /** The swap itself: a row that is not as described, or a key that is taken, is a miss. */
  lemma SwapIs(db: Db, p: Phase)
    requires p.Ready? && PhaseOk(db, p)
    ensures var (after, next) := Swap(db, p);
            var i := db.instances[p.req.instance];
            if i.state != p.req.state || i.revision != p.req.revision then after == db && next == Go(Missed(p.ctx, p.req, p.name, false))
            else if KeyOf(p.ctx, p.req, p.name).Some? && KeyOf(p.ctx, p.req, p.name).value in db.claims then
              after == db && next == Go(Missed(p.ctx, p.req, p.name, true))
            else |after.history| == |db.history| + 1 && next.Finish? && next.answer.Moved?
  {
  }

  lemma AgainEnds(s: Sys, c: nat, q: Phase)
    requires c in s.calls && s.calls[c].Ready? && s.calls[c].req.revision >= 0 && q.Missed? && Swap(s.db, s.calls[c]) == (s.db, Go(q))
    ensures var t := Apply(s, LSwap(c));
            t.db == s.db && Enabled(t, LAgain(c)) && Apply(t, LAgain(c)) == Sys(s.db, s.calls - {c}, s.answers + [Again(s.db, q)])
  {
    var t := Apply(s, LSwap(c));
    assert t == Sys(s.db, s.calls[c := q], s.answers);
    assert t.calls - {c} == s.calls - {c};
  }

  // ------------------------------------------------------------------ a call alone

  lemma RunStep(s: Sys, ls: seq<Label>)
    requires ls != [] && Enabled(s, ls[0]) && Valid(Apply(s, ls[0]), ls[1..])
    ensures Valid(s, ls) && Run(s, ls) == Run(Apply(s, ls[0]), ls[1..])
  {
  }

  /** The statements of one call with nobody in between can all be run, and have the call's effect
      and its answer. */
  lemma CallRuns(s: Sys, c: nat, ctx: Context, req: Request) returns (ls: seq<Label>)
    requires c !in s.calls
    ensures Valid(s, ls)
    ensures var (after, a) := Call(s.db, ctx, req); Run(s, ls) == Sys(after, s.calls, s.answers + [a])
  {
    var begin := LBegin(c, ctx, req);
    var s1 := Apply(s, begin);
    var rest := [];
    if c in s1.calls {
      rest := FromCheck(s1, c, Begin(s.db, ctx, req).phase);
    }
    ls := [begin] + rest;
    assert ls[1..] == rest;
    assert s1.calls - {c} == s.calls;
    RunStep(s, ls);
  }

  lemma FromCheck(s: Sys, c: nat, p: Phase) returns (ls: seq<Label>)
    requires c in s.calls && s.calls[c] == p && p.Resolved? && p.req.revision >= 0
    ensures Valid(s, ls)
    ensures Run(s, ls) == match Check(s.db, p)
                          case Finish(a) => Sys(s.db, s.calls - {c}, s.answers + [a])
                          case Go(q) => AfterCheck(s, c, q)
  {
    var s1 := Apply(s, LCheck(c));
    var rest := [];
    if c in s1.calls {
      rest := FromGo(s1, c, Check(s.db, p).phase);
      assert s1.calls - {c} == s.calls - {c};
    }
    ls := [LCheck(c)] + rest;
    assert ls[1..] == rest;
    RunStep(s, ls);
  }

  function AfterCheck(s: Sys, c: nat, q: Phase): Sys
    requires q.Ready? || q.Missed?
    requires q.req.revision >= 0
  {
    if q.Missed? then Sys(s.db, s.calls - {c}, s.answers + [Again(s.db, q)])
    else match Swap(s.db, q)
         case (after, Finish(a)) => Sys(after, s.calls - {c}, s.answers + [a])
         case (after, Go(m)) => Sys(after, s.calls - {c}, s.answers + [Again(after, m)])
  }

  lemma FromGo(s: Sys, c: nat, q: Phase) returns (ls: seq<Label>)
    requires c in s.calls && s.calls[c] == q && (q.Ready? || q.Missed?) && q.req.revision >= 0
    ensures Valid(s, ls) && Run(s, ls) == AfterCheck(s, c, q)
  {
    if q.Missed? {
      ls := [LAgain(c)];
      RunStep(s, ls);
    } else {
      var s1 := Apply(s, LSwap(c));
      var rest := [];
      if c in s1.calls {
        rest := [LAgain(c)];
        RunStep(s1, rest);
        assert s1.calls - {c} == s.calls - {c};
      }
      ls := [LSwap(c)] + rest;
      assert ls[1..] == rest;
      RunStep(s, ls);
    }
  }
}
