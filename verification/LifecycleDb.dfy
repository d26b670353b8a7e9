/** The lifecycle tables and the statements of transition_lifecycle_instance and
    create_lifecycle_instance, first as functions and then as one call on mutable tables. */
module LifecycleDb {
  import opened Base
  import opened LifecycleDefinition

  datatype Context = Context(tenant: string, scopes: set<string>)

  /** `wellNamed` stands for the shape and format checks of the text arguments. */
  datatype Request = Request(instance: nat, state: string, revision: int, target: string, note: string,
                             key: Option<string>, wellNamed: bool)

  datatype Instance = Instance(tenant: string, name: Name, state: string, revision: nat)

  datatype Move = Move(id: nat, tenant: string, instance: nat, name: Name, source: string, target: string,
                       fromRevision: nat, toRevision: nat)

  datatype Audit = Audit(tenant: string, instance: nat, name: Name, move: Option<nat>)
  datatype Event = Event(id: nat, tenant: string, instance: nat, name: Name, link: Option<nat>)

  /** The claim index: tenant, derived operation and key. */
  datatype ClaimKey = ClaimKey(tenant: string, name: Name, key: string)

  /** What the fingerprint is computed over; the hash is taken to be injective on it. */
  datatype Material = Material(tenant: string, name: Name, instance: nat, state: string, revision: int,
                               target: string, note: string)

  datatype Claim = Claim(record: nat, fingerprint: Material, result: Move)

  datatype Provenance = Provenance(tenant: string, move: nat, instance: nat, name: Name,
                                   fromRevision: nat, toRevision: nat, event: nat)

  datatype Db = Db(machines: map<Name, Machine>, instances: map<nat, Instance>, history: seq<Move>,
                   audits: seq<Audit>, events: seq<Event>, claims: map<ClaimKey, Claim>,
                   provenance: map<nat, Provenance>, nextId: nat)

  datatype Refusal = Denied | Invalid | Conflict | NotAllowed | KeyReused | Unverifiable | Unexplained | Undefined

  datatype Answer =
    | Created(instance: nat)
    | Moved(request: Request, claim: Option<ClaimKey>, result: Move)
    | Replayed(request: Request, claim: Option<ClaimKey>, result: Move)
    | Refused(refusal: Refusal)

  /** Between two statements: the instance resolved, the move decided on, or nothing updated
      (`collided`: because the claim index refused and the subtransaction was rolled back). */
  datatype Phase =
    | Resolved(ctx: Context, req: Request, name: Name, state: string, revision: nat)
    | Ready(ctx: Context, req: Request, name: Name)
    | Missed(ctx: Context, req: Request, name: Name, collided: bool)

  datatype Next = Finish(answer: Answer) | Go(phase: Phase)

  // ------------------------------------------------------------------ derived values

  function KeyOf(ctx: Context, req: Request, name: Name): Option<ClaimKey> {
    if req.key.Some? then Some(ClaimKey(ctx.tenant, name, req.key.value)) else None
  }

  function MaterialOf(ctx: Context, req: Request, name: Name): Material {
    Material(ctx.tenant, name, req.instance, req.state, req.revision, req.target, req.note)
  }

  /** Row security: the tenant's own instances of machines whose read scope the context has. */
  function Visible(db: Db, ctx: Context, id: nat): Option<Instance> {
    if id in db.instances && db.instances[id].tenant == ctx.tenant && db.instances[id].name in db.machines
       && db.machines[db.instances[id].name].scopes.read in ctx.scopes
    then Some(db.instances[id]) else None
  }

  // ------------------------------------------------------------------ replaying a claim

  /** The chain of joins behind a replay: claim, provenance, transition, instance and event. */
  predicate Verified(db: Db, ck: ClaimKey)
    requires ck in db.claims
  {
    var claim := db.claims[ck];
    claim.record in db.provenance &&
    var p := db.provenance[claim.record];
    && p.tenant == ck.tenant && p.name == ck.name
    && (exists t :: t in db.history && t.id == p.move && t.tenant == p.tenant && t.instance == p.instance && t.name == p.name
          && t.fromRevision == p.fromRevision && t.toRevision == p.toRevision && claim.result == t)
    && (exists e :: e in db.events && e.id == p.event && e.tenant == p.tenant && e.name == p.name && e.link == Some(claim.record))
    && p.instance in db.instances
    && db.instances[p.instance].tenant == p.tenant && db.instances[p.instance].name == p.name
    && db.instances[p.instance].revision >= p.toRevision
  }

  /** lifecycle_replay_claim; None when the key is free. */
  function Replay(db: Db, ctx: Context, req: Request, name: Name): Option<Answer> {
    var ck := KeyOf(ctx, req, name);
    if ck.None? || ck.value !in db.claims then None
    else if !Verified(db, ck.value) then Some(Refused(Unverifiable))
    else if db.claims[ck.value].fingerprint != MaterialOf(ctx, req, name) then Some(Refused(KeyReused))
    else Some(Replayed(req, ck, db.claims[ck.value].result))
  }

  // ------------------------------------------------------------------ the statements

  /** Authorise, validate, and resolve the instance inside the tenant. */
  function Begin(db: Db, ctx: Context, req: Request): Next {
    if "mutation:execute" !in ctx.scopes then Finish(Refused(Denied))
    else if req.revision < 0 || !req.wellNamed then Finish(Refused(Invalid))
    else match Visible(db, ctx, req.instance)
         case None => Finish(Refused(Conflict))
         case Some(i) =>
           if db.machines[i.name].scopes.transition !in ctx.scopes then Finish(Refused(Denied))
           else Go(Resolved(ctx, req, i.name, i.state, i.revision))
  }

  /** Replay a taken key; otherwise compare the expectation to the row resolved, and only then
      ask the graph. */
  function Check(db: Db, p: Phase): Next
    requires p.Resolved?
  {
    var replay := Replay(db, p.ctx, p.req, p.name);
    if replay.Some? then Finish(replay.value)
    else if p.state != p.req.state || p.revision != p.req.revision then Go(Missed(p.ctx, p.req, p.name, false))
    else if p.name !in db.machines then Finish(Refused(Undefined))
    else if p.state in db.machines[p.name].terminal then Finish(Refused(NotAllowed))
    else if (p.state, p.req.target) !in db.machines[p.name].edges then Finish(Refused(NotAllowed))
    else Go(Ready(p.ctx, p.req, p.name))
  }

  /** The predicate of the one conditional UPDATE. */
  predicate Matches(db: Db, ctx: Context, req: Request, name: Name) {
    req.instance in db.instances &&
    var i := db.instances[req.instance];
    i.tenant == ctx.tenant && i.name == name && i.state == req.state && i.revision == req.revision
  }

  /** The BEFORE UPDATE trigger on the instance. */
  predicate TriggerAccepts(db: Db, before: Instance, after: Instance) {
    && after.tenant == before.tenant && after.name == before.name && after.revision == before.revision + 1
    && before.name in db.machines && before.state !in db.machines[before.name].terminal
    && (before.state, after.state) in db.machines[before.name].edges
  }

  function MoveRow(db: Db, ctx: Context, req: Request, name: Name): Move
    requires req.revision >= 0
  {
    Move(db.nextId, ctx.tenant, req.instance, name, req.state, req.target, req.revision, req.revision + 1)
  }

  /** Everything an accepted move writes. */
  function Written(db: Db, ctx: Context, req: Request, name: Name): Db
    requires req.instance in db.instances && req.revision >= 0
  {
    var move := MoveRow(db, ctx, req, name);
    var record, event := db.nextId + 1, db.nextId + 2;
    var ck := KeyOf(ctx, req, name);
    Db(db.machines,
       db.instances[req.instance := db.instances[req.instance].(state := req.target, revision := req.revision + 1)],
       db.history + [move],
       db.audits + [Audit(ctx.tenant, req.instance, name, Some(move.id))],
       db.events + [Event(event, ctx.tenant, req.instance, name, if ck.Some? then Some(record) else None)],
       if ck.Some? then db.claims[ck.value := Claim(record, MaterialOf(ctx, req, name), move)] else db.claims,
       if ck.Some? then
         db.provenance[record := Provenance(ctx.tenant, move.id, req.instance, name, move.fromRevision, move.toRevision, event)]
       else db.provenance,
       db.nextId + 3)
  }

  /** The compare-and-swap and what follows it. A key that is taken by now rolls all of it back. */
  function Swap(db: Db, p: Phase): (Db, Next)
    requires p.Ready? && p.req.revision >= 0
  {
    var ck := KeyOf(p.ctx, p.req, p.name);
    if !Matches(db, p.ctx, p.req, p.name) then (db, Go(Missed(p.ctx, p.req, p.name, false)))
    else
      var i := db.instances[p.req.instance];
      if !TriggerAccepts(db, i, i.(state := p.req.target, revision := i.revision + 1)) then (db, Finish(Refused(NotAllowed)))
      else if ck.Some? && ck.value in db.claims then (db, Go(Missed(p.ctx, p.req, p.name, true)))
      else (Written(db, p.ctx, p.req, p.name), Finish(Moved(p.req, ck, MoveRow(db, p.ctx, p.req, p.name))))
  }

  /** Nothing was updated: replay the winner's claim, or it is the one conflict. */
  function Again(db: Db, p: Phase): Answer
    requires p.Missed?
  {
    match Replay(db, p.ctx, p.req, p.name)
    case Some(a) => a
    case None => Refused(if p.collided then Unexplained else Conflict)
  }

  function Create(db: Db, ctx: Context, name: Name): (Db, Answer) {
    if name !in db.machines then (db, Refused(Undefined))
    else if db.machines[name].scopes.create !in ctx.scopes || "mutation:execute" !in ctx.scopes then (db, Refused(Denied))
    else
      var id := db.nextId;
      (Db(db.machines, db.instances[id := Instance(ctx.tenant, name, db.machines[name].initial, 0)], db.history,
          db.audits + [Audit(ctx.tenant, id, name, None)], db.events + [Event(id + 1, ctx.tenant, id, name, None)],
          db.claims, db.provenance, id + 2), Created(id))
  }

  /** One call with nobody in between. */
  function Call(db: Db, ctx: Context, req: Request): (Db, Answer) {
    match Begin(db, ctx, req)
    case Finish(a) => (db, a)
    case Go(p) =>
      match Check(db, p)
      case Finish(a) => (db, a)
      case Go(q) =>
        if q.Missed? then (db, Again(db, q))
        else
          match Swap(db, q)
          case (after, Finish(a)) => (after, a)
          case (after, Go(m)) => (after, Again(after, m))
  }

  // ------------------------------------------------------------------ the tables

  class Tables {
    var machines: map<Name, Machine>
    var instances: map<nat, Instance>
    var history: seq<Move>
    var audits: seq<Audit>
    var events: seq<Event>
    var claims: map<ClaimKey, Claim>
    var provenance: map<nat, Provenance>
    var nextId: nat

    constructor (machines: map<Name, Machine>)
      ensures View() == Db(machines, map[], [], [], [], map[], map[], 0)
    {
      this.machines, instances, claims, provenance := machines, map[], map[], map[];
      history, audits, events, nextId := [], [], [], 0;
    }

    function View(): Db
      reads this
    {
      Db(machines, instances, history, audits, events, claims, provenance, nextId)
    }

    method CreateInstance(ctx: Context, name: Name) returns (answer: Answer)
      modifies this
      ensures (View(), answer) == Create(old(View()), ctx, name)
    {
      if name !in machines {
        return Refused(Undefined);
      }
      if machines[name].scopes.create !in ctx.scopes || "mutation:execute" !in ctx.scopes {
        return Refused(Denied);
      }
      var id := nextId;
      instances := instances[id := Instance(ctx.tenant, name, machines[name].initial, 0)];
      audits := audits + [Audit(ctx.tenant, id, name, None)];
      events := events + [Event(id + 1, ctx.tenant, id, name, None)];
      nextId := id + 2;
      answer := Created(id);
    }

    /** The conditional UPDATE and the rows that go with it, in the order they are written. */
    method Write(ctx: Context, req: Request, name: Name) returns (move: Move)
      requires Matches(View(), ctx, req, name) && req.revision >= 0
      modifies this
      ensures View() == Written(old(View()), ctx, req, name) && move == MoveRow(old(View()), ctx, req, name)
    {
      var id := nextId;
      instances := instances[req.instance := instances[req.instance].(state := req.target, revision := req.revision + 1)];
      move := Move(id, ctx.tenant, req.instance, name, req.state, req.target, req.revision, req.revision + 1);
      history := history + [move];
      audits := audits + [Audit(ctx.tenant, req.instance, name, Some(id))];
      if req.key.Some? {
        claims := claims[ClaimKey(ctx.tenant, name, req.key.value) := Claim(id + 1, MaterialOf(ctx, req, name), move)];
      }
      events := events + [Event(id + 2, ctx.tenant, req.instance, name, if req.key.Some? then Some(id + 1) else None)];
      if req.key.Some? {
        provenance := provenance[id + 1 := Provenance(ctx.tenant, id, req.instance, name, req.revision, req.revision + 1, id + 2)];
      }
      nextId := id + 3;
    }

    method TransitionInstance(ctx: Context, req: Request) returns (answer: Answer)
      modifies this
      ensures (View(), answer) == Call(old(View()), ctx, req)
    {
      if "mutation:execute" !in ctx.scopes {
        return Refused(Denied);
      }
      if req.revision < 0 || !req.wellNamed {
        return Refused(Invalid);
      }
      var found := Visible(View(), ctx, req.instance);
      if found.None? {
        return Refused(Conflict);
      }
      var i := found.value;
      if machines[i.name].scopes.transition !in ctx.scopes {
        return Refused(Denied);
      }
      var replay := Replay(View(), ctx, req, i.name);
      if replay.Some? {
        return replay.value;
      }
      if i.state != req.state || i.revision != req.revision {
        return Refused(Conflict);
      }
      if i.state in machines[i.name].terminal || (i.state, req.target) !in machines[i.name].edges {
        return Refused(NotAllowed);
      }
      var move := Write(ctx, req, i.name);
      answer := Moved(req, KeyOf(ctx, req, i.name), move);
    }
  }
}
