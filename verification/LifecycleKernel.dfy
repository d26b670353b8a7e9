/** Any number of lifecycle calls, interleaved between their statements: what every step keeps. */
module LifecycleKernel {
  import opened Base
  import opened LifecycleDefinition
  import opened LifecycleDb

  datatype Sys = Sys(db: Db, calls: map<nat, Phase>, answers: seq<Answer>)

  datatype Label =
    | LRegister(name: Name, machine: Machine)
    | LCreate(ctx: Context, name: Name)
    | LBegin(c: nat, ctx: Context, req: Request)
    | LCheck(c: nat)
    | LSwap(c: nat)
    | LAgain(c: nat)
    | LAbort(c: nat)

  /** The graph rules validation has checked of anything that is registered. */
  predicate Graph(m: Machine) {
    m.initial in m.states && forall e :: e in m.edges ==> e.0 in m.states && e.1 in m.states && e.0 !in m.terminal
  }

  predicate Enabled(s: Sys, l: Label) {
    match l
    case LRegister(name, m) => name !in s.db.machines && Graph(m)
    case LCreate(_, _) => true
    case LBegin(c, _, _) => c !in s.calls
    case LCheck(c) => c in s.calls && s.calls[c].Resolved?
    case LSwap(c) => c in s.calls && s.calls[c].Ready? && s.calls[c].req.revision >= 0
    case LAgain(c) => c in s.calls && s.calls[c].Missed?
    case LAbort(c) => c in s.calls
  }

  function Proceed(s: Sys, c: nat, db: Db, next: Next): Sys {
    match next
    case Finish(a) => Sys(db, s.calls - {c}, s.answers + [a])
    case Go(p) => Sys(db, s.calls[c := p], s.answers)
  }

  function Apply(s: Sys, l: Label): Sys
    requires Enabled(s, l)
  {
    match l
    case LRegister(name, m) => s.(db := s.db.(machines := s.db.machines[name := m]))
    case LCreate(ctx, name) => var (db, a) := Create(s.db, ctx, name); Sys(db, s.calls, s.answers + [a])
    case LBegin(c, ctx, req) => Proceed(s, c, s.db, Begin(s.db, ctx, req))
    case LCheck(c) => Proceed(s, c, s.db, Check(s.db, s.calls[c]))
    case LSwap(c) => var (db, next) := Swap(s.db, s.calls[c]); Proceed(s, c, db, next)
    case LAgain(c) => Proceed(s, c, s.db, Finish(Again(s.db, s.calls[c])))
    case LAbort(c) => s.(calls := s.calls - {c})
  }

  const INIT := Sys(Db(map[], map[], [], [], [], map[], map[], 0), map[], [])

  predicate Valid(s: Sys, ls: seq<Label>)
    decreases |ls|
  {
    ls == [] || (Enabled(s, ls[0]) && Valid(Apply(s, ls[0]), ls[1..]))
  }

  function Run(s: Sys, ls: seq<Label>): Sys
    requires Valid(s, ls)
    decreases |ls|
  {
    if ls == [] then s else Run(Apply(s, ls[0]), ls[1..])
  }

  // ------------------------------------------------------------------ an instance's rows

  function Rows(history: seq<Move>, i: nat): seq<Move> {
    if history == [] then []
    else
      var m := history[|history| - 1];
      Rows(history[..|history| - 1], i) + (if m.instance == i then [m] else [])
  }

  function Audits(audits: seq<Audit>, i: nat): nat {
    if audits == [] then 0
    else Audits(audits[..|audits| - 1], i) + (if audits[|audits| - 1].instance == i then 1 else 0)
  }

  function Events(events: seq<Event>, i: nat): nat {
    if events == [] then 0
    else Events(events[..|events| - 1], i) + (if events[|events| - 1].instance == i then 1 else 0)
  }

  lemma RowsSnoc(history: seq<Move>, m: Move, i: nat)
    ensures Rows(history + [m], i) == if m.instance == i then Rows(history, i) + [m] else Rows(history, i)
  {
  }

  lemma AuditsSnoc(audits: seq<Audit>, a: Audit, i: nat)
    ensures Audits(audits + [a], i) == Audits(audits, i) + if a.instance == i then 1 else 0
  {
  }

  lemma EventsSnoc(events: seq<Event>, e: Event, i: nat)
    ensures Events(events + [e], i) == Events(events, i) + if e.instance == i then 1 else 0
  {
  }

  /** Where the rows lead, if they are revisions 1, 2, … along edges of the machine. */
  function Path(m: Machine, rows: seq<Move>): Option<string> {
    if rows == [] then Some(m.initial)
    else
      var last := rows[|rows| - 1];
      if Path(m, rows[..|rows| - 1]) == Some(last.source) && last.fromRevision == |rows| - 1 && last.toRevision == |rows|
         && (last.source, last.target) in m.edges && last.source !in m.terminal
      then Some(last.target) else None
  }

  lemma PathSnoc(m: Machine, rows: seq<Move>, row: Move)
    requires Path(m, rows) == Some(row.source) && row.fromRevision == |rows| && row.toRevision == |rows| + 1
    requires (row.source, row.target) in m.edges && row.source !in m.terminal
    ensures Path(m, rows + [row]) == Some(row.target)
  {
  }

  // ------------------------------------------------------------------ the invariant

  function Rev(db: Db, i: nat): nat {
    if i in db.instances then db.instances[i].revision else 0
  }

  function Born(db: Db, i: nat): nat {
    if i in db.instances then 1 else 0
  }

  /** One audit event and one outbox intent for the creation and for each revision. */
  ghost predicate Counted(db: Db, i: nat) {
    && |Rows(db.history, i)| == Rev(db, i)
    && Audits(db.audits, i) == Rev(db, i) + Born(db, i)
    && Events(db.events, i) == Rev(db, i) + Born(db, i)
  }

  ghost predicate Placed(db: Db, i: nat)
    requires i in db.instances
  {
    var inst := db.instances[i];
    inst.name in db.machines && Path(db.machines[inst.name], Rows(db.history, i)) == Some(inst.state)
  }

  ghost predicate InstancesOk(db: Db) {
    && (forall i: nat :: Counted(db, i))
    && (forall i :: i in db.instances ==> i < db.nextId && Placed(db, i))
    && (forall n :: n in db.machines ==> Graph(db.machines[n]))
  }

  predicate Describes(ck: ClaimKey, c: Claim) {
    && c.fingerprint.tenant == ck.tenant && c.fingerprint.name == ck.name
    && c.fingerprint.instance == c.result.instance && c.fingerprint.state == c.result.source
    && c.fingerprint.revision == c.result.fromRevision && c.fingerprint.target == c.result.target
  }

  /** Every claim has its verifiable provenance and its own record. */
  ghost predicate ClaimRows(db: Db) {
    && (forall ck :: ck in db.claims ==> db.claims[ck].record < db.nextId && Verified(db, ck) && Describes(ck, db.claims[ck]))
    && (forall a, b :: a in db.claims && b in db.claims && a != b ==> db.claims[a].record != db.claims[b].record)
  }

  ghost predicate Claimed(db: Db, record: nat) {
    exists ck :: ck in db.claims && db.claims[ck].record == record
  }

  /** Every provenance row has its claim, and a move and an event of its own. */
  ghost predicate Links(db: Db) {
    && (forall r :: r in db.provenance ==>
          db.provenance[r].move < db.nextId && db.provenance[r].event < db.nextId && Claimed(db, r))
    && (forall a, b :: a in db.provenance && b in db.provenance && a != b ==>
          db.provenance[a].move != db.provenance[b].move && db.provenance[a].event != db.provenance[b].event)
  }

  ghost predicate ClaimsOk(db: Db) {
    ClaimRows(db) && Links(db)
  }

  function MovesFrom(answers: seq<Answer>, i: nat, revision: nat): nat {
    if answers == [] then 0
    else
      var a := answers[|answers| - 1];
      MovesFrom(answers[..|answers| - 1], i, revision)
      + (if a.Moved? && a.request.instance == i && a.request.revision == revision then 1 else 0)
  }

  function MovesUnder(answers: seq<Answer>, ck: ClaimKey): nat {
    if answers == [] then 0
    else
      var a := answers[|answers| - 1];
      MovesUnder(answers[..|answers| - 1], ck) + (if a.Moved? && a.claim == Some(ck) then 1 else 0)
  }

  lemma MovesSnoc(answers: seq<Answer>, a: Answer, i: nat, revision: nat, ck: ClaimKey)
    ensures MovesFrom(answers + [a], i, revision)
            == MovesFrom(answers, i, revision) + if a.Moved? && a.request.instance == i && a.request.revision == revision then 1 else 0
    ensures MovesUnder(answers + [a], ck) == MovesUnder(answers, ck) + if a.Moved? && a.claim == Some(ck) then 1 else 0
  {
  }

  /** An answer is about a move that is recorded, and under a key it is the one recorded there. */
  ghost predicate Truthful(db: Db, a: Answer) {
    match a
    case Moved(req, claim, result) =>
      result in db.history && result.instance == req.instance && result.fromRevision == req.revision
      && (claim.Some? ==> claim.value in db.claims && db.claims[claim.value].result == result)
    case Replayed(req, claim, result) =>
      claim.Some? && claim.value in db.claims && db.claims[claim.value].result == result
      && Asks(db.claims[claim.value].fingerprint, req)
    case Created(i) => i in db.instances
    case Refused(r) => r != Unverifiable && r != Unexplained
  }

  predicate Asks(f: Material, req: Request) {
    f.instance == req.instance && f.state == req.state && f.revision == req.revision
    && f.target == req.target && f.note == req.note
  }

  ghost predicate AnswersOk(db: Db, answers: seq<Answer>) {
    && (forall a :: a in answers ==> Truthful(db, a))
    && (forall i: nat, r: nat :: MovesFrom(answers, i, r) == if r < Rev(db, i) then 1 else 0)
    && (forall ck :: MovesUnder(answers, ck) == if ck in db.claims then 1 else 0)
  }

  ghost predicate PhaseOk(db: Db, p: Phase) {
    && p.req.revision >= 0 && p.req.instance in db.instances
    && db.instances[p.req.instance].tenant == p.ctx.tenant && db.instances[p.req.instance].name == p.name
    && p.name in db.machines
    && match p
       case Resolved(_, _, _, state, revision) =>
         revision <= db.instances[p.req.instance].revision
         && (revision == db.instances[p.req.instance].revision ==> state == db.instances[p.req.instance].state)
       case Ready(_, req, _) =>
         (req.state, req.target) in db.machines[p.name].edges && req.state !in db.machines[p.name].terminal
       case Missed(ctx, req, name, collided) =>
         collided ==> KeyOf(ctx, req, name).Some? && KeyOf(ctx, req, name).value in db.claims
  }

  ghost predicate Inv(s: Sys) {
    && InstancesOk(s.db) && ClaimsOk(s.db) && AnswersOk(s.db, s.answers)
    && forall c :: c in s.calls ==> PhaseOk(s.db, s.calls[c])
  }

  // ------------------------------------------------------------------ growth

  /** Nothing recorded is lost or changed; instances only advance, and only with a new revision. */
  ghost predicate Grows(a: Db, b: Db) {
    && (forall n :: n in a.machines ==> n in b.machines && b.machines[n] == a.machines[n])
    && (forall i :: i in a.instances ==>
          i in b.instances && b.instances[i].tenant == a.instances[i].tenant && b.instances[i].name == a.instances[i].name
          && a.instances[i].revision <= b.instances[i].revision
          && (a.instances[i].revision == b.instances[i].revision ==> a.instances[i] == b.instances[i]))
    && (forall m :: m in a.history ==> m in b.history)
    && (forall e :: e in a.events ==> e in b.events)
    && (forall ck :: ck in a.claims ==> ck in b.claims && b.claims[ck] == a.claims[ck])
    && (forall r :: r in a.provenance ==> r in b.provenance && b.provenance[r] == a.provenance[r])
  }

  lemma VerifiedGrows(a: Db, b: Db, ck: ClaimKey)
    requires Grows(a, b) && ck in a.claims && Verified(a, ck)
    ensures ck in b.claims && Verified(b, ck)
  {
  }

  lemma PhaseGrows(a: Db, b: Db, p: Phase)
    requires Grows(a, b) && PhaseOk(a, p)
    ensures PhaseOk(b, p)
  {
  }

  lemma TruthfulGrows(a: Db, b: Db, x: Answer)
    requires Grows(a, b) && Truthful(a, x)
    ensures Truthful(b, x)
  {
  }

  lemma GrowsTwice(a: Db, b: Db, c: Db)
    requires Grows(a, b) && Grows(b, c)
    ensures Grows(a, c)
  {
  }

  // ------------------------------------------------------------------ preservation

  /** A claimed key always replays or is refused for another request; never anything worse. */
  lemma ReplayOk(db: Db, ctx: Context, req: Request, name: Name)
    requires ClaimsOk(db)
    ensures var ck := KeyOf(ctx, req, name);
            Replay(db, ctx, req, name) ==
              if ck.None? || ck.value !in db.claims then None
              else if db.claims[ck.value].fingerprint == MaterialOf(ctx, req, name) then Some(Replayed(req, ck, db.claims[ck.value].result))
              else Some(Refused(KeyReused))
    ensures Replay(db, ctx, req, name).Some? ==> Truthful(db, Replay(db, ctx, req, name).value)
  {
  }

  /** An answer that moves nothing. */
  lemma StepAnswer(s: Sys, calls: map<nat, Phase>, a: Answer)
    requires Inv(s) && Truthful(s.db, a) && !a.Moved?
    requires forall c :: c in calls ==> c in s.calls && calls[c] == s.calls[c]
    ensures Inv(Sys(s.db, calls, s.answers + [a]))
  {
    forall i: nat, r: nat ensures MovesFrom(s.answers + [a], i, r) == MovesFrom(s.answers, i, r) {
      MovesSnoc(s.answers, a, i, r, ClaimKey("", Name("", 0), ""));
    }
    forall ck ensures MovesUnder(s.answers + [a], ck) == MovesUnder(s.answers, ck) {
      MovesSnoc(s.answers, a, 0, 0, ck);
    }
  }

  lemma StepGo(s: Sys, c: nat, p: Phase)
    requires Inv(s) && PhaseOk(s.db, p)
    ensures Inv(Sys(s.db, s.calls[c := p], s.answers))
  {
  }

  lemma InstancesRegister(db: Db, name: Name, m: Machine)
    requires InstancesOk(db) && name !in db.machines && Graph(m)
    ensures InstancesOk(db.(machines := db.machines[name := m]))
  {
    var after := db.(machines := db.machines[name := m]);
    forall i: nat ensures Counted(after, i) { assert Counted(db, i); }
    forall i | i in after.instances ensures Placed(after, i) { assert Placed(db, i); }
  }

  lemma ClaimsGrow(a: Db, b: Db)
    requires ClaimsOk(a) && Grows(a, b) && b.claims == a.claims && b.provenance == a.provenance && a.nextId <= b.nextId
    ensures ClaimsOk(b)
  {
    forall ck | ck in b.claims ensures Verified(b, ck) { VerifiedGrows(a, b, ck); }
  }

  lemma AnswersGrow(a: Db, b: Db, answers: seq<Answer>)
    requires AnswersOk(a, answers) && Grows(a, b) && b.claims == a.claims && forall i: nat :: Rev(a, i) == Rev(b, i)
    ensures AnswersOk(b, answers)
  {
  }

  /** More machines or instances, and nothing moved. */
  lemma StepMore(s: Sys, db: Db)
    requires Inv(s) && InstancesOk(db) && Grows(s.db, db)
    requires db.claims == s.db.claims && db.provenance == s.db.provenance && s.db.nextId <= db.nextId
    requires forall i: nat :: Rev(s.db, i) == Rev(db, i)
    ensures Inv(Sys(db, s.calls, s.answers))
  {
    ClaimsGrow(s.db, db);
    AnswersGrow(s.db, db, s.answers);
    forall c | c in s.calls ensures PhaseOk(db, s.calls[c]) { PhaseGrows(s.db, db, s.calls[c]); }
  }

  lemma StepRegister(s: Sys, name: Name, m: Machine)
    requires Inv(s) && name !in s.db.machines && Graph(m)
    ensures Inv(Sys(s.db.(machines := s.db.machines[name := m]), s.calls, s.answers))
  {
    InstancesRegister(s.db, name, m);
    StepMore(s, s.db.(machines := s.db.machines[name := m]));
  }

  // ----- creation

  lemma CreateInstances(db: Db, ctx: Context, name: Name)
    requires InstancesOk(db) && Create(db, ctx, name).1.Created?
    ensures InstancesOk(Create(db, ctx, name).0) && Grows(db, Create(db, ctx, name).0)
  {
    var id, after := db.nextId, Create(db, ctx, name).0;
    assert id !in db.instances;
    forall i: nat ensures Counted(after, i) {
      assert Counted(db, i);
      AuditsSnoc(db.audits, Audit(ctx.tenant, id, name, None), i);
      EventsSnoc(db.events, Event(id + 1, ctx.tenant, id, name, None), i);
    }
    forall i | i in after.instances ensures Placed(after, i) {
      if i == id { assert Counted(db, id); } else { assert Placed(db, i); }
    }
  }

  lemma StepCreate(s: Sys, ctx: Context, name: Name)
    requires Inv(s)
    ensures Inv(Sys(Create(s.db, ctx, name).0, s.calls, s.answers + [Create(s.db, ctx, name).1]))
  {
    var (db, a) := Create(s.db, ctx, name);
    if a.Created? {
      CreateInstances(s.db, ctx, name);
      assert forall i: nat :: Rev(s.db, i) == Rev(db, i);
      StepMore(s, db);
      StepAnswer(Sys(db, s.calls, s.answers), s.calls, a);
    } else {
      StepAnswer(s, s.calls, a);
    }
  }

  // ----- diagnosis

  lemma BeginOk(db: Db, ctx: Context, req: Request)
    requires InstancesOk(db)
    ensures match Begin(db, ctx, req)
            case Finish(a) => Truthful(db, a) && !a.Moved?
            case Go(p) => PhaseOk(db, p)
  {
  }

  lemma CheckOk(db: Db, p: Phase)
    requires ClaimsOk(db) && PhaseOk(db, p) && p.Resolved?
    ensures match Check(db, p)
            case Finish(a) => Truthful(db, a) && !a.Moved?
            case Go(q) => PhaseOk(db, q)
  {
  }

  lemma AgainOk(db: Db, p: Phase)
    requires ClaimsOk(db) && PhaseOk(db, p) && p.Missed?
    ensures Truthful(db, Again(db, p)) && !Again(db, p).Moved?
  {
  }

  // ----- the move

  /** What holds when the compare-and-swap matches and the key is free. */
  ghost predicate Fires(db: Db, ctx: Context, req: Request, name: Name) {
    && req.revision >= 0 && Matches(db, ctx, req, name) && name in db.machines
    && (req.state, req.target) in db.machines[name].edges && req.state !in db.machines[name].terminal
    && (KeyOf(ctx, req, name).Some? ==> KeyOf(ctx, req, name).value !in db.claims)
  }

  lemma MoveGrows(db: Db, ctx: Context, req: Request, name: Name)
    requires Fires(db, ctx, req, name) && ClaimsOk(db)
    ensures Grows(db, Written(db, ctx, req, name))
  {
    FreshRecord(db);
  }

  lemma FreshRecord(db: Db)
    requires ClaimsOk(db)
    ensures db.nextId + 1 !in db.provenance
  {
  }

  lemma MoveCounted(db: Db, ctx: Context, req: Request, name: Name, i: nat)
    requires Fires(db, ctx, req, name) && Counted(db, i)
    ensures Counted(Written(db, ctx, req, name), i)
  {
  }

  lemma MovePlaced(db: Db, ctx: Context, req: Request, name: Name, i: nat)
    requires Fires(db, ctx, req, name) && i in db.instances && Placed(db, i) && Counted(db, i)
    ensures i in Written(db, ctx, req, name).instances && Placed(Written(db, ctx, req, name), i)
  {
    var move := MoveRow(db, ctx, req, name);
    RowsSnoc(db.history, move, i);
    if i == req.instance {
      PathSnoc(db.machines[name], Rows(db.history, i), move);
    }
  }

  lemma MoveInstances(db: Db, ctx: Context, req: Request, name: Name)
    requires Fires(db, ctx, req, name) && InstancesOk(db)
    ensures InstancesOk(Written(db, ctx, req, name))
  {
    var after := Written(db, ctx, req, name);
    forall i: nat ensures Counted(after, i) {
      assert Counted(db, i);
      MoveCounted(db, ctx, req, name, i);
    }
    forall i | i in after.instances ensures i < after.nextId && Placed(after, i) {
      assert i in db.instances && Placed(db, i) && Counted(db, i);
      MovePlaced(db, ctx, req, name, i);
    }
  }

  lemma NewClaimVerified(db: Db, ctx: Context, req: Request, name: Name)
    requires Fires(db, ctx, req, name) && req.key.Some?
    ensures var after, ck := Written(db, ctx, req, name), KeyOf(ctx, req, name).value;
            ck in after.claims && Verified(after, ck) && Describes(ck, after.claims[ck])
  {
  }

  lemma MoveClaimRows(db: Db, ctx: Context, req: Request, name: Name)
    requires Fires(db, ctx, req, name) && Grows(db, Written(db, ctx, req, name)) && ClaimRows(db) && req.key.Some?
    ensures ClaimRows(Written(db, ctx, req, name))
  {
    var after := Written(db, ctx, req, name);
    var taken := KeyOf(ctx, req, name).value;
    NewClaimVerified(db, ctx, req, name);
    assert after.claims.Keys == db.claims.Keys + {taken} && after.claims[taken].record == db.nextId + 1;
    forall ck | ck in after.claims
      ensures after.claims[ck].record < after.nextId && Verified(after, ck) && Describes(ck, after.claims[ck])
    {
      if ck != taken { VerifiedGrows(db, after, ck); }
    }
  }

  lemma MoveLinks(db: Db, ctx: Context, req: Request, name: Name)
    requires Fires(db, ctx, req, name) && Links(db) && req.key.Some?
    ensures Links(Written(db, ctx, req, name))
  {
    var after := Written(db, ctx, req, name);
    var record := db.nextId + 1;
    assert after.provenance.Keys == db.provenance.Keys + {record};
    assert after.provenance[record].move == db.nextId && after.provenance[record].event == db.nextId + 2;
    assert after.claims[KeyOf(ctx, req, name).value].record == record;
    forall r | r in db.provenance && r != record ensures Claimed(after, r) && after.provenance[r] == db.provenance[r] {
      assert Claimed(db, r);
      var ck :| ck in db.claims && db.claims[ck].record == r;
      assert after.claims[ck].record == r;
    }
    assert Claimed(after, record);
  }

  lemma MoveClaims(db: Db, ctx: Context, req: Request, name: Name)
    requires Fires(db, ctx, req, name) && InstancesOk(db) && ClaimsOk(db)
    ensures ClaimsOk(Written(db, ctx, req, name))
  {
    MoveGrows(db, ctx, req, name);
    if req.key.None? {
      ClaimsGrow(db, Written(db, ctx, req, name));
    } else {
      MoveClaimRows(db, ctx, req, name);
      MoveLinks(db, ctx, req, name);
    }
  }

  lemma MoveAnswers(s: Sys, ctx: Context, req: Request, name: Name)
    requires Fires(s.db, ctx, req, name) && InstancesOk(s.db) && ClaimsOk(s.db) && AnswersOk(s.db, s.answers)
    ensures AnswersOk(Written(s.db, ctx, req, name),
                      s.answers + [Moved(req, KeyOf(ctx, req, name), MoveRow(s.db, ctx, req, name))])
  {
    var after := Written(s.db, ctx, req, name);
    var a := Moved(req, KeyOf(ctx, req, name), MoveRow(s.db, ctx, req, name));
    MoveGrows(s.db, ctx, req, name);
    forall x | x in s.answers ensures Truthful(after, x) { TruthfulGrows(s.db, after, x); }
    assert a.result in after.history;
    forall i: nat, r: nat ensures MovesFrom(s.answers + [a], i, r) == if r < Rev(after, i) then 1 else 0 {
      MovesSnoc(s.answers, a, i, r, ClaimKey("", Name("", 0), ""));
    }
    forall ck ensures MovesUnder(s.answers + [a], ck) == if ck in after.claims then 1 else 0 {
      MovesSnoc(s.answers, a, 0, 0, ck);
    }
  }

  /** Where the statement before found an edge, the trigger agrees with it. */
  lemma TriggerAgrees(db: Db, p: Phase)
    requires PhaseOk(db, p) && p.Ready? && Matches(db, p.ctx, p.req, p.name)
    ensures var i := db.instances[p.req.instance];
            TriggerAccepts(db, i, i.(state := p.req.target, revision := i.revision + 1))
  {
  }

  lemma StepSwap(s: Sys, c: nat)
    requires Inv(s) && c in s.calls && s.calls[c].Ready?
    ensures s.calls[c].req.revision >= 0
    ensures var (db, next) := Swap(s.db, s.calls[c]); Inv(Proceed(s, c, db, next))
  {
    var p := s.calls[c];
    assert PhaseOk(s.db, p);
    if Matches(s.db, p.ctx, p.req, p.name) {
      TriggerAgrees(s.db, p);
      if Fires(s.db, p.ctx, p.req, p.name) {
        StepMove(s, c);
      } else {
        StepGo(s, c, Missed(p.ctx, p.req, p.name, true));
      }
    } else {
      StepGo(s, c, Missed(p.ctx, p.req, p.name, false));
    }
  }

  lemma StepMove(s: Sys, c: nat)
    requires Inv(s) && c in s.calls && Fires(s.db, s.calls[c].ctx, s.calls[c].req, s.calls[c].name)
    ensures var p := s.calls[c];
            Inv(Sys(Written(s.db, p.ctx, p.req, p.name), s.calls - {c},
                    s.answers + [Moved(p.req, KeyOf(p.ctx, p.req, p.name), MoveRow(s.db, p.ctx, p.req, p.name))]))
  {
    var p := s.calls[c];
    var after := Written(s.db, p.ctx, p.req, p.name);
    MoveGrows(s.db, p.ctx, p.req, p.name);
    MoveInstances(s.db, p.ctx, p.req, p.name);
    MoveClaims(s.db, p.ctx, p.req, p.name);
    MoveAnswers(s, p.ctx, p.req, p.name);
    forall d | d in s.calls ensures PhaseOk(after, s.calls[d]) { PhaseGrows(s.db, after, s.calls[d]); }
  }

  lemma StepInv(s: Sys, l: Label)
    requires Inv(s) && Enabled(s, l)
    ensures Inv(Apply(s, l))
  {
    match l
    case LRegister(name, m) => StepRegister(s, name, m);
    case LCreate(ctx, name) => StepCreate(s, ctx, name);
    case LBegin(c, ctx, req) =>
      BeginOk(s.db, ctx, req);
      match Begin(s.db, ctx, req) {
        case Finish(a) => StepAnswer(s, s.calls - {c}, a);
        case Go(p) => StepGo(s, c, p);
      }
    case LCheck(c) =>
      assert PhaseOk(s.db, s.calls[c]);
      CheckOk(s.db, s.calls[c]);
      match Check(s.db, s.calls[c]) {
        case Finish(a) => StepAnswer(s, s.calls - {c}, a);
        case Go(p) => StepGo(s, c, p);
      }
    case LSwap(c) => StepSwap(s, c);
    case LAgain(c) =>
      assert PhaseOk(s.db, s.calls[c]);
      AgainOk(s.db, s.calls[c]);
      StepAnswer(s, s.calls - {c}, Again(s.db, s.calls[c]));
    case LAbort(c) =>
  }

  lemma SwapCases(db: Db, p: Phase)
    requires PhaseOk(db, p) && p.Ready?
    ensures if Fires(db, p.ctx, p.req, p.name) then Swap(db, p).0 == Written(db, p.ctx, p.req, p.name)
            else Swap(db, p).0 == db
  {
  }

  lemma SwapGrows(db: Db, p: Phase)
    requires InstancesOk(db) && ClaimsOk(db) && PhaseOk(db, p) && p.Ready?
    ensures Grows(db, Swap(db, p).0)
  {
    SwapCases(db, p);
    if Fires(db, p.ctx, p.req, p.name) { MoveGrows(db, p.ctx, p.req, p.name); }
  }

  lemma StepGrows(s: Sys, l: Label)
    requires Inv(s) && Enabled(s, l)
    ensures Grows(s.db, Apply(s, l).db)
  {
    if l.LSwap? {
      assert PhaseOk(s.db, s.calls[l.c]);
      SwapGrows(s.db, s.calls[l.c]);
      assert Apply(s, l).db == Swap(s.db, s.calls[l.c]).0;
    } else if l.LCreate? {
      if Create(s.db, l.ctx, l.name).1.Created? { CreateInstances(s.db, l.ctx, l.name); }
    } else if !l.LRegister? {
      assert Apply(s, l).db == s.db;
    }
  }

  lemma {:induction false} RunInv(s: Sys, ls: seq<Label>)
    requires Inv(s) && Valid(s, ls)
    ensures Inv(Run(s, ls)) && Grows(s.db, Run(s, ls).db)
    decreases |ls|
  {
    if ls != [] {
      var t := Apply(s, ls[0]);
      StepInv(s, ls[0]);
      StepGrows(s, ls[0]);
      RunInv(t, ls[1..]);
      GrowsTwice(s.db, t.db, Run(t, ls[1..]).db);
    }
  }
}
