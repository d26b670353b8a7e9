/** The whole wiring: harden, grant the runtime roles, install the lifecycle writer. */
module RoleReconcile {
  import opened RoleCatalogue
  import opened RoleWiring

  /** No role is the schema owner, and the writer, which cannot log in, is none of the other
      three; entry points are functions no role's own list grants; what the plan names exists. */
  predicate PlanFits(objects: map<Name, Obj>, r: Roles, plan: Plan) {
    && WellFormed(objects)
    && Apart(r, objects[SCHEMA].owner)
    && (forall n :: n in plan.entryPoints ==> n in objects && objects[n].kind.Function?)
    && (forall n :: n in plan.tables ==> n in objects && objects[n].kind.Table?)
    && ListFits(objects, plan.application, plan) && ListFits(objects, plan.provisioning, plan)
    && ListFits(objects, plan.authenticator, plan) && ListFits(objects, plan.writer, plan)
  }

  predicate ListFits(objects: map<Name, Obj>, g: Grants, plan: Plan) {
    && (forall x :: x in g.on ==> x.0 in objects && x.0 != SCHEMA && x.0 !in plan.entryPoints)
    && (forall x :: x in g.columns ==> x.0 in objects && x.1 in objects[x.0].columns)
  }

  /** What everybody but the owner should hold on an object in the end. */
  function Target(r: Roles, plan: Plan, n: Name): set<Entry> {
    if n in plan.entryPoints then {(To(r.application), "EXECUTE")}
    else OnFor(r.application, plan.application, n) + OnFor(r.provisioning, plan.provisioning, n)
         + OnFor(r.authenticator, plan.authenticator, n) + OnFor(r.writer, plan.writer, n)
  }

  function TargetOn(r: Roles, plan: Plan, n: Name, c: string): set<Entry> {
    ForColumn(ColumnsFor(r.application, plan.application, n), c) + ForColumn(ColumnsFor(r.provisioning, plan.provisioning, n), c)
    + ForColumn(ColumnsFor(r.authenticator, plan.authenticator, n), c) + ForColumn(ColumnsFor(r.writer, plan.writer, n), c)
  }

  /** A function of a third owner, which nothing here may touch. */
  predicate ThirdParty(o: Obj, owner: Role, n: Name, plan: Plan) {
    Foreign(o, owner) && n !in plan.entryPoints
  }

  /** Exactly the plan on every object but the functions of third owners, which are as before. */
  ghost predicate Wired(a: map<Name, Obj>, b: map<Name, Obj>, r: Roles, plan: Plan)
    requires SCHEMA in a
  {
    && b.Keys == a.Keys
    && forall n :: n in a ==> WiredObject(a[n], b[n], a[SCHEMA].owner, r, plan, n)
  }

  ghost predicate WiredObject(a: Obj, b: Obj, owner: Role, r: Roles, plan: Plan, n: Name) {
    && b.kind == a.kind && b.columns.Keys == a.columns.Keys
    && b.owner == (if n in plan.entryPoints then r.writer else a.owner)
    && if ThirdParty(a, owner, n, plan) then NonOwner(b) == NonOwner(a)
       else NonOwner(b) == Target(r, plan, n) && forall c :: c in b.columns ==> NonOwnerOn(b, c) == TargetOn(r, plan, n, c)
  }

  /** The entry points are the owner's or the writer's, and the writer owns nothing else. */
  predicate EntryPointsOk(objects: map<Name, Obj>, entryPoints: set<Name>, owner: Role, writer: Role) {
    && (forall n :: n in entryPoints ==> n in objects && (objects[n].owner == owner || objects[n].owner == writer))
    && (forall n :: n in objects && objects[n].owner == writer ==> n in entryPoints)
  }

  /** What the statements after hardening need. */
  predicate Installable(objects: map<Name, Obj>, owner: Role, r: Roles, plan: Plan) {
    && Grantable(objects, plan.application, owner) && Grantable(objects, plan.provisioning, owner)
    && Grantable(objects, plan.authenticator, owner) && Grantable(objects, plan.writer, owner)
    && EntryPointsOk(objects, plan.entryPoints, owner, r.writer)
  }

  /** When the wiring goes through: the connected role owns all it must change, each entry point
      is its own or the writer's, and the writer owns nothing else. */
  predicate Wireable(objects: map<Name, Obj>, current: Role, r: Roles, plan: Plan)
    requires SCHEMA in objects
  {
    Mine(objects, objects[SCHEMA].owner, current) && Installable(objects, current, r, plan)
  }

  // ------------------------------------------------------------------ one object at a time

  /** Rid of one grantee. */
  ghost predicate Rid(a: Obj, b: Obj, g: Grantee) {
    SameObject(a, b) && Entries(b) == Except(Entries(a), {g}) && forall c :: c in a.columns ==> b.columns[c] == Except(a.columns[c], {g})
  }

  predicate NoneTo(on: set<Entry>, g: Grantee) {
    forall e :: e in on ==> e.0 != g
  }

  /** One ACL through the wiring: emptied but for the owner, granted to three roles, rid of the
      writer, granted to the writer. */
  lemma Ledger(x1: set<Entry>, x2: set<Entry>, x3: set<Entry>, x4: set<Entry>, x5: set<Entry>, x6: set<Entry>, x7: set<Entry>,
               a: set<Entry>, p: set<Entry>, u: set<Entry>, w: set<Entry>, owner: Grantee, writer: Grantee)
    requires Except(x1, {owner}) == {} && x2 == Except(x1, {Public})
    requires x3 == x2 + a && x4 == x3 + p && x5 == x4 + u && x6 == Except(x5, {writer}) && x7 == x6 + w
    requires NoneTo(a, owner) && NoneTo(p, owner) && NoneTo(u, owner) && NoneTo(w, owner)
    requires NoneTo(a, writer) && NoneTo(p, writer) && NoneTo(u, writer)
    ensures Except(x7, {owner}) == a + p + u + w
  {
    forall e ensures e in Except(x7, {owner}) <==> e in a + p + u + w {
      assert e in x1 && e.0 != owner ==> e in Except(x1, {owner});
    }
  }

  /** The statements one object goes through until the entry points' own ACL is written. */
  ghost predicate Chain(o1: Obj, o2: Obj, o3: Obj, o4: Obj, o5: Obj, o6: Obj, o7: Obj, r: Roles, plan: Plan, n: Name) {
    && Clean(o1) && Rid(o1, o2, Public)
    && Gains(o2, o3, OnFor(r.application, plan.application, n), ColumnsFor(r.application, plan.application, n))
    && Gains(o3, o4, OnFor(r.provisioning, plan.provisioning, n), ColumnsFor(r.provisioning, plan.provisioning, n))
    && Gains(o4, o5, OnFor(r.authenticator, plan.authenticator, n), ColumnsFor(r.authenticator, plan.authenticator, n))
    && Rid(o5, o6, To(r.writer))
    && Gains(o6, o7, OnFor(r.writer, plan.writer, n), ColumnsFor(r.writer, plan.writer, n))
  }

  predicate Apart(r: Roles, owner: Role) {
    && owner !in {r.application, r.provisioning, r.authenticator, r.writer}
    && r.writer !in {r.application, r.provisioning, r.authenticator}
  }

  lemma ListsApart(r: Roles, plan: Plan, n: Name, c: string, owner: Role)
    requires Apart(r, owner)
    ensures forall g :: g == To(owner) || g == To(r.writer) ==>
              && NoneTo(OnFor(r.application, plan.application, n), g) && NoneTo(ForColumn(ColumnsFor(r.application, plan.application, n), c), g)
              && NoneTo(OnFor(r.provisioning, plan.provisioning, n), g) && NoneTo(ForColumn(ColumnsFor(r.provisioning, plan.provisioning, n), c), g)
              && NoneTo(OnFor(r.authenticator, plan.authenticator, n), g) && NoneTo(ForColumn(ColumnsFor(r.authenticator, plan.authenticator, n), c), g)
    ensures NoneTo(OnFor(r.writer, plan.writer, n), To(owner)) && NoneTo(ForColumn(ColumnsFor(r.writer, plan.writer, n), c), To(owner))
  {
  }

  lemma KeptOn(o1: Obj, o2: Obj, o3: Obj, o4: Obj, o5: Obj, o6: Obj, o7: Obj, r: Roles, plan: Plan, n: Name)
    requires Chain(o1, o2, o3, o4, o5, o6, o7, r, plan, n) && Apart(r, o1.owner) && n !in plan.entryPoints
    ensures SameObject(o1, o7) && NonOwner(o7) == Target(r, plan, n)
  {
    ListsApart(r, plan, n, "", o1.owner);
    Ledger(Entries(o1), Entries(o2), Entries(o3), Entries(o4), Entries(o5), Entries(o6), Entries(o7),
           OnFor(r.application, plan.application, n), OnFor(r.provisioning, plan.provisioning, n),
           OnFor(r.authenticator, plan.authenticator, n), OnFor(r.writer, plan.writer, n), To(o1.owner), To(r.writer));
  }

  lemma KeptColumn(o1: Obj, o2: Obj, o3: Obj, o4: Obj, o5: Obj, o6: Obj, o7: Obj, r: Roles, plan: Plan, n: Name, c: string)
    requires Chain(o1, o2, o3, o4, o5, o6, o7, r, plan, n) && Apart(r, o1.owner) && c in o1.columns
    ensures c in o7.columns && NonOwnerOn(o7, c) == TargetOn(r, plan, n, c)
  {
    ListsApart(r, plan, n, c, o1.owner);
    assert Except(o1.columns[c], {To(o1.owner)}) == NonOwnerOn(o1, c);
    Ledger(o1.columns[c], o2.columns[c], o3.columns[c], o4.columns[c], o5.columns[c], o6.columns[c], o7.columns[c],
           ForColumn(ColumnsFor(r.application, plan.application, n), c), ForColumn(ColumnsFor(r.provisioning, plan.provisioning, n), c),
           ForColumn(ColumnsFor(r.authenticator, plan.authenticator, n), c), ForColumn(ColumnsFor(r.writer, plan.writer, n), c),
           To(o1.owner), To(r.writer));
  }

  /** An object the schema owner keeps ends with exactly the plan. */
  lemma KeptObject(o1: Obj, o2: Obj, o3: Obj, o4: Obj, o5: Obj, o6: Obj, o7: Obj, r: Roles, plan: Plan, n: Name)
    requires Chain(o1, o2, o3, o4, o5, o6, o7, r, plan, n) && Apart(r, o1.owner) && n !in plan.entryPoints
    ensures SameObject(o1, o7) && NonOwner(o7) == Target(r, plan, n)
    ensures forall c :: c in o7.columns ==> NonOwnerOn(o7, c) == TargetOn(r, plan, n, c)
  {
    KeptOn(o1, o2, o3, o4, o5, o6, o7, r, plan, n);
    forall c | c in o7.columns ensures NonOwnerOn(o7, c) == TargetOn(r, plan, n, c) {
      KeptColumn(o1, o2, o3, o4, o5, o6, o7, r, plan, n, c);
    }
  }
}
