/** From any starting catalogue the wiring reaches exactly the plan, and a second run nothing new. */
module RoleTheorems {
  import opened Base
  import opened RoleCatalogue
  import opened RoleWiring
  import opened RoleReconcile
  import opened RoleInstall

  /** Every statement of the wiring, as the states between them. */
  ghost predicate Ran(s0: map<Name, Obj>, s1: map<Name, Obj>, s2: map<Name, Obj>, s3: map<Name, Obj>, s4: map<Name, Obj>,
                      s5: map<Name, Obj>, s6: map<Name, Obj>, s7: map<Name, Obj>, s8: map<Name, Obj>, s9: map<Name, Obj>,
                      r: Roles, plan: Plan, owner: Role)
  {
    && Sanitized(s0, s1, owner) && PublicRevoked(s1, s2, plan.tables)
    && Installed(s2, s3, s4, s5, s6, s7, s8, s9, r, plan, owner)
  }

  lemma FitsShape(a: map<Name, Obj>, b: map<Name, Obj>, r: Roles, plan: Plan, owner: Role)
    requires SameShape(a, b) && PlanFits(a, r, plan)
    ensures PlanFits(b, r, plan) && b[SCHEMA].owner == a[SCHEMA].owner
    ensures EntryPointsOk(a, plan.entryPoints, owner, r.writer) <==> EntryPointsOk(b, plan.entryPoints, owner, r.writer)
  {
  }

  lemma SanitizedShape(a: map<Name, Obj>, b: map<Name, Obj>, owner: Role, c: map<Name, Obj>, tables: set<Name>)
    requires Sanitized(a, b, owner) && PublicRevoked(b, c, tables)
    ensures SameShape(a, b) && SameShape(b, c) && SameShape(a, c)
  {
  }

  /** harden_database and revoke_public_table_privileges. */
  method Harden(c: Catalogue, plan: Plan) returns (ok: bool, ghost s1: map<Name, Obj>)
    requires WellFormed(c.objects) && forall n :: n in plan.tables ==> n in c.objects && c.objects[n].kind.Table?
    modifies c`objects
    ensures ok <==> Mine(old(c.objects), old(c.objects)[SCHEMA].owner, c.current)
    ensures ok ==> Sanitized(old(c.objects), s1, old(c.objects)[SCHEMA].owner) && PublicRevoked(s1, c.objects, plan.tables)
    ensures ok ==> SameShape(old(c.objects), c.objects)
  {
    ghost var s0 := c.objects;
    ghost var owner := c.objects[SCHEMA].owner;
    ok := Sanitize(c);
    s1 := c.objects;
    if ok {
      TablesMine(s0, s1, owner, c.current, plan);
      RevokePublicTablePrivileges(c, plan.tables);
      SanitizedShape(s0, s1, owner, c.objects, plan.tables);
    }
  }

  ghost predicate Installed(s2: map<Name, Obj>, s3: map<Name, Obj>, s4: map<Name, Obj>, s5: map<Name, Obj>, s6: map<Name, Obj>,
                            s7: map<Name, Obj>, s8: map<Name, Obj>, s9: map<Name, Obj>, r: Roles, plan: Plan, owner: Role)
  {
    && Granted(s2, s3, r.application, plan.application) && Granted(s3, s4, r.provisioning, plan.provisioning)
    && Granted(s4, s5, r.authenticator, plan.authenticator)
    && RidOfRole(s5, s6, r.writer, owner) && EntryPointsOk(s6, plan.entryPoints, owner, r.writer)
    && HandedOver(s6, s7, Pending(s6, plan.entryPoints, owner), r.writer)
    && Granted(s7, s8, r.writer, plan.writer) && Reset(s8, s9, plan.entryPoints, r.application)
  }

  /** The grants and the installation, on a hardened catalogue. */
  method GrantAndInstall(c: Catalogue, r: Roles, plan: Plan)
    returns (ok: bool, ghost s3: map<Name, Obj>, ghost s4: map<Name, Obj>, ghost s5: map<Name, Obj>, ghost s6: map<Name, Obj>,
             ghost s7: map<Name, Obj>, ghost s8: map<Name, Obj>)
    requires PlanFits(c.objects, r, plan) && c.objects[SCHEMA].owner == c.current
    modifies c
    ensures c.current == old(c.current)
    ensures ok <==> Installable(old(c.objects), old(c.current), r, plan)
    ensures ok ==> Installed(old(c.objects), s3, s4, s5, s6, s7, s8, c.objects, r, plan, old(c.current))
    ensures ok ==> SameShape(old(c.objects), s5)
  {
    ghost var s2 := c.objects;
    ok, s3, s4 := GrantRuntimeRoles(c, r, plan);
    s5, s6, s7, s8 := c.objects, s2, s2, s2;
    if !ok { return; }
    FitsShape(s2, s5, r, plan, c.current);
    GrantableSame(s2, s5, plan.writer, c.current);
    ok, s6, s7, s8 := InstallLifecycleWriter(c, r, plan, c.current);
  }

  method WireHardened(c: Catalogue, r: Roles, plan: Plan, ghost s0: map<Name, Obj>, ghost s1: map<Name, Obj>) returns (ok: bool)
    requires PlanFits(s0, r, plan) && PlanFits(c.objects, r, plan) && SameShape(s0, c.objects)
    requires s0[SCHEMA].owner == c.objects[SCHEMA].owner == c.current && Mine(s0, c.current, c.current)
    requires Sanitized(s0, s1, c.current) && PublicRevoked(s1, c.objects, plan.tables)
    modifies c
    ensures c.current == old(c.current)
    ensures ok <==> Installable(old(c.objects), old(c.current), r, plan)
    ensures ok ==> Installable(s0, old(c.current), r, plan) && Wired(s0, c.objects, r, plan)
  {
    ghost var s2, owner := c.objects, c.current;
    ghost var s3, s4, s5, s6, s7, s8;
    ok, s3, s4, s5, s6, s7, s8 := GrantAndInstall(c, r, plan);
    if ok {
      InstallableSame(s0, s2, owner, r, plan);
      ShapeTwice(s0, s2, s5);
      AllWired(s0, s1, s2, s3, s4, s5, s6, s7, s8, c.objects, r, plan, owner);
    }
  }

  /** harden_database, the grants and install_lifecycle_writer in one transaction: it goes through
      exactly when it may, leaves the plan, and otherwise leaves everything as it was. */
  method Wire(c: Catalogue, r: Roles, plan: Plan) returns (ok: bool)
    requires PlanFits(c.objects, r, plan)
    modifies c
    ensures c.current == old(c.current)
    ensures ok <==> Wireable(old(c.objects), old(c.current), r, plan)
    ensures ok ==> Wired(old(c.objects), c.objects, r, plan)
    ensures !ok ==> c.objects == old(c.objects)
  {
    var saved := c.objects;
    ghost var s1;
    ok, s1 := Harden(c, plan);
    if ok {
      FitsShape(saved, c.objects, r, plan, c.current);
      InstallableSame(saved, c.objects, c.current, r, plan);
      ok := WireHardened(c, r, plan, saved, s1);
    }
    if !ok {
      c.objects := saved;
    }
  }

  lemma InstallableSame(a: map<Name, Obj>, b: map<Name, Obj>, owner: Role, r: Roles, plan: Plan)
    requires SameShape(a, b) && PlanFits(a, r, plan)
    ensures Installable(a, owner, r, plan) <==> Installable(b, owner, r, plan)
  {
  }

  lemma TablesMine(s0: map<Name, Obj>, s1: map<Name, Obj>, owner: Role, role: Role, plan: Plan)
    requires Mine(s0, owner, role) && Sanitized(s0, s1, owner)
    requires forall n :: n in plan.tables ==> n in s0 && s0[n].kind.Table?
    ensures forall n :: n in plan.tables ==> n in s1 && s1[n].owner == role
  {
  }

  // ------------------------------------------------------------------ object by object

  lemma AllWired(s0: map<Name, Obj>, s1: map<Name, Obj>, s2: map<Name, Obj>, s3: map<Name, Obj>, s4: map<Name, Obj>,
                 s5: map<Name, Obj>, s6: map<Name, Obj>, s7: map<Name, Obj>, s8: map<Name, Obj>, s9: map<Name, Obj>,
                 r: Roles, plan: Plan, owner: Role)
    requires Ran(s0, s1, s2, s3, s4, s5, s6, s7, s8, s9, r, plan, owner) && SameShape(s0, s5)
    requires PlanFits(s0, r, plan) && s0[SCHEMA].owner == owner && Mine(s0, owner, owner) && Installable(s0, owner, r, plan)
    ensures Wired(s0, s9, r, plan)
  {
    RidShape(s5, s6, r.writer, owner);
    ShapeTwice(s0, s5, s6);
    GrantedShape(s7, s8, r.writer, plan.writer);
    assert s9.Keys == s0.Keys;
    forall n | n in s0 ensures WiredObject(s0[n], s9[n], owner, r, plan, n) {
      if n in plan.entryPoints {
        EntryWired(s0, s6, s7, s8, s9, r, plan, owner, n);
      } else if Foreign(s0[n], owner) {
        ThirdUntouched(s0, s1, s2, s3, s4, s5, s6, s7, s8, s9, r, plan, owner, n);
      } else {
        CleanHasNoPublic(s1[n]);
        assert SameObject(s0[n], s5[n]);
        OwnWired(s0[n], s1[n], s2[n], s3[n], s4[n], s5[n], s7[n], s8[n], r, plan, n);
      }
    }
  }

  lemma CleanHasNoPublic(o: Obj)
    requires Clean(o)
    ensures Rid(o, o, Public) && Rid(o, Without(o, {Public}), Public)
  {
    forall e | e in Entries(o) ensures e.0 == To(o.owner) {
      assert e.0 != To(o.owner) ==> e in NonOwner(o);
    }
    assert Except(Entries(o), {Public}) == Entries(o);
    forall c | c in o.columns ensures Except(o.columns[c], {Public}) == o.columns[c] {
      forall e | e in o.columns[c] ensures e.0 == To(o.owner) {
        assert e.0 != To(o.owner) ==> e in NonOwnerOn(o, c);
      }
    }
  }

  lemma OwnWired(o0: Obj, o1: Obj, o2: Obj, o3: Obj, o4: Obj, o5: Obj, o6: Obj, o7: Obj, r: Roles, plan: Plan, n: Name)
    requires SameObject(o0, o1) && Apart(r, o0.owner) && n !in plan.entryPoints && !ThirdParty(o0, o0.owner, n, plan)
    requires Chain(o1, o2, o3, o4, o5, o6, o7, r, plan, n)
    ensures WiredObject(o0, o7, o0.owner, r, plan, n)
  {
    KeptObject(o1, o2, o3, o4, o5, o6, o7, r, plan, n);
  }

  lemma EntryWired(s0: map<Name, Obj>, s6: map<Name, Obj>, s7: map<Name, Obj>, s8: map<Name, Obj>, s9: map<Name, Obj>,
                   r: Roles, plan: Plan, owner: Role, n: Name)
    requires SameShape(s0, s6) && EntryPointsOk(s6, plan.entryPoints, owner, r.writer)
    requires HandedOver(s6, s7, Pending(s6, plan.entryPoints, owner), r.writer)
    requires SameShape(s7, s8) && Reset(s8, s9, plan.entryPoints, r.application)
    requires n in s0 && n in plan.entryPoints && s0[n].kind.Function? && s0[n].columns == map[] && n != SCHEMA
    ensures WiredObject(s0[n], s9[n], owner, r, plan, n)
  {
  }

  lemma NothingFor(objects: map<Name, Obj>, g: Grants, role: Role, current: Role, n: Name)
    requires Grantable(objects, g, current) && n in objects && objects[n].owner != current
    ensures OnFor(role, g, n) == {} && ColumnsFor(role, g, n) == {}
  {
  }

  lemma GainsNone(a: Obj, b: Obj)
    requires Gains(a, b, {}, {})
    ensures SameObject(a, b) && NonOwner(b) == NonOwner(a)
  {
  }

  lemma ThirdUntouched(s0: map<Name, Obj>, s1: map<Name, Obj>, s2: map<Name, Obj>, s3: map<Name, Obj>, s4: map<Name, Obj>,
                       s5: map<Name, Obj>, s6: map<Name, Obj>, s7: map<Name, Obj>, s8: map<Name, Obj>, s9: map<Name, Obj>,
                       r: Roles, plan: Plan, owner: Role, n: Name)
    requires Ran(s0, s1, s2, s3, s4, s5, s6, s7, s8, s9, r, plan, owner) && Installable(s0, owner, r, plan)
    requires n in s0 && n !in plan.entryPoints && Foreign(s0[n], owner) && n !in plan.tables && n != SCHEMA
    ensures WiredObject(s0[n], s9[n], owner, r, plan, n)
  {
    assert s2[n] == s0[n];
    NothingFor(s0, plan.application, r.application, owner, n);
    NothingFor(s0, plan.provisioning, r.provisioning, owner, n);
    NothingFor(s0, plan.authenticator, r.authenticator, owner, n);
    NothingFor(s0, plan.writer, r.writer, owner, n);
    GainsNone(s2[n], s3[n]);
    GainsNone(s3[n], s4[n]);
    GainsNone(s4[n], s5[n]);
    assert s6[n] == s5[n] && s7[n] == s6[n];
    GainsNone(s7[n], s8[n]);
    assert s9[n] == s8[n];
  }

  // ------------------------------------------------------------------ convergence

  /** The plan, on every object. */
  ghost predicate IsPlan(a: map<Name, Obj>, r: Roles, plan: Plan) {
    forall n :: n in a ==>
      NonOwner(a[n]) == Target(r, plan, n) && forall c :: c in a[n].columns ==> NonOwnerOn(a[n], c) == TargetOn(r, plan, n, c)
  }

  /** The wiring ends with the plan and nothing else exactly when no function of a third owner had
      anything granted on it to begin with: those, PostgreSQL lets nobody here take back. */
  lemma ReachesPlan(a: map<Name, Obj>, b: map<Name, Obj>, r: Roles, plan: Plan, current: Role)
    requires PlanFits(a, r, plan) && Wireable(a, current, r, plan) && Wired(a, b, r, plan)
    ensures IsPlan(b, r, plan) <==>
            forall n :: n in a && ThirdParty(a[n], a[SCHEMA].owner, n, plan) ==> NonOwner(a[n]) == {}
  {
    forall n | n in a && ThirdParty(a[n], a[SCHEMA].owner, n, plan)
      ensures Target(r, plan, n) == {} && NonOwner(b[n]) == NonOwner(a[n]) && b[n].columns.Keys == {}
    {
      assert WiredObject(a[n], b[n], a[SCHEMA].owner, r, plan, n);
      NoTarget(a, r, plan, current, n);
    }
    forall n | n in a && !ThirdParty(a[n], a[SCHEMA].owner, n, plan)
      ensures NonOwner(b[n]) == Target(r, plan, n) && forall c :: c in b[n].columns ==> NonOwnerOn(b[n], c) == TargetOn(r, plan, n, c)
    {
      assert WiredObject(a[n], b[n], a[SCHEMA].owner, r, plan, n);
    }
  }

  lemma NoTarget(a: map<Name, Obj>, r: Roles, plan: Plan, current: Role, n: Name)
    requires PlanFits(a, r, plan) && Wireable(a, current, r, plan) && n in a && ThirdParty(a[n], a[SCHEMA].owner, n, plan)
    ensures Target(r, plan, n) == {}
  {
    assert a[SCHEMA].owner == current;
    NothingFor(a, plan.application, r.application, current, n);
    NothingFor(a, plan.provisioning, r.provisioning, current, n);
    NothingFor(a, plan.authenticator, r.authenticator, current, n);
    NothingFor(a, plan.writer, r.writer, current, n);
  }

  /** A schema with one function in it, which somebody else than the schema owner created and
      nobody has granted or revoked anything on. */
  function WithForeign(owner: Role, other: Role, n: Name): map<Name, Obj>
    requires n != SCHEMA
  {
    map[SCHEMA := Obj(SchemaKind, owner, None, map[]), n := Obj(Function, other, None, map[])]
  }

  function UsageOnly(): Plan {
    var none := Grants([], []);
    Plan({}, none, none, none, none, {})
  }

  /** There are such functions: everything about the wiring is in order, it goes through, and
      PUBLIC may still execute the function by default. */
  lemma ForeignFunctionStays(owner: Role, other: Role, n: Name, r: Roles)
    requires n != SCHEMA && other != owner && other != r.writer && Apart(r, owner)
    ensures var a := WithForeign(owner, other, n);
            && PlanFits(a, r, UsageOnly()) && Wireable(a, owner, r, UsageOnly())
            && forall b :: Wired(a, b, r, UsageOnly()) ==>
                 n in b && (Public, "EXECUTE") in NonOwner(b[n]) && !IsPlan(b, r, UsageOnly())
  {
    ForeignFits(owner, other, n, r);
    forall b | Wired(WithForeign(owner, other, n), b, r, UsageOnly())
      ensures n in b && (Public, "EXECUTE") in NonOwner(b[n]) && !IsPlan(b, r, UsageOnly())
    {
      ForeignKept(WithForeign(owner, other, n), b, r, UsageOnly(), owner, n);
    }
  }

  lemma ForeignFits(owner: Role, other: Role, n: Name, r: Roles)
    requires n != SCHEMA && other != owner && other != r.writer && Apart(r, owner)
    ensures var a := WithForeign(owner, other, n);
            PlanFits(a, r, UsageOnly()) && Wireable(a, owner, r, UsageOnly())
            && ThirdParty(a[n], owner, n, UsageOnly()) && (Public, "EXECUTE") in NonOwner(a[n])
  {
  }

  /** What a third owner's function carries, it keeps, whatever the plan. */
  lemma ForeignKept(a: map<Name, Obj>, b: map<Name, Obj>, r: Roles, plan: Plan, owner: Role, n: Name)
    requires PlanFits(a, r, plan) && Wireable(a, owner, r, plan) && Wired(a, b, r, plan) && n in a
    requires ThirdParty(a[n], a[SCHEMA].owner, n, plan) && (Public, "EXECUTE") in NonOwner(a[n])
    ensures n in b && (Public, "EXECUTE") in NonOwner(b[n]) && !IsPlan(b, r, plan)
  {
    assert WiredObject(a[n], b[n], a[SCHEMA].owner, r, plan, n);
    ReachesPlan(a, b, r, plan, owner);
  }

  /** Who owns what and who but the owner holds what. */
  ghost predicate SamePrivileges(a: map<Name, Obj>, b: map<Name, Obj>) {
    && b.Keys == a.Keys
    && forall n :: n in a ==>
         SameObject(a[n], b[n]) && NonOwner(a[n]) == NonOwner(b[n]) && forall c :: c in a[n].columns ==> NonOwnerOn(a[n], c) == NonOwnerOn(b[n], c)
  }

  /** A wired catalogue can be wired again, and that changes nothing: the hand-over of the entry
      points does not have to be undone first. */
  lemma SecondRunChangesNothing(a: map<Name, Obj>, b: map<Name, Obj>, c: map<Name, Obj>, r: Roles, plan: Plan, current: Role)
    requires PlanFits(a, r, plan) && Wireable(a, current, r, plan) && Wired(a, b, r, plan)
    ensures PlanFits(b, r, plan) && Wireable(b, current, r, plan)
    ensures Wired(b, c, r, plan) ==> SamePrivileges(b, c)
  {
    WiredShape(a, b, r, plan, current);
    if Wired(b, c, r, plan) {
      forall n | n in b
        ensures SameObject(b[n], c[n]) && NonOwner(b[n]) == NonOwner(c[n])
        ensures forall k :: k in b[n].columns ==> NonOwnerOn(b[n], k) == NonOwnerOn(c[n], k)
      {
        SameAgain(a, b, c, r, plan, current, n);
      }
    }
  }

  lemma SameAgain(a: map<Name, Obj>, b: map<Name, Obj>, c: map<Name, Obj>, r: Roles, plan: Plan, current: Role, n: Name)
    requires PlanFits(a, r, plan) && Wireable(a, current, r, plan) && Wired(a, b, r, plan)
    requires PlanFits(b, r, plan) && Wired(b, c, r, plan) && b[SCHEMA].owner == a[SCHEMA].owner && n in b
    ensures SameObject(b[n], c[n]) && NonOwner(b[n]) == NonOwner(c[n])
    ensures forall k :: k in b[n].columns ==> NonOwnerOn(b[n], k) == NonOwnerOn(c[n], k)
  {
    assert WiredObject(a[n], b[n], a[SCHEMA].owner, r, plan, n);
    assert WiredObject(b[n], c[n], b[SCHEMA].owner, r, plan, n);
  }

  lemma WiredShape(a: map<Name, Obj>, b: map<Name, Obj>, r: Roles, plan: Plan, current: Role)
    requires PlanFits(a, r, plan) && Wireable(a, current, r, plan) && Wired(a, b, r, plan)
    ensures PlanFits(b, r, plan) && Wireable(b, current, r, plan) && b[SCHEMA].owner == a[SCHEMA].owner
  {
    var owner := a[SCHEMA].owner;
    forall n | n in a
      ensures b[n].kind == a[n].kind && b[n].columns.Keys == a[n].columns.Keys
      ensures b[n].owner == if n in plan.entryPoints then r.writer else a[n].owner
      ensures a[n].columns == map[] ==> b[n].columns == map[]
    {
      assert WiredObject(a[n], b[n], owner, r, plan, n);
    }
    ListAgain(a, b, plan.application, plan, r, current);
    ListAgain(a, b, plan.provisioning, plan, r, current);
    ListAgain(a, b, plan.authenticator, plan, r, current);
    ListAgain(a, b, plan.writer, plan, r, current);
  }

  lemma ListAgain(a: map<Name, Obj>, b: map<Name, Obj>, g: Grants, plan: Plan, r: Roles, current: Role)
    requires ListFits(a, g, plan) && Grantable(a, g, current) && b.Keys == a.Keys && SCHEMA !in plan.entryPoints
    requires forall n :: n in plan.entryPoints && n in a ==> a[n].columns == map[]
    requires forall n :: n in a ==> b[n].columns.Keys == a[n].columns.Keys && (n !in plan.entryPoints ==> b[n].owner == a[n].owner)
    ensures ListFits(b, g, plan) && Grantable(b, g, current)
  {
  }

  // ------------------------------------------------------------------ what the plan says

  /** The role's list names the privilege on the object, or it is the schema's USAGE. */
  predicate ListGives(role: Role, g: Grants, n: Name, e: Entry) {
    e.0 == To(role) && ((n, e.1) in g.on || (n == SCHEMA && e.1 == "USAGE"))
  }

  /** On an entry point the application may execute and nobody else anything; on every other object
      each of the four roles holds what its own list says, and USAGE on the schema. */
  lemma TargetExactly(r: Roles, plan: Plan, n: Name, e: Entry)
    ensures e in Target(r, plan, n) <==>
              if n in plan.entryPoints then e == (To(r.application), "EXECUTE")
              else ListGives(r.application, plan.application, n, e) || ListGives(r.provisioning, plan.provisioning, n, e)
                   || ListGives(r.authenticator, plan.authenticator, n, e) || ListGives(r.writer, plan.writer, n, e)
  {
    OnExactly(r.application, plan.application, n, e);
    OnExactly(r.provisioning, plan.provisioning, n, e);
    OnExactly(r.authenticator, plan.authenticator, n, e);
    OnExactly(r.writer, plan.writer, n, e);
  }

  lemma OnExactly(role: Role, g: Grants, n: Name, e: Entry)
    ensures e in OnFor(role, g, n) <==> ListGives(role, g, n, e)
  {
    if (n, e.1) in g.on && e.0 == To(role) {
      var x := (n, e.1);
      assert x in g.on && x.0 == n;
    }
  }

  predicate ListGivesOn(role: Role, g: Grants, n: Name, c: string, e: Entry) {
    e.0 == To(role) && (n, c, e.1) in g.columns
  }

  lemma TargetOnExactly(r: Roles, plan: Plan, n: Name, c: string, e: Entry)
    ensures e in TargetOn(r, plan, n, c) <==>
              ListGivesOn(r.application, plan.application, n, c, e) || ListGivesOn(r.provisioning, plan.provisioning, n, c, e)
              || ListGivesOn(r.authenticator, plan.authenticator, n, c, e) || ListGivesOn(r.writer, plan.writer, n, c, e)
  {
    OnColumnExactly(r.application, plan.application, n, c, e);
    OnColumnExactly(r.provisioning, plan.provisioning, n, c, e);
    OnColumnExactly(r.authenticator, plan.authenticator, n, c, e);
    OnColumnExactly(r.writer, plan.writer, n, c, e);
  }

  lemma OnColumnExactly(role: Role, g: Grants, n: Name, c: string, e: Entry)
    ensures e in ForColumn(ColumnsFor(role, g, n), c) <==> ListGivesOn(role, g, n, c, e)
  {
    if ListGivesOn(role, g, n, c, e) {
      var x := (n, c, e.1);
      assert x in g.columns && (x.1, (To(role), x.2)) in ColumnsFor(role, g, n);
    }
  }

  /** While nobody has granted or revoked anything, PUBLIC executes functions and uses types. */
  lemma DefaultExactly(o: Obj, g: Grantee, p: Privilege)
    requires o.acl == None
    ensures (g, p) in Entries(o) <==> g == Public && ((o.kind.Function? && p == "EXECUTE") || (o.kind.Type? && p == "USAGE"))
  {
  }

  /** The connected role owns the schema's objects and all that any list names, the functions of
      others aside; each entry point is its own or the writer's, and the writer owns nothing else. */
  lemma WireableExactly(objects: map<Name, Obj>, current: Role, r: Roles, plan: Plan)
    requires PlanFits(objects, r, plan)
    ensures Wireable(objects, current, r, plan) <==>
              && (forall n :: n in objects && !(objects[n].kind.Function? && objects[n].owner != objects[SCHEMA].owner) ==>
                    objects[n].owner == current)
              && ListOwned(objects, plan.application, current) && ListOwned(objects, plan.provisioning, current)
              && ListOwned(objects, plan.authenticator, current) && ListOwned(objects, plan.writer, current)
              && (forall n :: n in plan.entryPoints ==> objects[n].owner == current || objects[n].owner == r.writer)
              && (forall n :: n in objects && objects[n].owner == r.writer ==> n in plan.entryPoints)
  {
  }

  predicate ListOwned(objects: map<Name, Obj>, g: Grants, current: Role) {
    && (forall i :: 0 <= i < |g.on| ==> g.on[i].0 in objects && objects[g.on[i].0].owner == current)
    && (forall i :: 0 <= i < |g.columns| ==> g.columns[i].0 in objects && objects[g.columns[i].0].owner == current)
  }
}
