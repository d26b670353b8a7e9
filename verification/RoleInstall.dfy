/** install_lifecycle_writer, and the wiring that ends with it. */
module RoleInstall {
  import opened Base
  import opened RoleCatalogue
  import opened RoleWiring
  import opened RoleReconcile

  // ------------------------------------------------------------------ stripping one role

  predicate HoldsAnything(o: Obj, role: Role) {
    (o.acl.Some? && exists e :: e in o.acl.value && e.0 == To(role))
    || exists c :: c in o.columns && exists e :: e in o.columns[c] && e.0 == To(role)
  }

  /** What the enumeration of one role's grants finds: on the schema owner's objects only. */
  function HeldPairs(objects: map<Name, Obj>, role: Role, owner: Role): set<(Name, Grantee)> {
    set n | n in objects && objects[n].owner == owner && HoldsAnything(objects[n], role) :: (n, To(role))
  }

  ghost predicate RidOfRole(a: map<Name, Obj>, b: map<Name, Obj>, role: Role, owner: Role) {
    b.Keys == a.Keys && forall n :: n in a ==> if a[n].owner == owner then Rid(a[n], b[n], To(role)) else b[n] == a[n]
  }

  lemma RoleStripped(objects: map<Name, Obj>, role: Role, owner: Role)
    ensures RidOfRole(objects, Revoked(objects, HeldPairs(objects, role, owner)), role, owner)
  {
    var pairs := HeldPairs(objects, role, owner);
    forall n | n in objects
      ensures if objects[n].owner == owner then Rid(objects[n], Revoked(objects, pairs)[n], To(role)) else Revoked(objects, pairs)[n] == objects[n]
    {
      if objects[n].owner == owner && HoldsAnything(objects[n], role) {
        assert (n, To(role)) in pairs;
        assert GranteesOf(pairs, n) == {To(role)};
      } else {
        assert n !in Named(pairs);
        if objects[n].owner == owner { HoldsNothing(objects[n], role); }
      }
    }
  }

  lemma HoldsNothing(o: Obj, role: Role)
    requires !HoldsAnything(o, role)
    ensures Rid(o, o, To(role))
  {
  }

  method RevokeEverythingFrom(c: Catalogue, role: Role, owner: Role)
    requires c.current == owner
    modifies c`objects
    ensures RidOfRole(old(c.objects), c.objects, role, owner)
  {
    RoleStripped(c.objects, role, owner);
    var pairs := HeldPairs(c.objects, role, owner);
    var ok := c.RevokeAll(pairs);
    assert ok;
  }

  // ------------------------------------------------------------------ the hand-over

  function Less(o: Obj, e: Entry): Obj {
    o.(acl := Some(Entries(o) - {e}))
  }

  /** The pending entry points change owner; the writer's CREATE on the schema comes and goes. */
  ghost predicate HandedOver(a: map<Name, Obj>, b: map<Name, Obj>, pending: set<Name>, writer: Role)
    requires pending <= a.Keys
  {
    && b.Keys == a.Keys
    && forall n :: n in a ==>
         if n in pending then b[n] == Handed(a[n], writer)
         else if n == SCHEMA then SameObject(a[n], b[n]) && Entries(b[n]) == Entries(a[n]) && b[n].columns == a[n].columns
         else b[n] == a[n]
  }

  /** The entry points the schema owner still owns. */
  function Pending(objects: map<Name, Obj>, entryPoints: set<Name>, owner: Role): (p: set<Name>)
    ensures p <= objects.Keys
  {
    set n | n in entryPoints && n in objects && objects[n].owner == owner
  }

  method HandOver(c: Catalogue, pending: set<Name>, writer: Role)
    requires pending <= c.objects.Keys && SCHEMA in c.objects && SCHEMA !in pending
    requires forall e :: e in Entries(c.objects[SCHEMA]) ==> e.0 != To(writer)
    modifies c`objects
    ensures HandedOver(old(c.objects), c.objects, pending, writer)
  {
    if pending == {} { return; }
    ghost var start := c.objects;
    var create := (To(writer), "CREATE");
    c.objects := c.objects[SCHEMA := Adding(c.objects[SCHEMA], create)];
    var todo := pending;
    while todo != {}
      invariant todo <= pending && c.objects.Keys == start.Keys
      invariant c.objects[SCHEMA] == Adding(start[SCHEMA], create)
      invariant forall n :: n in start && n != SCHEMA ==>
                  c.objects[n] == if n in pending && n !in todo then Handed(start[n], writer) else start[n]
      decreases |todo|
    {
      var n :| n in todo;
      c.objects := c.objects[n := Handed(c.objects[n], writer)];
      todo := todo - {n};
    }
    c.objects := c.objects[SCHEMA := Less(c.objects[SCHEMA], create)];
    assert create !in Entries(start[SCHEMA]);
    assert Entries(start[SCHEMA]) + {create} - {create} == Entries(start[SCHEMA]);
  }

  // ------------------------------------------------------------------ the entry points' own ACL

  lemma ResetClean(o: Obj)
    requires o.kind.Function?
    ensures var q := Without(o, Listed(o)); NonOwner(Without(q, {Public})) == {}
    ensures Listed(o) == {} ==> NonOwner(Without(o, {Public})) == {}
  {
  }

  /** Under SET ROLE to the writer: everybody but the owner out, the application in. */
  method ResetOne(c: Catalogue, n: Name, application: Role)
    requires n in c.objects && c.objects[n].kind.Function? && c.objects[n].owner == c.current && application != c.current
    modifies c`objects
    ensures c.objects.Keys == old(c.objects).Keys
    ensures SameObject(old(c.objects)[n], c.objects[n]) && NonOwner(c.objects[n]) == {(To(application), "EXECUTE")}
    ensures forall m :: m in c.objects && m != n ==> c.objects[m] == old(c.objects)[m]
  {
    var o := c.objects[n];
    var listed := set g | g in Listed(o) :: (n, g);
    var ok := c.RevokeAll(listed);
    assert ok;
    ListedAt(old(c.objects), n);
    ResetClean(o);
    ok := c.Revoke(n, Public);
    assert ok;
    c.objects := c.objects[n := Adding(c.objects[n], (To(application), "EXECUTE"))];
  }

  lemma ListedAt(objects: map<Name, Obj>, n: Name)
    requires n in objects
    ensures var listed := set g | g in Listed(objects[n]) :: (n, g);
            && Revoked(objects, listed)[n] == (if Listed(objects[n]) == {} then objects[n] else Without(objects[n], Listed(objects[n])))
            && forall m :: m in objects && m != n ==> Revoked(objects, listed)[m] == objects[m]
  {
    var listed := set g | g in Listed(objects[n]) :: (n, g);
    if g :| g in Listed(objects[n]) {
      assert (n, g) in listed;
    }
    assert GranteesOf(listed, n) == Listed(objects[n]) by {
      forall g ensures g in GranteesOf(listed, n) <==> g in Listed(objects[n]) {
        assert g in Listed(objects[n]) ==> (n, g) in listed;
      }
    }
  }

  ghost predicate Reset(a: map<Name, Obj>, b: map<Name, Obj>, entryPoints: set<Name>, application: Role) {
    && b.Keys == a.Keys
    && forall n :: n in a ==>
         if n in entryPoints then SameObject(a[n], b[n]) && NonOwner(b[n]) == {(To(application), "EXECUTE")} else b[n] == a[n]
  }

  method ResetEntryPoints(c: Catalogue, entryPoints: set<Name>, writer: Role, application: Role)
    requires forall n :: n in entryPoints ==> n in c.objects && c.objects[n].kind.Function? && c.objects[n].owner == writer
    requires application != writer
    modifies c
    ensures c.current == old(c.current) && Reset(old(c.objects), c.objects, entryPoints, application)
  {
    var caller := c.current;
    ghost var start := c.objects;
    c.current := writer;
    var todo := entryPoints;
    while todo != {}
      invariant todo <= entryPoints && c.current == writer && c.objects.Keys == start.Keys
      invariant forall n :: n in start ==>
                  if n in entryPoints && n !in todo then SameObject(start[n], c.objects[n]) && NonOwner(c.objects[n]) == {(To(application), "EXECUTE")}
                  else c.objects[n] == start[n]
      decreases |todo|
    {
      var n :| n in todo;
      ResetOne(c, n, application);
      todo := todo - {n};
    }
    c.current := caller;
  }

  // ------------------------------------------------------------------ the whole wiring

  ghost predicate SameShape(a: map<Name, Obj>, b: map<Name, Obj>) {
    b.Keys == a.Keys && forall n :: n in a ==> SameObject(a[n], b[n])
  }

  lemma GrantableSame(a: map<Name, Obj>, b: map<Name, Obj>, g: Grants, role: Role)
    requires SameShape(a, b)
    ensures Grantable(a, g, role) <==> Grantable(b, g, role)
  {
  }

  lemma GrantedShape(a: map<Name, Obj>, b: map<Name, Obj>, role: Role, g: Grants)
    requires Granted(a, b, role, g)
    ensures SameShape(a, b)
  {
  }

  lemma ShapeTwice(a: map<Name, Obj>, b: map<Name, Obj>, c: map<Name, Obj>)
    requires SameShape(a, b) && SameShape(b, c)
    ensures SameShape(a, c)
  {
  }

  /** The tables, once more, from PUBLIC. */
  ghost predicate PublicRevoked(a: map<Name, Obj>, b: map<Name, Obj>, tables: set<Name>) {
    b.Keys == a.Keys && forall n :: n in a ==> if n in tables then b[n] == Without(a[n], {Public}) else b[n] == a[n]
  }

  method RevokePublicTablePrivileges(c: Catalogue, tables: set<Name>)
    requires forall n :: n in tables ==> n in c.objects && c.objects[n].owner == c.current
    modifies c`objects
    ensures PublicRevoked(old(c.objects), c.objects, tables)
  {
    var pairs := set n | n in tables :: (n, Public);
    ghost var start := c.objects;
    var ok := c.RevokeAll(pairs);
    assert ok;
    forall n | n in start ensures if n in tables then c.objects[n] == Without(start[n], {Public}) else c.objects[n] == start[n] {
      if n in tables {
        assert (n, Public) in pairs;
        assert GranteesOf(pairs, n) == {Public};
      } else {
        assert n !in Named(pairs);
      }
    }
  }

  /** The three runtime roles, one after the other; a grant on somebody else's object fails. */
  method GrantRuntimeRoles(c: Catalogue, r: Roles, plan: Plan) returns (ok: bool, ghost s3: map<Name, Obj>, ghost s4: map<Name, Obj>)
    modifies c`objects
    ensures ok <==> Grantable(old(c.objects), plan.application, c.current) && Grantable(old(c.objects), plan.provisioning, c.current)
                    && Grantable(old(c.objects), plan.authenticator, c.current)
    ensures ok ==> Granted(old(c.objects), s3, r.application, plan.application) && Granted(s3, s4, r.provisioning, plan.provisioning)
                   && Granted(s4, c.objects, r.authenticator, plan.authenticator)
    ensures ok ==> SameShape(old(c.objects), c.objects)
  {
    ghost var s2 := c.objects;
    s3, s4 := s2, s2;
    ok := Grantable(c.objects, plan.application, c.current);
    if !ok { return; }
    GrantRole(c, r.application, plan.application);
    s3 := c.objects;
    GrantedShape(s2, s3, r.application, plan.application);
    GrantableSame(s2, s3, plan.provisioning, c.current);
    ok := Grantable(c.objects, plan.provisioning, c.current);
    if !ok { return; }
    GrantRole(c, r.provisioning, plan.provisioning);
    s4 := c.objects;
    GrantedShape(s3, s4, r.provisioning, plan.provisioning);
    ShapeTwice(s2, s3, s4);
    GrantableSame(s2, s4, plan.authenticator, c.current);
    ok := Grantable(c.objects, plan.authenticator, c.current);
    if !ok { return; }
    GrantRole(c, r.authenticator, plan.authenticator);
    GrantedShape(s4, c.objects, r.authenticator, plan.authenticator);
    ShapeTwice(s2, s4, c.objects);
  }

  /** The writer's old grants go, and the entry points become its own. */
  method HandToWriter(c: Catalogue, plan: Plan, owner: Role, writer: Role) returns (ok: bool, ghost s6: map<Name, Obj>)
    requires c.current == owner && SCHEMA in c.objects && c.objects[SCHEMA].owner == owner && SCHEMA !in plan.entryPoints
    modifies c`objects
    ensures ok <==> EntryPointsOk(old(c.objects), plan.entryPoints, owner, writer)
    ensures ok ==> RidOfRole(old(c.objects), s6, writer, owner) && EntryPointsOk(s6, plan.entryPoints, owner, writer)
                   && HandedOver(s6, c.objects, Pending(s6, plan.entryPoints, owner), writer)
  {
    ghost var s5 := c.objects;
    RevokeEverythingFrom(c, writer, owner);
    s6 := c.objects;
    RidShape(s5, s6, writer, owner);
    ok := EntryPointsOk(c.objects, plan.entryPoints, owner, writer);
    if ok {
      HandOver(c, Pending(c.objects, plan.entryPoints, owner), writer);
    }
  }

  /** The writer's new grants, and the entry points' own ACL. */
  method EquipWriter(c: Catalogue, r: Roles, plan: Plan) returns (ok: bool, ghost s8: map<Name, Obj>)
    requires r.application != r.writer
    requires forall n :: n in plan.entryPoints ==> n in c.objects && c.objects[n].kind.Function? && c.objects[n].owner == r.writer
    modifies c
    ensures c.current == old(c.current)
    ensures ok <==> Grantable(old(c.objects), plan.writer, old(c.current))
    ensures ok ==> Granted(old(c.objects), s8, r.writer, plan.writer) && Reset(s8, c.objects, plan.entryPoints, r.application)
  {
    ghost var s7 := c.objects;
    s8 := s7;
    ok := Grantable(c.objects, plan.writer, c.current);
    if !ok { return; }
    GrantRole(c, r.writer, plan.writer);
    s8 := c.objects;
    GrantedShape(s7, s8, r.writer, plan.writer);
    ResetEntryPoints(c, plan.entryPoints, r.writer, r.application);
  }

  method InstallLifecycleWriter(c: Catalogue, r: Roles, plan: Plan, owner: Role)
    returns (ok: bool, ghost s6: map<Name, Obj>, ghost s7: map<Name, Obj>, ghost s8: map<Name, Obj>)
    requires c.current == owner && PlanFits(c.objects, r, plan) && c.objects[SCHEMA].owner == owner
    modifies c
    ensures c.current == old(c.current)
    ensures ok <==> EntryPointsOk(old(c.objects), plan.entryPoints, owner, r.writer) && Grantable(old(c.objects), plan.writer, owner)
    ensures ok ==>
              && RidOfRole(old(c.objects), s6, r.writer, owner) && EntryPointsOk(s6, plan.entryPoints, owner, r.writer)
              && HandedOver(s6, s7, Pending(s6, plan.entryPoints, owner), r.writer)
              && Granted(s7, s8, r.writer, plan.writer)
              && Reset(s8, c.objects, plan.entryPoints, r.application)
  {
    ghost var s5 := c.objects;
    s7, s8 := s5, s5;
    ok, s6 := HandToWriter(c, plan, owner, r.writer);
    if !ok { return; }
    s7 := c.objects;
    EntryPointsHanded(s5, s6, s7, plan, owner, r.writer);
    ok, s8 := EquipWriter(c, r, plan);
  }

  lemma RidShape(a: map<Name, Obj>, b: map<Name, Obj>, role: Role, owner: Role)
    requires RidOfRole(a, b, role, owner)
    ensures SameShape(a, b)
    ensures SCHEMA in a && a[SCHEMA].owner == owner ==> forall e :: e in Entries(b[SCHEMA]) ==> e.0 != To(role)
  {
  }

  /** After the hand-over the entry points are the writer's, and nothing its own list is about
      has changed hands. */
  lemma EntryPointsHanded(s5: map<Name, Obj>, s6: map<Name, Obj>, s7: map<Name, Obj>, plan: Plan, owner: Role, writer: Role)
    requires RidOfRole(s5, s6, writer, owner) && EntryPointsOk(s6, plan.entryPoints, owner, writer)
    requires HandedOver(s6, s7, Pending(s6, plan.entryPoints, owner), writer)
    requires ListFits(s5, plan.writer, plan) && SCHEMA in s5 && SCHEMA !in plan.entryPoints
    requires forall n :: n in plan.entryPoints ==> s5[n].kind.Function? && s5[n].columns == map[]
    ensures forall n :: n in plan.entryPoints ==> n in s7 && s7[n].kind.Function? && s7[n].owner == writer && s7[n].columns == map[]
    ensures forall n :: n in s5 && n !in plan.entryPoints ==> n in s7 && SameObject(s5[n], s7[n])
    ensures Grantable(s7, plan.writer, owner) <==> Grantable(s5, plan.writer, owner)
  {
    RidShape(s5, s6, writer, owner);
    forall n | n in s5 && n !in plan.entryPoints ensures n in s7 && SameObject(s5[n], s7[n]) {
      assert SameObject(s5[n], s6[n]);
    }
    forall n | n in plan.entryPoints
      ensures n in s7 && s7[n].kind.Function? && s7[n].owner == writer && s7[n].columns == map[]
    {
      assert SameObject(s5[n], s6[n]);
      assert s6[n].columns == map[];
    }
    ListUnmoved(s5, s7, plan, owner);
  }

  lemma ListUnmoved(s5: map<Name, Obj>, s7: map<Name, Obj>, plan: Plan, owner: Role)
    requires ListFits(s5, plan.writer, plan) && SCHEMA in s5 && SCHEMA !in plan.entryPoints
    requires forall n :: n in plan.entryPoints && n in s5 ==> s5[n].columns == map[]
    requires forall n :: n in s5 && n !in plan.entryPoints ==> n in s7 && SameObject(s5[n], s7[n])
    ensures Grantable(s7, plan.writer, owner) <==> Grantable(s5, plan.writer, owner)
  {
  }
}
