/** Role wiring as reconciliation: from any catalogue to exactly the plan. */
module RoleWiring {
  import opened Base
  import opened RoleCatalogue

  // ------------------------------------------------------------------ the sanitiser

  datatype Group = Schemas | Relations | Functions | Types

  /** What one pair of the sanitiser's loops enumerates; of the functions, only the owner's. */
  predicate InGroup(o: Obj, g: Group, owner: Role) {
    match g
    case Schemas => o.kind.SchemaKind?
    case Relations => o.kind.Table? || o.kind.Sequence?
    case Functions => o.kind.Function? && o.owner == owner
    case Types => o.kind.Type?
  }

  predicate Foreign(o: Obj, owner: Role) {
    o.kind.Function? && o.owner != owner
  }

  /** Only tables have columns, and the schema is there. */
  predicate WellFormed(objects: map<Name, Obj>) {
    && (forall n :: n in objects && !objects[n].kind.Table? ==> objects[n].columns == map[])
    && (forall n :: n in objects ==> (objects[n].kind.SchemaKind? <==> n == SCHEMA))
    && SCHEMA in objects
  }

  function PublicPairs(objects: map<Name, Obj>, g: Group, owner: Role): set<(Name, Grantee)> {
    set n | n in objects && InGroup(objects[n], g, owner) :: (n, Public)
  }

  function ListedPairs(objects: map<Name, Obj>, g: Group, owner: Role): set<(Name, Grantee)> {
    set n, x | n in objects && InGroup(objects[n], g, owner) && x in Listed(objects[n]) :: (n, x)
  }

  /** After the loops of a group, its objects are the owner's alone; the others are untouched. */
  ghost predicate Stripped(a: map<Name, Obj>, b: map<Name, Obj>, g: Group, owner: Role) {
    && b.Keys == a.Keys
    && forall n :: n in a ==>
         && SameObject(a[n], b[n])
         && (if InGroup(a[n], g, owner) then NonOwner(b[n]) == {} else b[n] == a[n])
         && forall c :: c in a[n].columns ==> b[n].columns[c] <= a[n].columns[c]
  }

  lemma GroupStripped(objects: map<Name, Obj>, g: Group, owner: Role)
    ensures var p := Revoked(objects, PublicPairs(objects, g, owner));
            Stripped(objects, Revoked(p, ListedPairs(p, g, owner)), g, owner)
  {
    var p := Revoked(objects, PublicPairs(objects, g, owner));
    var q := Revoked(p, ListedPairs(p, g, owner));
    forall n | n in objects
      ensures SameObject(objects[n], q[n])
      ensures if InGroup(objects[n], g, owner) then NonOwner(q[n]) == {} else q[n] == objects[n]
      ensures forall c :: c in objects[n].columns ==> q[n].columns[c] <= objects[n].columns[c]
    {
      ObjectStripped(objects, g, owner, n);
    }
  }

  lemma ObjectStripped(objects: map<Name, Obj>, g: Group, owner: Role, n: Name)
    requires n in objects
    ensures var p := Revoked(objects, PublicPairs(objects, g, owner));
            var q := Revoked(p, ListedPairs(p, g, owner));
            && SameObject(objects[n], q[n])
            && (if InGroup(objects[n], g, owner) then NonOwner(q[n]) == {} else q[n] == objects[n])
            && forall c :: c in objects[n].columns ==> q[n].columns[c] <= objects[n].columns[c]
  {
    var p := Revoked(objects, PublicPairs(objects, g, owner));
    var listed := ListedPairs(p, g, owner);
    if InGroup(objects[n], g, owner) {
      assert (n, Public) in PublicPairs(objects, g, owner);
      assert GranteesOf(PublicPairs(objects, g, owner), n) == {Public};
      assert p[n] == Without(objects[n], {Public});
      StrippedClean(objects[n]);
      assert GranteesOf(listed, n) == Listed(p[n]) by {
        forall x ensures x in GranteesOf(listed, n) <==> x in Listed(p[n]) {
          assert x in Listed(p[n]) ==> (n, x) in listed;
        }
      }
      if n in Named(listed) {
        assert Revoked(p, listed)[n] == Without(p[n], Listed(p[n]));
      } else {
        forall x ensures x !in Listed(p[n]) {
          assert x in Listed(p[n]) ==> (n, x) in listed;
        }
        assert NonOwner(p[n]) == NonOwner(Without(p[n], Listed(p[n])));
      }
    } else {
      assert n !in Named(PublicPairs(objects, g, owner));
      assert n !in Named(listed);
    }
  }

  /** The column grants still there, to PUBLIC or to anybody but the owner. */
  function ColumnTriples(objects: map<Name, Obj>, public: bool): set<(Name, string, Grantee)> {
    set n, c, e | n in objects && c in objects[n].columns && e in objects[n].columns[c]
                  && (if public then e.0 == Public else e.0 != Public && e.0 != To(objects[n].owner)) :: (n, c, e.0)
  }

  ghost predicate ColumnsStripped(a: map<Name, Obj>, b: map<Name, Obj>) {
    && b.Keys == a.Keys
    && forall n :: n in a ==> SameObject(a[n], b[n]) && b[n].acl == a[n].acl && forall c :: c in b[n].columns ==> NonOwnerOn(b[n], c) == {}
  }

  lemma AllColumnsStripped(objects: map<Name, Obj>)
    ensures var p := RevokedOn(objects, ColumnTriples(objects, true));
            ColumnsStripped(objects, RevokedOn(p, ColumnTriples(p, false)))
  {
    var t := ColumnTriples(objects, true);
    var p := RevokedOn(objects, t);
    var u := ColumnTriples(p, false);
    var q := RevokedOn(p, u);
    forall n, c | n in objects && c in objects[n].columns ensures NonOwnerOn(q[n], c) == {} {
      forall e | e in objects[n].columns[c] && e.0 == Public ensures (c, e.0) in ColumnsOf(t, n) {
        assert (n, c, e.0) in t;
      }
      forall e | e in p[n].columns[c] && e.0 != To(p[n].owner) ensures (c, e.0) in ColumnsOf(u, n) {
        assert (n, c, e.0) in u;
      }
    }
  }

  /** Every object but a foreign function is its owner's alone, and nothing else has changed. */
  ghost predicate Sanitized(a: map<Name, Obj>, b: map<Name, Obj>, owner: Role) {
    && b.Keys == a.Keys
    && forall n :: n in a ==> SameObject(a[n], b[n]) && if Foreign(a[n], owner) then b[n] == a[n] else Clean(b[n])
  }

  /** Every object the sanitiser touches is the current role's. */
  predicate Mine(objects: map<Name, Obj>, owner: Role, role: Role) {
    forall n :: n in objects && !Foreign(objects[n], owner) ==> objects[n].owner == role
  }

  method StripGroup(c: Catalogue, g: Group, owner: Role) returns (ok: bool)
    modifies c`objects
    ensures ok <==> forall n :: n in old(c.objects) && InGroup(old(c.objects)[n], g, owner) ==> old(c.objects)[n].owner == c.current
    ensures ok ==> Stripped(old(c.objects), c.objects, g, owner)
  {
    var start := c.objects;
    forall n | n in start && InGroup(start[n], g, owner) ensures (n, Public) in PublicPairs(start, g, owner) {}
    ok := c.RevokeAll(PublicPairs(c.objects, g, owner));
    if !ok { return; }
    GroupStripped(start, g, owner);
    var listed := ListedPairs(c.objects, g, owner);
    var done := c.RevokeAll(listed);
    StillOwned(start, c.current, g, owner);
    assert done;
  }

  lemma StillOwned(objects: map<Name, Obj>, role: Role, g: Group, owner: Role)
    requires Owned(objects, PublicPairs(objects, g, owner), role)
    ensures var p := Revoked(objects, PublicPairs(objects, g, owner)); Owned(p, ListedPairs(p, g, owner), role)
  {
  }

  method StripColumns(c: Catalogue) returns (ok: bool)
    requires forall n :: n in c.objects && c.objects[n].columns != map[] ==> c.objects[n].owner == c.current
    modifies c`objects
    ensures ok && ColumnsStripped(old(c.objects), c.objects)
  {
    var start := c.objects;
    AllColumnsStripped(start);
    ok := c.RevokeColumns(ColumnTriples(c.objects, true));
    assert ok;
    ok := c.RevokeColumns(ColumnTriples(c.objects, false));
    assert ok;
  }

  /** SCHEMA_ACL_SANITIZER_BODY. It stops at the first object that is not the current role's. */
  method Sanitize(c: Catalogue) returns (ok: bool)
    requires WellFormed(c.objects)
    modifies c`objects
    ensures ok <==> Mine(old(c.objects), old(c.objects)[SCHEMA].owner, c.current)
    ensures ok ==> Sanitized(old(c.objects), c.objects, old(c.objects)[SCHEMA].owner) && WellFormed(c.objects)
  {
    var owner := c.objects[SCHEMA].owner;
    ghost var s0 := c.objects;
    ok := StripGroup(c, Schemas, owner);
    if !ok { return; }
    ghost var s1 := c.objects;
    ok := StripGroup(c, Relations, owner);
    if !ok { return; }
    ghost var s2 := c.objects;
    ok := StripColumns(c);
    ghost var s3 := c.objects;
    ok := StripGroup(c, Functions, owner);
    ghost var s4 := c.objects;
    assert ok;
    ok := StripGroup(c, Types, owner);
    if ok {
      AllStripped(s0, s1, s2, s3, s4, c.objects, owner);
    }
  }

  lemma AllStripped(s0: map<Name, Obj>, s1: map<Name, Obj>, s2: map<Name, Obj>, s3: map<Name, Obj>,
                    s4: map<Name, Obj>, s5: map<Name, Obj>, owner: Role)
    requires WellFormed(s0) && Stripped(s0, s1, Schemas, owner) && Stripped(s1, s2, Relations, owner)
    requires ColumnsStripped(s2, s3) && Stripped(s3, s4, Functions, owner) && Stripped(s4, s5, Types, owner)
    ensures Sanitized(s0, s5, owner) && WellFormed(s5)
  {
    forall n | n in s0 ensures SameObject(s0[n], s5[n]) && if Foreign(s0[n], owner) then s5[n] == s0[n] else Clean(s5[n]) {
      OneStripped(s0[n], s1[n], s2[n], s3[n], s4[n], s5[n], owner);
    }
  }

  /** One object through the five pairs of loops; it belongs to one group at most. */
  lemma OneStripped(o0: Obj, o1: Obj, o2: Obj, o3: Obj, o4: Obj, o5: Obj, owner: Role)
    requires o0.kind.Table? || o0.columns == map[]
    requires SameObject(o0, o1) && SameObject(o1, o2) && SameObject(o2, o3) && SameObject(o3, o4) && SameObject(o4, o5)
    requires if InGroup(o0, Schemas, owner) then NonOwner(o1) == {} else o1 == o0
    requires if InGroup(o1, Relations, owner) then NonOwner(o2) == {} else o2 == o1
    requires o3.acl == o2.acl && forall c :: c in o3.columns ==> NonOwnerOn(o3, c) == {}
    requires if InGroup(o3, Functions, owner) then NonOwner(o4) == {} else o4 == o3
    requires if InGroup(o4, Types, owner) then NonOwner(o5) == {} else o5 == o4
    requires forall c :: c in o3.columns ==> o4.columns[c] <= o3.columns[c]
    requires forall c :: c in o4.columns ==> o5.columns[c] <= o4.columns[c]
    ensures SameObject(o0, o5) && if Foreign(o0, owner) then o5 == o0 else Clean(o5)
  {
  }

  // ------------------------------------------------------------------ the plan

  /** What one role is given besides USAGE on the schema: privileges on functions and tables,
      and on single columns. */
  datatype Grants = Grants(on: seq<(Name, Privilege)>, columns: seq<(Name, string, Privilege)>)

  datatype Roles = Roles(application: Role, provisioning: Role, authenticator: Role, writer: Role)

  datatype Plan = Plan(tables: set<Name>, application: Grants, provisioning: Grants, authenticator: Grants,
                       writer: Grants, entryPoints: set<Name>)

  /** USAGE on the schema and what the plan names. */
  function OnFor(role: Role, g: Grants, n: Name): set<Entry> {
    (set x | x in g.on && x.0 == n :: (To(role), x.1)) + (if n == SCHEMA then {(To(role), "USAGE")} else {})
  }

  function ColumnsFor(role: Role, g: Grants, n: Name): set<(string, Entry)> {
    set x | x in g.columns && x.0 == n :: (x.1, (To(role), x.2))
  }

  function ForColumn(columns: set<(string, Entry)>, c: string): set<Entry> {
    set x | x in columns && x.0 == c :: x.1
  }

  /** One object with more granted on it. */
  ghost predicate Gains(a: Obj, b: Obj, on: set<Entry>, columns: set<(string, Entry)>) {
    && SameObject(a, b) && Entries(b) == Entries(a) + on
    && forall c :: c in a.columns ==> b.columns[c] == a.columns[c] + ForColumn(columns, c)
  }

  /** One role's grants, added to what is there. */
  ghost predicate Granted(a: map<Name, Obj>, b: map<Name, Obj>, role: Role, g: Grants) {
    b.Keys == a.Keys && forall n :: n in a ==> Gains(a[n], b[n], OnFor(role, g, n), ColumnsFor(role, g, n))
  }

  function Adding(o: Obj, e: Entry): Obj {
    o.(acl := Some(Entries(o) + {e}))
  }

  function AddingOn(o: Obj, column: string, e: Entry): Obj
    requires column in o.columns
  {
    o.(columns := o.columns[column := o.columns[column] + {e}])
  }

  lemma GainsColumn(a: Obj, b: Obj, on: set<Entry>, columns: set<(string, Entry)>, c: string, e: Entry)
    requires Gains(a, b, on, columns) && c in a.columns
    ensures Gains(a, AddingOn(b, c, e), on, columns + {(c, e)})
  {
  }

  /** What the plan grants on exists and is the current role's to grant. */
  predicate Grantable(objects: map<Name, Obj>, g: Grants, role: Role) {
    && (forall x :: x in g.on ==> x.0 in objects && x.0 != SCHEMA && objects[x.0].owner == role)
    && (forall x :: x in g.columns ==> x.0 in objects && objects[x.0].owner == role && x.1 in objects[x.0].columns)
    && SCHEMA in objects && objects[SCHEMA].owner == role
  }

  lemma GrantedNone(a: map<Name, Obj>, role: Role)
    requires SCHEMA in a
    ensures Granted(a, a[SCHEMA := Adding(a[SCHEMA], (To(role), "USAGE"))], role, Grants([], []))
  {
  }

  lemma GrantedMore(a: map<Name, Obj>, b: map<Name, Obj>, role: Role, g: Grants, x: (Name, Privilege))
    requires Granted(a, b, role, g) && x.0 in a
    ensures Granted(a, b[x.0 := Adding(b[x.0], (To(role), x.1))], role, Grants(g.on + [x], g.columns))
  {
    var h := Grants(g.on + [x], g.columns);
    var after := b[x.0 := Adding(b[x.0], (To(role), x.1))];
    assert after.Keys == a.Keys;
    forall n | n in a ensures Gains(a[n], after[n], OnFor(role, h, n), ColumnsFor(role, h, n)) {
      GrantedMoreAt(a[n], b[n], after[n], role, g, x, n);
    }
  }

  lemma GrantedMoreAt(a: Obj, b: Obj, after: Obj, role: Role, g: Grants, x: (Name, Privilege), n: Name)
    requires Gains(a, b, OnFor(role, g, n), ColumnsFor(role, g, n))
    requires after == if n == x.0 then Adding(b, (To(role), x.1)) else b
    ensures var h := Grants(g.on + [x], g.columns); Gains(a, after, OnFor(role, h, n), ColumnsFor(role, h, n))
  {
  }

  lemma MoreColumns(role: Role, g: Grants, x: (Name, string, Privilege), n: Name)
    ensures ColumnsFor(role, Grants(g.on, g.columns + [x]), n)
            == if n == x.0 then ColumnsFor(role, g, n) + {(x.1, (To(role), x.2))} else ColumnsFor(role, g, n)
  {
  }

  lemma GrantedColumn(a: map<Name, Obj>, b: map<Name, Obj>, role: Role, g: Grants, x: (Name, string, Privilege))
    requires Granted(a, b, role, g) && x.0 in a && x.1 in a[x.0].columns && x.1 in b[x.0].columns
    ensures Granted(a, b[x.0 := AddingOn(b[x.0], x.1, (To(role), x.2))], role, Grants(g.on, g.columns + [x]))
  {
    var h := Grants(g.on, g.columns + [x]);
    var after := b[x.0 := AddingOn(b[x.0], x.1, (To(role), x.2))];
    assert after.Keys == a.Keys;
    forall n | n in a ensures Gains(a[n], after[n], OnFor(role, h, n), ColumnsFor(role, h, n)) {
      GrantedColumnAt(a[n], b[n], after[n], role, g, x, n);
    }
  }

  lemma GrantedColumnAt(a: Obj, b: Obj, after: Obj, role: Role, g: Grants, x: (Name, string, Privilege), n: Name)
    requires Gains(a, b, OnFor(role, g, n), ColumnsFor(role, g, n))
    requires n == x.0 ==> x.1 in a.columns && x.1 in b.columns
    requires after == if n == x.0 then AddingOn(b, x.1, (To(role), x.2)) else b
    ensures var h := Grants(g.on, g.columns + [x]); Gains(a, after, OnFor(role, h, n), ColumnsFor(role, h, n))
  {
    MoreColumns(role, g, x, n);
    assert OnFor(role, Grants(g.on, g.columns + [x]), n) == OnFor(role, g, n);
    if n == x.0 {
      GainsColumn(a, b, OnFor(role, g, n), ColumnsFor(role, g, n), x.1, (To(role), x.2));
    }
  }

  /** GRANT … ON object TO role. */
  method GrantOne(c: Catalogue, role: Role, x: (Name, Privilege), ghost start: map<Name, Obj>, ghost g: Grants,
                  ghost h: Grants)
    requires x.0 in start && Granted(start, c.objects, role, g) && h == Grants(g.on + [x], g.columns)
    modifies c`objects
    ensures Granted(start, c.objects, role, h)
  {
    GrantedMore(start, c.objects, role, g, x);
    c.objects := c.objects[x.0 := Adding(c.objects[x.0], (To(role), x.1))];
  }

  /** GRANT … (column) ON TABLE TO role. */
  method GrantColumn(c: Catalogue, role: Role, x: (Name, string, Privilege), ghost start: map<Name, Obj>, ghost g: Grants,
                     ghost h: Grants)
    requires x.0 in start && x.1 in start[x.0].columns && Granted(start, c.objects, role, g)
    requires h == Grants(g.on, g.columns + [x])
    modifies c`objects
    ensures Granted(start, c.objects, role, h)
  {
    assert Gains(start[x.0], c.objects[x.0], OnFor(role, g, x.0), ColumnsFor(role, g, x.0));
    GrantedColumn(start, c.objects, role, g, x);
    c.objects := c.objects[x.0 := AddingOn(c.objects[x.0], x.1, (To(role), x.2))];
  }

  method GrantRole(c: Catalogue, role: Role, g: Grants)
    requires Grantable(c.objects, g, c.current)
    modifies c`objects
    ensures Granted(old(c.objects), c.objects, role, g)
  {
    ghost var start := c.objects;
    GrantedNone(start, role);
    c.objects := c.objects[SCHEMA := Adding(c.objects[SCHEMA], (To(role), "USAGE"))];
    GrantObjects(c, role, g, start);
    GrantColumns(c, role, g, start);
  }

  method GrantObjects(c: Catalogue, role: Role, g: Grants, ghost start: map<Name, Obj>)
    requires (forall x :: x in g.on ==> x.0 in start) && Granted(start, c.objects, role, Grants([], []))
    modifies c`objects
    ensures Granted(start, c.objects, role, Grants(g.on, []))
  {
    for i := 0 to |g.on|
      invariant Granted(start, c.objects, role, Grants(g.on[..i], []))
    {
      assert g.on[..i + 1] == g.on[..i] + [g.on[i]];
      GrantOne(c, role, g.on[i], start, Grants(g.on[..i], []), Grants(g.on[..i + 1], []));
    }
    assert g.on[..|g.on|] == g.on;
  }

  method GrantColumns(c: Catalogue, role: Role, g: Grants, ghost start: map<Name, Obj>)
    requires forall x :: x in g.columns ==> x.0 in start && x.1 in start[x.0].columns
    requires Granted(start, c.objects, role, Grants(g.on, []))
    modifies c`objects
    ensures Granted(start, c.objects, role, g)
  {
    for i := 0 to |g.columns|
      invariant Granted(start, c.objects, role, Grants(g.on, g.columns[..i]))
    {
      assert g.columns[..i + 1] == g.columns[..i] + [g.columns[i]];
      GrantColumn(c, role, g.columns[i], start, Grants(g.on, g.columns[..i]), Grants(g.on, g.columns[..i + 1]));
    }
    assert g.columns[..|g.columns|] == g.columns;
  }
}
