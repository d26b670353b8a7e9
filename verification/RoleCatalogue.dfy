/** The privilege catalogue of one schema, and the statements that change it. */
module RoleCatalogue {
  import opened Base

  type Role = string
  type Privilege = string
  type Name = string

  datatype Grantee = Public | To(role: Role)
  datatype Kind = SchemaKind | Table | Sequence | Function | Type

  type Entry = (Grantee, Privilege)

  /** `acl` is None while an object has only its default privileges; columns have none then. */
  datatype Obj = Obj(kind: Kind, owner: Role, acl: Option<set<Entry>>, columns: map<string, set<Entry>>)

  const SCHEMA: Name := "firmbatch"

  /** What PUBLIC holds on an object nobody has granted or revoked anything on. */
  function Default(kind: Kind): set<Entry> {
    match kind
    case Function => {(Public, "EXECUTE")}
    case Type => {(Public, "USAGE")}
    case _ => {}
  }

  function Entries(o: Obj): set<Entry> {
    if o.acl.Some? then o.acl.value else Default(o.kind)
  }

  function Except(entries: set<Entry>, gs: set<Grantee>): set<Entry> {
    set e | e in entries && e.0 !in gs
  }

  /** What anybody but the owner holds. */
  function NonOwner(o: Obj): set<Entry> {
    Except(Entries(o), {To(o.owner)})
  }

  function NonOwnerOn(o: Obj, column: string): set<Entry> {
    if column in o.columns then Except(o.columns[column], {To(o.owner)}) else {}
  }

  predicate Clean(o: Obj) {
    NonOwner(o) == {} && forall c :: c in o.columns ==> NonOwnerOn(o, c) == {}
  }

  /** The same object, whatever is granted on it. */
  predicate SameObject(a: Obj, b: Obj) {
    a.kind == b.kind && a.owner == b.owner && a.columns.Keys == b.columns.Keys
  }

  // ------------------------------------------------------------------ what a statement does

  /** REVOKE ALL ON object FROM each of `gs`; on a table it takes the column privileges too. */
  function Without(o: Obj, gs: set<Grantee>): Obj {
    o.(acl := Some(Except(Entries(o), gs)), columns := map c | c in o.columns :: Except(o.columns[c], gs))
  }

  function WithoutOn(o: Obj, from: set<(string, Grantee)>): Obj {
    o.(columns := map c | c in o.columns :: set e | e in o.columns[c] && (c, e.0) !in from)
  }

  function Renamed(g: Grantee, from: Role, to: Role): Grantee {
    if g == To(from) then To(to) else g
  }

  /** ALTER … OWNER TO: the old owner's entries become the new owner's. */
  function Handed(o: Obj, to: Role): Obj {
    Obj(o.kind, to, if o.acl.Some? then Some(set e | e in o.acl.value :: (Renamed(e.0, o.owner, to), e.1)) else None, o.columns)
  }

  lemma WithoutTwice(o: Obj, a: set<Grantee>, b: set<Grantee>)
    ensures Without(Without(o, a), b) == Without(o, a + b)
  {
    var x, y := Without(Without(o, a), b), Without(o, a + b);
    assert Except(Except(Entries(o), a), b) == Except(Entries(o), a + b);
    forall c | c in o.columns ensures x.columns[c] == y.columns[c] {
      assert Except(Except(o.columns[c], a), b) == Except(o.columns[c], a + b);
    }
    assert x.columns == y.columns;
  }

  // ------------------------------------------------------------------ what the loops enumerate

  function RolesIn(entries: set<Entry>, owner: Role): set<Grantee> {
    set e | e in entries && e.0 != Public && e.0 != To(owner) :: e.0
  }

  /** aclexplode of an object's ACL, without PUBLIC and the owner; nothing while it is NULL. */
  function Listed(o: Obj): set<Grantee> {
    if o.acl.Some? then RolesIn(o.acl.value, o.owner) else {}
  }

  function GranteesOf(pairs: set<(Name, Grantee)>, n: Name): set<Grantee> {
    set p | p in pairs && p.0 == n :: p.1
  }

  function ColumnsOf(triples: set<(Name, string, Grantee)>, n: Name): set<(string, Grantee)> {
    set t | t in triples && t.0 == n :: (t.1, t.2)
  }

  /** Taking PUBLIC and then every listed role leaves an object to its owner. */
  lemma StrippedClean(o: Obj)
    ensures var p := Without(o, {Public}); NonOwner(Without(p, Listed(p))) == {}
  {
  }

  // ------------------------------------------------------------------ many statements

  function Revoked(objects: map<Name, Obj>, pairs: set<(Name, Grantee)>): map<Name, Obj> {
    map n | n in objects :: if n in Named(pairs) then Without(objects[n], GranteesOf(pairs, n)) else objects[n]
  }

  function Named(pairs: set<(Name, Grantee)>): set<Name> {
    set p | p in pairs :: p.0
  }

  function RevokedOn(objects: map<Name, Obj>, triples: set<(Name, string, Grantee)>): map<Name, Obj> {
    map n | n in objects :: WithoutOn(objects[n], ColumnsOf(triples, n))
  }

  ghost predicate Owned(objects: map<Name, Obj>, pairs: set<(Name, Grantee)>, role: Role) {
    forall p :: p in pairs ==> p.0 in objects && objects[p.0].owner == role
  }

  lemma RevokedNone(objects: map<Name, Obj>)
    ensures Revoked(objects, {}) == objects
  {
  }

  lemma RevokedMore(objects: map<Name, Obj>, done: set<(Name, Grantee)>, p: (Name, Grantee))
    requires p.0 in objects
    ensures Revoked(objects, done + {p}) == Revoked(objects, done)[p.0 := Without(Revoked(objects, done)[p.0], {p.1})]
  {
    var l, r := Revoked(objects, done + {p}), Revoked(objects, done)[p.0 := Without(Revoked(objects, done)[p.0], {p.1})];
    forall n | n in objects ensures l[n] == r[n] {
      if n == p.0 {
        assert n in Named(done + {p}) by { assert p in done + {p}; }
        assert GranteesOf(done + {p}, n) == GranteesOf(done, n) + {p.1};
        WithoutTwice(objects[n], GranteesOf(done, n), {p.1});
        if n !in Named(done) {
          assert GranteesOf(done, n) == {};
          assert GranteesOf(done, n) + {p.1} == {p.1};
        }
      } else {
        assert GranteesOf(done + {p}, n) == GranteesOf(done, n);
        assert n in Named(done + {p}) <==> n in Named(done);
      }
    }
  }

  lemma RevokedOwner(objects: map<Name, Obj>, pairs: set<(Name, Grantee)>, n: Name)
    requires n in objects
    ensures Revoked(objects, pairs)[n].owner == objects[n].owner
  {
  }

  lemma RevokedOnNone(objects: map<Name, Obj>)
    ensures RevokedOn(objects, {}) == objects
  {
    forall n | n in objects ensures RevokedOn(objects, {})[n] == objects[n] {
      assert ColumnsOf({}, n) == {};
      NothingOn(objects[n]);
    }
  }

  lemma NothingOn(o: Obj)
    ensures WithoutOn(o, {}) == o
  {
    forall c | c in o.columns ensures WithoutOn(o, {}).columns[c] == o.columns[c] {}
    assert WithoutOn(o, {}).columns == o.columns;
  }

  lemma WithoutOnTwice(o: Obj, a: set<(string, Grantee)>, x: (string, Grantee))
    ensures WithoutOn(WithoutOn(o, a), {x}) == WithoutOn(o, a + {x})
  {
    var l, r := WithoutOn(WithoutOn(o, a), {x}), WithoutOn(o, a + {x});
    forall c | c in o.columns ensures l.columns[c] == r.columns[c] {}
    assert l.columns == r.columns;
  }

  lemma RevokedOnMore(objects: map<Name, Obj>, done: set<(Name, string, Grantee)>, t: (Name, string, Grantee))
    requires t.0 in objects
    ensures RevokedOn(objects, done + {t})
            == RevokedOn(objects, done)[t.0 := WithoutOn(RevokedOn(objects, done)[t.0], {(t.1, t.2)})]
  {
    var l := RevokedOn(objects, done + {t});
    var r := RevokedOn(objects, done)[t.0 := WithoutOn(RevokedOn(objects, done)[t.0], {(t.1, t.2)})];
    forall n | n in objects ensures l[n] == r[n] {
      if n == t.0 {
        assert ColumnsOf(done + {t}, n) == ColumnsOf(done, n) + {(t.1, t.2)};
        WithoutOnTwice(objects[n], ColumnsOf(done, n), (t.1, t.2));
      } else {
        assert ColumnsOf(done + {t}, n) == ColumnsOf(done, n);
      }
    }
  }

  class Catalogue {
    var objects: map<Name, Obj>
    var current: Role

    constructor (objects: map<Name, Obj>, current: Role)
      ensures this.objects == objects && this.current == current
    {
      this.objects, this.current := objects, current;
    }

    /** REVOKE ALL … FROM. Only the owner of an object may. */
    method Revoke(n: Name, g: Grantee) returns (ok: bool)
      requires n in objects
      modifies `objects
      ensures ok <==> old(objects)[n].owner == current
      ensures objects == if ok then old(objects)[n := Without(old(objects)[n], {g})] else old(objects)
    {
      ok := objects[n].owner == current;
      if ok {
        objects := objects[n := Without(objects[n], {g})];
      }
    }

    /** REVOKE ALL … FROM, once for each pair. */
    method RevokeAll(pairs: set<(Name, Grantee)>) returns (ok: bool)
      requires forall p :: p in pairs ==> p.0 in objects
      modifies `objects
      ensures ok <==> Owned(old(objects), pairs, current)
      ensures ok ==> objects == Revoked(old(objects), pairs)
    {
      var todo := pairs;
      ghost var done: set<(Name, Grantee)> := {};
      RevokedNone(objects);
      ok := true;
      while todo != {} && ok
        invariant done + todo == pairs
        invariant ok ==> objects == Revoked(old(objects), done)
        invariant if ok then Owned(old(objects), done, current) else !Owned(old(objects), pairs, current)
        decreases |todo|
      {
        var p :| p in todo;
        RevokedOwner(old(objects), done, p.0);
        RevokedMore(old(objects), done, p);
        ok := Revoke(p.0, p.1);
        todo := todo - {p};
        done := done + {p};
      }
      assert ok ==> done == pairs;
    }

    /** REVOKE ALL (column) … FROM, once for each. */
    method RevokeColumns(triples: set<(Name, string, Grantee)>) returns (ok: bool)
      requires forall t :: t in triples ==> t.0 in objects
      modifies `objects
      ensures ok <==> forall t :: t in triples ==> old(objects)[t.0].owner == current
      ensures ok ==> objects == RevokedOn(old(objects), triples)
    {
      var todo := triples;
      ghost var done: set<(Name, string, Grantee)> := {};
      RevokedOnNone(objects);
      while todo != {}
        invariant done + todo == triples
        invariant objects == RevokedOn(old(objects), done)
        invariant forall t :: t in done ==> old(objects)[t.0].owner == current
        decreases |todo|
      {
        var t :| t in todo;
        if objects[t.0].owner != current {
          return false;
        }
        RevokedOnMore(old(objects), done, t);
        objects := objects[t.0 := WithoutOn(objects[t.0], {(t.1, t.2)})];
        todo := todo - {t};
        done := done + {t};
      }
      assert done == triples;
      return true;
    }
  }
}
