/** The ORM identity map of a reused session against the row policy of the transaction it is in. */
module IdentityMap {
  import opened Base

  type Id = nat
  type Tenant = string

  datatype Context = Context(tenant: Tenant, scopes: set<string>)

  /** A row and the scope its policy asks for. */
  datatype Row = Row(tenant: Tenant, scope: string, data: string)

  /** Row security: no context, no rows. */
  predicate Admits(ctx: Option<Context>, row: Row) {
    ctx.Some? && row.tenant == ctx.value.tenant && row.scope in ctx.value.scopes
  }

  /** A cached object, and the context of the statement that loaded it. */
  datatype Loaded = Loaded(row: Row, under: Option<Context>)

  /** `ctx`, `open`, `depth` and `aborted` are the server's transaction; `cache` and `key` are
      what the session remembers. `key` is None when the bookkeeping entry is absent or None. */
  datatype State = State(open: bool, depth: nat, aborted: bool, ctx: Option<Context>,
                         cache: map<Id, Loaded>, key: Option<Tenant>)

  /** The operations of a session, with what the server holds or decides at that moment. */
  datatype Op =
    | Begin
    | Bind(granted: Option<Context>)
    | Load(id: Id, rows: map<Id, Row>)
    | Get(id: Id, rows: map<Id, Row>)
    | Savepoint
    | EndSavepoint
    | End

  const NEW := State(false, 0, false, None, map[], None)

  // ------------------------------------------------------------------ the steps

  /** A transaction starts without a context, whoever starts it. */
  function Opened(s: State): State {
    if s.open then s else s.(open := true, depth := 0, aborted := false, ctx := None)
  }

  /** note_context_change. */
  function Noted(s: State, value: Option<Tenant>): State {
    if s.key != value then s.(cache := map[], key := value) else s
  }

  /** _clear_session_state. */
  function Cleared(s: State): State {
    s.(cache := map[], key := None)
  }

  /** bind_authenticated_context and begin_tenant_provisioning: refused outside a transaction and
      inside a savepoint; a refusal by the server, as of a second context, aborts the transaction. */
  function Bound(s: State, granted: Option<Context>): State {
    if !s.open || s.depth > 0 || s.aborted then s
    else if s.ctx.Some? || granted.None? then s.(aborted := true)
    else Noted(s.(ctx := granted), Some(granted.value.tenant))
  }

  /** What the policy lets a statement of this transaction see. */
  function Seen(s: State, id: Id, rows: map<Id, Row>): Option<Row> {
    if !s.aborted && id in rows && Admits(s.ctx, rows[id]) then Some(rows[id]) else None
  }

  /** A query: what it finds enters the map unless the object is already there. */
  function Queried(s: State, id: Id, rows: map<Id, Row>): State {
    var t := Opened(s);
    var row := Seen(t, id, rows);
    if row.Some? && id !in t.cache then t.(cache := t.cache[id := Loaded(row.value, t.ctx)]) else t
  }

  function Fetched(s: State, id: Id, rows: map<Id, Row>): Option<Row> {
    var row := Seen(Opened(s), id, rows);
    if row.None? then None else if id in s.cache then Some(s.cache[id].row) else row
  }

  function Next(s: State, op: Op): State {
    match op
    case Begin => if s.open then s else Noted(Opened(s), None)
    case Bind(granted) => Bound(s, granted)
    case Load(id, rows) => Queried(s, id, rows)
    case Get(id, rows) => if id in s.cache then Opened(s) else Queried(s, id, rows)
    case Savepoint => var t := Opened(s); t.(depth := t.depth + 1)
    case EndSavepoint => if s.depth == 0 then s else Cleared(s.(depth := s.depth - 1))
    case End => if !s.open then s else Cleared(s.(open := false, depth := 0, aborted := false, ctx := None))
  }

  /** What the caller gets: a get answers from the map without asking the server. */
  function Answer(s: State, op: Op): Option<Row> {
    match op
    case Load(id, rows) => Fetched(s, id, rows)
    case Get(id, rows) => if id in s.cache then Some(s.cache[id].row) else Fetched(s, id, rows)
    case _ => None
  }

  function Run(s: State, ops: seq<Op>): State
    decreases |ops|
  {
    if ops == [] then s else Run(Next(s, ops[0]), ops[1..])
  }

  // ------------------------------------------------------------------ the invariant

  /** The obvious candidate: the bookkeeping is the tenant of the context. */
  predicate KeyIsContext(s: State) {
    s.key == if s.ctx.Some? then Some(s.ctx.value.tenant) else None
  }

  /** Each cached object was loaded under the context the open transaction has now. The key may
      lag behind a context, but is never there without one and never another tenant's. */
  predicate Agrees(s: State) {
    && (forall id :: id in s.cache ==> s.cache[id].under == s.ctx && Admits(s.ctx, s.cache[id].row))
    && (s.key.Some? ==> s.ctx.Some? && s.ctx.value.tenant == s.key.value)
    && (!s.open ==> s.cache == map[] && s.ctx == None && s.key == None && s.depth == 0)
  }

  lemma StepAgrees(s: State, op: Op)
    requires Agrees(s)
    ensures Agrees(Next(s, op))
    ensures Answer(s, op).Some? ==> Admits(Next(s, op).ctx, Answer(s, op).value)
  {
  }

  lemma {:induction false} RunAgrees(s: State, ops: seq<Op>)
    requires Agrees(s)
    ensures Agrees(Run(s, ops))
    decreases |ops|
  {
    if ops != [] {
      StepAgrees(s, ops[0]);
      RunAgrees(Next(s, ops[0]), ops[1..]);
    }
  }

  /** In every run on one reused session, nothing is answered, cached or not, that the row
      policy would hide from the transaction that asks. */
  lemma NeverHidden(ops: seq<Op>, op: Op)
    ensures var s := Run(NEW, ops);
            && (forall id :: id in s.cache ==> s.cache[id].under == s.ctx)
            && (Answer(s, op).Some? ==>
                  var ctx, row := Next(s, op).ctx, Answer(s, op).value;
                  ctx.Some? && row.tenant == ctx.value.tenant && row.scope in ctx.value.scopes)
  {
    RunAgrees(NEW, ops);
    StepAgrees(Run(NEW, ops), op);
  }

  /** A get that answers from the map answers what a query of the same transaction could. */
  lemma CachedGetIsAdmitted(ops: seq<Op>, id: Id, rows: map<Id, Row>)
    requires id in Run(NEW, ops).cache && rows == map[id := Run(NEW, ops).cache[id].row]
    ensures var s := Run(NEW, ops);
            Answer(s, Get(id, rows)) == Some(rows[id])
            && (!s.aborted ==> Seen(Next(s, Get(id, rows)), id, rows) == Some(rows[id]))
  {
    RunAgrees(NEW, ops);
  }

  /** And what the policy admits is answered: a query of a transaction that is not aborted finds
      the row, unless it holds an object for it already, and then that; a get asks likewise. */
  lemma AlwaysFound(ops: seq<Op>, id: Id, rows: map<Id, Row>)
    ensures var s := Run(NEW, ops);
            var shown := s.open && !s.aborted && id in rows && s.ctx.Some? && rows[id].tenant == s.ctx.value.tenant
                         && rows[id].scope in s.ctx.value.scopes;
            && Answer(s, Load(id, rows)) == (if !shown then None else if id in s.cache then Some(s.cache[id].row) else Some(rows[id]))
            && Answer(s, Get(id, rows)) == (if id in s.cache then Some(s.cache[id].row) else if shown then Some(rows[id]) else None)
  {
    RunAgrees(NEW, ops);
  }

  /** What a query answers is what a get answers afterwards, for as long as nothing ends and no
      context is bound. */
  lemma AnsweredAgain(s: State, id: Id, rows: map<Id, Row>, later: map<Id, Row>)
    requires Agrees(s) && Answer(s, Load(id, rows)).Some?
    ensures Answer(Next(s, Load(id, rows)), Get(id, later)) == Answer(s, Load(id, rows))
  {
  }

  /** The key does fall behind: it is dropped when a savepoint ends, the context is not. So it
      equals the context's tenant in some reachable states and not in the next one. */
  lemma KeyFallsBehind(ctx: Context)
    ensures var ops := [Begin, Bind(Some(ctx)), Savepoint];
            && KeyIsContext(Run(NEW, ops))
            && !KeyIsContext(Next(Run(NEW, ops), EndSavepoint))
            && Agrees(Next(Run(NEW, ops), EndSavepoint))
  {
    var ops := [Begin, Bind(Some(ctx)), Savepoint];
    var s1 := Next(NEW, Begin);
    var s2 := Next(s1, Bind(Some(ctx)));
    var s3 := Next(s2, Savepoint);
    assert ops[1..] == [Bind(Some(ctx)), Savepoint] && ops[1..][1..] == [Savepoint] && ops[1..][1..][1..] == [];
    assert Run(s2, [Savepoint]) == Run(s3, []) by { assert [Savepoint][1..] == []; }
    assert Run(NEW, ops) == s3;
    RunAgrees(NEW, ops);
  }

  /** The context is fixed for the life of an outer transaction. */
  lemma ContextFixed(s: State, op: Op)
    requires Agrees(s) && s.ctx.Some? && op != End
    ensures Next(s, op).ctx == s.ctx
  {
  }

  // ------------------------------------------------------------------ the session

  class Session {
    var open: bool
    var depth: nat
    var aborted: bool
    var ctx: Option<Context>
    var cache: map<Id, Loaded>
    var key: Option<Tenant>

    constructor ()
      ensures View() == NEW
    {
      open, depth, aborted, ctx, cache, key := false, 0, false, None, map[], None;
    }

    function View(): State
      reads this
    {
      State(open, depth, aborted, ctx, cache, key)
    }

    method ExpungeAll()
      modifies `cache
      ensures cache == map[]
    {
      cache := map[];
    }

    method NoteContextChange(value: Option<Tenant>)
      modifies `cache, `key
      ensures View() == Noted(old(View()), value)
    {
      if key != value {
        ExpungeAll();
        key := value;
      }
    }

    /** The listener on the end of a transaction or savepoint. */
    method ClearAtBoundary()
      modifies `cache, `key
      ensures View() == Cleared(old(View()))
    {
      ExpungeAll();
      key := None;
    }

    method Autobegin()
      modifies `open, `depth, `aborted, `ctx
      ensures View() == Opened(old(View()))
    {
      if !open {
        open, depth, aborted, ctx := true, 0, false, None;
      }
    }

    method BeginTransaction()
      requires Agrees(View())
      modifies this
      ensures View() == Next(old(View()), Begin) && Agrees(View())
      ensures open && (!old(open) ==> ctx == None && cache == map[] && key == None && depth == 0 && !aborted)
      ensures old(open) ==> View() == old(View())
    {
      if !open {
        Autobegin();
        NoteContextChange(None);
      }
    }

    method BindContext(granted: Option<Context>) returns (ok: bool)
      requires Agrees(View())
      modifies this
      ensures View() == Next(old(View()), Bind(granted)) && Agrees(View())
      ensures ok <==> open && depth == 0 && !old(aborted) && old(ctx).None? && granted.Some?
      ensures ok ==> ctx == granted && cache == map[]
      ensures !ok ==> ctx == old(ctx) && cache == old(cache)
      ensures aborted <==> old(aborted) || (open && depth == 0 && !ok)
    {
      if !open || depth > 0 || aborted {
        return false;
      }
      if ctx.Some? || granted.None? {
        aborted := true;
        return false;
      }
      ctx := granted;
      NoteContextChange(Some(granted.value.tenant));
      return true;
    }

    method Query(id: Id, rows: map<Id, Row>) returns (row: Option<Row>)
      requires Agrees(View())
      modifies this
      ensures View() == Next(old(View()), Load(id, rows)) && Agrees(View())
      ensures row == Answer(old(View()), Load(id, rows))
      ensures row.Some? <==> !aborted && id in rows && ctx.Some? && rows[id].tenant == ctx.value.tenant
                             && rows[id].scope in ctx.value.scopes
      ensures row.Some? ==> row.value == (if id in old(cache) then old(cache)[id].row else rows[id])
      ensures row.Some? ==> id in cache && cache[id].row == row.value
      ensures row.Some? ==> Admits(ctx, row.value)
      ensures open && ctx == old(ctx) && key == old(key) && depth == old(depth) && (old(open) ==> aborted == old(aborted))
      ensures cache == if row.Some? && id !in old(cache) then old(cache)[id := Loaded(row.value, ctx)] else old(cache)
    {
      Autobegin();
      if aborted || id !in rows || !Admits(ctx, rows[id]) {
        return None;
      }
      if id !in cache {
        cache := cache[id := Loaded(rows[id], ctx)];
      }
      return Some(cache[id].row);
    }

    method GetById(id: Id, rows: map<Id, Row>) returns (row: Option<Row>)
      requires Agrees(View())
      modifies this
      ensures View() == Next(old(View()), Get(id, rows)) && Agrees(View())
      ensures row == Answer(old(View()), Get(id, rows))
      ensures id in old(cache) ==> row == Some(old(cache)[id].row)
      ensures id !in old(cache) ==>
                (row.Some? <==> !aborted && id in rows && ctx.Some? && rows[id].tenant == ctx.value.tenant
                                && rows[id].scope in ctx.value.scopes)
      ensures id !in old(cache) && row.Some? ==> row == Some(rows[id])
      ensures row.Some? ==> id in cache && cache[id].row == row.value
      ensures row.Some? ==> Admits(ctx, row.value)
      ensures open && ctx == old(ctx) && key == old(key) && depth == old(depth) && (old(open) ==> aborted == old(aborted))
      ensures cache == if row.Some? && id !in old(cache) then old(cache)[id := Loaded(row.value, ctx)] else old(cache)
    {
      if id in cache {
        Autobegin();
        return Some(cache[id].row);
      }
      row := Query(id, rows);
    }

    method BeginNested()
      requires Agrees(View())
      modifies this
      ensures View() == Next(old(View()), Savepoint) && Agrees(View())
      ensures open && cache == old(cache) && key == old(key) && ctx == old(ctx) && depth == old(depth) + 1
    {
      Autobegin();
      depth := depth + 1;
    }

    method EndNested()
      requires Agrees(View())
      modifies this
      ensures View() == Next(old(View()), EndSavepoint) && Agrees(View())
      ensures ctx == old(ctx) && open == old(open)
      ensures old(depth) > 0 ==> cache == map[] && key == None && depth == old(depth) - 1
    {
      if depth > 0 {
        depth := depth - 1;
        ClearAtBoundary();
      }
    }

    method EndTransaction()
      requires Agrees(View())
      modifies this
      ensures View() == Next(old(View()), End) && Agrees(View())
      ensures !open && ctx == None && cache == map[] && key == None && depth == 0
    {
      if open {
        open, depth, aborted, ctx := false, 0, false, None;
        ClearAtBoundary();
      }
    }
  }
}
