/** The idempotent mutation primitive (control_plane/db/idempotency.py) as transactions that
    interleave statement by statement under READ COMMITTED. */
module IdempotencyModel {
  import opened Base

  datatype Key = Key(tenant: string, operation: string, key: string)

  /** A row written to the database. A mutation's rows carry the tag of the execution that
      wrote them; `Plain` rows are the caller's own, outside any mutation. */
  datatype Write =
    | Plain(data: string)
    | Row(tag: nat, data: string)
    | Claim(key: Key, fingerprint: string, tag: nat, record: nat, result: string)
    | Event(event: nat, record: nat)

  /** What a call returned: its result (fresh or replayed) or the refusal of a reused key. */
  datatype Answer =
    | Result(key: Key, fingerprint: string, record: nat, event: nat, result: string, replayed: bool)
    | Conflict(key: Key, fingerprint: string)

  datatype Call = Call(key: Key, fingerprint: string)

  /** Where a transaction is inside the primitive. `mark` is its SAVEPOINT; `entry` and `rows`
      only record what was there at entry and what the mutation wrote since. */
  datatype Phase =
    | Outside
    | Mutating(call: Call, mark: nat, entry: seq<Write>, tag: nat, rows: seq<string>)
    | Claiming(call: Call, mark: nat, entry: seq<Write>, tag: nat, rows: seq<string>, record: nat, result: string)
    | Recovering(call: Call, entry: seq<Write>, claimTaken: bool)

  /** What one committed piece of work consists of. */
  datatype Block =
    | Own(data: string)
    | Effect(key: Key, fingerprint: string, tag: nat, rows: seq<string>, record: nat, event: nat, result: string)

  datatype Txn = Txn(writes: seq<Write>, phase: Phase, answers: seq<Answer>, blocks: seq<Block>)

  /** `history` and each `blocks` only record what the rows were written as. */
  datatype Sys = Sys(committed: seq<Write>, answers: seq<Answer>, txns: map<nat, Txn>, nextId: nat, history: seq<Block>)

  datatype Label =
    | LBegin(t: nat)
    | LPlain(t: nat, data: string)
    | LCall(t: nat, call: Call)
    | LRow(t: nat, data: string)
    | LClaim(t: nat, result: string)
    | LEvent(t: nat)
    | LIntegrityError(t: nat, claimTaken: bool)
    | LReread(t: nat)
    | LRaise(t: nat)
    | LCommit(t: nat)
    | LRollback(t: nat)

  // ------------------------------------------------------------------ reading

  function FindClaim(ws: seq<Write>, key: Key): (r: Option<Write>)
    ensures r.Some? ==> r.value in ws && r.value.Claim? && r.value.key == key
    ensures r.None? ==> forall w :: w in ws && w.Claim? ==> w.key != key
  {
    if ws == [] then None
    else if ws[|ws| - 1].Claim? && ws[|ws| - 1].key == key then Some(ws[|ws| - 1])
    else FindClaim(ws[..|ws| - 1], key)
  }

  function FindEvent(ws: seq<Write>, record: nat): (r: Option<nat>)
    ensures r.Some? ==> Event(r.value, record) in ws
    ensures r.None? ==> forall w :: w in ws && w.Event? ==> w.record != record
  {
    if ws == [] then None
    else if ws[|ws| - 1].Event? && ws[|ws| - 1].record == record then Some(ws[|ws| - 1].event)
    else FindEvent(ws[..|ws| - 1], record)
  }

  /** _replay: the stored result and its event, or a conflict if the fingerprint differs. The
      source raises when no event is linked, so a call that would is not enabled. */
  function Replay(ws: seq<Write>, call: Call, claim: Write): Option<Answer>
    requires claim.Claim?
  {
    if claim.fingerprint != call.fingerprint then Some(Conflict(call.key, call.fingerprint))
    else match FindEvent(ws, claim.record)
         case Some(e) => Some(Result(call.key, claim.fingerprint, claim.record, e, claim.result, true))
         case None => None
  }

  /** READ COMMITTED: each statement sees what is committed now and its own writes. */
  function Visible(s: Sys, t: nat): seq<Write>
    requires t in s.txns
  {
    s.committed + s.txns[t].writes
  }

  predicate HoldsKey(x: Txn, key: Key) {
    exists w :: w in x.writes && w.Claim? && w.key == key
  }

  // ------------------------------------------------------------------ the steps

  ghost predicate Enabled(s: Sys, l: Label) {
    if l.LBegin? then l.t !in s.txns
    else
      l.t in s.txns &&
      var x := s.txns[l.t];
      match l
      case LBegin(_) => true
      case LPlain(_, _) => x.phase.Outside?
      case LCall(t, call) =>
        x.phase.Outside? && Answerable(Visible(s, t), call)
      case LRow(_, _) => x.phase.Mutating?
      case LClaim(t, _) =>
        // The unique index: another transaction's uncommitted claim blocks, a visible one raises.
        x.phase.Mutating? && FindClaim(Visible(s, t), x.phase.call.key).None? && Unblocked(s, t, x.phase.call.key)
      case LEvent(_) => x.phase.Claiming?
      case LIntegrityError(t, claimTaken) =>
        // Raised by the claim index against a committed row, or by any other constraint.
        (x.phase.Mutating? && (claimTaken ==> FindClaim(s.committed, x.phase.call.key).Some?))
        || (x.phase.Claiming? && !claimTaken)
      case LReread(t) =>
        x.phase.Recovering? && Answerable(Visible(s, t), x.phase.call)
      case LRaise(_) => x.phase.Mutating? || x.phase.Claiming?
      case LCommit(_) => x.phase.Outside?
      case LRollback(_) => true
  }

  predicate Answerable(ws: seq<Write>, call: Call) {
    var c := FindClaim(ws, call.key);
    c.Some? ==> Replay(ws, call, c.value).Some?
  }

  ghost predicate Unblocked(s: Sys, t: nat, key: Key) {
    forall u :: u in s.txns && u != t ==> !HoldsKey(s.txns[u], key)
  }

  ghost function Apply(s: Sys, l: Label): Sys
    requires Enabled(s, l)
  {
    match l
    case LBegin(t) => s.(txns := s.txns[t := Txn([], Outside, [], [])])
    case LPlain(t, data) =>
      var x := s.txns[t];
      Put(s, t, x.(writes := x.writes + [Plain(data)], blocks := x.blocks + [Own(data)]))
    case LCall(t, call) =>
      if FindClaim(Visible(s, t), call.key).Some? then Put(s, t, Replied(s, t, call))
      else Put(s, t, Entered(s.txns[t], call, s.nextId)).(nextId := s.nextId + 1)
    case LRow(t, data) =>
      var x := s.txns[t];
      var p := x.phase;
      Put(s, t, x.(writes := x.writes + [Row(p.tag, data)],
                   phase := Mutating(p.call, p.mark, p.entry, p.tag, p.rows + [data])))
    case LClaim(t, result) =>
      var x := s.txns[t];
      var p := x.phase;
      Put(s, t, x.(writes := x.writes + [Claim(p.call.key, p.call.fingerprint, p.tag, s.nextId, result)],
                   phase := Claiming(p.call, p.mark, p.entry, p.tag, p.rows, s.nextId, result)))
        .(nextId := s.nextId + 1)
    case LEvent(t) =>
      var x := s.txns[t];
      var p := x.phase;
      Put(s, t, Txn(x.writes + [Event(s.nextId, p.record)], Outside,
                    x.answers + [Result(p.call.key, p.call.fingerprint, p.record, s.nextId, p.result, false)],
                    x.blocks + [Effect(p.call.key, p.call.fingerprint, p.tag, p.rows, p.record, s.nextId, p.result)]))
        .(nextId := s.nextId + 1)
    case LIntegrityError(t, claimTaken) =>
      var x := s.txns[t];
      Put(s, t, x.(writes := BackTo(x.writes, x.phase.mark), phase := Recovering(x.phase.call, x.phase.entry, claimTaken)))
    case LReread(t) =>
      var x := s.txns[t];
      if FindClaim(Visible(s, t), x.phase.call.key).Some? then Put(s, t, Replied(s, t, x.phase.call))
      else Put(s, t, x.(phase := Outside))
    case LRaise(t) =>
      var x := s.txns[t];
      Put(s, t, x.(writes := BackTo(x.writes, x.phase.mark), phase := Outside))
    case LCommit(t) =>
      var x := s.txns[t];
      Sys(s.committed + x.writes, s.answers + x.answers, s.txns - {t}, s.nextId, s.history + x.blocks)
    case LRollback(t) => s.(txns := s.txns - {t})
  }

  /** The call returns what the visible claim of its key says. */
  function Replied(s: Sys, t: nat, call: Call): Txn
    requires t in s.txns && Answerable(Visible(s, t), call) && FindClaim(Visible(s, t), call.key).Some?
  {
    var x := s.txns[t];
    var claim := FindClaim(Visible(s, t), call.key).value;
    Txn(x.writes, Outside, x.answers + [Replay(Visible(s, t), call, claim).value], x.blocks)
  }

  /** The call opens its SAVEPOINT and starts the mutation. */
  function Entered(x: Txn, call: Call, tag: nat): Txn {
    Txn(x.writes, Mutating(call, |x.writes|, x.writes, tag, []), x.answers, x.blocks)
  }

  function Put(s: Sys, t: nat, x: Txn): Sys {
    s.(txns := s.txns[t := x])
  }

  /** ROLLBACK TO SAVEPOINT. */
  function BackTo(ws: seq<Write>, mark: nat): seq<Write> {
    if mark <= |ws| then ws[..mark] else ws
  }

  const INIT := Sys([], [], map[], 0, [])

  ghost predicate Valid(s: Sys, ls: seq<Label>)
    decreases |ls|
  {
    ls == [] || (Enabled(s, ls[0]) && Valid(Apply(s, ls[0]), ls[1..]))
  }

  ghost function Run(s: Sys, ls: seq<Label>): Sys
    requires Valid(s, ls)
    decreases |ls|
  {
    if ls == [] then s else Run(Apply(s, ls[0]), ls[1..])
  }
}
