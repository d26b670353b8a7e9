/** execute_idempotent_mutation statement by statement, on one session whose database other
    transactions keep committing to. */
module IdempotencySession {
  import opened Base
  import opened IdempotencyModel
  import opened IdempotencyProof

  /** What the primitive checks before it looks at the key, in the order it does. */
  datatype Request = Request(call: Call, validOperation: bool, validKey: bool, boundedIdentity: bool)

  datatype Refusal = NoTransaction | BadOperation | BadKey | UnflushedState | UnboundedIdentity | NotReadCommitted | NoContext

  /** How the mutation ends once its rows are flushed. `Commits` is a mutation that reaches the
      session's commit, which the pre-commit guard turns into an exception. */
  datatype Ending =
    | Returns(result: string, bounded: bool, eventAccepted: bool)
    | NotAnOutcome
    | Raises
    | Commits
    | Violates

  datatype Mutation = Mutation(rows: seq<string>, ending: Ending)

  datatype Outcome =
    | Refused(refusal: Refusal)
    | Answered(answer: Answer)
    | Failed(ending: Ending)
    | IntegrityFailure
    | Unexplained
    | MissingEvent

  /** What _replay makes of a claim that is there. */
  function FromClaim(seen: seq<Write>, call: Call): Outcome
    requires FindClaim(seen, call.key).Some?
  {
    match Replay(seen, call, FindClaim(seen, call.key).value)
    case Some(a) => Outcome.Answered(a)
    case None => MissingEvent
  }

  /** The mutation ended in an exception that is not a constraint violation. */
  predicate Abandoned(m: Mutation) {
    match m.ending
    case Returns(_, bounded, _) => !bounded
    case Violates => false
    case _ => true
  }

  /** A call whose key was free at first: it fails with its mutation, or loses to a claim that
      is there by the time it inserts its own, or is refused its event, or wins. */
  ghost predicate Ends(m: Mutation, call: Call, atClaim: seq<Write>, seen: seq<Write>, out: Outcome) {
    if Abandoned(m) then out == Failed(m.ending)
    else if m.ending.Violates? then
      out == if FindClaim(seen, call.key).Some? then FromClaim(seen, call) else IntegrityFailure
    else if FindClaim(atClaim, call.key).Some? then FindClaim(seen, call.key).Some? && out == FromClaim(seen, call)
    else if !m.ending.eventAccepted then out == Failed(m.ending)
    else Won(out)
  }

  predicate Won(out: Outcome) {
    out.Answered? && out.answer.Result? && !out.answer.replayed
  }

  lemma NeverWins(seen: seq<Write>, call: Call)
    requires FindClaim(seen, call.key).Some?
    ensures !Won(FromClaim(seen, call)) && FromClaim(seen, call) != Unexplained
  {
  }

  /** The winner's rows are its whole effect; anybody else's are what they were. */
  ghost predicate Wrote(m: Mutation, call: Call, before: seq<Write>, id: nat, out: Outcome, after: seq<Write>) {
    if !Won(out) then after == before
    else
      && m.ending.Returns? && !Abandoned(m) && m.ending.eventAccepted
      && var b := Effect(call.key, call.fingerprint, id, m.rows, id + 1, id + 2, m.ending.result);
         after == before + Writes(b) && [out.answer] == FirstOf(b)
  }

  /** A claim that is there stays there when more is committed around it. */
  lemma {:induction false} ClaimStays(a: seq<Write>, b: seq<Write>, c: seq<Write>, key: Key)
    requires FindClaim(a + c, key).Some?
    ensures FindClaim((a + b) + c, key).Some?
  {
  }

  /** Everything other transactions commit before statement `n` of this one. */
  function Arrived(others: nat -> seq<Write>, n: nat): seq<Write> {
    if n == 0 then [] else Arrived(others, n - 1) + others(n - 1)
  }

  /** How a call in order ends whose key is free at first and when it inserts its claim. */
  ghost predicate FreeEnds(m: Mutation, call: Call, before: seq<Write>, id: nat, seen: seq<Write>, out: Outcome, after: seq<Write>) {
    match m.ending
    case Returns(result, bounded, eventAccepted) =>
      if bounded && eventAccepted then
        && out == Outcome.Answered(Result(call.key, call.fingerprint, id + 1, id + 2, result, false))
        && after == before + RowsOf(id, m.rows)
                    + [Claim(call.key, call.fingerprint, id, id + 1, result), Event(id + 2, id + 1)]
      else out == Failed(m.ending) && after == before
    case Violates => after == before && (FindClaim(seen, call.key).None? ==> out == IntegrityFailure)
    case _ => out == Failed(m.ending) && after == before
  }

  /** A bounded outcome whose event is accepted wins with its own result and all of its rows; an
      unbounded one, one that is not an outcome, an exception and a commit fail and leave nothing. */
  lemma EndsFreely(m: Mutation, call: Call, atClaim: seq<Write>, before: seq<Write>, id: nat, seen: seq<Write>, out: Outcome, after: seq<Write>)
    requires Ends(m, call, atClaim, seen, out) && Wrote(m, call, before, id, out, after)
    requires FindClaim(atClaim, call.key).None?
    ensures FreeEnds(m, call, before, id, seen, out, after)
  {
    if m.ending.Violates? && FindClaim(seen, call.key).Some? { NeverWins(seen, call); }
    if m.ending.Returns? && m.ending.bounded && m.ending.eventAccepted {
      Assembled(before, id, m.rows, Claim(call.key, call.fingerprint, id, id + 1, m.ending.result), Event(id + 2, id + 1));
      var b := Effect(call.key, call.fingerprint, id, m.rows, id + 1, id + 2, m.ending.result);
      assert FirstOf(b)[0] == out.answer;
    }
  }

  class Session {
    var inTransaction: bool
    var readCommitted: bool
    var mayMutate: bool
    var pending: nat
    var committed: seq<Write>
    var writes: seq<Write>
    var savepoints: seq<nat>
    var nextId: nat

    constructor (inTransaction: bool, readCommitted: bool, mayMutate: bool, committed: seq<Write>, nextId: nat)
      ensures this.committed == committed && writes == [] && savepoints == [] && pending == 0 && this.nextId == nextId
      ensures this.inTransaction == inTransaction && this.readCommitted == readCommitted && this.mayMutate == mayMutate
    {
      this.inTransaction, this.readCommitted, this.mayMutate := inTransaction, readCommitted, mayMutate;
      this.committed, this.nextId := committed, nextId;
      writes, savepoints, pending := [], [], 0;
    }

    function Seen(): seq<Write>
      reads this
    {
      committed + writes
    }

    /** The first check that fails is the one that refuses, and only if none fails is the call let in. */
    function Admission(r: Request): (refusal: Option<Refusal>)
      reads this
      ensures refusal == Some(NoTransaction) <==> !inTransaction
      ensures refusal == Some(BadOperation) <==> inTransaction && !r.validOperation
      ensures refusal == Some(BadKey) <==> inTransaction && r.validOperation && !r.validKey
      ensures refusal == Some(UnflushedState) <==> inTransaction && r.validOperation && r.validKey && pending > 0
      ensures refusal == Some(UnboundedIdentity) <==>
                inTransaction && r.validOperation && r.validKey && pending == 0 && !r.boundedIdentity
      ensures refusal == Some(NotReadCommitted) <==>
                inTransaction && r.validOperation && r.validKey && pending == 0 && r.boundedIdentity && !readCommitted
      ensures refusal == Some(NoContext) <==>
                inTransaction && r.validOperation && r.validKey && pending == 0 && r.boundedIdentity && readCommitted && !mayMutate
      ensures refusal == None <==>
                inTransaction && r.validOperation && r.validKey && pending == 0 && r.boundedIdentity && readCommitted && mayMutate
    {
      if !inTransaction then Some(NoTransaction)
      else if !r.validOperation then Some(BadOperation)
      else if !r.validKey then Some(BadKey)
      else if pending > 0 then Some(UnflushedState)
      else if !r.boundedIdentity then Some(UnboundedIdentity)
      else if !readCommitted then Some(NotReadCommitted)
      else if !mayMutate then Some(NoContext)
      else None
    }

    method BeginNested()
      modifies `savepoints
      ensures savepoints == old(savepoints) + [|writes|]
    {
      savepoints := savepoints + [|writes|];
    }

    method ReleaseSavepoint()
      requires savepoints != []
      modifies `savepoints
      ensures savepoints == old(savepoints)[..|old(savepoints)| - 1]
    {
      savepoints := savepoints[..|savepoints| - 1];
    }

    method RollbackToSavepoint()
      requires savepoints != [] && savepoints[|savepoints| - 1] <= |writes|
      modifies `savepoints, `writes
      ensures savepoints == old(savepoints)[..|old(savepoints)| - 1]
      ensures writes == old(writes)[..old(savepoints)[|old(savepoints)| - 1]]
    {
      writes := writes[..savepoints[|savepoints| - 1]];
      savepoints := savepoints[..|savepoints| - 1];
    }

    /** The mutation's own statements. */
    method Mutate(m: Mutation, tag: nat)
      modifies `writes
      ensures writes == old(writes) + RowsOf(tag, m.rows)
    {
      for i := 0 to |m.rows|
        invariant writes == old(writes) + RowsOf(tag, m.rows[..i])
      {
        assert m.rows[..i + 1] == m.rows[..i] + [m.rows[i]];
        RowsSnoc(tag, m.rows[..i], m.rows[i]);
        Assoc(old(writes), RowsOf(tag, m.rows[..i]), [Row(tag, m.rows[i])]);
        writes := writes + [Row(tag, m.rows[i])];
      }
      assert m.rows[..|m.rows|] == m.rows;
    }

    /** The loser's path: back to the savepoint, read the key again, answer from the winner. */
    method Recover(call: Call, claimTaken: bool, arrived: seq<Write>) returns (out: Outcome)
      requires savepoints != [] && savepoints[|savepoints| - 1] <= |writes|
      modifies `savepoints, `writes, `committed
      ensures savepoints == old(savepoints)[..|old(savepoints)| - 1]
      ensures writes == old(writes)[..old(savepoints)[|old(savepoints)| - 1]]
      ensures committed == old(committed) + arrived
      ensures out == if FindClaim(Seen(), call.key).Some? then FromClaim(Seen(), call)
                     else if claimTaken then Unexplained else IntegrityFailure
    {
      RollbackToSavepoint();
      committed := committed + arrived;
      var winner := FindClaim(committed + writes, call.key);
      if winner.None? {
        return if claimTaken then Unexplained else IntegrityFailure;
      }
      out := FromClaim(committed + writes, call);
    }

    /** Inside the savepoint: the mutation, its claim and its event, or none of them. */
    method Attempt(call: Call, m: Mutation, others: nat -> seq<Write>, ghost start: seq<Write>) returns (out: Outcome)
      requires committed == start + Arrived(others, 1)
      modifies `savepoints, `writes, `committed, `nextId
      ensures savepoints == old(savepoints)
      ensures exists n :: 0 <= n <= 4 && committed == start + Arrived(others, n)
      ensures Ends(m, call, (start + Arrived(others, 3)) + old(writes), Seen(), out)
      ensures Wrote(m, call, old(writes), old(nextId), out, writes)
    {
      BeginNested();
      var tag := nextId;
      nextId := nextId + 1;
      Arrive(others, 1, start);
      Mutate(m, tag);
      assert writes[..|old(writes)|] == old(writes) && savepoints[..|old(savepoints)|] == old(savepoints);
      if m.ending.Violates? {
        Known(others, 2, start);
        out := Recover(call, false, others(2));
      } else if Abandoned(m) {
        RollbackToSavepoint();
        out := Failed(m.ending);
      } else {
        Arrive(others, 2, start);
        out := Record(call, m, tag, old(writes), others, start);
      }
    }

    /** The claim and the event, after the mutation has returned an acceptable outcome. */
    method Record(call: Call, m: Mutation, tag: nat, ghost before: seq<Write>, others: nat -> seq<Write>, ghost start: seq<Write>)
      returns (out: Outcome)
      requires !Abandoned(m) && m.ending.Returns?
      requires writes == before + RowsOf(tag, m.rows) && committed == start + Arrived(others, 3)
      requires savepoints != [] && savepoints[|savepoints| - 1] == |before| && nextId == tag + 1
      modifies `savepoints, `writes, `committed, `nextId
      ensures savepoints == old(savepoints)[..|old(savepoints)| - 1]
      ensures exists n :: 0 <= n <= 4 && committed == start + Arrived(others, n)
      ensures Ends(m, call, (start + Arrived(others, 3)) + before, Seen(), out)
      ensures Wrote(m, call, before, tag, out, writes)
    {
      assert writes[..|before|] == before;
      ClaimOutsideRows(committed, before, tag, m.rows, call.key);
      Known(others, 3, start);
      if FindClaim(committed + writes, call.key).Some? {
        out := Lose(call, before, others(3));
        return;
      }
      out := Conclude(call, m, tag, before, others, start);
    }

    /** The claim is taken, and so it still is when the loser reads again. */
    method Lose(call: Call, ghost before: seq<Write>, arrived: seq<Write>) returns (out: Outcome)
      requires savepoints != [] && savepoints[|savepoints| - 1] == |before| <= |writes| && writes[..|before|] == before
      requires FindClaim(committed + before, call.key).Some?
      modifies `savepoints, `writes, `committed
      ensures savepoints == old(savepoints)[..|old(savepoints)| - 1]
      ensures writes == before && committed == old(committed) + arrived
      ensures FindClaim(Seen(), call.key).Some? && out == FromClaim(Seen(), call) && !Won(out)
    {
      ClaimStays(committed, arrived, before, call.key);
      out := Recover(call, true, arrived);
      NeverWins(committed + writes, call);
    }

    /** The claim is free: write it, wait for the event, release the savepoint. */
    method Conclude(call: Call, m: Mutation, tag: nat, ghost before: seq<Write>, others: nat -> seq<Write>, ghost start: seq<Write>)
      returns (out: Outcome)
      requires !Abandoned(m) && m.ending.Returns?
      requires writes == before + RowsOf(tag, m.rows) && committed == start + Arrived(others, 3)
      requires savepoints != [] && savepoints[|savepoints| - 1] == |before| && nextId == tag + 1
      modifies `savepoints, `writes, `committed, `nextId
      ensures savepoints == old(savepoints)[..|old(savepoints)| - 1]
      ensures committed == start + Arrived(others, 4)
      ensures if m.ending.eventAccepted then Won(out) else out == Failed(m.ending)
      ensures Wrote(m, call, before, tag, out, writes)
    {
      var claim := Claim(call.key, call.fingerprint, tag, nextId, m.ending.result);
      nextId := nextId + 1;
      writes := writes + [claim];
      Arrive(others, 3, start);
      if !m.ending.eventAccepted {
        assert writes[..|before|] == before;
        RollbackToSavepoint();
        return Failed(m.ending);
      }
      var event := Event(nextId, claim.record);
      nextId := nextId + 1;
      writes := writes + [event];
      ReleaseSavepoint();
      Assembled(before, tag, m.rows, claim, event);
      out := Outcome.Answered(Result(call.key, call.fingerprint, claim.record, event.event, m.ending.result, false));
    }

    /** The whole call. It refuses without a trace, answers a taken key from its claim, and
        otherwise either writes rows, claim and event together or leaves the session's rows and
        savepoints as it found them; being told that the key is taken is never a mystery. */
    method Execute(r: Request, m: Mutation, others: nat -> seq<Write>) returns (out: Outcome)
      modifies this
      ensures inTransaction == old(inTransaction) && readCommitted == old(readCommitted)
      ensures mayMutate == old(mayMutate) && pending == old(pending) && savepoints == old(savepoints)
      ensures old(Admission(r)).Some? ==>
                out == Refused(old(Admission(r)).value) && committed == old(committed) && writes == old(writes)
      ensures exists n :: 0 <= n <= 4 && committed == old(committed) + Arrived(others, n)
      ensures old(Admission(r)).None? ==>
                var first := (old(committed) + Arrived(others, 1)) + old(writes);
                if FindClaim(first, r.call.key).Some? then out == FromClaim(first, r.call)
                else Ends(m, r.call, (old(committed) + Arrived(others, 3)) + old(writes), Seen(), out)
      ensures Wrote(m, r.call, old(writes), old(nextId), out, writes)
      ensures out != Unexplained
      ensures old(Admission(r)).None? && FindClaim((old(committed) + Arrived(others, 1)) + old(writes), r.call.key).None?
              && FindClaim((old(committed) + Arrived(others, 3)) + old(writes), r.call.key).None? ==>
                FreeEnds(m, r.call, old(writes), old(nextId), Seen(), out, writes)
    {
      assert old(committed) + Arrived(others, 0) == old(committed);
      var refusal := Admission(r);
      if refusal.Some? {
        return Refused(refusal.value);
      }
      Arrive(others, 0, old(committed));
      if FindClaim(committed + writes, r.call.key).Some? {
        return FromClaim(committed + writes, r.call);
      }
      out := Attempt(r.call, m, others, old(committed));
      if FindClaim((old(committed) + Arrived(others, 3)) + old(writes), r.call.key).None? {
        EndsFreely(m, r.call, (old(committed) + Arrived(others, 3)) + old(writes), old(writes), old(nextId), Seen(), out, writes);
      }
    }

    /** Others commit before the next statement. */
    method Arrive(others: nat -> seq<Write>, n: nat, ghost start: seq<Write>)
      requires committed == start + Arrived(others, n)
      modifies `committed
      ensures committed == start + Arrived(others, n + 1)
    {
      Known(others, n, start);
      committed := committed + others(n);
    }
  }

  lemma Known(others: nat -> seq<Write>, n: nat, start: seq<Write>)
    ensures (start + Arrived(others, n)) + others(n) == start + Arrived(others, n + 1)
  {
  }

  lemma Assembled(before: seq<Write>, tag: nat, rows: seq<string>, claim: Write, event: Write)
    ensures before + RowsOf(tag, rows) + [claim] + [event] == before + (RowsOf(tag, rows) + [claim, event])
  {
  }

  /** What a taken key answers: the stored result and its event to a request with the claim's
      fingerprint, and a conflict to any other. */
  lemma TakenExactly(seen: seq<Write>, call: Call)
    requires FindClaim(seen, call.key).Some?
    ensures var claim, out := FindClaim(seen, call.key).value, FromClaim(seen, call);
            if claim.fingerprint != call.fingerprint then out == Outcome.Answered(Conflict(call.key, call.fingerprint))
            else if forall w :: w in seen && w.Event? ==> w.record != claim.record then out == MissingEvent
            else out.Answered? && out.answer.Result? && out.answer.replayed && out.answer.key == call.key
                 && out.answer.fingerprint == call.fingerprint && out.answer.record == claim.record
                 && out.answer.result == claim.result && Event(out.answer.event, claim.record) in seen
  {
  }

  /** The mutation's rows are not claims. */
  lemma ClaimOutsideRows(committed: seq<Write>, before: seq<Write>, tag: nat, rows: seq<string>, key: Key)
    ensures FindClaim(committed + (before + RowsOf(tag, rows)), key).Some? <==> FindClaim(committed + before, key).Some?
  {
  }
}
