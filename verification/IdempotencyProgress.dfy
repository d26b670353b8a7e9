/** How a call ends: on a free key that nobody else writes, on a taken one, and behind a winner. */
module IdempotencyProgress {
  import opened Base
  import opened IdempotencyModel
  import opened IdempotencyProof
  import opened IdempotencyTheorems
  import opened IdempotencySession

  function RowSteps(t: nat, rows: seq<string>): seq<Label> {
    if rows == [] then [] else [LRow(t, rows[0])] + RowSteps(t, rows[1..])
  }

  /** `t` inside its mutation, after it has written `rows`. */
  function Busy(s: Sys, t: nat, call: Call, rows: seq<string>): Sys
    requires t in s.txns
  {
    var x := s.txns[t];
    s.(txns := s.txns[t := Txn(x.writes + RowsOf(s.nextId, rows), Mutating(call, |x.writes|, x.writes, s.nextId, rows),
                               x.answers, x.blocks)],
       nextId := s.nextId + 1)
  }

  lemma BusyRow(s: Sys, t: nat, call: Call, rows: seq<string>, row: string)
    requires t in s.txns
    ensures Enabled(Busy(s, t, call, rows), LRow(t, row))
    ensures Apply(Busy(s, t, call, rows), LRow(t, row)) == Busy(s, t, call, rows + [row])
  {
    var x := s.txns[t];
    RowsSnoc(s.nextId, rows, row);
    Assoc(x.writes, RowsOf(s.nextId, rows), [Row(s.nextId, row)]);
  }

  lemma {:induction false} BusyRows(s: Sys, t: nat, call: Call, rows: seq<string>, rest: seq<string>, end: Sys, last: seq<Label>)
    requires t in s.txns && end == Busy(s, t, call, rows + rest) && Valid(end, last)
    ensures Valid(Busy(s, t, call, rows), RowSteps(t, rest) + last)
    ensures Run(Busy(s, t, call, rows), RowSteps(t, rest) + last) == Run(end, last)
    decreases |rest|
  {
    if rest == [] {
      assert rows + rest == rows && RowSteps(t, rest) + last == last;
    } else {
      BusyRow(s, t, call, rows, rest[0]);
      assert (rows + [rest[0]]) + rest[1..] == rows + rest;
      BusyRows(s, t, call, rows + [rest[0]], rest[1..], end, last);
      RowThen(Busy(s, t, call, rows), Busy(s, t, call, rows + [rest[0]]), t, rest, last);
    }
  }

  lemma RowThen(s: Sys, s1: Sys, t: nat, rest: seq<string>, last: seq<Label>)
    requires rest != [] && Enabled(s, LRow(t, rest[0])) && s1 == Apply(s, LRow(t, rest[0]))
    requires Valid(s1, RowSteps(t, rest[1..]) + last)
    ensures Valid(s, RowSteps(t, rest) + last)
    ensures Run(s, RowSteps(t, rest) + last) == Run(s1, RowSteps(t, rest[1..]) + last)
  {
    var ls := RowSteps(t, rest) + last;
    assert ls[0] == LRow(t, rest[0]) && ls[1..] == RowSteps(t, rest[1..]) + last;
    RunStep(s, ls);
  }

  function FreshRun(t: nat, call: Call, rows: seq<string>, result: string): seq<Label> {
    [LCall(t, call)] + (RowSteps(t, rows) + [LClaim(t, result), LEvent(t)])
  }

  /** The transaction has all of the call's effect, and its own answer. */
  predicate Wins(x: Txn, y: Txn, call: Call, rows: seq<string>, result: string, id: nat) {
    && y.phase.Outside?
    && y.writes == x.writes + Writes(Effect(call.key, call.fingerprint, id, rows, id + 1, id + 2, result))
    && y.answers == x.answers + [Result(call.key, call.fingerprint, id + 1, id + 2, result, false)]
  }

  /** With its key free and nobody else writing it, a call does what it was asked: it is let in, its
      rows, claim and event are written, it returns the mutation's own result, not a replay, and all
      of it can be committed. */
  lemma FreshCallWins(s: Sys, t: nat, call: Call, rows: seq<string>, result: string)
    requires t in s.txns && s.txns[t].phase.Outside? && FindClaim(Visible(s, t), call.key).None?
    requires forall u, w :: u in s.txns && u != t && w in s.txns[u].writes && w.Claim? ==> w.key != call.key
    ensures var ls := FreshRun(t, call, rows, result);
            && Valid(s, ls) && t in Run(s, ls).txns && Wins(s.txns[t], Run(s, ls).txns[t], call, rows, result, s.nextId)
            && Enabled(Run(s, ls), LCommit(t))
            && Apply(Run(s, ls), LCommit(t)).committed == Run(s, ls).committed + Run(s, ls).txns[t].writes
            && Apply(Run(s, ls), LCommit(t)).answers == Run(s, ls).answers + Run(s, ls).txns[t].answers
  {
    assert Unblocked(s, t, call.key);
    FreshCallEnds(s, t, call, rows, result);
  }

  lemma FreshCallEnds(s: Sys, t: nat, call: Call, rows: seq<string>, result: string)
    requires t in s.txns && s.txns[t].phase.Outside?
    requires FindClaim(Visible(s, t), call.key).None? && Unblocked(s, t, call.key)
    ensures var ls := FreshRun(t, call, rows, result);
            Valid(s, ls) && t in Run(s, ls).txns && Wins(s.txns[t], Run(s, ls).txns[t], call, rows, result, s.nextId)
  {
    var last := [LClaim(t, result), LEvent(t)];
    var ls := FreshRun(t, call, rows, result);
    FreshEnters(s, t, call);
    FreshEnds(s, t, call, rows, result);
    assert [] + rows == rows;
    BusyRows(s, t, call, [], rows, Busy(s, t, call, rows), last);
    assert ls[0] == LCall(t, call) && ls[1..] == RowSteps(t, rows) + last;
    RunStep(s, ls);
  }

  /** What a call on a taken key is told: a conflict if the request differs, and otherwise what the
      claim recorded, with an event linked to it. */
  predicate ToldOf(claim: Write, call: Call, seen: seq<Write>, a: Answer)
    requires claim.Claim?
  {
    if claim.fingerprint != call.fingerprint then a == Conflict(call.key, call.fingerprint)
    else a.Result? && a == Result(call.key, call.fingerprint, claim.record, a.event, claim.result, true)
         && Event(a.event, claim.record) in seen
  }

  /** In every reachable state a call whose key is taken returns at once and writes nothing. */
  lemma TakenCallReplays(ls: seq<Label>, t: nat, call: Call)
    requires Valid(INIT, ls) && t in Run(INIT, ls).txns && Run(INIT, ls).txns[t].phase.Outside?
    requires FindClaim(Visible(Run(INIT, ls), t), call.key).Some?
    ensures var s := Run(INIT, ls);
            && Enabled(s, LCall(t, call))
            && var x, y := s.txns[t], Apply(s, LCall(t, call)).txns[t];
               && y.phase.Outside? && y.writes == x.writes && |y.answers| == |x.answers| + 1 && y.answers[..|x.answers|] == x.answers
               && ToldOf(FindClaim(Visible(s, t), call.key).value, call, Visible(s, t), y.answers[|x.answers|])
  {
    NeverUnexplained(ls, t, call);
  }

  /** A call whose key another transaction has committed meanwhile is turned away by the claim
      index, loses every row it wrote, and reads the winner's claim. */
  lemma LoserReplays(ls: seq<Label>, t: nat)
    requires Valid(INIT, ls) && t in Run(INIT, ls).txns && Run(INIT, ls).txns[t].phase.Mutating?
    requires FindClaim(Run(INIT, ls).committed, Run(INIT, ls).txns[t].phase.call.key).Some?
    ensures var s := Run(INIT, ls);
            && (forall result :: !Enabled(s, LClaim(t, result)))
            && Enabled(s, LIntegrityError(t, true))
            && var s1 := Apply(s, LIntegrityError(t, true));
               && Enabled(s1, LReread(t)) && FindClaim(Visible(s1, t), s.txns[t].phase.call.key).Some?
               && var x, y := s.txns[t], Apply(s1, LReread(t)).txns[t];
                  && y.phase.Outside? && y.writes == x.phase.entry && |y.answers| == |x.answers| + 1
                  && y.answers[..|x.answers|] == x.answers
                  && ToldOf(FindClaim(Visible(s1, t), x.phase.call.key).value, x.phase.call, Visible(s1, t), y.answers[|x.answers|])
  {
    var s := Run(INIT, ls);
    var l := LIntegrityError(t, true);
    InitInv();
    RunInv(INIT, ls);
    assert TxnInv(s, s.txns[t]);
    StillVisible(s.committed, s.txns[t].writes, s.txns[t].phase.call.key);
    RunsOn(INIT, ls, l);
    NeverUnexplained(ls + [l], t, s.txns[t].phase.call);
  }

  lemma StillVisible(a: seq<Write>, b: seq<Write>, key: Key)
    requires FindClaim(a, key).Some?
    ensures FindClaim(a + b, key).Some?
  {
    assert FindClaim(a, key).value in a + b;
  }

  lemma {:induction false} RunsOn(s: Sys, ls: seq<Label>, l: Label)
    requires Valid(s, ls) && Enabled(Run(s, ls), l)
    ensures Valid(s, ls + [l]) && Run(s, ls + [l]) == Apply(Run(s, ls), l)
    decreases |ls|
  {
    if ls == [] {
      assert ls + [l] == [l];
      RunStep(s, [l]);
    } else {
      assert (ls + [l])[1..] == ls[1..] + [l];
      RunsOn(Apply(s, ls[0]), ls[1..], l);
    }
  }

  lemma RunStep(s: Sys, ls: seq<Label>)
    requires ls != [] && Enabled(s, ls[0]) && Valid(Apply(s, ls[0]), ls[1..])
    ensures Valid(s, ls) && Run(s, ls) == Run(Apply(s, ls[0]), ls[1..])
  {
  }

  lemma FreshEnters(s: Sys, t: nat, call: Call)
    requires t in s.txns && s.txns[t].phase.Outside? && FindClaim(Visible(s, t), call.key).None?
    ensures Enabled(s, LCall(t, call)) && Apply(s, LCall(t, call)) == Busy(s, t, call, [])
  {
    assert s.txns[t].writes + RowsOf(s.nextId, []) == s.txns[t].writes;
  }

  lemma FreshEnds(s: Sys, t: nat, call: Call, rows: seq<string>, result: string)
    requires t in s.txns && FindClaim(Visible(s, t), call.key).None? && Unblocked(s, t, call.key)
    ensures var s1, last := Busy(s, t, call, rows), [LClaim(t, result), LEvent(t)];
            Valid(s1, last) && t in Run(s1, last).txns && Wins(s.txns[t], Run(s1, last).txns[t], call, rows, result, s.nextId)
  {
    var s1, last := Busy(s, t, call, rows), [LClaim(t, result), LEvent(t)];
    var s2 := FreshClaims(s, t, call, rows, result);
    assert last[1..] == [LEvent(t)];
    RunStep(s2, [LEvent(t)]);
    RunStep(s1, last);
    Assembled(s.txns[t].writes, s.nextId, rows, Claim(call.key, call.fingerprint, s.nextId, s.nextId + 1, result),
              Event(s.nextId + 2, s.nextId + 1));
  }

  lemma FreshClaims(s: Sys, t: nat, call: Call, rows: seq<string>, result: string) returns (s2: Sys)
    requires t in s.txns && FindClaim(Visible(s, t), call.key).None? && Unblocked(s, t, call.key)
    ensures Enabled(Busy(s, t, call, rows), LClaim(t, result)) && s2 == Apply(Busy(s, t, call, rows), LClaim(t, result))
    ensures t in s2.txns && s2.nextId == s.nextId + 2
    ensures var x := s.txns[t]; var claim := Claim(call.key, call.fingerprint, s.nextId, s.nextId + 1, result);
            s2.txns[t] == Txn((x.writes + RowsOf(s.nextId, rows)) + [claim],
                              Claiming(call, |x.writes|, x.writes, s.nextId, rows, s.nextId + 1, result), x.answers, x.blocks)
  {
    ClaimOutsideRows(s.committed, s.txns[t].writes, s.nextId, rows, call.key);
    s2 := Apply(Busy(s, t, call, rows), LClaim(t, result));
  }
}
