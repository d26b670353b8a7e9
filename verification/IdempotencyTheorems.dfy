/** What the primitive promises its callers, in every reachable state of every interleaving. */
module IdempotencyTheorems {
  import opened IdempotencyModel
  import opened IdempotencyProof

  lemma InitInv()
    ensures Inv(INIT)
  {
  }

  // ------------------------------------------------------------------ exactly one effect

  function ClaimNames(w: Write): set<Name> {
    if w.Claim? then {K(w.key), N(w.tag), N(w.record)} else {}
  }

  /** How many claims carry the key, tag or record number `n`. */
  function Claims(ws: seq<Write>, n: Name): nat {
    if ws == [] then 0
    else Claims(ws[..|ws| - 1], n) + (if n in ClaimNames(ws[|ws| - 1]) then 1 else 0)
  }

  /** How many events are linked to the record `id`. */
  function Events(ws: seq<Write>, id: nat): nat {
    if ws == [] then 0
    else
      var w := ws[|ws| - 1];
      Events(ws[..|ws| - 1], id) + (if w.Event? && w.record == id then 1 else 0)
  }

  /** The rows one execution of a mutation left, in order. */
  function RowsTagged(ws: seq<Write>, tag: nat): seq<string> {
    if ws == [] then []
    else
      var w := ws[|ws| - 1];
      RowsTagged(ws[..|ws| - 1], tag) + (if w.Row? && w.tag == tag then [w.data] else [])
  }

  lemma {:induction false} CountConcat(a: seq<Write>, b: seq<Write>, n: Name, id: nat)
    ensures Claims(a + b, n) == Claims(a, n) + Claims(b, n)
    ensures Events(a + b, id) == Events(a, id) + Events(b, id)
  {
    if b == [] {
      assert a + b == a;
    } else {
      CountConcat(a, b[..|b| - 1], n, id);
      assert (a + b)[..|a + b| - 1] == a + b[..|b| - 1];
    }
  }

  lemma {:induction false} TaggedConcat(a: seq<Write>, b: seq<Write>, tag: nat)
    ensures RowsTagged(a + b, tag) == RowsTagged(a, tag) + RowsTagged(b, tag)
  {
    if b == [] {
      assert a + b == a;
    } else {
      TaggedConcat(a, b[..|b| - 1], tag);
      assert (a + b)[..|a + b| - 1] == a + b[..|b| - 1];
    }
  }

  lemma {:induction false} CountRows(tag: nat, rows: seq<string>, n: Name, id: nat)
    ensures Claims(RowsOf(tag, rows), n) == 0 && Events(RowsOf(tag, rows), id) == 0
    ensures RowsTagged(RowsOf(tag, rows), id) == if tag == id then rows else []
  {
    if rows != [] {
      var init := rows[..|rows| - 1];
      CountRows(tag, init, n, id);
      assert RowsOf(tag, rows)[..|rows| - 1] == RowsOf(tag, init);
    }
  }

  lemma CountPair(claim: Write, event: Write, n: Name, id: nat)
    requires claim.Claim? && event.Event?
    ensures Claims([claim, event], n) == if n in ClaimNames(claim) then 1 else 0
    ensures Events([claim, event], id) == if event.record == id then 1 else 0
    ensures RowsTagged([claim, event], id) == []
  {
    assert [claim, event][..1] == [claim] && [claim][..0] == [];
    assert Claims([claim], n) == if n in ClaimNames(claim) then 1 else 0;
    assert Events([claim], id) == 0 && RowsTagged([claim], id) == [];
  }

  lemma CountBlock(b: Block, n: Name, id: nat)
    ensures Claims(Writes(b), n) == if b.Effect? && n in {K(b.key), N(b.tag), N(b.record)} then 1 else 0
    ensures Events(Writes(b), id) == if b.Effect? && id == b.record then 1 else 0
    ensures RowsTagged(Writes(b), id) == if b.Effect? && id == b.tag then b.rows else []
  {
    if b.Effect? {
      var rows := RowsOf(b.tag, b.rows);
      var claim, event := Claim(b.key, b.fingerprint, b.tag, b.record, b.result), Event(b.event, b.record);
      CountPair(claim, event, n, id);
      CountRows(b.tag, b.rows, n, id);
      CountConcat(rows, [claim, event], n, id);
      TaggedConcat(rows, [claim, event], id);
    } else {
      assert Writes(b)[..0] == [];
    }
  }

  lemma {:induction false} CountNone(bs: seq<Block>, n: Name, id: nat)
    requires n !in AllNames(bs) && N(id) !in AllNames(bs)
    ensures Claims(Flat(bs), n) == 0 && Events(Flat(bs), id) == 0 && RowsTagged(Flat(bs), id) == []
  {
    if bs != [] {
      var init, last := bs[..|bs| - 1], bs[|bs| - 1];
      assert bs == init + [last] && Names(last) <= AllNames(bs);
      assert AllNames(init) <= AllNames(bs);
      CountNone(init, n, id);
      CountElsewhere(last, n, id);
      CountSnoc(bs, n, id);
    }
  }

  /** Counts of a sequence that ends with `last`. */
  lemma CountSnoc(bs: seq<Block>, n: Name, id: nat)
    requires bs != []
    ensures var init, last := bs[..|bs| - 1], bs[|bs| - 1];
            && Claims(Flat(bs), n) == Claims(Flat(init), n) + Claims(Writes(last), n)
            && Events(Flat(bs), id) == Events(Flat(init), id) + Events(Writes(last), id)
            && RowsTagged(Flat(bs), id) == RowsTagged(Flat(init), id) + RowsTagged(Writes(last), id)
  {
    var init, last := bs[..|bs| - 1], bs[|bs| - 1];
    CountConcat(Flat(init), Writes(last), n, id);
    TaggedConcat(Flat(init), Writes(last), id);
  }

  lemma NamesBefore(bs: seq<Block>, n: Name)
    requires Unique(bs) && bs != [] && n in Names(bs[|bs| - 1])
    ensures n !in AllNames(bs[..|bs| - 1])
  {
  }

  lemma CountElsewhere(b: Block, n: Name, id: nat)
    requires n !in Names(b) && N(id) !in Names(b)
    ensures Claims(Writes(b), n) == 0 && Events(Writes(b), id) == 0 && RowsTagged(Writes(b), id) == []
  {
    CountBlock(b, n, id);
  }

  /** Only the block a name belongs to contributes to the counts of that name. */
  lemma {:induction false} CountOne(bs: seq<Block>, b: Block, n: Name, id: nat)
    requires Unique(bs) && b in bs && n in Names(b) && N(id) in Names(b)
    ensures Claims(Flat(bs), n) == Claims(Writes(b), n) && Events(Flat(bs), id) == Events(Writes(b), id)
    ensures RowsTagged(Flat(bs), id) == RowsTagged(Writes(b), id)
  {
    var init, last := bs[..|bs| - 1], bs[|bs| - 1];
    CountSnoc(bs, n, id);
    if b == last {
      NamesBefore(bs, n);
      NamesBefore(bs, N(id));
      CountNone(init, n, id);
    } else {
      OneBefore(bs, b);
      CountOne(init, b, n, id);
      CountElsewhere(last, n, id);
    }
  }

  lemma OneBefore(bs: seq<Block>, b: Block)
    requires Unique(bs) && b in bs && b != bs[|bs| - 1]
    ensures Unique(bs[..|bs| - 1]) && b in bs[..|bs| - 1] && Names(b) !! Names(bs[|bs| - 1])
  {
  }

  /** A committed claim is alone with its key, its record and its execution; one event is
      linked to it; every event and every row of a mutation has its claim. */
  ghost predicate OneOfEach(ws: seq<Write>, w: Write) {
    match w
    case Plain(_) => true
    case Row(tag, _) => Claims(ws, N(tag)) == 1
    case Claim(key, _, tag, record, _) =>
      Claims(ws, K(key)) == 1 && Claims(ws, N(tag)) == 1 && Claims(ws, N(record)) == 1 && Events(ws, record) == 1
    case Event(_, record) => Claims(ws, N(record)) == 1 && Events(ws, record) == 1
  }

  lemma WriteBlock(bs: seq<Block>, w: Write) returns (b: Block)
    requires w in Flat(bs) && !w.Plain?
    ensures b in bs && b.Effect? && w in Writes(b)
    ensures w.Row? ==> w.tag == b.tag
    ensures w.Event? ==> w.record == b.record
    ensures w.Claim? ==> w == Claim(b.key, b.fingerprint, b.tag, b.record, b.result)
  {
    FlatMember(bs, w);
    b :| b in bs && w in Writes(b);
  }

  lemma ExactlyOnce(ls: seq<Label>)
    requires Valid(INIT, ls)
    ensures var s := Run(INIT, ls);
            && (forall w :: w in s.committed ==> OneOfEach(s.committed, w))
            && (forall b :: b in s.history && b.Effect? ==>
                  Claim(b.key, b.fingerprint, b.tag, b.record, b.result) in s.committed
                  && Event(b.event, b.record) in s.committed && RowsTagged(s.committed, b.tag) == b.rows)
  {
    var s := Run(INIT, ls);
    InitInv();
    RunInv(INIT, ls);
    forall w | w in s.committed ensures OneOfEach(s.committed, w) {
      if !w.Plain? {
        var b := WriteBlock(s.history, w);
        BlockCounts(s.history, b);
      }
    }
    forall b | b in s.history && b.Effect?
      ensures Claim(b.key, b.fingerprint, b.tag, b.record, b.result) in s.committed
      ensures Event(b.event, b.record) in s.committed && RowsTagged(s.committed, b.tag) == b.rows
    {
      BlockIn(s.history, b);
      BlockCounts(s.history, b);
    }
  }

  lemma BlockCounts(bs: seq<Block>, b: Block)
    requires Unique(bs) && b in bs && b.Effect?
    ensures Claims(Flat(bs), K(b.key)) == Claims(Flat(bs), N(b.tag)) == Claims(Flat(bs), N(b.record)) == 1
    ensures Events(Flat(bs), b.record) == 1 && RowsTagged(Flat(bs), b.tag) == b.rows
  {
    CountOne(bs, b, K(b.key), b.record);
    CountOne(bs, b, N(b.tag), b.tag);
    CountOne(bs, b, N(b.record), b.record);
    CountBlock(b, K(b.key), b.record);
    CountBlock(b, N(b.tag), b.tag);
    CountBlock(b, N(b.record), b.record);
  }

  // ------------------------------------------------------------------ replay agreement

  function FirstRuns(answers: seq<Answer>, key: Key): nat {
    if answers == [] then 0
    else
      var a := answers[|answers| - 1];
      FirstRuns(answers[..|answers| - 1], key) + (if a.key == key && a.Result? && !a.replayed then 1 else 0)
  }

  lemma FirstRunsSnoc(answers: seq<Answer>, a: Answer, key: Key)
    ensures FirstRuns(answers + [a], key)
            == FirstRuns(answers, key) + (if a.key == key && a.Result? && !a.replayed then 1 else 0)
  {
  }

  lemma {:induction false} FirstRunsOf(answers: seq<Answer>, key: Key)
    ensures FirstRuns(answers, key) == FirstRuns(FirstAnswers(answers), key)
  {
    if answers != [] {
      var init, last := answers[..|answers| - 1], answers[|answers| - 1];
      FirstRunsOf(init, key);
      FirstRunsSnoc(FirstAnswers(init), last, key);
      assert FirstAnswers(init) + [] == FirstAnswers(init);
    }
  }

  lemma {:induction false} FirstsCount(bs: seq<Block>, key: Key)
    ensures FirstRuns(Firsts(bs), key) == Claims(Flat(bs), K(key))
  {
    if bs != [] {
      var init, last := bs[..|bs| - 1], bs[|bs| - 1];
      FirstsCount(init, key);
      FirstsStep(Firsts(init), last, key);
      CountConcat(Flat(init), Writes(last), K(key), 0);
    }
  }

  lemma FirstsStep(answers: seq<Answer>, b: Block, key: Key)
    ensures FirstRuns(answers + FirstOf(b), key) == FirstRuns(answers, key) + Claims(Writes(b), K(key))
  {
    CountBlock(b, K(key), 0);
    if b.Effect? {
      FirstRunsSnoc(answers, FirstOf(b)[0], key);
    } else {
      assert answers + [] == answers;
    }
  }

  /** Everything a committed call was told comes from the one committed claim of its key; one
      of those calls ran the mutation, and a call is refused exactly when its fingerprint is
      not the claim's. */
  lemma ReplayAgreement(ls: seq<Label>)
    requires Valid(INIT, ls)
    ensures var s := Run(INIT, ls);
            && (forall a :: a in s.answers ==>
                  exists claim :: claim in s.committed && claim.Claim? && claim.key == a.key
                    && (a.Result? <==> a.fingerprint == claim.fingerprint)
                    && (a.Result? ==> a.record == claim.record && a.result == claim.result
                                      && Event(a.event, claim.record) in s.committed))
            && (forall a :: a in s.answers ==> FirstRuns(s.answers, a.key) == 1)
            && (forall key :: FirstRuns(s.answers, key) == Claims(s.committed, K(key)))
  {
    var s := Run(INIT, ls);
    InitInv();
    RunInv(INIT, ls);
    forall key ensures FirstRuns(s.answers, key) == Claims(s.committed, K(key)) {
      FirstRunsOf(s.answers, key);
      FirstsCount(s.history, key);
    }
    forall a | a in s.answers
      ensures FirstRuns(s.answers, a.key) == 1
      ensures exists claim :: claim in s.committed && claim.Claim? && claim.key == a.key
                && (a.Result? <==> a.fingerprint == claim.fingerprint)
                && (a.Result? ==> a.record == claim.record && a.result == claim.result
                                  && Event(a.event, claim.record) in s.committed)
    {
      var b :| b in s.history && Matches(a, b);
      BlockIn(s.history, b);
      BlockCounts(s.history, b);
      assert Claim(b.key, b.fingerprint, b.tag, b.record, b.result) in s.committed;
    }
  }

  /** Two committed calls of one key that succeeded were told the same thing. */
  lemma SameAnswer(ls: seq<Label>, a: Answer, b: Answer)
    requires Valid(INIT, ls) && a in Run(INIT, ls).answers && b in Run(INIT, ls).answers
    requires a.Result? && b.Result? && a.key == b.key
    ensures a.(replayed := b.replayed) == b
  {
    var s := Run(INIT, ls);
    InitInv();
    RunInv(INIT, ls);
    var x :| x in s.history && Matches(a, x);
    var y :| y in s.history && Matches(b, y);
    SameBlock(s.history, x, y, K(a.key));
  }

  // ------------------------------------------------------------------ what never happens

  /** Looking up a key never finds a claim without its event, and a caller the claim index
      turned away always finds the claim that beat it when it reads again. */
  lemma NeverUnexplained(ls: seq<Label>, t: nat, call: Call)
    requires Valid(INIT, ls) && t in Run(INIT, ls).txns
    ensures var s := Run(INIT, ls); var x := s.txns[t];
            && (x.phase.Outside? ==> Enabled(s, LCall(t, call)))
            && (x.phase.Recovering? ==> Enabled(s, LReread(t)))
            && (x.phase.Recovering? && x.phase.claimTaken ==> FindClaim(Visible(s, t), x.phase.call.key).Some?)
  {
    var s := Run(INIT, ls);
    var x := s.txns[t];
    InitInv();
    RunInv(INIT, ls);
    assert TxnInv(s, x);
    if x.phase.Outside? || x.phase.Recovering? {
      var c := if x.phase.Outside? then call else x.phase.call;
      VisibleFlat(s, t);
      Replayed(s.history + x.blocks, c);
      NamesConcat(s.history, x.blocks);
      KeyTaken(s.history + x.blocks, c.key);
    }
  }

  // ------------------------------------------------------------------ failure atomicity

  /** The call of `t` is still running after every step. */
  ghost predicate Inside(s: Sys, t: nat, ls: seq<Label>)
    decreases |ls|
  {
    t in s.txns && !s.txns[t].phase.Outside? &&
    (ls == [] || (Enabled(s, ls[0]) && Inside(Apply(s, ls[0]), t, ls[1..])))
  }

  ghost predicate Entry(s: Sys, t: nat, before: Txn, call: Call) {
    && Inv(s) && t in s.txns && s.txns[t].answers == before.answers && s.txns[t].blocks == before.blocks
    && match s.txns[t].phase
       case Outside => false
       case Mutating(asked, mark, entry, _, _) => asked == call && entry == before.writes && mark == |before.writes|
       case Claiming(asked, mark, entry, _, _, _, _) => asked == call && entry == before.writes && mark == |before.writes|
       case Recovering(asked, entry, _) => asked == call && entry == before.writes
  }

  lemma Untouched(s: Sys, t: nat, l: Label)
    requires Enabled(s, l) && l.t != t && t in s.txns
    ensures t in Apply(s, l).txns && Apply(s, l).txns[t] == s.txns[t]
  {
  }

  lemma EntryOwn(s: Sys, before: Txn, call: Call, l: Label)
    requires Entry(s, l.t, before, call) && Enabled(s, l) && Inv(Apply(s, l))
    requires l.t in Apply(s, l).txns && !Apply(s, l).txns[l.t].phase.Outside?
    ensures Entry(Apply(s, l), l.t, before, call)
  {
  }

  lemma EntryStep(s: Sys, t: nat, before: Txn, call: Call, l: Label)
    requires Entry(s, t, before, call) && Enabled(s, l) && t in Apply(s, l).txns && !Apply(s, l).txns[t].phase.Outside?
    ensures Entry(Apply(s, l), t, before, call)
  {
    StepInv(s, l);
    if l.t != t {
      Untouched(s, t, l);
    } else {
      EntryOwn(s, before, call, l);
    }
  }

  lemma {:induction false} EntryRun(s: Sys, t: nat, before: Txn, call: Call, ls: seq<Label>)
    requires Entry(s, t, before, call) && Inside(s, t, ls)
    ensures Valid(s, ls) && Entry(Run(s, ls), t, before, call)
    decreases |ls|
  {
    if ls != [] {
      EntryStep(s, t, before, call, ls[0]);
      EntryRun(Apply(s, ls[0]), t, before, call, ls[1..]);
    }
  }

  /** How a call may leave its transaction: the whole effect, written and answered for, or
      nothing at all but perhaps a replayed answer. */
  ghost predicate Exited(before: Txn, call: Call, last: Label, after: Txn) {
    if last.LEvent? then
      exists b: Block :: b.Effect? && b.key == call.key && b.fingerprint == call.fingerprint
        && after.writes == before.writes + Writes(b) && after.answers == before.answers + FirstOf(b)
    else
      && after.writes == before.writes
      && (after.answers == before.answers
          || exists a: Answer :: after.answers == before.answers + [a] && a.key == call.key && (a.Result? ==> a.replayed))
  }

  /** Whatever other transactions do while a call runs, the step on which it returns or raises
      has either written the whole effect and answered for it, or left the transaction's rows
      exactly as the call found them. */
  lemma CallIsAtomic(ls: seq<Label>, t: nat, call: Call, inside: seq<Label>, last: Label)
    requires Valid(INIT, ls) && Enabled(Run(INIT, ls), LCall(t, call))
    requires Inside(Apply(Run(INIT, ls), LCall(t, call)), t, inside)
    requires Valid(Apply(Run(INIT, ls), LCall(t, call)), inside)
    requires var s := Run(Apply(Run(INIT, ls), LCall(t, call)), inside);
             Enabled(s, last) && t in Apply(s, last).txns && Apply(s, last).txns[t].phase.Outside?
    ensures last.t == t
    ensures Exited(Run(INIT, ls).txns[t], call, last,
                   Apply(Run(Apply(Run(INIT, ls), LCall(t, call)), inside), last).txns[t])
  {
    InitInv();
    RunInv(INIT, ls);
    CallExits(Run(INIT, ls), t, call, inside, last);
  }

  lemma CallExits(s: Sys, t: nat, call: Call, inside: seq<Label>, last: Label)
    requires Inv(s) && Enabled(s, LCall(t, call)) && Inside(Apply(s, LCall(t, call)), t, inside)
    requires Valid(Apply(s, LCall(t, call)), inside)
    requires var s2 := Run(Apply(s, LCall(t, call)), inside);
             Enabled(s2, last) && t in Apply(s2, last).txns && Apply(s2, last).txns[t].phase.Outside?
    ensures last.t == t
    ensures Exited(s.txns[t], call, last, Apply(Run(Apply(s, LCall(t, call)), inside), last).txns[t])
  {
    EntryStart(s, t, call);
    EntryExits(Apply(s, LCall(t, call)), t, s.txns[t], call, inside, last);
  }

  /** A call that does not return at once has entered its SAVEPOINT. */
  lemma EntryStart(s: Sys, t: nat, call: Call)
    requires Inv(s) && Enabled(s, LCall(t, call))
    requires t in Apply(s, LCall(t, call)).txns && !Apply(s, LCall(t, call)).txns[t].phase.Outside?
    ensures Entry(Apply(s, LCall(t, call)), t, s.txns[t], call)
  {
    StepInv(s, LCall(t, call));
    assert Apply(s, LCall(t, call)).txns[t] == Entered(s.txns[t], call, s.nextId);
  }

  lemma EntryExits(s: Sys, t: nat, before: Txn, call: Call, inside: seq<Label>, last: Label)
    requires Entry(s, t, before, call) && Inside(s, t, inside) && Valid(s, inside)
    requires var s2 := Run(s, inside);
             Enabled(s2, last) && t in Apply(s2, last).txns && Apply(s2, last).txns[t].phase.Outside?
    ensures last.t == t && Exited(before, call, last, Apply(Run(s, inside), last).txns[t])
  {
    EntryRun(s, t, before, call, inside);
    ExitStep(Run(s, inside), t, before, call, last);
  }

  lemma ExitReply(s: Sys, t: nat, before: Txn, call: Call)
    requires Entry(s, t, before, call) && s.txns[t].phase.Recovering?
    requires Answerable(Visible(s, t), call) && FindClaim(Visible(s, t), call.key).Some?
    ensures Exited(before, call, LReread(t), Replied(s, t, call))
  {
    var x := s.txns[t];
    assert TxnInv(s, x);
    VisibleFlat(s, t);
    Replayed(s.history + x.blocks, call);
    var a := Replay(Visible(s, t), call, FindClaim(Visible(s, t), call.key).value).value;
    assert Replied(s, t, call).answers == before.answers + [a];
  }

  lemma ExitEvent(s: Sys, t: nat, before: Txn, call: Call)
    requires Entry(s, t, before, call) && s.txns[t].phase.Claiming?
    ensures Exited(before, call, LEvent(t), AfterEvent(s.txns[t], s.nextId))
  {
  }

  lemma ExitStep(s: Sys, t: nat, before: Txn, call: Call, last: Label)
    requires Entry(s, t, before, call) && Enabled(s, last) && t in Apply(s, last).txns
    requires Apply(s, last).txns[t].phase.Outside?
    ensures last.t == t && Exited(before, call, last, Apply(s, last).txns[t])
  {
    if last.t != t {
      Untouched(s, t, last);
    }
    var x := s.txns[t];
    assert Shaped(x) by { assert TxnInv(s, x); }
    match last {
      case LEvent(_) => ExitEvent(s, t, before, call);
      case LReread(_) => if FindClaim(Visible(s, t), call.key).Some? { ExitReply(s, t, before, call); }
      case _ => if x.phase.Mutating? || x.phase.Claiming? { BackAtEntry(x); }
    }
  }
}
