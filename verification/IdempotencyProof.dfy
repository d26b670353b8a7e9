/** One committed effect, one claim and one event per key, over every interleaving. */
module IdempotencyProof {
  import opened IdempotencyModel

  // ------------------------------------------------------------------ blocks

  function RowsOf(tag: nat, rows: seq<string>): seq<Write> {
    seq(|rows|, i requires 0 <= i < |rows| => Row(tag, rows[i]))
  }

  function Writes(b: Block): seq<Write> {
    match b
    case Own(d) => [Plain(d)]
    case Effect(k, f, tag, rows, record, event, result) =>
      RowsOf(tag, rows) + [Claim(k, f, tag, record, result), Event(event, record)]
  }

  function Flat(bs: seq<Block>): seq<Write> {
    if bs == [] then [] else Flat(bs[..|bs| - 1]) + Writes(bs[|bs| - 1])
  }

  /** Keys and identifiers, each of which belongs to one execution. */
  datatype Name = K(key: Key) | N(id: nat)

  function Names(b: Block): set<Name> {
    if b.Effect? then {K(b.key), N(b.tag), N(b.record), N(b.event)} else {}
  }

  function AllNames(bs: seq<Block>): set<Name> {
    set b, n | b in bs && n in Names(b) :: n
  }

  ghost predicate Unique(bs: seq<Block>) {
    forall i, j :: 0 <= i < j < |bs| ==> Names(bs[i]) !! Names(bs[j])
  }

  lemma InConcat<T>(a: seq<T>, b: seq<T>, x: T)
    ensures x in a + b <==> x in a || x in b
  {
  }

  lemma {:induction false} FlatMember(bs: seq<Block>, w: Write)
    ensures w in Flat(bs) <==> exists b :: b in bs && w in Writes(b)
  {
    if bs != [] {
      var init, last := bs[..|bs| - 1], bs[|bs| - 1];
      FlatMember(init, w);
      InConcat(Flat(init), Writes(last), w);
      assert bs == init + [last];
      forall b ensures b in bs <==> b in init || b == last { InConcat(init, [last], b); }
    }
  }

  lemma FlatSnoc(bs: seq<Block>, b: Block)
    ensures Flat(bs + [b]) == Flat(bs) + Writes(b)
  {
  }

  lemma {:induction false} FlatConcat(a: seq<Block>, b: seq<Block>)
    ensures Flat(a + b) == Flat(a) + Flat(b)
  {
    if b == [] {
      assert a + b == a;
    } else {
      var init, last := b[..|b| - 1], b[|b| - 1];
      calc {
        Flat(a + b);
        { assert a + b == (a + init) + [last]; }
        Flat((a + init) + [last]);
        { FlatSnoc(a + init, last); }
        Flat(a + init) + Writes(last);
        { FlatConcat(a, init); }
        (Flat(a) + Flat(init)) + Writes(last);
        { Assoc(Flat(a), Flat(init), Writes(last)); }
        Flat(a) + (Flat(init) + Writes(last));
        { FlatSnoc(init, last); assert b == init + [last]; }
        Flat(a) + Flat(b);
      }
    }
  }

  lemma Assoc<T>(a: seq<T>, b: seq<T>, c: seq<T>)
    ensures (a + b) + c == a + (b + c)
  {
  }

  lemma SameBlock(bs: seq<Block>, a: Block, b: Block, n: Name)
    requires Unique(bs) && a in bs && b in bs && n in Names(a) && n in Names(b)
    ensures a == b
  {
  }

  lemma ClaimBlock(bs: seq<Block>, c: Write) returns (b: Block)
    requires c.Claim? && c in Flat(bs)
    ensures b in bs && b.Effect? && c == Claim(b.key, b.fingerprint, b.tag, b.record, b.result)
  {
    FlatMember(bs, c);
    b :| b in bs && c in Writes(b);
  }

  lemma EventBlock(bs: seq<Block>, e: Write) returns (b: Block)
    requires e.Event? && e in Flat(bs)
    ensures b in bs && b.Effect? && e == Event(b.event, b.record)
  {
    FlatMember(bs, e);
    b :| b in bs && e in Writes(b);
  }

  lemma BlockIn(bs: seq<Block>, b: Block)
    requires b in bs && b.Effect?
    ensures Claim(b.key, b.fingerprint, b.tag, b.record, b.result) in Flat(bs)
    ensures Event(b.event, b.record) in Flat(bs)
  {
  }

  lemma KeyTaken(bs: seq<Block>, key: Key)
    ensures FindClaim(Flat(bs), key).Some? <==> K(key) in AllNames(bs)
  {
    if K(key) in AllNames(bs) {
      var b :| b in bs && K(key) in Names(b);
      BlockIn(bs, b);
    }
    var c := FindClaim(Flat(bs), key);
    if c.Some? {
      var b := ClaimBlock(bs, c.value);
      assert K(key) in Names(b);
    }
  }

  predicate Matches(a: Answer, b: Block) {
    b.Effect? && b.key == a.key &&
    match a
    case Result(k, f, record, event, result, _) =>
      f == b.fingerprint && record == b.record && event == b.event && result == b.result
    case Conflict(k, f) => f != b.fingerprint
  }

  ghost predicate Backed(a: Answer, bs: seq<Block>) {
    exists b :: b in bs && Matches(a, b)
  }

  /** A taken key is always answered, from the one execution that took it, and refused exactly
      when the fingerprint differs. */
  lemma Replayed(bs: seq<Block>, call: Call)
    requires Unique(bs)
    ensures Answerable(Flat(bs), call)
    ensures FindClaim(Flat(bs), call.key).Some? ==>
      var a := Replay(Flat(bs), call, FindClaim(Flat(bs), call.key).value).value;
      Backed(a, bs) && (a.Result? ==> a.replayed && a.fingerprint == call.fingerprint) && a.key == call.key
  {
    var c := FindClaim(Flat(bs), call.key);
    if c.Some? {
      var b := ClaimBlock(bs, c.value);
      BlockIn(bs, b);
      var e := FindEvent(Flat(bs), b.record);
      if e.Some? {
        var b' := EventBlock(bs, Event(e.value, b.record));
        SameBlock(bs, b, b', N(b.record));
      }
      assert Matches(Replay(Flat(bs), call, c.value).value, b);
    }
  }

  // ------------------------------------------------------------------ first executions

  function IfFirst(a: Answer): seq<Answer> {
    if a.Result? && !a.replayed then [a] else []
  }

  function FirstAnswers(answers: seq<Answer>): seq<Answer> {
    if answers == [] then [] else FirstAnswers(answers[..|answers| - 1]) + IfFirst(answers[|answers| - 1])
  }

  /** What the execution that wrote a block answered. */
  function FirstOf(b: Block): seq<Answer> {
    if b.Effect? then [Result(b.key, b.fingerprint, b.record, b.event, b.result, false)] else []
  }

  function Firsts(bs: seq<Block>): seq<Answer> {
    if bs == [] then [] else Firsts(bs[..|bs| - 1]) + FirstOf(bs[|bs| - 1])
  }

  lemma {:induction false} FirstsConcat(a: seq<Block>, b: seq<Block>)
    ensures Firsts(a + b) == Firsts(a) + Firsts(b)
  {
    if b == [] {
      assert a + b == a;
    } else {
      var init, last := b[..|b| - 1], b[|b| - 1];
      calc {
        Firsts(a + b);
        { assert (a + b)[..|a + b| - 1] == a + init; }
        Firsts(a + init) + FirstOf(last);
        { FirstsConcat(a, init); }
        (Firsts(a) + Firsts(init)) + FirstOf(last);
        { Assoc(Firsts(a), Firsts(init), FirstOf(last)); }
        Firsts(a) + Firsts(b);
      }
    }
  }

  lemma {:induction false} FirstAnswersConcat(a: seq<Answer>, b: seq<Answer>)
    ensures FirstAnswers(a + b) == FirstAnswers(a) + FirstAnswers(b)
  {
    if b == [] {
      assert a + b == a;
    } else {
      var init, last := b[..|b| - 1], IfFirst(b[|b| - 1]);
      calc {
        FirstAnswers(a + b);
        { assert (a + b)[..|a + b| - 1] == a + init; }
        FirstAnswers(a + init) + last;
        { FirstAnswersConcat(a, init); }
        (FirstAnswers(a) + FirstAnswers(init)) + last;
        { Assoc(FirstAnswers(a), FirstAnswers(init), last); }
        FirstAnswers(a) + FirstAnswers(b);
      }
    }
  }

  // ------------------------------------------------------------------ the invariant

  function InFlight(p: Phase): set<Name> {
    match p
    case Mutating(_, _, _, tag, _) => {N(tag)}
    case Claiming(call, _, _, tag, _, record, _) => {K(call.key), N(tag), N(record)}
    case _ => {}
  }

  function TxnNames(x: Txn): set<Name> {
    AllNames(x.blocks) + InFlight(x.phase)
  }

  /** What the transaction has written is its finished blocks and the one it is inside. */
  ghost predicate Shaped(x: Txn) {
    var done := Flat(x.blocks);
    match x.phase
    case Outside => x.writes == done
    case Mutating(_, mark, entry, tag, rows) =>
      entry == done && mark == |done| && x.writes == done + RowsOf(tag, rows)
    case Claiming(call, mark, entry, tag, rows, record, result) =>
      entry == done && mark == |done|
      && x.writes == done + RowsOf(tag, rows) + [Claim(call.key, call.fingerprint, tag, record, result)]
    case Recovering(_, entry, _) => entry == done && x.writes == done
  }

  ghost predicate Answered(answers: seq<Answer>, own: seq<Block>, all: seq<Block>) {
    && FirstAnswers(answers) == Firsts(own)
    && forall a :: a in answers ==> Backed(a, all)
  }

  /** Every name of the transaction is its own: used once, not committed, already given out. */
  ghost predicate Named(x: Txn, taken: set<Name>, nextId: nat) {
    && Unique(x.blocks) && AllNames(x.blocks) !! InFlight(x.phase) && TxnNames(x) !! taken
    && forall n :: n in TxnNames(x) && n.N? ==> n.id < nextId
  }

  ghost predicate TxnInv(s: Sys, x: Txn) {
    && Shaped(x) && Named(x, AllNames(s.history), s.nextId)
    && Answered(x.answers, x.blocks, s.history + x.blocks)
    && (x.phase.Recovering? && x.phase.claimTaken ==> K(x.phase.call.key) in AllNames(s.history))
  }

  ghost predicate Inv(s: Sys) {
    && s.committed == Flat(s.history) && Unique(s.history)
    && (forall n :: n in AllNames(s.history) && n.N? ==> n.id < s.nextId)
    && Answered(s.answers, s.history, s.history)
    && (forall t :: t in s.txns ==> TxnInv(s, s.txns[t]))
    && (forall t, u :: t in s.txns && u in s.txns && t != u ==> TxnNames(s.txns[t]) !! TxnNames(s.txns[u]))
  }

  // ------------------------------------------------------------------ preservation

  lemma NamesConcat(a: seq<Block>, b: seq<Block>)
    ensures AllNames(a + b) == AllNames(a) + AllNames(b)
    ensures Unique(a) && Unique(b) && AllNames(a) !! AllNames(b) ==> Unique(a + b)
  {
    forall n ensures n in AllNames(a + b) <==> n in AllNames(a) + AllNames(b) {
      assert forall x :: x in a + b <==> x in a || x in b;
    }
    if Unique(a) && Unique(b) && AllNames(a) !! AllNames(b) {
      forall i, j | 0 <= i < j < |a + b| ensures Names((a + b)[i]) !! Names((a + b)[j]) {
        if i < |a| <= j {
          assert Names(a[i]) <= AllNames(a) && Names(b[j - |a|]) <= AllNames(b);
        }
      }
    }
  }

  lemma BackedGrows(a: Answer, bs: seq<Block>, more: seq<Block>)
    requires Backed(a, bs)
    ensures Backed(a, bs + more) && Backed(a, more + bs)
  {
  }

  /** No other open transaction has a name of this one. */
  ghost predicate Apart(s: Sys, t: nat, names: set<Name>) {
    forall u :: u in s.txns && u != t ==> TxnNames(s.txns[u]) !! names
  }

  /** A step of one transaction that claims only free names keeps the invariant. */
  lemma LocalStep(s: Sys, t: nat, x: Txn, nextId: nat)
    requires Inv(s) && nextId >= s.nextId
    requires TxnInv(s.(nextId := nextId), x)
    requires Apart(s, t, TxnNames(x))
    ensures Inv(Put(s, t, x).(nextId := nextId))
  {
  }

  /** A number nobody has been given is in nobody's names. */
  lemma FreshName(s: Sys)
    requires Inv(s)
    ensures N(s.nextId) !in AllNames(s.history)
    ensures forall u :: u in s.txns ==> N(s.nextId) !in TxnNames(s.txns[u])
  {
  }

  /** Taking names that nobody has. */
  lemma Gains(s: Sys, t: nat, y: Txn, extra: set<Name>, nextId: nat)
    requires Inv(s) && t in s.txns && y.blocks == s.txns[t].blocks && nextId >= s.nextId
    requires InFlight(y.phase) == InFlight(s.txns[t].phase) + extra
    requires extra !! AllNames(s.history) && forall u :: u in s.txns ==> extra !! TxnNames(s.txns[u])
    requires forall n :: n in extra && n.N? ==> n.id < nextId
    ensures Named(y, AllNames(s.history), nextId) && Apart(s, t, TxnNames(y))
  {
  }

  lemma VisibleFlat(s: Sys, t: nat)
    requires Inv(s) && t in s.txns && (s.txns[t].phase.Outside? || s.txns[t].phase.Recovering?)
    ensures Visible(s, t) == Flat(s.history + s.txns[t].blocks) && Unique(s.history + s.txns[t].blocks)
  {
    assert TxnInv(s, s.txns[t]);
    FlatConcat(s.history, s.txns[t].blocks);
    NamesConcat(s.history, s.txns[t].blocks);
  }

  /** A key that no visible row and no open transaction claims is in nobody's names. */
  lemma FreeKey(s: Sys, t: nat, key: Key)
    requires Inv(s) && t in s.txns && s.txns[t].phase.Mutating?
    requires FindClaim(Visible(s, t), key).None? && Unblocked(s, t, key)
    ensures K(key) !in AllNames(s.history)
    ensures forall u :: u in s.txns ==> K(key) !in TxnNames(s.txns[u])
  {
    KeyTaken(s.history, key);
    forall w | w in s.committed && w.Claim? ensures w.key != key { assert w in Visible(s, t); }
    forall u | u in s.txns ensures K(key) !in TxnNames(s.txns[u]) {
      var x := s.txns[u];
      assert TxnInv(s, x);
      forall w | w in x.writes && w.Claim? ensures w.key != key {
        assert u == t ==> w in Visible(s, t);
        assert u != t ==> !HoldsKey(x, key);
      }
      KeyTaken(x.blocks, key);
      assert forall w :: w in Flat(x.blocks) ==> w in x.writes;
      assert x.phase.Claiming? ==> x.writes[|x.writes| - 1] in x.writes;
    }
  }

  lemma OneMoreReplay(answers: seq<Answer>, own: seq<Block>, all: seq<Block>, a: Answer)
    requires Answered(answers, own, all) && Backed(a, all) && (a.Result? ==> a.replayed)
    ensures Answered(answers + [a], own, all)
  {
  }

  lemma ReplyTxn(s: Sys, t: nat, call: Call)
    requires Inv(s) && t in s.txns && (s.txns[t].phase.Outside? || s.txns[t].phase.Recovering?)
    requires FindClaim(Visible(s, t), call.key).Some? && Answerable(Visible(s, t), call)
    ensures Shaped(Replied(s, t, call))
    ensures Answered(Replied(s, t, call).answers, s.txns[t].blocks, s.history + s.txns[t].blocks)
  {
    var was := s.txns[t];
    assert TxnInv(s, was);
    VisibleFlat(s, t);
    Replayed(s.history + was.blocks, call);
    var a := Replay(Visible(s, t), call, FindClaim(Visible(s, t), call.key).value).value;
    OneMoreReplay(was.answers, was.blocks, s.history + was.blocks, a);
  }

  lemma StepReply(s: Sys, t: nat, call: Call)
    requires Inv(s) && t in s.txns && (s.txns[t].phase.Outside? || s.txns[t].phase.Recovering?)
    requires FindClaim(Visible(s, t), call.key).Some? && Answerable(Visible(s, t), call)
    ensures Inv(Put(s, t, Replied(s, t, call)))
  {
    ReplyTxn(s, t, call);
    SameNamesStep(s, t, Replied(s, t, call));
  }

  lemma SameNamesStep(s: Sys, t: nat, y: Txn)
    requires Inv(s) && t in s.txns && y.phase.Outside? && y.blocks == s.txns[t].blocks && Shaped(y)
    requires Answered(y.answers, y.blocks, s.history + y.blocks)
    ensures Inv(Put(s, t, y))
  {
    assert TxnInv(s, s.txns[t]);
    assert TxnNames(y) <= TxnNames(s.txns[t]);
    LocalStep(s, t, y, s.nextId);
  }

  lemma EnterTxn(s: Sys, x: Txn, call: Call)
    requires TxnInv(s, x) && x.phase.Outside?
    requires Named(Entered(x, call, s.nextId), AllNames(s.history), s.nextId + 1)
    ensures TxnInv(s.(nextId := s.nextId + 1), Entered(x, call, s.nextId))
  {
  }

  lemma StepEnter(s: Sys, t: nat, call: Call)
    requires Inv(s) && t in s.txns && s.txns[t].phase.Outside?
    ensures Inv(Put(s, t, Entered(s.txns[t], call, s.nextId)).(nextId := s.nextId + 1))
  {
    var x := s.txns[t];
    var y := Entered(x, call, s.nextId);
    FreshName(s);
    Gains(s, t, y, {N(s.nextId)}, s.nextId + 1);
    EnterTxn(s, x, call);
    LocalStep(s, t, y, s.nextId + 1);
  }

  lemma StepCall(s: Sys, l: Label)
    requires Inv(s) && Enabled(s, l) && (l.LCall? || l.LReread?)
    ensures Inv(Apply(s, l))
  {
    var x := s.txns[l.t];
    var call := if l.LCall? then l.call else x.phase.call;
    if FindClaim(Visible(s, l.t), call.key).Some? {
      StepReply(s, l.t, call);
    } else if l.LCall? {
      StepEnter(s, l.t, call);
    } else {
      assert TxnInv(s, x);
      PhaseStep(s, l.t, x.(phase := Outside));
    }
  }

  /** A step inside the primitive that claims no new name. */
  lemma PhaseStep(s: Sys, t: nat, y: Txn)
    requires Inv(s) && t in s.txns
    requires y.blocks == s.txns[t].blocks && y.answers == s.txns[t].answers && Shaped(y)
    requires InFlight(y.phase) <= InFlight(s.txns[t].phase)
    requires y.phase.Recovering? && y.phase.claimTaken ==> K(y.phase.call.key) in AllNames(s.history)
    ensures Inv(Put(s, t, y))
  {
    assert TxnInv(s, s.txns[t]);
    assert TxnNames(y) <= TxnNames(s.txns[t]);
    LocalStep(s, t, y, s.nextId);
  }

  lemma RowsSnoc(tag: nat, rows: seq<string>, data: string)
    ensures RowsOf(tag, rows + [data]) == RowsOf(tag, rows) + [Row(tag, data)]
  {
  }

  lemma StepRow(s: Sys, l: Label)
    requires Inv(s) && Enabled(s, l) && l.LRow?
    ensures Inv(Apply(s, l))
  {
    var x := s.txns[l.t];
    var p := x.phase;
    assert TxnInv(s, x);
    var y := Apply(s, l).txns[l.t];
    assert Shaped(y) by {
      RowsSnoc(p.tag, p.rows, l.data);
      Assoc(Flat(x.blocks), RowsOf(p.tag, p.rows), [Row(p.tag, l.data)]);
    }
    PhaseStep(s, l.t, y);
  }

  lemma BackAtEntry(x: Txn)
    requires Shaped(x) && (x.phase.Mutating? || x.phase.Claiming?)
    ensures BackTo(x.writes, x.phase.mark) == Flat(x.blocks) == x.phase.entry
  {
  }

  lemma StepBack(s: Sys, l: Label)
    requires Inv(s) && Enabled(s, l) && (l.LIntegrityError? || l.LRaise?)
    ensures Inv(Apply(s, l))
  {
    var x := s.txns[l.t];
    assert TxnInv(s, x);
    BackAtEntry(x);
    KeyTaken(s.history, x.phase.call.key);
    PhaseStep(s, l.t, Apply(s, l).txns[l.t]);
  }

  lemma StepClaim(s: Sys, l: Label)
    requires Inv(s) && Enabled(s, l) && l.LClaim?
    ensures Inv(Apply(s, l))
  {
    var x := s.txns[l.t];
    assert TxnInv(s, x);
    FreshName(s);
    FreeKey(s, l.t, x.phase.call.key);
    var y := Apply(s, l).txns[l.t];
    Gains(s, l.t, y, {K(x.phase.call.key), N(s.nextId)}, s.nextId + 1);
    LocalStep(s, l.t, y, s.nextId + 1);
  }

  lemma BlockNames(bs: seq<Block>, b: Block)
    requires Unique(bs) && Names(b) !! AllNames(bs)
    ensures AllNames(bs + [b]) == AllNames(bs) + Names(b) && Unique(bs + [b])
  {
  }

  /** A transaction that finishes one more block, and answers for it if it is an effect. */
  lemma BlockStep(s: Sys, x: Txn, b: Block, y: Txn, nextId: nat)
    requires TxnInv(s, x) && nextId >= s.nextId
    requires y.phase.Outside? && y.blocks == x.blocks + [b] && y.writes == Flat(x.blocks) + Writes(b)
    requires Names(b) !! AllNames(x.blocks) && Names(b) !! AllNames(s.history)
    requires forall n :: n in Names(b) && n.N? ==> n.id < nextId
    requires y.answers == x.answers + FirstOf(b)
    ensures TxnInv(s.(nextId := nextId), y) && TxnNames(y) == AllNames(x.blocks) + Names(b)
  {
    var names, new_, taken := AllNames(x.blocks), Names(b), AllNames(s.history);
    BlockNames(x.blocks, b);
    assert TxnNames(y) == names + new_;
    assert Shaped(y) by { FlatSnoc(x.blocks, b); }
    assert names <= TxnNames(x) && names !! taken;
    assert Answered(y.answers, y.blocks, s.history + y.blocks) by { BlockAnswers(s, x, b, y); }
  }

  lemma BlockAnswers(s: Sys, x: Txn, b: Block, y: Txn)
    requires Answered(x.answers, x.blocks, s.history + x.blocks) && y.blocks == x.blocks + [b]
    requires y.answers == x.answers + FirstOf(b)
    ensures Answered(y.answers, y.blocks, s.history + y.blocks)
  {
    var before, all := s.history + x.blocks, s.history + y.blocks;
    assert FirstAnswers(y.answers) == Firsts(y.blocks) by {
      FirstAnswersConcat(x.answers, FirstOf(b));
      FirstsConcat(x.blocks, [b]);
      assert FirstAnswers(FirstOf(b)) == FirstOf(b) == Firsts([b]);
    }
    forall a | a in y.answers ensures Backed(a, all) {
      if a in x.answers {
        BackedGrows(a, before, [b]);
        assert all == before + [b];
      } else {
        assert b in all && Matches(a, b);
      }
    }
  }

  /** The block a claim and its event finish. */
  function Finished(p: Phase, event: nat): Block
    requires p.Claiming?
  {
    Effect(p.call.key, p.call.fingerprint, p.tag, p.rows, p.record, event, p.result)
  }

  lemma FinishedWrites(x: Txn, event: nat)
    requires x.phase.Claiming? && Shaped(x)
    ensures x.writes + [Event(event, x.phase.record)] == Flat(x.blocks) + Writes(Finished(x.phase, event))
  {
  }

  lemma FinishedNames(s: Sys, t: nat)
    requires Inv(s) && t in s.txns && s.txns[t].phase.Claiming?
    ensures var b := Finished(s.txns[t].phase, s.nextId);
            && Names(b) !! AllNames(s.txns[t].blocks) && Names(b) !! AllNames(s.history)
            && (forall n :: n in Names(b) && n.N? ==> n.id < s.nextId + 1)
            && Apart(s, t, AllNames(s.txns[t].blocks) + Names(b))
  {
  }

  function AfterEvent(x: Txn, event: nat): Txn
    requires x.phase.Claiming?
  {
    var b := Finished(x.phase, event);
    Txn(x.writes + [Event(event, b.record)], Outside, x.answers + FirstOf(b), x.blocks + [b])
  }

  lemma EventTxn(s: Sys, t: nat)
    requires Inv(s) && t in s.txns && s.txns[t].phase.Claiming?
    ensures var x := s.txns[t];
            && TxnInv(s.(nextId := s.nextId + 1), AfterEvent(x, s.nextId))
            && Apart(s, t, TxnNames(AfterEvent(x, s.nextId)))
  {
    var x := s.txns[t];
    assert TxnInv(s, x);
    FinishedWrites(x, s.nextId);
    FinishedNames(s, t);
    BlockStep(s, x, Finished(x.phase, s.nextId), AfterEvent(x, s.nextId), s.nextId + 1);
  }

  lemma StepEvent(s: Sys, t: nat)
    requires Inv(s) && t in s.txns && s.txns[t].phase.Claiming?
    ensures Inv(Put(s, t, AfterEvent(s.txns[t], s.nextId)).(nextId := s.nextId + 1))
  {
    EventTxn(s, t);
    LocalStep(s, t, AfterEvent(s.txns[t], s.nextId), s.nextId + 1);
  }

  lemma StepPlain(s: Sys, l: Label)
    requires Inv(s) && Enabled(s, l) && (l.LPlain? || l.LBegin?)
    ensures Inv(Apply(s, l))
  {
    var y := Apply(s, l).txns[l.t];
    if l.LPlain? {
      assert TxnInv(s, s.txns[l.t]);
      BlockStep(s, s.txns[l.t], Own(l.data), y, s.nextId);
    } else {
      assert TxnNames(y) == {};
    }
    LocalStep(s, l.t, y, s.nextId);
  }

  lemma StepCommit(s: Sys, l: Label)
    requires Inv(s) && Enabled(s, l) && l.LCommit?
    ensures Inv(Apply(s, l))
  {
    var x := s.txns[l.t];
    var s' := Apply(s, l);
    assert TxnInv(s, x);
    FlatConcat(s.history, x.blocks);
    NamesConcat(s.history, x.blocks);
    FirstsConcat(s.history, x.blocks);
    FirstAnswersConcat(s.answers, x.answers);
    forall a | a in s'.answers ensures Backed(a, s'.history) {
      if a in s.answers { BackedGrows(a, s.history, x.blocks); }
    }
    forall u | u in s'.txns ensures TxnInv(s', s'.txns[u]) {
      OthersSeeCommit(s, l, u);
    }
  }

  lemma OthersSeeCommit(s: Sys, l: Label, u: nat)
    requires Inv(s) && Enabled(s, l) && l.LCommit? && u in s.txns && u != l.t
    ensures TxnInv(Apply(s, l), s.txns[u])
  {
  }

  lemma StepRollback(s: Sys, l: Label)
    requires Inv(s) && Enabled(s, l) && l.LRollback?
    ensures Inv(Apply(s, l))
  {
  }

  lemma StepInv(s: Sys, l: Label)
    requires Inv(s) && Enabled(s, l)
    ensures Inv(Apply(s, l))
  {
    match l
    case LBegin(_) => StepPlain(s, l);
    case LPlain(_, _) => StepPlain(s, l);
    case LCall(_, _) => StepCall(s, l);
    case LReread(_) => StepCall(s, l);
    case LClaim(_, _) => StepClaim(s, l);
    case LEvent(t) => StepEvent(s, t);
    case LCommit(_) => StepCommit(s, l);
    case LRollback(_) => StepRollback(s, l);
    case LRow(_, _) => StepRow(s, l);
    case _ => StepBack(s, l);
  }

  lemma {:induction false} RunInv(s: Sys, ls: seq<Label>)
    requires Inv(s) && Valid(s, ls)
    ensures Inv(Run(s, ls))
    decreases |ls|
  {
    if ls != [] {
      StepInv(s, ls[0]);
      RunInv(Apply(s, ls[0]), ls[1..]);
    }
  }
}
