/** JSON documents, what they mean when the order of members does not count, and the form
    with sorted members that canonical rendering prints. */
module Json {

  datatype List<T> = Nil | Cons(head: T, tail: List<T>)

  /** A number that is not an integer is kept as its text. */
  datatype Json =
    | Null
    | Bool(b: bool)
    | Int(n: int)
    | Float(text: string)
    | Str(s: string)
    | Arr(items: List<Json>)
    | Obj(members: List<Member>)

  datatype Member = Member(key: string, value: Json)

  /** A document with its objects as finite maps. */
  datatype Value =
    | Atom(json: Json)
    | Sequence(values: List<Value>)
    | Mapping(entries: map<string, Value>)

  function Meaning(v: Json): Value {
    match v
    case Arr(items) => Sequence(Meanings(items))
    case Obj(members) => Mapping(Entries(members))
    case _ => Atom(v)
  }

  function Meanings(items: List<Json>): List<Value> {
    match items
    case Nil => Nil
    case Cons(h, t) => Cons(Meaning(h), Meanings(t))
  }

  function Entries(members: List<Member>): map<string, Value> {
    match members
    case Nil => map[]
    case Cons(m, t) => Entries(t)[m.key := Meaning(m.value)]
  }

  function Keys(members: List<Member>): set<string> {
    match members
    case Nil => {}
    case Cons(m, t) => {m.key} + Keys(t)
  }

  /** A dictionary has each key once, at every level. */
  predicate Proper(v: Json) {
    match v
    case Arr(items) => AllProper(items)
    case Obj(members) => ProperMembers(members)
    case _ => true
  }

  predicate AllProper(items: List<Json>) {
    match items
    case Nil => true
    case Cons(h, t) => Proper(h) && AllProper(t)
  }

  predicate ProperMembers(members: List<Member>) {
    match members
    case Nil => true
    case Cons(m, t) => m.key !in Keys(t) && Proper(m.value) && ProperMembers(t)
  }

  // ------------------------------------------------------------------ the order of keys

  /** Lexicographic by code point, as Python compares strings. */
  predicate Less(a: string, b: string) {
    b != "" && (a == "" || a[0] < b[0] || (a[0] == b[0] && Less(a[1..], b[1..])))
  }

  lemma {:induction false} LessTotal(a: string, b: string)
    ensures Less(a, b) || Less(b, a) || a == b
    ensures !(Less(a, b) && Less(b, a)) && !Less(a, a)
  {
    if a != "" && b != "" {
      LessTotal(a[1..], b[1..]);
      assert a == [a[0]] + a[1..] && b == [b[0]] + b[1..];
    }
    if a != "" {
      LessTotal(a[1..], a[1..]);
    }
  }

  /** One text is before another if it is where they first differ, or where it ends first. */
  lemma {:induction false} LessExactly(a: string, b: string)
    ensures Less(a, b) <==>
              exists n :: 0 <= n <= |a| && n < |b| && a[..n] == b[..n] && (n == |a| || a[n] < b[n])
  {
    if Less(a, b) {
      var n := FirstDifference(a, b);
    }
    if n :| 0 <= n <= |a| && n < |b| && a[..n] == b[..n] && (n == |a| || a[n] < b[n]) {
      DiffersLess(a, b, n);
    }
  }

  lemma {:induction false} FirstDifference(a: string, b: string) returns (n: nat)
    requires Less(a, b)
    ensures n <= |a| && n < |b| && a[..n] == b[..n] && (n == |a| || a[n] < b[n])
  {
    n := 0;
    if a != "" && a[0] == b[0] {
      var k := FirstDifference(a[1..], b[1..]);
      n := k + 1;
      assert a[..n] == [a[0]] + a[1..][..k] && b[..n] == [b[0]] + b[1..][..k];
    }
  }

  lemma {:induction false} DiffersLess(a: string, b: string, n: nat)
    requires n <= |a| && n < |b| && a[..n] == b[..n] && (n == |a| || a[n] < b[n])
    ensures Less(a, b)
    decreases n
  {
    if n > 0 {
      assert a[0] == a[..n][0] == b[..n][0] == b[0];
      assert a[1..][..n - 1] == a[..n][1..] && b[1..][..n - 1] == b[..n][1..];
      DiffersLess(a[1..], b[1..], n - 1);
    }
  }

  lemma {:induction false} LessTransitive(a: string, b: string, c: string)
    requires Less(a, b) && Less(b, c)
    ensures Less(a, c)
  {
    if a != "" && a[0] == b[0] == c[0] {
      LessTransitive(a[1..], b[1..], c[1..]);
    }
  }

  // ------------------------------------------------------------------ sorting members

  function Insert(m: Member, sorted: List<Member>): List<Member> {
    match sorted
    case Nil => Cons(m, Nil)
    case Cons(h, t) => if Less(h.key, m.key) then Cons(h, Insert(m, t)) else Cons(m, sorted)
  }

  /** The same document with the members of every object in key order. */
  function Canon(v: Json): Json {
    match v
    case Arr(items) => Arr(CanonItems(items))
    case Obj(members) => Obj(CanonMembers(members))
    case _ => v
  }

  function CanonItems(items: List<Json>): List<Json> {
    match items
    case Nil => Nil
    case Cons(h, t) => Cons(Canon(h), CanonItems(t))
  }

  function CanonMembers(members: List<Member>): List<Member> {
    match members
    case Nil => Nil
    case Cons(m, t) => Insert(Member(m.key, Canon(m.value)), CanonMembers(t))
  }

  /** Strictly increasing keys. */
  predicate Ascending(members: List<Member>) {
    members.Cons? && members.tail.Cons? ==> Less(members.head.key, members.tail.head.key) && Ascending(members.tail)
  }

  lemma {:induction false} InsertKeeps(m: Member, sorted: List<Member>)
    requires Ascending(sorted) && m.key !in Keys(sorted)
    ensures Ascending(Insert(m, sorted)) && Keys(Insert(m, sorted)) == Keys(sorted) + {m.key}
    ensures Entries(Insert(m, sorted)) == Entries(sorted)[m.key := Meaning(m.value)]
  {
    if sorted.Cons? {
      LessTotal(sorted.head.key, m.key);
      if Less(sorted.head.key, m.key) {
        InsertKeeps(m, sorted.tail);
      }
    }
  }

  /** Sorting the members changes nothing that counts. */
  lemma {:induction false} CanonMeans(v: Json)
    requires Proper(v)
    ensures Meaning(Canon(v)) == Meaning(v)
  {
    match v
    case Arr(items) => CanonItemsMean(items);
    case Obj(members) => CanonMembersMean(members);
    case _ =>
  }

  lemma {:induction false} CanonItemsMean(items: List<Json>)
    requires AllProper(items)
    ensures Meanings(CanonItems(items)) == Meanings(items)
  {
    if items.Cons? {
      CanonMeans(items.head);
      CanonItemsMean(items.tail);
    }
  }

  lemma {:induction false} CanonMembersMean(members: List<Member>)
    requires ProperMembers(members)
    ensures Entries(CanonMembers(members)) == Entries(members)
    ensures Ascending(CanonMembers(members)) && Keys(CanonMembers(members)) == Keys(members)
  {
    if members.Cons? {
      CanonMeans(members.head.value);
      CanonMembersMean(members.tail);
      InsertKeeps(Member(members.head.key, Canon(members.head.value)), CanonMembers(members.tail));
    }
  }

  // ------------------------------------------------------------------ one form per meaning

  /** Sorted at every level. */
  predicate Sorted(v: Json) {
    match v
    case Arr(items) => AllSorted(items)
    case Obj(members) => Ascending(members) && SortedMembers(members)
    case _ => true
  }

  predicate AllSorted(items: List<Json>) {
    match items
    case Nil => true
    case Cons(h, t) => Sorted(h) && AllSorted(t)
  }

  predicate SortedMembers(members: List<Member>) {
    match members
    case Nil => true
    case Cons(m, t) => Sorted(m.value) && SortedMembers(t)
  }

  lemma {:induction false} CanonSorted(v: Json)
    requires Proper(v)
    ensures Sorted(Canon(v))
  {
    match v
    case Arr(items) => CanonItemsSorted(items);
    case Obj(members) =>
      CanonMembersMean(members);
      CanonMembersSorted(members);
    case _ =>
  }

  lemma {:induction false} CanonItemsSorted(items: List<Json>)
    requires AllProper(items)
    ensures AllSorted(CanonItems(items))
  {
    if items.Cons? {
      CanonSorted(items.head);
      CanonItemsSorted(items.tail);
    }
  }

  lemma {:induction false} CanonMembersSorted(members: List<Member>)
    requires ProperMembers(members)
    ensures SortedMembers(CanonMembers(members))
  {
    if members.Cons? {
      CanonSorted(members.head.value);
      CanonMembersSorted(members.tail);
      InsertSorted(Member(members.head.key, Canon(members.head.value)), CanonMembers(members.tail));
    }
  }

  lemma {:induction false} InsertSorted(m: Member, members: List<Member>)
    requires Sorted(m.value) && SortedMembers(members)
    ensures SortedMembers(Insert(m, members))
  {
    if members.Cons? && Less(members.head.key, m.key) {
      InsertSorted(m, members.tail);
    }
  }

  lemma {:induction false} HeadIsLeast(members: List<Member>, key: string)
    requires Ascending(members) && members.Cons? && key in Keys(members.tail)
    ensures Less(members.head.key, key)
  {
    if members.tail.head.key != key {
      HeadIsLeast(members.tail, key);
      LessTransitive(members.head.key, members.tail.head.key, key);
    }
  }

  lemma {:induction false} EntriesKeys(members: List<Member>)
    ensures Entries(members).Keys == Keys(members)
  {
    if members.Cons? {
      EntriesKeys(members.tail);
    }
  }

  lemma SameHead(a: List<Member>, b: List<Member>)
    requires Ascending(a) && Ascending(b) && Keys(a) == Keys(b) && a.Cons? && b.Cons?
    ensures a.head.key == b.head.key && Keys(a.tail) == Keys(b.tail)
  {
    LessTotal(a.head.key, b.head.key);
    if b.head.key != a.head.key {
      assert a.head.key in Keys(b.tail) && b.head.key in Keys(a.tail);
      HeadIsLeast(a, b.head.key);
      HeadIsLeast(b, a.head.key);
      assert false;
    }
    if a.head.key in Keys(a.tail) { HeadIsLeast(a, a.head.key); }
    if b.head.key in Keys(b.tail) { HeadIsLeast(b, b.head.key); }
    assert Keys(a.tail) == Keys(a) - {a.head.key};
    assert Keys(b.tail) == Keys(b) - {b.head.key};
  }

  /** There is one sorted document for each meaning. */
  lemma {:induction false} SortedUnique(a: Json, b: Json)
    requires Sorted(a) && Sorted(b) && Meaning(a) == Meaning(b)
    ensures a == b
  {
    match a
    case Arr(items) => ItemsUnique(items, b.items);
    case Obj(members) => MembersUnique(members, b.members);
    case _ =>
  }

  lemma {:induction false} ItemsUnique(a: List<Json>, b: List<Json>)
    requires AllSorted(a) && AllSorted(b) && Meanings(a) == Meanings(b)
    ensures a == b
  {
    if a.Cons? {
      SortedUnique(a.head, b.head);
      ItemsUnique(a.tail, b.tail);
    }
  }

  lemma {:induction false} MembersUnique(a: List<Member>, b: List<Member>)
    requires Ascending(a) && Ascending(b) && SortedMembers(a) && SortedMembers(b) && Entries(a) == Entries(b)
    ensures a == b
  {
    EntriesKeys(a);
    EntriesKeys(b);
    if a.Cons? && b.Cons? {
      SameHead(a, b);
      TailEntries(a);
      TailEntries(b);
      assert Entries(a)[a.head.key] == Meaning(a.head.value) && Entries(b)[b.head.key] == Meaning(b.head.value);
      SortedUnique(a.head.value, b.head.value);
      MembersUnique(a.tail, b.tail);
    }
  }

  lemma TailEntries(a: List<Member>)
    requires Ascending(a) && a.Cons?
    ensures Entries(a.tail) == Entries(a) - {a.head.key}
  {
    EntriesKeys(a.tail);
    if a.head.key in Keys(a.tail) {
      HeadIsLeast(a, a.head.key);
      LessTotal(a.head.key, a.head.key);
    }
  }

  /** Two proper documents have the same canonical form exactly when they mean the same. */
  lemma CanonicalForm(a: Json, b: Json)
    requires Proper(a) && Proper(b)
    ensures Canon(a) == Canon(b) <==> Meaning(a) == Meaning(b)
  {
    CanonMeans(a);
    CanonMeans(b);
    CanonSorted(a);
    CanonSorted(b);
    if Meaning(a) == Meaning(b) {
      SortedUnique(Canon(a), Canon(b));
    }
  }
}
