/** The bounded metadata policy, and the request fingerprint computed from what it accepts. */
module Metadata {
  import opened Base
  import opened Json
  import opened JsonText

  /** A value a caller may hand in. `Float` carries the text it renders as. */
  datatype Scalar =
    | PyNone | PyBool(b: bool) | PyInt(n: int) | PyFloat(text: string) | NonFinite
    | PyStr(s: string) | Uuid(text: string) | Bytes | SecretObject | Other

  datatype Given = One(scalar: Scalar) | Many(scalars: seq<Scalar>)
  datatype Key = Text(text: string) | NotText | SecretKey

  /** A mapping's items in their insertion order. */
  datatype Document = NotAMapping | Items(items: seq<(Key, Given)>)

  const MAX_BYTES := 2048
  const MAX_KEYS := 32
  const MAX_STRING := 256
  const MAX_SEQUENCE := 16

  const DENIED := {
    "payload", "raw_payload", "payload_bytes", "body", "request_body", "response_body", "content", "blob", "bytes",
    "data", "text", "input", "input_text", "input_bytes", "output", "output_text", "output_bytes", "prompt",
    "prompt_text", "completion", "completion_text", "message", "messages", "ciphertext", "plaintext",
    "password", "passwd", "secret", "client_secret", "secret_key", "private_key", "api_key", "apikey", "access_key",
    "token", "access_token", "refresh_token", "bearer_token", "session_token", "auth_token", "id_token",
    "credential", "credentials", "authorization", "auth", "cookie", "connection_string", "database_url", "dsn" }

  /** A refusal names a rule and a position, and nothing of what it refused. */
  datatype Rule =
    | NotMapping | TooManyKeys
    | KeyLooksSecret(at: nat) | KeyNotIdentifier(at: nat) | KeyDenied(at: nat)
    | TooManyEntries(at: nat)
    | LooksSecret(at: nat, item: nat) | RawBytes(at: nat, item: nat) | WrongType(at: nat, item: nat)
    | TooLong(at: nat, item: nat) | NotFinite(at: nat, item: nat)
    | TooManyBytes

  datatype Outcome = Accepted(document: seq<Member>) | Refused(rule: Rule)

  // ------------------------------------------------------------------ the policy

  predicate IsIdentifier(s: string) {
    1 <= |s| <= 63 && 'a' <= s[0] <= 'z'
    && forall i :: 0 <= i < |s| ==> 'a' <= s[i] <= 'z' || '0' <= s[i] <= '9' || s[i] == '_'
  }

  predicate KeyOk(k: Key, secret: string -> bool) {
    k.Text? && !secret(k.text) && IsIdentifier(k.text) && k.text !in DENIED
  }

  predicate ScalarOk(v: Scalar, secret: string -> bool) {
    match v
    case PyStr(s) => !secret(s) && |s| <= MAX_STRING
    case NonFinite => false
    case Bytes => false
    case SecretObject => false
    case Other => false
    case _ => true
  }

  predicate GivenOk(g: Given, secret: string -> bool) {
    match g
    case One(v) => ScalarOk(v, secret)
    case Many(vs) => |vs| <= MAX_SEQUENCE && forall v :: v in vs ==> ScalarOk(v, secret)
  }

  predicate EntryOk(e: (Key, Given), secret: string -> bool) {
    KeyOk(e.0, secret) && GivenOk(e.1, secret)
  }

  /** How an accepted value is stored: identifiers become their text. */
  function AsJson(v: Scalar): Json {
    match v
    case PyBool(b) => Bool(b)
    case PyInt(n) => Int(n)
    case PyFloat(t) => Float(t)
    case PyStr(s) => Str(s)
    case Uuid(t) => Str(t)
    case _ => Null
  }

  function ItemsOf(vs: seq<Scalar>): List<Json> {
    if vs == [] then Nil else Cons(AsJson(vs[0]), ItemsOf(vs[1..]))
  }

  function Stored(e: (Key, Given)): Member
    requires e.0.Text?
  {
    Member(e.0.text, match e.1 case One(v) => AsJson(v) case Many(vs) => Arr(ItemsOf(vs)))
  }

  function AllStored(items: seq<(Key, Given)>): (ms: seq<Member>)
    requires forall e :: e in items ==> e.0.Text?
    ensures |ms| == |items|
  {
    if items == [] then [] else AllStored(items[..|items| - 1]) + [Stored(items[|items| - 1])]
  }

  function MembersOf(ms: seq<Member>): List<Member> {
    if ms == [] then Nil else Cons(ms[0], MembersOf(ms[1..]))
  }

  function AsDocument(ms: seq<Member>): Json {
    Obj(MembersOf(ms))
  }

  function Utf8Length(s: string): nat {
    if s == "" then 0
    else Utf8Length(s[1..]) + (if s[0] as int < 0x80 then 1 else if s[0] as int < 0x800 then 2
                               else if s[0] as int < 0x10000 then 3 else 4)
  }

  predicate Acceptable(d: Document, secret: string -> bool) {
    && d.Items? && |d.items| <= MAX_KEYS
    && (forall e :: e in d.items ==> EntryOk(e, secret))
    && Utf8Length(CanonicalJson(AsDocument(AllStored(d.items)))) <= MAX_BYTES
  }

  function Item(g: Given, i: nat): Scalar
    requires match g case One(_) => i == 0 case Many(vs) => i < |vs|
  {
    match g case One(v) => v case Many(vs) => vs[i]
  }

  predicate At(d: Document, at: nat, item: nat) {
    d.Items? && at < |d.items| && match d.items[at].1 case One(_) => item == 0 case Many(vs) => item < |vs|
  }

  /** The rule is broken where the refusal says. */
  predicate Broken(d: Document, rule: Rule, secret: string -> bool) {
    match rule
    case NotMapping => d.NotAMapping?
    case TooManyKeys => d.Items? && |d.items| > MAX_KEYS
    case KeyLooksSecret(i) => d.Items? && i < |d.items| && (d.items[i].0.SecretKey? || (d.items[i].0.Text? && secret(d.items[i].0.text)))
    case KeyNotIdentifier(i) => d.Items? && i < |d.items| && (d.items[i].0.NotText? || (d.items[i].0.Text? && !IsIdentifier(d.items[i].0.text)))
    case KeyDenied(i) => d.Items? && i < |d.items| && d.items[i].0.Text? && d.items[i].0.text in DENIED
    case TooManyEntries(i) => d.Items? && i < |d.items| && d.items[i].1.Many? && |d.items[i].1.scalars| > MAX_SEQUENCE
    case LooksSecret(i, k) => At(d, i, k) && var v := Item(d.items[i].1, k); v.SecretObject? || (v.PyStr? && secret(v.s))
    case RawBytes(i, k) => At(d, i, k) && Item(d.items[i].1, k).Bytes?
    case WrongType(i, k) => At(d, i, k) && Item(d.items[i].1, k).Other?
    case TooLong(i, k) => At(d, i, k) && var v := Item(d.items[i].1, k); v.PyStr? && |v.s| > MAX_STRING
    case NotFinite(i, k) => At(d, i, k) && Item(d.items[i].1, k).NonFinite?
    case TooManyBytes =>
      d.Items? && (forall e :: e in d.items ==> e.0.Text?)
      && Utf8Length(CanonicalJson(AsDocument(AllStored(d.items)))) > MAX_BYTES
  }

  // ------------------------------------------------------------------ the policy, spelled out

  predicate PlainKey(k: Key, secret: string -> bool) {
    && k.Text? && !secret(k.text) && k.text !in DENIED && 1 <= |k.text| <= 63 && 'a' <= k.text[0] <= 'z'
    && forall i :: 0 <= i < |k.text| ==> 'a' <= k.text[i] <= 'z' || '0' <= k.text[i] <= '9' || k.text[i] == '_'
  }

  predicate PlainScalar(v: Scalar, secret: string -> bool) {
    v.PyNone? || v.PyBool? || v.PyInt? || v.PyFloat? || v.Uuid? || (v.PyStr? && |v.s| <= 256 && !secret(v.s))
  }

  predicate PlainEntry(e: (Key, Given), secret: string -> bool) {
    PlainKey(e.0, secret) &&
    match e.1
    case One(v) => PlainScalar(v, secret)
    case Many(vs) => |vs| <= 16 && forall v :: v in vs ==> PlainScalar(v, secret)
  }

  /** At most 32 entries of plain keys and bounded values, in at most 2048 bytes. */
  lemma PolicyExactly(d: Document, secret: string -> bool)
    ensures Acceptable(d, secret) <==>
              && d.Items? && |d.items| <= 32
              && (forall e :: e in d.items ==> PlainEntry(e, secret))
              && Utf8Length(CanonicalJson(AsDocument(AllStored(d.items)))) <= 2048
  {
    forall e ensures EntryOk(e, secret) <==> PlainEntry(e, secret) { EntryExactly(e, secret); }
  }

  lemma EntryExactly(e: (Key, Given), secret: string -> bool)
    ensures EntryOk(e, secret) <==> PlainEntry(e, secret)
  {
  }

  /** A document with an entry outside the policy is refused whatever else it holds. */
  lemma OutsideRefused(d: Document, secret: string -> bool, i: nat)
    requires d.Items? && i < |d.items|
    requires !d.items[i].0.Text? || d.items[i].0.text in {"password", "token", "api_key", "prompt", "payload", "authorization"}
             || secret(d.items[i].0.text)
    ensures !Acceptable(d, secret)
  {
    if d.items[i].0.Text? { DeniedNames(d.items[i].0.text); }
    assert d.items[i] in d.items;
  }

  lemma DeniedNames(k: string)
    ensures k in {"password", "token", "api_key", "prompt", "payload", "authorization"} ==> k in DENIED
  {
  }

  /** A UUID is kept as its text, and everything else as it is. */
  lemma StoredAs(v: Scalar)
    ensures v.PyNone? ==> AsJson(v) == Null
    ensures v.PyBool? ==> AsJson(v) == Bool(v.b)
    ensures v.PyInt? ==> AsJson(v) == Int(v.n)
    ensures v.PyFloat? ==> AsJson(v) == Float(v.text)
    ensures v.PyStr? ==> AsJson(v) == Str(v.s)
    ensures v.Uuid? ==> AsJson(v) == Str(v.text)
  {
  }

  lemma {:induction false} ItemsAs(vs: seq<Scalar>, k: nat)
    requires k < |vs|
    ensures ItemAt(ItemsOf(vs), k) == Some(AsJson(vs[k])) && ItemAt(ItemsOf(vs), |vs|) == Option.None
  {
    if k > 0 { ItemsAs(vs[1..], k - 1); } else if |vs| > 1 { ItemsAs(vs[1..], 0); }
  }

  function ItemAt(items: List<Json>, k: nat): Option<Json> {
    match items
    case Nil => Option.None
    case Cons(h, t) => if k == 0 then Some(h) else ItemAt(t, k - 1)
  }

  /** The bytes of UTF-8: one for ASCII, two, three and four as the code points grow. */
  lemma {:induction false} Utf8Bytes(a: string, b: string)
    ensures Utf8Length(a + b) == Utf8Length(a) + Utf8Length(b)
  {
    if a == "" {
      assert a + b == b;
    } else {
      assert (a + b)[1..] == a[1..] + b;
      Utf8Bytes(a[1..], b);
    }
  }

  lemma Utf8One(c: char)
    ensures Utf8Length([c]) == 1 <==> c as int <= 0x7F
    ensures Utf8Length([c]) == 2 <==> 0x80 <= c as int <= 0x7FF
    ensures Utf8Length([c]) == 3 <==> 0x800 <= c as int <= 0xFFFF
    ensures Utf8Length([c]) == 4 <==> 0x10000 <= c as int
  {
  }

  // ------------------------------------------------------------------ validated_metadata

  function CheckKey(i: nat, k: Key, secret: string -> bool): (r: Option<Rule>)
    ensures r.None? <==> KeyOk(k, secret)
  {
    if k.SecretKey? || (k.Text? && secret(k.text)) then Some(KeyLooksSecret(i))
    else if !k.Text? || !IsIdentifier(k.text) then Some(KeyNotIdentifier(i))
    else if k.text in DENIED then Some(KeyDenied(i))
    else None
  }

  function CheckScalar(i: nat, item: nat, v: Scalar, secret: string -> bool): (r: Option<Rule>)
    ensures r.None? <==> ScalarOk(v, secret)
  {
    if v.SecretObject? || (v.PyStr? && secret(v.s)) then Some(LooksSecret(i, item))
    else if v.Bytes? then Some(RawBytes(i, item))
    else if v.Other? then Some(WrongType(i, item))
    else if v.PyStr? && |v.s| > MAX_STRING then Some(TooLong(i, item))
    else if v.NonFinite? then Some(NotFinite(i, item))
    else None
  }

  method CheckGiven(d: Document, i: nat, secret: string -> bool) returns (rule: Option<Rule>)
    requires d.Items? && i < |d.items|
    ensures rule.None? <==> GivenOk(d.items[i].1, secret)
    ensures rule.Some? ==> Broken(d, rule.value, secret)
  {
    var g := d.items[i].1;
    if g.One? {
      return CheckScalar(i, 0, g.scalar, secret);
    }
    if |g.scalars| > MAX_SEQUENCE {
      return Some(TooManyEntries(i));
    }
    for k := 0 to |g.scalars|
      invariant forall j :: 0 <= j < k ==> ScalarOk(g.scalars[j], secret)
    {
      rule := CheckScalar(i, k, g.scalars[k], secret);
      if rule.Some? { return; }
    }
    return None;
  }

  method CheckEntry(d: Document, i: nat, secret: string -> bool) returns (rule: Option<Rule>)
    requires d.Items? && i < |d.items|
    ensures rule.None? <==> EntryOk(d.items[i], secret)
    ensures rule.Some? ==> Broken(d, rule.value, secret)
  {
    rule := CheckKey(i, d.items[i].0, secret);
    if rule.None? {
      rule := CheckGiven(d, i, secret);
    }
  }

  /** Accepts exactly the documents within the policy, stores each entry once and in order, and
      refuses the others for a rule they break where it says they do. */
  method Validated(d: Document, secret: string -> bool) returns (out: Outcome)
    ensures out.Accepted? <==> Acceptable(d, secret)
    ensures out.Accepted? ==> out.document == AllStored(d.items)
    ensures out.Refused? ==> Broken(d, out.rule, secret)
  {
    if d.NotAMapping? { return Refused(NotMapping); }
    if |d.items| > MAX_KEYS { return Refused(TooManyKeys); }
    var stored: seq<Member> := [];
    for i := 0 to |d.items|
      invariant forall k :: 0 <= k < i ==> EntryOk(d.items[k], secret)
      invariant stored == AllStored(d.items[..i])
    {
      var e := d.items[i];
      assert e in d.items;
      var bad := CheckEntry(d, i, secret);
      if bad.Some? { return Refused(bad.value); }
      assert d.items[..i + 1] == d.items[..i] + [e];
      stored := stored + [Stored(e)];
    }
    assert d.items[..|d.items|] == d.items;
    if Utf8Length(CanonicalJson(AsDocument(stored))) > MAX_BYTES {
      return Refused(TooManyBytes);
    }
    return Accepted(stored);
  }

  // ------------------------------------------------------------------ accepted documents

  /** A mapping has each key once, and a finite float renders as a JSON number. */
  predicate WellTyped(d: Document) {
    d.Items? ==>
      && (forall i, j :: 0 <= i < j < |d.items| ==> d.items[i].0 != d.items[j].0)
      && forall e :: e in d.items ==>
           match e.1
           case One(v) => v.PyFloat? ==> IsFloatText(v.text)
           case Many(vs) => forall v :: v in vs && v.PyFloat? ==> IsFloatText(v.text)
  }

  lemma {:induction false} ItemsProper(vs: seq<Scalar>)
    requires forall v :: v in vs && v.PyFloat? ==> IsFloatText(v.text)
    ensures AllProper(ItemsOf(vs)) && AllPrintable(ItemsOf(vs))
  {
    if vs != [] {
      ItemsProper(vs[1..]);
      assert vs[0] in vs;
    }
  }

  lemma StoredAt(items: seq<(Key, Given)>, i: nat)
    requires (forall e :: e in items ==> e.0.Text?) && i < |items|
    ensures AllStored(items)[i] == Stored(items[i])
  {
  }

  lemma {:induction false} KeysOf(ms: seq<Member>)
    ensures Keys(MembersOf(ms)) == set m | m in ms :: m.key
  {
    if ms != [] {
      KeysOf(ms[1..]);
      assert ms == [ms[0]] + ms[1..];
    }
  }

  predicate DistinctKeys(ms: seq<Member>) {
    forall i, j :: 0 <= i < j < |ms| ==> ms[i].key != ms[j].key
  }

  lemma {:induction false} MembersProper(ms: seq<Member>)
    requires DistinctKeys(ms) && forall m :: m in ms ==> Proper(m.value) && Printable(m.value)
    ensures ProperMembers(MembersOf(ms)) && PrintableMembers(MembersOf(ms))
  {
    if ms != [] {
      MembersProper(ms[1..]);
      KeysOf(ms[1..]);
      assert ms[0] in ms;
    }
  }

  lemma StoredProper(e: (Key, Given))
    requires e.0.Text?
    requires match e.1
             case One(v) => v.PyFloat? ==> IsFloatText(v.text)
             case Many(vs) => forall v :: v in vs && v.PyFloat? ==> IsFloatText(v.text)
    ensures Proper(Stored(e).value) && Printable(Stored(e).value)
  {
    if e.1.Many? { ItemsProper(e.1.scalars); }
  }

  lemma AcceptedProper(d: Document, secret: string -> bool)
    requires Acceptable(d, secret) && WellTyped(d)
    ensures Proper(AsDocument(AllStored(d.items))) && Printable(AsDocument(AllStored(d.items)))
  {
    var ms := AllStored(d.items);
    forall i | 0 <= i < |ms| ensures ms[i] == Stored(d.items[i]) && Proper(ms[i].value) && Printable(ms[i].value) {
      StoredAt(d.items, i);
      StoredProper(d.items[i]);
    }
    assert forall i :: 0 <= i < |ms| ==> d.items[i].0 == Text(ms[i].key);
    MembersProper(ms);
  }

  // ------------------------------------------------------------------ canonical rendering

  lemma {:induction false} CanonPrintable(v: Json)
    requires Printable(v)
    ensures Printable(Canon(v))
  {
    match v
    case Arr(items) => CanonItemsPrintable(items);
    case Obj(members) => CanonMembersPrintable(members);
    case _ =>
  }

  lemma {:induction false} CanonItemsPrintable(items: List<Json>)
    requires AllPrintable(items)
    ensures AllPrintable(CanonItems(items))
  {
    if items.Cons? {
      CanonPrintable(items.head);
      CanonItemsPrintable(items.tail);
    }
  }

  lemma {:induction false} CanonMembersPrintable(members: List<Member>)
    requires PrintableMembers(members)
    ensures PrintableMembers(CanonMembers(members))
  {
    if members.Cons? {
      CanonPrintable(members.head.value);
      CanonMembersPrintable(members.tail);
      InsertPrintable(Member(members.head.key, Canon(members.head.value)), CanonMembers(members.tail));
    }
  }

  lemma {:induction false} InsertPrintable(m: Member, members: List<Member>)
    requires Printable(m.value) && PrintableMembers(members)
    ensures PrintableMembers(Insert(m, members))
  {
    if members.Cons? && Less(members.head.key, m.key) {
      InsertPrintable(m, members.tail);
    }
  }

  /** The parser undoes the rendering: it finds the document again, with its keys in order. */
  lemma RenderingUndone(v: Json)
    requires Proper(v) && Printable(v)
    ensures ParseText(CanonicalJson(v)) == Done(Canon(v), "")
    ensures Meaning(Canon(v)) == Meaning(v) && Sorted(Canon(v))
  {
    CanonMeans(v);
    CanonSorted(v);
    CanonPrintable(v);
    Starts(Canon(v));
    ValueBack(Canon(v), "");
    assert CanonicalJson(v) + "" == CanonicalJson(v);
  }

  /** Insertion order does not reach the text, and nothing else is lost: two documents render
      alike exactly when they are the same mapping. */
  lemma RenderingFaithful(a: Json, b: Json)
    requires Proper(a) && Printable(a) && Proper(b) && Printable(b)
    ensures CanonicalJson(a) == CanonicalJson(b) <==> Meaning(a) == Meaning(b)
  {
    RenderingUndone(a);
    RenderingUndone(b);
    CanonicalForm(a, b);
  }

  /** What validation accepts is found again in its rendering. */
  lemma AcceptedRoundTrip(d: Document, secret: string -> bool)
    requires Acceptable(d, secret) && WellTyped(d)
    ensures var v := AsDocument(AllStored(d.items));
            && ParseText(CanonicalJson(v)) == Done(Canon(v), "") && Meaning(Canon(v)) == Meaning(v)
            && forall i :: 0 <= i < |d.items| ==>
                 d.items[i].0.text in Entries(MembersOf(AllStored(d.items)))
                 && Entries(MembersOf(AllStored(d.items)))[d.items[i].0.text] == Meaning(Stored(d.items[i]).value)
  {
    var ms := AllStored(d.items);
    AcceptedProper(d, secret);
    RenderingUndone(AsDocument(ms));
    forall i | 0 <= i < |d.items|
      ensures d.items[i].0.text in Entries(MembersOf(ms))
      ensures Entries(MembersOf(ms))[d.items[i].0.text] == Meaning(Stored(d.items[i]).value)
    {
      StoredAt(d.items, i);
      EntryAt(ms, i);
    }
  }

  lemma {:induction false} EntryAt(ms: seq<Member>, i: nat)
    requires i < |ms| && ProperMembers(MembersOf(ms))
    ensures ms[i].key in Entries(MembersOf(ms)) && Entries(MembersOf(ms))[ms[i].key] == Meaning(ms[i].value)
  {
    if i > 0 {
      EntryAt(ms[1..], i - 1);
      KeysOf(ms[1..]);
    }
  }

  // ------------------------------------------------------------------ fingerprints

  /** What request_fingerprint hashes: tenant and operation folded in beside the identity. */
  function FingerprintDocument(tenant: string, operation: string, identity: Json): Json {
    Obj(Cons(Member("tenant", Str(tenant)), Cons(Member("operation", Str(operation)),
        Cons(Member("request_identity", identity), Nil))))
  }

  function FingerprintMaterial(tenant: string, operation: string, identity: Json): string {
    CanonicalJson(FingerprintDocument(tenant, operation, identity))
  }

  /** The material determines tenant, operation and identity, and nothing but those. */
  lemma MaterialDetermines(t1: string, o1: string, i1: Json, t2: string, o2: string, i2: Json)
    requires Proper(i1) && Printable(i1) && Proper(i2) && Printable(i2)
    ensures FingerprintMaterial(t1, o1, i1) == FingerprintMaterial(t2, o2, i2)
            <==> t1 == t2 && o1 == o2 && Meaning(i1) == Meaning(i2)
  {
    FingerprintEntries(t1, o1, i1);
    FingerprintEntries(t2, o2, i2);
    RenderingFaithful(FingerprintDocument(t1, o1, i1), FingerprintDocument(t2, o2, i2));
    var a, b := Scoped(t1, o1, Meaning(i1)), Scoped(t2, o2, Meaning(i2));
    assert a == b ==> a["tenant"] == b["tenant"] && a["operation"] == b["operation"]
                      && a["request_identity"] == b["request_identity"];
  }

  function Scoped(tenant: string, operation: string, identity: Value): map<string, Value> {
    map["tenant" := Atom(Str(tenant)), "operation" := Atom(Str(operation)), "request_identity" := identity]
  }

  lemma FingerprintEntries(tenant: string, operation: string, identity: Json)
    requires Proper(identity) && Printable(identity)
    ensures Proper(FingerprintDocument(tenant, operation, identity)) && Printable(FingerprintDocument(tenant, operation, identity))
    ensures Meaning(FingerprintDocument(tenant, operation, identity)) == Mapping(Scoped(tenant, operation, Meaning(identity)))
  {
    var m3 := Member("request_identity", identity);
    var m2, m1 := Member("operation", Str(operation)), Member("tenant", Str(tenant));
    var last := Cons(m3, Nil);
    var two := Cons(m2, last);
    assert Keys(last) == {m3.key} && ProperMembers(last) && PrintableMembers(last);
    assert Keys(two) == {m2.key, m3.key} && ProperMembers(two) && PrintableMembers(two);
    assert Entries(last) == map[m3.key := Meaning(identity)];
    assert Entries(two) == Entries(last)[m2.key := Atom(m2.value)];
    assert Entries(Cons(m1, two)) == Entries(two)[m1.key := Atom(m1.value)];
  }
}
