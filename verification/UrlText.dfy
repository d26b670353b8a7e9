/** The pieces of URL text: percent-encoding, partitions, and splitting into components. A text is
    read as the bytes of its UTF-8 form, one character a byte. */
module UrlText {
  import opened Base

  // ------------------------------------------------------------------ percent-encoding

  /** Section 2.3 of RFC 3986. */
  predicate Unreserved(c: char) {
    'a' <= c <= 'z' || 'A' <= c <= 'Z' || '0' <= c <= '9' || c == '-' || c == '.' || c == '_' || c == '~'
  }

  predicate IsBytes(s: string) {
    forall i :: 0 <= i < |s| ==> s[i] as int < 256
  }

  function HexUpper(n: int): char
    requires 0 <= n < 16
  {
    "0123456789ABCDEF"[n]
  }

  function HexOf(c: char): int {
    if '0' <= c <= '9' then c as int - '0' as int
    else if 'a' <= c <= 'f' then c as int - 'a' as int + 10
    else if 'A' <= c <= 'F' then c as int - 'A' as int + 10
    else -1
  }

  function Encoded(c: char): string
    requires c as int < 256
  {
    ['%', HexUpper(c as int / 16), HexUpper(c as int % 16)]
  }

  /** quote(s, safe), with an unreserved or safe byte left as it is. */
  function Quote(s: string, safe: set<char>): string
    requires IsBytes(s)
  {
    if s == "" then ""
    else (if Unreserved(s[0]) || s[0] in safe then [s[0]] else Encoded(s[0])) + Quote(s[1..], safe)
  }

  /** quote_plus(s). */
  function QuotePlus(s: string): string
    requires IsBytes(s)
  {
    if s == "" then ""
    else QuotedPlus(s[0]) + QuotePlus(s[1..])
  }

  predicate IsEscape(s: string) {
    |s| >= 3 && s[0] == '%' && HexOf(s[1]) >= 0 && HexOf(s[2]) >= 0
  }

  /** unquote: an escape becomes its byte, once; anything else stays. */
  function Unquote(s: string): string {
    if s == "" then ""
    else if IsEscape(s) then [(HexOf(s[1]) * 16 + HexOf(s[2])) as char] + Unquote(s[3..])
    else [s[0]] + Unquote(s[1..])
  }

  function PlusToSpace(s: string): string {
    seq(|s|, i requires 0 <= i < |s| => if s[i] == '+' then ' ' else s[i])
  }

  function UnquotePlus(s: string): string {
    Unquote(PlusToSpace(s))
  }

  /** A percent sign that does not introduce two hexadecimal digits. */
  predicate Malformed(s: string) {
    exists i :: 0 <= i < |s| && s[i] == '%' && !IsEscape(s[i..])
  }

  lemma EscapeBack(c: char, rest: string)
    requires c as int < 256
    ensures IsEscape(Encoded(c) + rest) && Unquote(Encoded(c) + rest) == [c] + Unquote(rest)
  {
    var n, t := c as int, Encoded(c) + rest;
    assert HexOf(HexUpper(n / 16)) == n / 16 && HexOf(HexUpper(n % 16)) == n % 16;
    assert t[3..] == rest;
  }

  lemma PlainBack(c: char, rest: string)
    requires c != '%'
    ensures Unquote([c] + rest) == [c] + Unquote(rest)
  {
  }

  lemma {:induction false} QuoteBack(s: string, safe: set<char>)
    requires IsBytes(s) && '%' !in safe
    ensures Unquote(Quote(s, safe)) == s
  {
    if s != "" {
      QuoteBack(s[1..], safe);
      if Unreserved(s[0]) || s[0] in safe {
        PlainBack(s[0], Quote(s[1..], safe));
      } else {
        EscapeBack(s[0], Quote(s[1..], safe));
      }
    }
  }

  lemma PlusConcat(a: string, b: string)
    ensures PlusToSpace(a + b) == PlusToSpace(a) + PlusToSpace(b)
  {
  }

  /** quote_plus of one byte. */
  function QuotedPlus(c: char): string
    requires c as int < 256
  {
    if c == ' ' then "+" else if Unreserved(c) then [c] else Encoded(c)
  }

  lemma PlusByteBack(c: char, rest: string)
    requires c as int < 256
    ensures Unquote(PlusToSpace(QuotedPlus(c)) + rest) == [c] + Unquote(rest)
  {
    if c == ' ' || Unreserved(c) {
      assert PlusToSpace(QuotedPlus(c)) == [c];
      PlainBack(c, rest);
    } else {
      assert PlusToSpace(QuotedPlus(c)) == Encoded(c);
      EscapeBack(c, rest);
    }
  }

  lemma {:induction false} QuotePlusBack(s: string)
    requires IsBytes(s)
    ensures UnquotePlus(QuotePlus(s)) == s
  {
    if s != "" {
      QuotePlusBack(s[1..]);
      PlusConcat(QuotedPlus(s[0]), QuotePlus(s[1..]));
      PlusByteBack(s[0], PlusToSpace(QuotePlus(s[1..])));
      assert s == [s[0]] + s[1..];
    }
  }

  /** Characters a quoted text can have. */
  predicate InQuoted(c: char, safe: set<char>) {
    Unreserved(c) || c == '%' || c in safe
  }

  lemma {:induction false} QuoteChars(s: string, safe: set<char>)
    requires IsBytes(s)
    ensures forall i :: 0 <= i < |Quote(s, safe)| ==> InQuoted(Quote(s, safe)[i], safe)
  {
    if s != "" { QuoteChars(s[1..], safe); }
  }

  lemma {:induction false} QuotePlusChars(s: string)
    requires IsBytes(s)
    ensures forall i :: 0 <= i < |QuotePlus(s)| ==> InQuoted(QuotePlus(s)[i], {'+'})
  {
    if s != "" { QuotePlusChars(s[1..]); }
  }

  lemma {:induction false} QuoteWellFormed(s: string, safe: set<char>)
    requires IsBytes(s) && '%' !in safe
    ensures !Malformed(Quote(s, safe))
  {
    if s != "" {
      var q, tail := Quote(s, safe), Quote(s[1..], safe);
      QuoteWellFormed(s[1..], safe);
      forall i | 0 <= i < |q| && q[i] == '%' ensures IsEscape(q[i..]) {
        if i < |q| - |tail| {
          QuoteHead(s, safe, i);
        } else {
          var j := i - (|q| - |tail|);
          assert tail[j] == '%' && q[i..] == tail[j..];
        }
      }
    }
  }

  lemma QuoteHead(s: string, safe: set<char>, i: nat)
    requires IsBytes(s) && '%' !in safe && s != ""
    requires i < |Quote(s, safe)| - |Quote(s[1..], safe)| && Quote(s, safe)[i] == '%'
    ensures IsEscape(Quote(s, safe)[i..])
  {
    EscapeBack(s[0], Quote(s[1..], safe));
    assert i == 0 && Quote(s, safe)[0..] == Quote(s, safe);
  }

  lemma {:induction false} UnreservedBack(s: string)
    requires forall i :: 0 <= i < |s| ==> Unreserved(s[i])
    ensures Unquote(s) == s && !Malformed(s)
  {
    if s != "" {
      UnreservedBack(s[1..]);
      assert s == [s[0]] + s[1..];
      PlainBack(s[0], s[1..]);
    }
  }

  // ------------------------------------------------------------------ partitions

  function IndexOf(s: string, stop: set<char>): (k: nat)
    ensures k <= |s| && (k < |s| ==> s[k] in stop) && forall i :: 0 <= i < k ==> s[i] !in stop
  {
    if s == "" || s[0] in stop then 0 else 1 + IndexOf(s[1..], stop)
  }

  function LastIndexOf(s: string, c: char): (k: int)
    ensures -1 <= k < |s| && (k >= 0 ==> s[k] == c) && forall i :: k < i < |s| ==> s[i] != c
  {
    if s == "" then -1 else if s[|s| - 1] == c then |s| - 1 else LastIndexOf(s[..|s| - 1], c)
  }

  datatype Split = Split(before: string, found: bool, after: string)

  /** s.partition(c). */
  function Partition(s: string, c: char): Split {
    var k := IndexOf(s, {c});
    if k < |s| then Split(s[..k], true, s[k + 1..]) else Split(s, false, "")
  }

  /** s.rpartition(c). */
  function RPartition(s: string, c: char): Split {
    var k := LastIndexOf(s, c);
    if k >= 0 then Split(s[..k], true, s[k + 1..]) else Split("", false, s)
  }

  lemma PartitionAt(a: string, c: char, b: string)
    requires c !in a
    ensures Partition(a + [c] + b, c) == Split(a, true, b)
  {
    var s := a + [c] + b;
    var k := IndexOf(s, {c});
    assert s[|a|] == c;
    forall i | 0 <= i < |a| ensures s[i] != c { assert a[i] in a; }
    assert k == |a|;
    assert s[..k] == a && s[k + 1..] == b;
  }

  lemma PartitionNone(s: string, c: char)
    requires c !in s
    ensures Partition(s, c) == Split(s, false, "")
  {
  }

  lemma RPartitionAt(a: string, c: char, b: string)
    requires c !in b
    ensures RPartition(a + [c] + b, c) == Split(a, true, b)
  {
    var s := a + [c] + b;
    var k := LastIndexOf(s, c);
    assert s[|a|] == c;
    forall i | |a| < i < |s| ensures s[i] != c { assert s[i] == b[i - |a| - 1] && b[i - |a| - 1] in b; }
    assert k == |a|;
    assert s[..k] == a && s[k + 1..] == b;
  }

  lemma StopsAt(a: string, stop: set<char>, b: string)
    requires (forall i :: 0 <= i < |a| ==> a[i] !in stop) && (b == "" || b[0] in stop)
    ensures IndexOf(a + b, stop) == |a|
  {
    assert forall i :: 0 <= i < |a| ==> (a + b)[i] == a[i];
    assert b != "" ==> (a + b)[|a|] == b[0];
  }

  // ------------------------------------------------------------------ urlsplit

  datatype Parts = Parts(scheme: string, netloc: string, path: string, query: string)

  function Lower(s: string): string {
    seq(|s|, i requires 0 <= i < |s| => if 'A' <= s[i] <= 'Z' then (s[i] as int + 32) as char else s[i])
  }

  predicate Removed(c: char) {
    c as int == 9 || c as int == 10 || c as int == 13
  }

  function WithoutRemoved(s: string): string {
    if s == "" then "" else (if Removed(s[0]) then "" else [s[0]]) + WithoutRemoved(s[1..])
  }

  /** What urlsplit drops before it looks: leading controls and spaces, and line breaks anywhere. */
  function Tidied(s: string): string {
    if s != "" && s[0] as int <= 32 then Tidied(s[1..]) else WithoutRemoved(s)
  }

  predicate SchemeChar(c: char) {
    'a' <= c <= 'z' || 'A' <= c <= 'Z' || '0' <= c <= '9' || c == '+' || c == '-' || c == '.'
  }

  predicate IsScheme(s: string) {
    s != "" && ('a' <= s[0] <= 'z' || 'A' <= s[0] <= 'Z') && forall i :: 0 <= i < |s| ==> SchemeChar(s[i])
  }

  /** The scheme, if there is one, and what follows it. */
  function SplitScheme(t: string): (string, string) {
    var colon := Partition(t, ':');
    if colon.found && IsScheme(colon.before) then (Lower(colon.before), colon.after) else ("", t)
  }

  /** The authority, if there is one, and what follows it. */
  function SplitNetloc(rest: string): (string, string) {
    if |rest| >= 2 && rest[0] == '/' && rest[1] == '/' then
      var k := IndexOf(rest[2..], {'/', '?', '#'});
      (rest[2..][..k], rest[2..][k..])
    else ("", rest)
  }

  /** Path and query, without the fragment. */
  function SplitTail(tail: string): Split {
    Partition(Partition(tail, '#').before, '?')
  }

  function UrlSplit(url: string): Parts {
    var (scheme, rest) := SplitScheme(Tidied(url));
    var (netloc, tail) := SplitNetloc(rest);
    Parts(scheme, netloc, SplitTail(tail).before, SplitTail(tail).after)
  }

  lemma {:induction false} NothingRemoved(s: string)
    requires forall i :: 0 <= i < |s| ==> !Removed(s[i])
    ensures WithoutRemoved(s) == s
  {
    if s != "" { NothingRemoved(s[1..]); }
  }

  predicate Clean(s: string, stops: set<char>) {
    forall i :: 0 <= i < |s| ==> s[i] !in stops && !Removed(s[i])
  }

  lemma CleanConcat(a: string, b: string, stops: set<char>)
    requires Clean(a, stops) && Clean(b, stops)
    ensures Clean(a + b, stops)
  {
  }

  lemma SchemeBack(scheme: string, rest: string)
    requires IsScheme(scheme) && Lower(scheme) == scheme && ':' !in scheme
    ensures SplitScheme(scheme + [':'] + rest) == (scheme, rest)
  {
    PartitionAt(scheme, ':', rest);
  }

  lemma NetlocBack(netloc: string, tail: string)
    requires Clean(netloc, {'/', '?', '#'}) && tail != "" && tail[0] == '/'
    ensures SplitNetloc("//" + (netloc + tail)) == (netloc, tail)
  {
    var rest := "//" + (netloc + tail);
    assert rest[2..] == netloc + tail;
    StopsAt(netloc, {'/', '?', '#'}, tail);
    assert (netloc + tail)[..|netloc|] == netloc && (netloc + tail)[|netloc|..] == tail;
  }

  function Tail(path: string, query: Option<string>): string {
    path + (if query.Some? then ['?'] + query.value else "")
  }

  lemma TailBack(path: string, query: Option<string>)
    requires Clean(path, {'?', '#'}) && (query.Some? ==> Clean(query.value, {'#'}))
    ensures SplitTail(Tail(path, query)) == Split(path, query.Some?, if query.Some? then query.value else "")
  {
    var tail := Tail(path, query);
    forall i | 0 <= i < |path| ensures path[i] != '?' && path[i] != '#' { assert path[i] !in {'?', '#'}; }
    forall i | 0 <= i < |tail| ensures tail[i] != '#' {
      if i > |path| { assert tail[i] == query.value[i - |path| - 1]; }
    }
    PartitionNone(tail, '#');
    if query.Some? {
      assert tail == path + ['?'] + query.value;
      PartitionAt(path, '?', query.value);
    } else {
      assert tail == path;
      PartitionNone(path, '?');
    }
  }

  lemma UrlClean(scheme: string, netloc: string, tail: string)
    requires IsScheme(scheme) && Clean(netloc, {}) && Clean(tail, {})
    ensures var url := scheme + [':'] + ("//" + (netloc + tail)); url != "" && url[0] as int > 32 && Clean(url, {})
  {
  }

  lemma TidiedBack(url: string)
    requires url != "" && url[0] as int > 32 && Clean(url, {})
    ensures Tidied(url) == url
  {
    NothingRemoved(url);
  }

  /** A URL put together from clean components splits into them. */
  lemma SplitsBack(scheme: string, netloc: string, path: string, query: Option<string>)
    requires IsScheme(scheme) && Lower(scheme) == scheme && ':' !in scheme
    requires Clean(netloc, {'/', '?', '#'}) && path != "" && path[0] == '/' && Clean(path, {'?', '#'})
    requires query.Some? ==> Clean(query.value, {'#'})
    ensures UrlSplit(scheme + [':'] + ("//" + (netloc + Tail(path, query))))
            == Parts(scheme, netloc, path, if query.Some? then query.value else "")
  {
    var tail := Tail(path, query);
    assert Clean(tail, {});
    UrlClean(scheme, netloc, tail);
    TidiedBack(scheme + [':'] + ("//" + (netloc + tail)));
    SchemeBack(scheme, "//" + (netloc + tail));
    NetlocBack(netloc, tail);
    TailBack(path, query);
  }

  // ------------------------------------------------------------------ byte by byte

  lemma {:induction false} QuoteJoins(a: string, b: string, safe: set<char>)
    requires IsBytes(a) && IsBytes(b)
    ensures IsBytes(a + b) && Quote(a + b, safe) == Quote(a, safe) + Quote(b, safe)
  {
    if a == "" {
      assert a + b == b;
    } else {
      assert (a + b)[1..] == a[1..] + b;
      QuoteJoins(a[1..], b, safe);
    }
  }

  /** Letters, digits and four marks stay as they are, and so does what is declared safe; any other
      byte becomes a percent sign and its two digits, in upper case. */
  lemma QuotesByte(c: char, safe: set<char>)
    requires c as int < 256
    ensures var q := Quote([c], safe);
            if 'a' <= c <= 'z' || 'A' <= c <= 'Z' || '0' <= c <= '9' || c in {'-', '.', '_', '~'} || c in safe then q == [c]
            else |q| == 3 && q[0] == '%' && HexOf(q[1]) * 16 + HexOf(q[2]) == c as int && IsUpper(q[1]) && IsUpper(q[2])
  {
    HexBack(c as int / 16);
    HexBack(c as int % 16);
    QuoteOne(c, safe);
  }

  lemma QuoteOne(c: char, safe: set<char>)
    requires c as int < 256
    ensures Quote([c], safe) == if Unreserved(c) || c in safe then [c] else Encoded(c)
  {
    assert [c][1..] == "";
    assert [c] + "" == [c] && Encoded(c) + "" == Encoded(c);
  }

  lemma {:induction false} QuotePlusJoins(a: string, b: string)
    requires IsBytes(a) && IsBytes(b) && IsBytes(a + b)
    ensures QuotePlus(a + b) == QuotePlus(a) + QuotePlus(b)
  {
    if a == "" {
      assert a + b == b;
    } else {
      var rest := a[1..];
      assert (a + b)[1..] == rest + b;
      QuotePlusJoins(rest, b);
    }
  }

  /** In a query a space is a plus sign, and nothing but the unreserved is left as it is. */
  lemma QuotesPlus(c: char)
    requires c as int < 256
    ensures QuotePlus([c]) == if c == ' ' then "+" else Quote([c], {})
  {
    QuoteOne(c, {});
    assert QuotePlus([c]) == QuotedPlus(c) + QuotePlus([c][1..]) && [c][1..] == "";
  }

  lemma HexBack(n: int)
    requires 0 <= n < 16
    ensures HexOf(HexUpper(n)) == n && IsUpper(HexUpper(n))
  {
  }

  predicate IsUpper(c: char) {
    '0' <= c <= '9' || 'A' <= c <= 'F'
  }

  /** Only capitals are folded, to the small letters they are the capitals of. */
  lemma LowersByte(s: string, i: nat)
    requires i < |s|
    ensures |Lower(s)| == |s|
    ensures Lower(s)[i] == if 'A' <= s[i] <= 'Z' then (s[i] as int + 32) as char else s[i]
  {
  }
}
