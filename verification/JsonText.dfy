/** The text of a document: the canonical printer, and a parser for the JSON grammar of RFC 8259. */
module JsonText {
  import opened Json

  // ------------------------------------------------------------------ printing

  function HexDigit(n: int): char
    requires 0 <= n < 16
  {
    "0123456789abcdef"[n]
  }

  /** Section 7 of RFC 8259: quotation mark, reverse solidus and the control characters. */
  function EscapeChar(c: char): string {
    if c == '\"' then "\\\""
    else if c == '\\' then "\\\\"
    else if c as int == 8 then "\\b"
    else if c as int == 12 then "\\f"
    else if c as int == 10 then "\\n"
    else if c as int == 13 then "\\r"
    else if c as int == 9 then "\\t"
    else if c as int < 32 then "\\u00" + [HexDigit(c as int / 16), HexDigit(c as int % 16)]
    else [c]
  }

  /** Only what has to be escaped is, in its short form where it has one. */
  lemma EscapeExactly(c: char)
    ensures EscapeChar(c) == [c] <==> c as int >= 32 && c != '\"' && c != '\\'
    ensures EscapeChar(c) != [c] ==> EscapeChar(c)[0] == '\\' && (|EscapeChar(c)| == 2 || |EscapeChar(c)| == 6)
    ensures |EscapeChar(c)| == 2 <==> c == '\"' || c == '\\' || c as int in {8, 9, 10, 12, 13}
  {
  }

  function Escape(s: string): string {
    if s == "" then "" else EscapeChar(s[0]) + Escape(s[1..])
  }

  function Digits(n: nat): (s: string)
    ensures s != "" && forall i :: 0 <= i < |s| ==> '0' <= s[i] <= '9'
  {
    if n < 10 then [HexDigit(n)] else Digits(n / 10) + [HexDigit(n % 10)]
  }

  function Decimal(n: int): string {
    if n < 0 then "-" + Digits(-n) else Digits(n)
  }

  function Render(v: Json): string {
    match v
    case Null => "null"
    case Bool(b) => if b then "true" else "false"
    case Int(n) => Decimal(n)
    case Float(t) => t
    case Str(s) => "\"" + Escape(s) + "\""
    case Arr(items) => "[" + RenderItems(items) + "]"
    case Obj(members) => "{" + RenderMembers(members) + "}"
  }

  function RenderItems(items: List<Json>): string {
    match items
    case Nil => ""
    case Cons(h, t) => Render(h) + (if t.Nil? then "" else "," + RenderItems(t))
  }

  function RenderMembers(members: List<Member>): string {
    match members
    case Nil => ""
    case Cons(m, t) => RenderMember(m) + (if t.Nil? then "" else "," + RenderMembers(t))
  }

  function RenderMember(m: Member): string {
    "\"" + Escape(m.key) + "\":" + Render(m.value)
  }

  function CanonicalJson(v: Json): string {
    Render(Canon(v))
  }

  // ------------------------------------------------------------------ parsing

  datatype Parsed<T> = Fail | Done(value: T, rest: string)

  predicate IsSpace(c: char) {
    c == ' ' || c as int == 9 || c as int == 10 || c as int == 13
  }

  function Skip(s: string): (r: string)
    ensures |r| <= |s|
    ensures s != "" && !IsSpace(s[0]) ==> r == s
  {
    if s != "" && IsSpace(s[0]) then Skip(s[1..]) else s
  }

  function HexValue(c: char): int {
    if '0' <= c <= '9' then c as int - '0' as int
    else if 'a' <= c <= 'f' then c as int - 'a' as int + 10
    else if 'A' <= c <= 'F' then c as int - 'A' as int + 10
    else -1
  }

  /** Four hexadecimal digits; -1 when they are not there. */
  function Hex4(s: string): (n: int)
    ensures -1 <= n < 0x10000
    ensures n >= 0 ==> |s| >= 4
  {
    if |s| >= 4 && HexValue(s[0]) >= 0 && HexValue(s[1]) >= 0 && HexValue(s[2]) >= 0 && HexValue(s[3]) >= 0
    then HexValue(s[0]) * 4096 + HexValue(s[1]) * 256 + HexValue(s[2]) * 16 + HexValue(s[3])
    else -1
  }

  /** What follows a reverse solidus. Characters outside the basic plane are two \u escapes. */
  function ParseEscape(s: string): (p: Parsed<char>)
    ensures p.Done? ==> |p.rest| < |s|
  {
    if s == "" then Fail
    else match s[0]
         case '\"' => Done('\"', s[1..])
         case '\\' => Done('\\', s[1..])
         case '/' => Done('/', s[1..])
         case 'b' => Done(8 as char, s[1..])
         case 'f' => Done(12 as char, s[1..])
         case 'n' => Done(10 as char, s[1..])
         case 'r' => Done(13 as char, s[1..])
         case 't' => Done(9 as char, s[1..])
         case 'u' =>
           var u := Hex4(s[1..]);
           if u < 0 then Fail
           else if u < 0xD800 || 0xE000 <= u then Done(u as char, s[5..])
           else if u < 0xDC00 && |s| >= 7 && s[5] == '\\' && s[6] == 'u' then
             var low := Hex4(s[7..]);
             if 0xDC00 <= low < 0xE000
             then Done((0x10000 + (u - 0xD800) * 0x400 + (low - 0xDC00)) as char, s[11..])
             else Fail
           else Fail
         case _ => Fail
  }

  /** The characters up to the closing quotation mark. */
  function ParseChars(s: string): (p: Parsed<string>)
    ensures p.Done? ==> |p.rest| < |s|
    decreases |s|
  {
    if s == "" then Fail
    else if s[0] == '\"' then Done("", s[1..])
    else if s[0] == '\\' then
      match ParseEscape(s[1..])
      case Fail => Fail
      case Done(c, rest) =>
        (match ParseChars(rest) case Fail => Fail case Done(t, r) => Done([c] + t, r))
    else if s[0] as int < 32 then Fail
    else match ParseChars(s[1..]) case Fail => Fail case Done(t, r) => Done([s[0]] + t, r)
  }

  predicate IsDigit(c: char) {
    '0' <= c <= '9'
  }

  predicate InNumber(c: char) {
    IsDigit(c) || c == '-' || c == '+' || c == '.' || c == 'e' || c == 'E'
  }

  function NumberSpan(s: string): (n: nat)
    ensures n <= |s|
  {
    if s != "" && InNumber(s[0]) then 1 + NumberSpan(s[1..]) else 0
  }

  /** How many digits the text starts with. */
  function DigitSpan(s: string): (n: nat)
    ensures n <= |s| && forall i :: 0 <= i < n ==> IsDigit(s[i])
    ensures n < |s| ==> !IsDigit(s[n])
  {
    if s != "" && IsDigit(s[0]) then 1 + DigitSpan(s[1..]) else 0
  }

  /** int = zero / ( digit1-9 *DIGIT ), with its sign. */
  predicate IsIntegerText(t: string) {
    var d := if t != "" && t[0] == '-' then t[1..] else t;
    d != "" && DigitSpan(d) == |d| && (d[0] == '0' ==> |d| == 1)
  }

  predicate IsExponent(t: string) {
    t == "" ||
    ((t[0] == 'e' || t[0] == 'E') &&
     var d := if |t| >= 2 && (t[1] == '+' || t[1] == '-') then t[2..] else t[1..];
     d != "" && DigitSpan(d) == |d|)
  }

  /** What may follow the integer part. */
  predicate IsTail(t: string) {
    if t != "" && t[0] == '.'
    then var f := DigitSpan(t[1..]); f > 0 && IsExponent(t[1..][f..])
    else IsExponent(t)
  }

  /** number = [ minus ] int [ frac ] [ exp ], section 6 of RFC 8259, but not an integer. */
  predicate IsFloatText(t: string) {
    && !IsIntegerText(t)
    && var d := if t != "" && t[0] == '-' then t[1..] else t;
       var k := DigitSpan(d);
       && k > 0 && (d[0] == '0' ==> k == 1)
       && IsTail(d[k..])
  }

  function ValueOf(digits: string): int {
    if digits == "" then 0
    else ValueOf(digits[..|digits| - 1]) * 10 + (digits[|digits| - 1] as int - '0' as int)
  }

  function IntegerValue(t: string): int {
    if t != "" && t[0] == '-' then -ValueOf(t[1..]) else ValueOf(t)
  }

  function ParseNumber(s: string): (p: Parsed<Json>)
    ensures p.Done? ==> |p.rest| < |s|
  {
    var k := NumberSpan(s);
    var t := s[..k];
    if k == 0 then Fail
    else if IsIntegerText(t) then Done(Int(IntegerValue(t)), s[k..])
    else if IsFloatText(t) then Done(Float(t), s[k..])
    else Fail
  }

  function ParseWord(s: string, word: string, v: Json): (p: Parsed<Json>)
    requires word != ""
    ensures p.Done? ==> |p.rest| < |s|
  {
    if word <= s then Done(v, s[|word|..]) else Fail
  }

  function ParseValue(s: string): (p: Parsed<Json>)
    ensures p.Done? ==> |p.rest| < |s|
    decreases |s|, 0
  {
    if s == "" then Fail
    else if s[0] == 'n' then ParseWord(s, "null", Null)
    else if s[0] == 't' then ParseWord(s, "true", Bool(true))
    else if s[0] == 'f' then ParseWord(s, "false", Bool(false))
    else if s[0] == '\"' then
      (match ParseChars(s[1..]) case Fail => Fail case Done(t, r) => Done(Str(t), r))
    else if s[0] == '[' then
      var t := Skip(s[1..]);
      if t != "" && t[0] == ']' then Done(Arr(Nil), t[1..])
      else match ParseItems(t) case Fail => Fail case Done(items, r) => Done(Arr(items), r)
    else if s[0] == '{' then
      var t := Skip(s[1..]);
      if t != "" && t[0] == '}' then Done(Obj(Nil), t[1..])
      else match ParseMembers(t) case Fail => Fail case Done(members, r) => Done(Obj(members), r)
    else ParseNumber(s)
  }

  /** At least one item, up to and including the closing bracket. */
  function ParseItems(s: string): (p: Parsed<List<Json>>)
    ensures p.Done? ==> |p.rest| < |s|
    decreases |s|, 1
  {
    match ParseValue(s)
    case Fail => Fail
    case Done(v, rest) =>
      var t := Skip(rest);
      if t == "" then Fail
      else if t[0] == ']' then Done(Cons(v, Nil), t[1..])
      else if t[0] == ',' then
        match ParseItems(Skip(t[1..])) case Fail => Fail case Done(more, r) => Done(Cons(v, more), r)
      else Fail
  }

  /** At least one member, up to and including the closing brace. */
  function ParseMembers(s: string): (p: Parsed<List<Member>>)
    ensures p.Done? ==> |p.rest| < |s|
    decreases |s|, 1
  {
    if s == "" || s[0] != '\"' then Fail
    else match ParseChars(s[1..])
         case Fail => Fail
         case Done(key, rest) =>
           var t := Skip(rest);
           if t == "" || t[0] != ':' then Fail
           else match ParseValue(Skip(t[1..]))
                case Fail => Fail
                case Done(v, after) =>
                  var u := Skip(after);
                  if u == "" then Fail
                  else if u[0] == '}' then Done(Cons(Member(key, v), Nil), u[1..])
                  else if u[0] == ',' then
                    match ParseMembers(Skip(u[1..])) case Fail => Fail case Done(more, r) => Done(Cons(Member(key, v), more), r)
                  else Fail
  }

  function ParseText(s: string): Parsed<Json> {
    match ParseValue(Skip(s))
    case Fail => Fail
    case Done(v, rest) => if Skip(rest) == "" then Done(v, "") else Fail
  }

  // ------------------------------------------------------------------ round trips

  /** Every number text is one the grammar has. */
  predicate Printable(v: Json) {
    match v
    case Float(t) => IsFloatText(t)
    case Arr(items) => AllPrintable(items)
    case Obj(members) => PrintableMembers(members)
    case _ => true
  }

  predicate AllPrintable(items: List<Json>) {
    match items
    case Nil => true
    case Cons(h, t) => Printable(h) && AllPrintable(t)
  }

  predicate PrintableMembers(members: List<Member>) {
    match members
    case Nil => true
    case Cons(m, t) => Printable(m.value) && PrintableMembers(t)
  }

  lemma EscapeCharBack(c: char, rest: string)
    ensures EscapeChar(c)[0] == '\\' ==> ParseEscape(EscapeChar(c)[1..] + rest) == Done(c, rest)
    ensures EscapeChar(c)[0] != '\\' ==> EscapeChar(c) == [c] && c as int >= 32 && c != '\"'
  {
    if c as int < 32 && |EscapeChar(c)| == 6 {
      ControlBack(c, rest);
    } else if EscapeChar(c)[0] == '\\' {
      var t := EscapeChar(c)[1..] + rest;
      assert |EscapeChar(c)| == 2 && t[1..] == rest;
    }
  }

  lemma ControlBack(c: char, rest: string)
    requires c as int < 32 && |EscapeChar(c)| == 6
    ensures ParseEscape(EscapeChar(c)[1..] + rest) == Done(c, rest)
  {
  }

  lemma PlainStep(c: char, tail: string, s: string, rest: string)
    requires c != '\"' && c != '\\' && c as int >= 32 && ParseChars(tail) == Done(s, rest)
    ensures ParseChars([c] + tail) == Done([c] + s, rest)
  {
  }

  lemma EscapedStep(text: string, c: char, tail: string, s: string, rest: string)
    requires text != "" && text[0] == '\\' && ParseEscape(text[1..]) == Done(c, tail) && ParseChars(tail) == Done(s, rest)
    ensures ParseChars(text) == Done([c] + s, rest)
  {
  }

  lemma EscapeText(s: string, rest: string)
    requires s != ""
    ensures Escape(s) + "\"" + rest == EscapeChar(s[0]) + (Escape(s[1..]) + "\"" + rest)
  {
  }

  lemma CharStep(c: char, tail: string, s: string, rest: string)
    requires ParseChars(tail) == Done(s, rest)
    ensures ParseChars(EscapeChar(c) + tail) == Done([c] + s, rest)
  {
    EscapeCharBack(c, tail);
    var text := EscapeChar(c) + tail;
    if EscapeChar(c)[0] == '\\' {
      assert text[1..] == EscapeChar(c)[1..] + tail;
      EscapedStep(text, c, tail, s, rest);
    } else {
      PlainStep(c, tail, s, rest);
    }
  }

  lemma {:induction false} CharsBack(s: string, rest: string)
    ensures ParseChars(Escape(s) + "\"" + rest) == Done(s, rest)
  {
    if s == "" {
      assert (Escape(s) + "\"" + rest)[1..] == rest;
    } else {
      EscapeText(s, rest);
      CharsBack(s[1..], rest);
      CharStep(s[0], Escape(s[1..]) + "\"" + rest, s[1..], rest);
      assert s == [s[0]] + s[1..];
    }
  }

  /** The text ends, or goes on with something that is no part of a number. */
  predicate Delimited(rest: string) {
    rest == "" || !InNumber(rest[0])
  }

  predicate Numeric(t: string) {
    forall i :: 0 <= i < |t| ==> InNumber(t[i])
  }

  lemma {:induction false} SpanBack(t: string, rest: string)
    requires Numeric(t) && Delimited(rest)
    ensures NumberSpan(t + rest) == |t|
  {
    if t == "" {
      assert t + rest == rest;
    } else {
      assert (t + rest)[1..] == t[1..] + rest;
      SpanBack(t[1..], rest);
    }
  }

  lemma ValueSnoc(d: string, c: char)
    ensures ValueOf(d + [c]) == ValueOf(d) * 10 + (c as int - '0' as int)
  {
  }

  lemma {:induction false} DigitsBack(n: nat)
    ensures ValueOf(Digits(n)) == n
    ensures Digits(n)[0] == '0' ==> n == 0
  {
    if n >= 10 {
      DigitsBack(n / 10);
      ValueSnoc(Digits(n / 10), HexDigit(n % 10));
    } else {
      ValueSnoc("", HexDigit(n));
      assert "" + [HexDigit(n)] == Digits(n);
    }
  }

  lemma {:induction false} AllDigits(d: string)
    requires forall i :: 0 <= i < |d| ==> IsDigit(d[i])
    ensures DigitSpan(d) == |d|
  {
  }

  lemma DecimalBack(n: int)
    ensures IsIntegerText(Decimal(n)) && IntegerValue(Decimal(n)) == n
    ensures Numeric(Decimal(n)) && (Decimal(n)[0] == '-' || IsDigit(Decimal(n)[0]))
  {
    var m := if n < 0 then -n else n;
    DigitsBack(m);
    AllDigits(Digits(m));
    if n < 0 {
      assert Decimal(n)[1..] == Digits(m);
    }
    if Digits(m)[0] == '0' {
      assert m == 0 && |Digits(m)| == 1;
    }
  }

  lemma NumericParts(t: string, k: nat)
    requires k <= |t| && Numeric(t[..k]) && Numeric(t[k..])
    ensures Numeric(t)
  {
  }

  lemma DigitsNumeric(t: string)
    ensures Numeric(t[..DigitSpan(t)])
  {
  }

  lemma TailChars(t: string)
    requires IsTail(t)
    ensures Numeric(t)
  {
  }

  lemma FloatChars(t: string)
    requires IsFloatText(t)
    ensures Numeric(t) && t != "" && (t[0] == '-' || IsDigit(t[0]))
  {
    var sign := if t != "" && t[0] == '-' then 1 else 0;
    var d := t[sign..];
    var k := DigitSpan(d);
    DigitsNumeric(d);
    TailChars(d[k..]);
    NumericParts(d, k);
    assert t[sign..] == d;
    NumericParts(t, sign);
  }

  lemma NumberStep(t: string, rest: string, v: Json)
    requires t != "" && (t[0] == '-' || IsDigit(t[0])) && Numeric(t) && Delimited(rest)
    requires if IsIntegerText(t) then v == Int(IntegerValue(t)) else IsFloatText(t) && v == Float(t)
    ensures ParseValue(t + rest) == Done(v, rest)
  {
    var text := t + rest;
    assert ParseNumber(text) == Done(v, rest) by {
      SpanBack(t, rest);
      assert text[..|t|] == t && text[|t|..] == rest;
    }
    assert text[0] == t[0];
  }

  lemma NumberBack(v: Json, rest: string)
    requires (v.Int? || v.Float?) && Printable(v) && Delimited(rest)
    ensures ParseValue(Render(v) + rest) == Done(v, rest)
  {
    if v.Int? {
      DecimalBack(v.n);
    } else {
      FloatChars(v.text);
    }
    NumberStep(Render(v), rest, v);
  }

  lemma WordBack(word: string, rest: string)
    ensures word <= word + rest && (word + rest)[|word|..] == rest
  {
  }

  lemma StringBack(s: string, rest: string)
    ensures ParseValue("\"" + Escape(s) + "\"" + rest) == Done(Str(s), rest)
  {
    CharsBack(s, rest);
    QuotedStep("\"" + Escape(s) + "\"" + rest, s, rest);
  }

  lemma QuotedStep(text: string, s: string, rest: string)
    requires text != "" && text[0] == '\"' && text[1..] == Escape(s) + "\"" + rest
    requires ParseChars(Escape(s) + "\"" + rest) == Done(s, rest)
    ensures ParseValue(text) == Done(Str(s), rest)
  {
  }

  /** No rendering starts with white space or a closing bracket. */
  lemma Starts(v: Json)
    requires Printable(v)
    ensures Render(v) != "" && !IsSpace(Render(v)[0]) && Render(v)[0] != ']' && Render(v)[0] != '}'
  {
  }

  // One turn of each loop of the parser.

  lemma ArrayStep(text: string, items: List<Json>, rest: string)
    requires text != "" && text[0] == '['
    requires if items.Nil? then text[1..] == "]" + rest
             else ParseItems(text[1..]) == Done(items, rest) && |text| > 1 && !IsSpace(text[1]) && text[1] != ']'
    ensures ParseValue(text) == Done(Arr(items), rest)
  {
  }

  lemma ObjectStep(text: string, members: List<Member>, rest: string)
    requires text != "" && text[0] == '{'
    requires if members.Nil? then text[1..] == "}" + rest
             else ParseMembers(text[1..]) == Done(members, rest) && |text| > 1 && text[1] == '\"'
    ensures ParseValue(text) == Done(Obj(members), rest)
  {
  }

  lemma LastItem(text: string, v: Json, rest: string)
    requires ParseValue(text) == Done(v, "]" + rest)
    ensures ParseItems(text) == Done(Cons(v, Nil), rest)
  {
  }

  lemma NextItem(text: string, v: Json, more: string, items: List<Json>, rest: string)
    requires ParseValue(text) == Done(v, "," + more) && ParseItems(more) == Done(items, rest)
    requires more != "" && !IsSpace(more[0])
    ensures ParseItems(text) == Done(Cons(v, items), rest)
  {
  }

  lemma LastMember(text: string, key: string, value: string, v: Json, rest: string)
    requires text != "" && text[0] == '\"' && ParseChars(text[1..]) == Done(key, ":" + value)
    requires value != "" && !IsSpace(value[0]) && ParseValue(value) == Done(v, "}" + rest)
    ensures ParseMembers(text) == Done(Cons(Member(key, v), Nil), rest)
  {
  }

  lemma NextMember(text: string, key: string, value: string, v: Json, more: string, members: List<Member>, rest: string)
    requires text != "" && text[0] == '\"' && ParseChars(text[1..]) == Done(key, ":" + value)
    requires value != "" && !IsSpace(value[0]) && ParseValue(value) == Done(v, "," + more)
    requires more != "" && !IsSpace(more[0]) && ParseMembers(more) == Done(members, rest)
    ensures ParseMembers(text) == Done(Cons(Member(key, v), members), rest)
  {
    assert (":" + value)[1..] == value && ("," + more)[1..] == more;
  }

  /** Parsing a rendering gives the document back, whatever follows it. */
  lemma {:induction false} ValueBack(v: Json, rest: string)
    requires Printable(v) && Delimited(rest)
    ensures ParseValue(Render(v) + rest) == Done(v, rest)
    decreases v, 0
  {
    match v
    case Null => WordBack("null", rest);
    case Bool(b) => WordBack(Render(v), rest);
    case Int(_) => NumberBack(v, rest);
    case Float(_) => NumberBack(v, rest);
    case Str(s) => StringBack(s, rest);
    case Arr(items) => ArrayBack(items, rest);
    case Obj(members) => ObjectBack(members, rest);
  }

  lemma {:induction false} ArrayBack(items: List<Json>, rest: string)
    requires AllPrintable(items)
    ensures ParseValue("[" + RenderItems(items) + "]" + rest) == Done(Arr(items), rest)
    decreases items, 2
  {
    var text := "[" + RenderItems(items) + "]" + rest;
    assert text[1..] == RenderItems(items) + "]" + rest;
    if items.Cons? {
      Starts(items.head);
      ItemsBack(items, rest);
      assert text[1] == Render(items.head)[0];
    } else {
      assert RenderItems(items) + "]" == "]";
    }
    ArrayStep(text, items, rest);
  }

  lemma {:induction false} ObjectBack(members: List<Member>, rest: string)
    requires PrintableMembers(members)
    ensures ParseValue("{" + RenderMembers(members) + "}" + rest) == Done(Obj(members), rest)
    decreases members, 2
  {
    var text := "{" + RenderMembers(members) + "}" + rest;
    assert text[1..] == RenderMembers(members) + "}" + rest;
    if members.Cons? {
      MembersBack(members, rest);
      assert RenderMembers(members)[0] == '\"';
    } else {
      assert RenderMembers(members) + "}" == "}";
    }
    ObjectStep(text, members, rest);
  }

  lemma ItemsText(items: List<Json>, rest: string)
    requires items.Cons?
    ensures RenderItems(items) + "]" + rest
            == Render(items.head) + if items.tail.Nil? then "]" + rest else "," + (RenderItems(items.tail) + "]" + rest)
  {
  }

  lemma ItemStarts(items: List<Json>, rest: string)
    requires items.Cons? && AllPrintable(items)
    ensures var text := RenderItems(items) + "]" + rest; text != "" && !IsSpace(text[0])
  {
  }

  lemma {:induction false} ItemsBack(items: List<Json>, rest: string)
    requires items.Cons? && AllPrintable(items)
    ensures ParseItems(RenderItems(items) + "]" + rest) == Done(items, rest)
    decreases items, 1
  {
    ItemsText(items, rest);
    if items.tail.Nil? {
      ValueBack(items.head, "]" + rest);
      LastItem(RenderItems(items) + "]" + rest, items.head, rest);
    } else {
      var more := RenderItems(items.tail) + "]" + rest;
      ValueBack(items.head, "," + more);
      ItemsBack(items.tail, rest);
      ItemStarts(items.tail, rest);
      NextItem(RenderItems(items) + "]" + rest, items.head, more, items.tail, rest);
    }
  }

  lemma MemberText(m: Member, after: string)
    ensures var text := RenderMember(m) + after;
            && text != "" && text[0] == '\"'
            && text[1..] == Escape(m.key) + "\"" + (":" + (Render(m.value) + after))
  {
  }

  function After(members: List<Member>, rest: string): string {
    if members.Nil? then "}" + rest else "," + (RenderMembers(members) + "}" + rest)
  }

  lemma MembersText(members: List<Member>, rest: string)
    requires members.Cons?
    ensures RenderMembers(members) + "}" + rest == RenderMember(members.head) + After(members.tail, rest)
  {
  }

  lemma ValueStarts(v: Json, rest: string)
    requires Printable(v)
    ensures Render(v) + rest != "" && !IsSpace((Render(v) + rest)[0])
  {
  }

  lemma {:induction false} MembersBack(members: List<Member>, rest: string)
    requires members.Cons? && PrintableMembers(members)
    ensures ParseMembers(RenderMembers(members) + "}" + rest) == Done(members, rest)
    decreases members, 1
  {
    var m, after := members.head, After(members.tail, rest);
    MembersText(members, rest);
    MemberText(m, after);
    CharsBack(m.key, ":" + (Render(m.value) + after));
    ValueBack(m.value, after);
    ValueStarts(m.value, after);
    if members.tail.Nil? {
      LastMember(RenderMembers(members) + "}" + rest, m.key, Render(m.value) + after, m.value, rest);
    } else {
      MembersBack(members.tail, rest);
      MemberStarts(members.tail, rest);
      NextMember(RenderMembers(members) + "}" + rest, m.key, Render(m.value) + after, m.value,
                 RenderMembers(members.tail) + "}" + rest, members.tail, rest);
    }
  }

  lemma MemberStarts(members: List<Member>, rest: string)
    requires members.Cons?
    ensures var text := RenderMembers(members) + "}" + rest; text != "" && !IsSpace(text[0])
  {
  }

  // ------------------------------------------------------------------ the form

  lemma SortsTwo(k1: string, v1: Json, k2: string, v2: Json)
    requires Less(k1, k2)
    ensures CanonMembers(Cons(Member(k2, v2), Cons(Member(k1, v1), Nil)))
            == Cons(Member(k1, Canon(v1)), Cons(Member(k2, Canon(v2)), Nil))
  {
    var tail := Cons(Member(k1, v1), Nil);
    assert CanonMembers(tail) == Insert(Member(k1, Canon(v1)), CanonMembers(Nil)) == Cons(Member(k1, Canon(v1)), Nil);
    assert CanonMembers(Cons(Member(k2, v2), tail)) == Insert(Member(k2, Canon(v2)), CanonMembers(tail));
  }

  lemma TwoMembers(a: Member, b: Member)
    ensures RenderMembers(Cons(a, Cons(b, Nil))) == RenderMember(a) + ("," + RenderMember(b))
  {
    assert RenderMembers(Cons(b, Nil)) == RenderMember(b) + "";
  }

  /** No white space, a comma between two members, a colon after each key, and the keys in order. */
  lemma MembersForm(k1: string, v1: Json, k2: string, v2: Json)
    requires Less(k1, k2)
    ensures CanonicalJson(Obj(Cons(Member(k2, v2), Cons(Member(k1, v1), Nil))))
            == "{" + (("\"" + Escape(k1) + "\":" + CanonicalJson(v1)) + ("," + ("\"" + Escape(k2) + "\":" + CanonicalJson(v2)))) + "}"
  {
    SortsTwo(k1, v1, k2, v2);
    TwoMembers(Member(k1, Canon(v1)), Member(k2, Canon(v2)));
  }

  lemma TwoItems(v: Json, w: Json)
    ensures RenderItems(Cons(v, Cons(w, Nil))) == Render(v) + ("," + Render(w))
  {
    assert RenderItems(Cons(w, Nil)) == Render(w) + "";
  }

  /** The items of a list stay in their order. */
  lemma ItemsForm(v: Json, w: Json)
    ensures CanonicalJson(Arr(Cons(v, Cons(w, Nil)))) == "[" + (CanonicalJson(v) + ("," + CanonicalJson(w))) + "]"
  {
    assert CanonItems(Cons(w, Nil)) == Cons(Canon(w), CanonItems(Nil)) == Cons(Canon(w), Nil);
    assert CanonItems(Cons(v, Cons(w, Nil))) == Cons(Canon(v), CanonItems(Cons(w, Nil)));
    TwoItems(Canon(v), Canon(w));
  }
}
