/** Parsing the canonical rendering of an accepted connection gives the same connection. */
module ConnectionRoundTrip {
  import opened Base
  import opened UrlText
  import opened ConnectionUrl
  import Json
  import JsonText

  // ------------------------------------------------------------------ sorted parameters

  predicate Ascending(pairs: seq<(string, string)>) {
    forall i, j :: 0 <= i < j < |pairs| ==> Json.Less(pairs[i].0, pairs[j].0)
  }

  function KeysOf(pairs: seq<(string, string)>): set<string> {
    set p | p in pairs :: p.0
  }

  lemma {:induction false} InsertAscends(p: (string, string), pairs: seq<(string, string)>)
    requires Ascending(pairs) && p.0 !in KeysOf(pairs)
    ensures Ascending(Insert(p, pairs)) && KeysOf(Insert(p, pairs)) == KeysOf(pairs) + {p.0}
    ensures forall x :: x in Insert(p, pairs) <==> x == p || x in pairs
  {
    if pairs == [] || !Json.Less(pairs[0].0, p.0) {
      AscendsInFront(p, pairs);
    } else {
      assert pairs == [pairs[0]] + pairs[1..];
      assert Ascending(pairs[1..]);
      InsertAscends(p, pairs[1..]);
      forall x | x in Insert(p, pairs[1..]) ensures Json.Less(pairs[0].0, x.0) {
        if x in pairs[1..] {
          var i :| 0 <= i < |pairs[1..]| && pairs[1..][i] == x;
          assert Json.Less(pairs[0].0, pairs[i + 1].0);
        }
      }
      ConsAscends(pairs[0], Insert(p, pairs[1..]));
    }
  }

  lemma ConsAscends(p: (string, string), rest: seq<(string, string)>)
    requires Ascending(rest) && forall x :: x in rest ==> Json.Less(p.0, x.0)
    ensures Ascending([p] + rest)
  {
  }

  lemma AscendsInFront(p: (string, string), pairs: seq<(string, string)>)
    requires Ascending(pairs) && p.0 !in KeysOf(pairs) && (pairs != [] ==> !Json.Less(pairs[0].0, p.0))
    ensures Ascending([p] + pairs)
  {
    forall x | x in pairs ensures Json.Less(p.0, x.0) {
      assert pairs[0] in pairs;
      Json.LessTotal(p.0, pairs[0].0);
      var i :| 0 <= i < |pairs| && pairs[i] == x;
      if i > 0 { Json.LessTransitive(p.0, pairs[0].0, pairs[i].0); }
    }
    ConsAscends(p, pairs);
  }

  predicate Distinct(pairs: seq<(string, string)>) {
    forall i, j :: 0 <= i < j < |pairs| ==> pairs[i].0 != pairs[j].0
  }

  lemma {:induction false} SortedAscends(pairs: seq<(string, string)>)
    requires Distinct(pairs)
    ensures Ascending(Sorted(pairs)) && forall x :: x in Sorted(pairs) <==> x in pairs
  {
    if pairs != [] {
      assert pairs == [pairs[0]] + pairs[1..];
      SortedAscends(pairs[1..]);
      forall x | x in Sorted(pairs[1..]) ensures x.0 != pairs[0].0 {
        var i :| 0 <= i < |pairs[1..]| && pairs[1..][i] == x;
        assert pairs[0].0 != pairs[i + 1].0;
      }
      InsertAscends(pairs[0], Sorted(pairs[1..]));
    }
  }

  lemma {:induction false} SortedAlready(pairs: seq<(string, string)>)
    requires Ascending(pairs)
    ensures Sorted(pairs) == pairs
  {
    if pairs != [] {
      assert Ascending(pairs[1..]);
      SortedAlready(pairs[1..]);
      if |pairs| > 1 {
        assert Json.Less(pairs[0].0, pairs[1].0);
        Json.LessTotal(pairs[0].0, pairs[1].0);
      }
      assert pairs == [pairs[0]] + pairs[1..];
    }
  }

  lemma AscendingDistinct(pairs: seq<(string, string)>)
    requires Ascending(pairs)
    ensures Distinct(pairs)
  {
    forall i, j | 0 <= i < j < |pairs| ensures pairs[i].0 != pairs[j].0 {
      Json.LessTotal(pairs[i].0, pairs[j].0);
    }
  }

  // ------------------------------------------------------------------ the query string

  /** Keys that folding leaves as they are. */
  predicate PlainKey(k: string) {
    k != "" && forall i :: 0 <= i < |k| ==> 'a' <= k[i] <= 'z' || k[i] == '_'
  }

  lemma KnownPlain(k: string)
    requires k in ALLOWED + ENDPOINT
    ensures PlainKey(k) && IsBytes(k)
  {
  }

  lemma PlainFolds(k: string)
    requires PlainKey(k)
    ensures Lower(Strip(k)) == k
  {
  }

  lemma QuotedPlusHas(s: string, c: char)
    requires IsBytes(s) && !InQuoted(c, {'+'})
    ensures c !in QuotePlus(s)
  {
  }

  lemma QuotedHas(s: string, c: char)
    requires IsBytes(s) && !InQuoted(c, KEPT)
    ensures c !in Quote(s, KEPT)
  {
  }

  lemma PairChars(p: (string, string))
    requires IsBytes(p.0) && IsBytes(p.1)
    ensures PairText(p) != "" && '&' !in PairText(p) && Clean(PairText(p), {'#'})
  {
    var a, b := QuotePlus(p.0), QuotePlus(p.1);
    QuotePlusChars(p.0);
    QuotePlusChars(p.1);
    assert Clean(a, {'#', '&'}) && Clean(b, {'#', '&'}) && Clean(['='], {'#', '&'});
    CleanConcat(a, ['='], {'#', '&'});
    CleanConcat(a + ['='], b, {'#', '&'});
    CleanLess(PairText(p), {'#', '&'});
  }

  lemma CleanLess(s: string, stops: set<char>)
    requires Clean(s, stops) && {'#', '&'} <= stops
    ensures '&' !in s && Clean(s, {'#'})
  {
  }

  /** One parameter: its text splits at its one equals sign. */
  lemma PairSplits(p: (string, string))
    requires IsBytes(p.0) && IsBytes(p.1)
    ensures Partition(PairText(p), '=') == Split(QuotePlus(p.0), true, QuotePlus(p.1))
  {
    QuotedPlusHas(p.0, '=');
    PartitionAt(QuotePlus(p.0), '=', QuotePlus(p.1));
  }

  lemma PairBack(p: (string, string), parts: seq<string>)
    requires IsBytes(p.0) && IsBytes(p.1)
    ensures Pairs([PairText(p)] + parts) == [p] + Pairs(parts)
  {
    PairSplits(p);
    PairChars(p);
    QuotePlusBack(p.0);
    QuotePlusBack(p.1);
    assert ([PairText(p)] + parts)[1..] == parts;
  }

  lemma {:induction false} QueryClean(pairs: seq<(string, string)>)
    requires pairs != [] && BytePairs(pairs)
    ensures Clean(QueryText(pairs), {'#'})
  {
    PairChars(pairs[0]);
    if |pairs| > 1 {
      QueryClean(pairs[1..]);
      CleanConcat(PairText(pairs[0]), ['&'], {'#'});
      CleanConcat(PairText(pairs[0]) + ['&'], QueryText(pairs[1..]), {'#'});
    }
  }

  lemma SplitOnCons(a: string, c: char, b: string)
    requires c !in a
    ensures SplitOn(a + [c] + b, c) == [a] + SplitOn(b, c)
  {
    PartitionAt(a, c, b);
  }

  lemma QueryLast(p: (string, string))
    requires IsBytes(p.0) && IsBytes(p.1)
    ensures Pairs(SplitOn(PairText(p), '&')) == [p]
  {
    PairChars(p);
    PartitionNone(PairText(p), '&');
    PairBack(p, []);
    assert [PairText(p)] + [] == [PairText(p)];
  }

  lemma QueryNext(p: (string, string), text: string)
    requires IsBytes(p.0) && IsBytes(p.1)
    ensures Pairs(SplitOn(PairText(p) + ['&'] + text, '&')) == [p] + Pairs(SplitOn(text, '&'))
  {
    PairChars(p);
    SplitOnCons(PairText(p), '&', text);
    PairBack(p, SplitOn(text, '&'));
  }

  lemma {:induction false} QueryBack(pairs: seq<(string, string)>)
    requires pairs != [] && BytePairs(pairs)
    ensures Pairs(SplitOn(QueryText(pairs), '&')) == pairs
  {
    if |pairs| == 1 {
      QueryLast(pairs[0]);
    } else {
      QueryBack(pairs[1..]);
      QueryNext(pairs[0], QueryText(pairs[1..]));
      assert pairs == [pairs[0]] + pairs[1..];
    }
  }

  lemma {:induction false} FoldedBack(pairs: seq<(string, string)>)
    requires Distinct(pairs) && forall p :: p in pairs ==> PlainKey(p.0)
    ensures Folded(pairs) == Some(pairs)
  {
    if pairs != [] {
      var init, last := pairs[..|pairs| - 1], pairs[|pairs| - 1];
      FoldedBack(init);
      PlainFolds(last.0);
      assert pairs == init + [last];
      assert !HasKey(init, last.0);
    }
  }

  lemma {:induction false} AllowedOnly(pairs: seq<(string, string)>)
    requires forall p :: p in pairs ==> p.0 in ALLOWED
    ensures Options(pairs) == pairs && Unknown(pairs) == []
    ensures Lookup(pairs, "host") == None && Lookup(pairs, "port") == None
  {
    if pairs != [] {
      AllowedOnly(pairs[1..]);
      assert pairs[0] in pairs;
      assert pairs == [pairs[0]] + pairs[1..];
    }
  }

  // ------------------------------------------------------------------ sound specifications

  /** A host that has no brackets, no zone and no upper case. */
  predicate HostChar(c: char) {
    'a' <= c <= 'z' || '0' <= c <= '9' || c == '-' || c == '.' || c == ':'
  }

  /** What a TCP specification has when it has been accepted, its database name is unreserved and
      its host carries no zone. */
  ghost predicate Sound(spec: Spec, o: Oracle) {
    && !spec.isSocket && 1 <= spec.port <= 65535
    && IsBytes(spec.username) && spec.username != "" && ',' !in spec.username && o.utf8(spec.username)
    && (spec.password.Some? ==> IsBytes(spec.password.value) && o.utf8(spec.password.value))
    && spec.database != "" && (forall i :: 0 <= i < |spec.database| ==> Unreserved(spec.database[i])) && o.utf8(spec.database)
    && IsHost(spec.host, o) && IsHostText(spec.host)
    && Ascending(spec.options) && BytePairs(spec.options) && forall p :: p in spec.options ==> p.0 in ALLOWED
  }

  lemma ParametersBack(spec: Spec)
    requires !spec.isSocket && Ascending(spec.options) && forall p :: p in spec.options ==> p.0 in ALLOWED
    ensures Parameters(spec) == spec.options
    ensures Folded(spec.options) == Some(spec.options) && Unknown(spec.options) == []
    ensures Options(spec.options) == spec.options == Sorted(spec.options)
    ensures Lookup(spec.options, "host") == None == Lookup(spec.options, "port")
  {
    assert spec.options + [] == spec.options;
    SortedAlready(spec.options);
    AscendingDistinct(spec.options);
    forall p | p in spec.options ensures PlainKey(p.0) { KnownPlain(p.0); }
    FoldedBack(spec.options);
    AllowedOnly(spec.options);
  }

  /** The query of the rendering is decoded to the options again. */
  lemma OptionsBack(spec: Spec, o: Oracle)
    requires Sound(spec, o)
    ensures Renderable(spec)
    ensures var text := if Query(spec).Some? then Query(spec).value else "";
            Folded(Pairs(SplitOn(text, '&'))) == Some(spec.options) && Clean(text, {'#'})
  {
    ParametersBack(spec);
    if spec.options == [] {
      PartitionNone("", '&');
      assert SplitOn("", '&') == [""];
      assert [""][1..] == [];
    } else {
      QueryBack(spec.options);
      QueryClean(spec.options);
    }
  }

  // ------------------------------------------------------------------ the authority

  lemma PortBack(port: nat)
    ensures IsNumber(JsonText.Digits(port)) && PortOf(JsonText.Digits(port)) == port
  {
    JsonText.DigitsBack(port);
    JsonText.AllDigits(JsonText.Digits(port));
  }

  lemma HasNot(s: string, c: char)
    requires forall i :: 0 <= i < |s| ==> s[i] != c
    ensures c !in s
  {
  }

  predicate IsHostText(host: string) {
    forall i :: 0 <= i < |host| ==> HostChar(host[i])
  }

  lemma BracketedBack(host: string, port: string)
    requires IsHostText(host)
    ensures SplitHost(['['] + host + [']'] + [':'] + port) == (host, port)
  {
    var inner := host + [']'] + ([':'] + port);
    HasNot(host, ']');
    assert ['['] + host + [']'] + [':'] + port == "" + ['['] + inner;
    PartitionAt("", '[', inner);
    PartitionAt(host, ']', [':'] + port);
    PartitionAt("", ':', port);
    assert "" + [':'] + port == [':'] + port;
  }

  lemma HostBack(host: string, port: nat)
    requires IsHostText(host)
    ensures SplitHost(HostPort(host, port)) == (host, JsonText.Digits(port))
  {
    if ':' in host {
      BracketedBack(host, JsonText.Digits(port));
    } else {
      HostPortChars(host, port);
      PartitionNone(HostPort(host, port), '[');
      PartitionAt(host, ':', JsonText.Digits(port));
    }
  }

  lemma LowerHostBack(host: string)
    requires IsHostText(host)
    ensures LowerHost(host) == host
  {
  }

  lemma UserInfoBack(username: string, password: Option<string>)
    requires IsBytes(username) && (password.Some? ==> IsBytes(password.value))
    ensures Partition(UserInfo(username, password), ':')
            == Split(Quote(username, KEPT), password.Some?, if password.Some? then Quote(password.value, KEPT) else "")
  {
    var q := Quote(username, KEPT);
    QuotedHas(username, ':');
    if password.Some? {
      var r := Quote(password.value, KEPT);
      assert UserInfo(username, password) == q + [':'] + r;
      PartitionAt(q, ':', r);
    } else {
      assert UserInfo(username, password) == q;
      PartitionNone(q, ':');
    }
  }

  predicate InHostPort(c: char) {
    HostChar(c) || c == '[' || c == ']'
  }

  lemma HostPortChars(host: string, port: nat)
    requires IsHostText(host)
    ensures forall i :: 0 <= i < |HostPort(host, port)| ==> InHostPort(HostPort(host, port)[i])
    ensures ':' !in host ==> '[' !in HostPort(host, port) && ']' !in HostPort(host, port)
    ensures ':' in host ==> '[' in HostPort(host, port) && ']' in HostPort(host, port)
  {
  }

  lemma HostPortClean(host: string, port: nat)
    requires IsHostText(host)
    ensures '@' !in HostPort(host, port) && ',' !in HostPort(host, port) && Clean(HostPort(host, port), {'/', '?', '#'})
  {
    var s := HostPort(host, port);
    HostPortChars(host, port);
    forall i | 0 <= i < |s| ensures s[i] != '@' && s[i] != ',' && s[i] !in {'/', '?', '#'} && !Removed(s[i]) {
      assert InHostPort(s[i]);
    }
  }

  lemma QuotedClean(s: string)
    requires IsBytes(s)
    ensures Clean(Quote(s, KEPT), {'/', '?', '#', '[', ']'})
  {
    QuoteChars(s, KEPT);
    forall i | 0 <= i < |Quote(s, KEPT)| ensures Quote(s, KEPT)[i] !in {'/', '?', '#', '[', ']'} && !Removed(Quote(s, KEPT)[i]) {
      assert InQuoted(Quote(s, KEPT)[i], KEPT);
    }
  }

  lemma UserInfoClean(username: string, password: Option<string>)
    requires IsBytes(username) && (password.Some? ==> IsBytes(password.value))
    ensures Clean(UserInfo(username, password), {'/', '?', '#', '[', ']'})
  {
    QuotedClean(username);
    if password.Some? {
      QuotedClean(password.value);
      assert Clean([':'], {'/', '?', '#', '[', ']'});
      CleanConcat([':'], Quote(password.value, KEPT), {'/', '?', '#', '[', ']'});
      CleanConcat(Quote(username, KEPT), [':'] + Quote(password.value, KEPT), {'/', '?', '#', '[', ']'});
    }
  }

  lemma AuthorityBack(username: string, password: Option<string>, host: string, port: nat)
    requires IsBytes(username) && (password.Some? ==> IsBytes(password.value)) && IsHostText(host) && host != ""
    ensures var netloc := UserInfo(username, password) + ['@'] + HostPort(host, port);
            && RPartition(netloc, '@').after == HostPort(host, port)
            && SplitAuthority(netloc) == Authority(Some(Quote(username, KEPT)),
                                                   if password.Some? then Some(Quote(password.value, KEPT)) else None,
                                                   Some(host), Some(JsonText.Digits(port)))
  {
    HostPortClean(host, port);
    RPartitionAt(UserInfo(username, password), '@', HostPort(host, port));
    UserInfoBack(username, password);
    HostBack(host, port);
    LowerHostBack(host);
  }

  lemma InConcat3(a: string, m: char, b: string, c: char)
    requires c != m
    ensures c in a + [m] + b <==> c in a || c in b
  {
  }

  lemma NetlocClean(username: string, password: Option<string>, host: string, port: nat)
    requires IsBytes(username) && (password.Some? ==> IsBytes(password.value)) && IsHostText(host)
    ensures var netloc := UserInfo(username, password) + ['@'] + HostPort(host, port);
            Clean(netloc, {'/', '?', '#'}) && ('[' in netloc <==> ']' in netloc)
  {
    var u, h := UserInfo(username, password), HostPort(host, port);
    UserInfoClean(username, password);
    HostPortClean(host, port);
    HostPortChars(host, port);
    assert Clean(u, {'/', '?', '#'}) by { forall i | 0 <= i < |u| ensures u[i] !in {'/', '?', '#'} { assert u[i] !in {'/', '?', '#', '[', ']'}; } }
    assert Clean(['@'], {'/', '?', '#'});
    CleanConcat(u, ['@'], {'/', '?', '#'});
    CleanConcat(u + ['@'], h, {'/', '?', '#'});
    forall i | 0 <= i < |u| ensures u[i] != '[' && u[i] != ']' { assert u[i] !in {'/', '?', '#', '[', ']'}; }
    HasNot(u, '[');
    HasNot(u, ']');
    InConcat3(u, '@', h, '[');
    InConcat3(u, '@', h, ']');
  }

  // ------------------------------------------------------------------ the whole round trip

  lemma QuotedDecodes(s: string, field: Field, o: Oracle)
    requires IsBytes(s) && o.utf8(s)
    ensures Decoded(Quote(s, KEPT), field, o) == (None, s)
  {
    QuoteBack(s, KEPT);
    QuoteWellFormed(s, KEPT);
  }

  lemma DatabaseBack(database: string, o: Oracle)
    requires database != "" && (forall i :: 0 <= i < |database| ==> Unreserved(database[i])) && o.utf8(database)
    ensures DatabaseOf(['/'] + database, o) == (None, database)
  {
    assert (['/'] + database)[1..] == database;
    assert Unreserved(database[0]);
    assert WithoutSlashes(['/'] + database) == database;
    UnreservedBack(database);
    assert Decoded(database, Database, o) == (None, database);
    HasNot(database, '/');
    HasNot(database, ',');
  }

  lemma PathClean(database: string)
    requires forall i :: 0 <= i < |database| ==> Unreserved(database[i])
    ensures Clean(['/'] + database, {'?', '#'})
  {
  }

  lemma PartsBack(spec: Spec, o: Oracle)
    requires Sound(spec, o) && Renderable(spec)
    ensures UrlSplit(Render(spec))
            == Parts(DRIVER, Netloc(spec), ['/'] + spec.database, if Query(spec).Some? then Query(spec).value else "")
  {
    OptionsBack(spec, o);
    NetlocClean(spec.username, spec.password, spec.host, spec.port);
    PathClean(spec.database);
    DriverPlain();
    SplitsBack(DRIVER, Netloc(spec), ['/'] + spec.database, Query(spec));
  }

  lemma DriverPlain()
    ensures IsScheme(DRIVER) && Lower(DRIVER) == DRIVER && ':' !in DRIVER
  {
  }

  lemma EndpointBack(spec: Spec, a: Authority, o: Oracle)
    requires Sound(spec, o) && a.host == Some(spec.host) && a.port == Some(JsonText.Digits(spec.port))
    ensures Endpoint(a, spec.options, o) == (None, (spec.host, spec.port, false))
  {
    ParametersBack(spec);
    PortBack(spec.port);
  }

  lemma UserBack(username: string, password: Option<string>, a: Authority, o: Oracle)
    requires IsBytes(username) && username != "" && ',' !in username && o.utf8(username)
    requires password.Some? ==> IsBytes(password.value) && o.utf8(password.value)
    requires a.username == Some(Quote(username, KEPT))
    requires a.password == if password.Some? then Some(Quote(password.value, KEPT)) else None
    ensures UserOf(a, o) == (None, (username, password))
  {
    QuotedDecodes(username, Username, o);
    if password.Some? { QuotedDecodes(password.value, Password, o); }
  }

  lemma FieldsBack(spec: Spec, parts: Parts, o: Oracle)
    requires Sound(spec, o) && Renderable(spec) && parts.netloc == Netloc(spec) && parts.path == ['/'] + spec.database
    ensures ParseFields(parts, spec.options, o) == Accepted(spec)
  {
    AuthorityBack(spec.username, spec.password, spec.host, spec.port);
    DatabaseBack(spec.database, o);
    HostPortClean(spec.host, spec.port);
    UserBack(spec.username, spec.password, SplitAuthority(parts.netloc), o);
    EndpointBack(spec, SplitAuthority(parts.netloc), o);
    assert Sorted(Options(spec.options)) == spec.options by { ParametersBack(spec); }
  }

  lemma {:induction false} StripSolid(s: string)
    requires s != "" && !IsSpace(s[0])
    ensures Strip(s) != ""
  {
    if IsSpace(s[|s| - 1]) { StripSolid(s[..|s| - 1]); }
  }

  lemma ParseSteps(url: string, parts: Parts, query: seq<(string, string)>, spec: Spec, o: Oracle)
    requires Strip(url) != "" && UrlSplit(url) == parts && ('[' in parts.netloc <==> ']' in parts.netloc)
    requires parts.scheme in SCHEMES && Folded(Pairs(SplitOn(parts.query, '&'))) == Some(query) && Unknown(query) == []
    requires ParseFields(parts, query, o) == Accepted(spec)
    ensures Parse(url, o) == Accepted(spec)
  {
  }

  function RenderedParts(spec: Spec): Parts
    requires Renderable(spec)
  {
    Parts(DRIVER, Netloc(spec), ['/'] + spec.database, if Query(spec).Some? then Query(spec).value else "")
  }

  lemma RenderSolid(spec: Spec)
    requires Renderable(spec)
    ensures Strip(Render(spec)) != ""
  {
    assert Render(spec)[0] == DRIVER[0] == 'p';
    StripSolid(Render(spec));
  }

  lemma SoundBack(spec: Spec, o: Oracle)
    requires Sound(spec, o)
    ensures Renderable(spec) && Parse(Render(spec), o) == Accepted(spec)
  {
    OptionsBack(spec, o);
    var parts := RenderedParts(spec);
    assert UrlSplit(Render(spec)) == parts by { PartsBack(spec, o); }
    assert '[' in parts.netloc <==> ']' in parts.netloc by { NetlocClean(spec.username, spec.password, spec.host, spec.port); }
    assert Unknown(spec.options) == [] by { ParametersBack(spec); }
    FieldsBack(spec, parts, o);
    RenderSolid(spec);
    ParseSteps(Render(spec), parts, spec.options, spec, o);
  }

  // ------------------------------------------------------------------ what is accepted

  /** An IP address without a zone is written in digits, hexadecimal letters, dots and colons. */
  predicate AddressChar(c: char) {
    '0' <= c <= '9' || 'a' <= c <= 'f' || 'A' <= c <= 'F' || c == '.' || c == ':'
  }

  ghost predicate PlainAddresses(o: Oracle) {
    forall h :: o.address(h) && '%' !in h ==> forall i :: 0 <= i < |h| ==> AddressChar(h[i])
  }

  lemma {:induction false} LabelsChars(s: string, i: nat)
    requires (forall l :: l in SplitOn(s, '.') ==> IsLabel(l)) && i < |s|
    ensures LabelChar(s[i]) || s[i] == '.'
    decreases |s|
  {
    var p := Partition(s, '.');
    if p.found {
      assert SplitOn(s, '.') == [p.before] + SplitOn(p.after, '.');
      assert p.before in SplitOn(s, '.');
      assert s == p.before + ['.'] + p.after by { PartitionWhole(s, '.'); }
      if i < |p.before| {
        assert LabelChar(p.before[i]);
      } else if i > |p.before| {
        LabelsChars(p.after, i - |p.before| - 1);
      }
    } else {
      assert s in SplitOn(s, '.');
    }
  }

  lemma PartitionWhole(s: string, c: char)
    requires Partition(s, c).found
    ensures s == Partition(s, c).before + [c] + Partition(s, c).after
  {
  }

  lemma {:induction false} DotsOnly(s: string, i: nat)
    requires i < |s|
    ensures |WithoutDots(s)| <= |s| && (if i < |WithoutDots(s)| then WithoutDots(s)[i] == s[i] else s[i] == '.')
  {
    if s[|s| - 1] == '.' && i < |s| - 1 {
      DotsOnly(s[..|s| - 1], i);
    } else if s[|s| - 1] == '.' && |s| > 1 {
      DotsOnly(s[..|s| - 1], 0);
    }
  }

  lemma ZoneStays(h: string)
    ensures Partition(h, '%').found ==> '%' in LowerHost(h)
  {
  }

  lemma HostTexts(h: string, o: Oracle)
    requires PlainAddresses(o) && IsHost(LowerHost(h), o) && '%' !in LowerHost(h)
    ensures IsHostText(LowerHost(h))
  {
    var host := LowerHost(h);
    ZoneStays(h);
    assert host == Lower(h);
    forall i | 0 <= i < |host| ensures HostChar(host[i]) {
      if o.address(host) {
        assert AddressChar(host[i]);
      } else {
        DotsOnly(host, i);
        if i < |WithoutDots(host)| { LabelsChars(WithoutDots(host), i); }
      }
    }
  }

  lemma {:induction false} FoldedDistinct(pairs: seq<(string, string)>)
    requires Folded(pairs).Some?
    ensures Distinct(Folded(pairs).value)
  {
    if pairs != [] {
      FoldedDistinct(pairs[..|pairs| - 1]);
    }
  }

  lemma {:induction false} OptionsDistinct(query: seq<(string, string)>)
    requires Distinct(query)
    ensures Distinct(Options(query)) && forall p :: p in Options(query) ==> p in query && p.0 in ALLOWED
  {
    if query != [] {
      assert query == [query[0]] + query[1..];
      OptionsDistinct(query[1..]);
      forall i | 0 <= i < |Options(query[1..])| ensures Options(query[1..])[i].0 != query[0].0 {
        var p := Options(query[1..])[i];
        assert p in Options(query[1..]);
        var j :| 0 <= j < |query[1..]| && query[1..][j] == p;
        assert query[0].0 != query[j + 1].0;
      }
    }
  }

  lemma OptionsSound(pairs: seq<(string, string)>)
    requires Folded(pairs).Some?
    ensures var options := Sorted(Options(Folded(pairs).value)); Ascending(options) && forall p :: p in options ==> p.0 in ALLOWED
  {
    FoldedDistinct(pairs);
    OptionsDistinct(Folded(pairs).value);
    SortedAscends(Options(Folded(pairs).value));
  }

  lemma EndpointFacts(a: Authority, query: seq<(string, string)>, o: Oracle, host: string, port: nat)
    requires Endpoint(a, query, o) == (None, (host, port, false))
    ensures a.host == Some(host) && IsHost(host, o) && 1 <= port <= 65535
  {
  }

  lemma UserFacts(a: Authority, o: Oracle, username: string, password: Option<string>)
    requires UserOf(a, o) == (None, (username, password))
    ensures username != "" && ',' !in username && o.utf8(username) && (password.Some? ==> o.utf8(password.value))
  {
  }

  lemma DatabaseFacts(path: string, o: Oracle, database: string)
    requires DatabaseOf(path, o) == (None, database)
    ensures database != "" && o.utf8(database)
  {
  }

  lemma FieldsFacts(parts: Parts, query: seq<(string, string)>, o: Oracle, spec: Spec)
    requires ParseFields(parts, query, o) == Accepted(spec)
    ensures DatabaseOf(parts.path, o) == (None, spec.database)
    ensures UserOf(SplitAuthority(parts.netloc), o) == (None, (spec.username, spec.password))
    ensures Endpoint(SplitAuthority(parts.netloc), query, o) == (None, (spec.host, spec.port, spec.isSocket))
    ensures spec.options == Sorted(Options(query))
  {
  }

  lemma ParseFacts(url: string, o: Oracle, spec: Spec)
    requires Parse(url, o) == Accepted(spec)
    ensures var parts := UrlSplit(url); var folded := Folded(Pairs(SplitOn(parts.query, '&')));
            folded.Some? && ParseFields(parts, folded.value, o) == Accepted(spec)
  {
    QueryFacts(UrlSplit(url), Folded(Pairs(SplitOn(UrlSplit(url).query, '&'))), o, spec);
  }

  lemma QueryFacts(parts: Parts, folded: Option<seq<(string, string)>>, o: Oracle, spec: Spec)
    requires ParseQuery(parts, folded, o) == Accepted(spec)
    ensures folded.Some? && ParseFields(parts, folded.value, o) == Accepted(spec)
  {
  }

  lemma AcceptedOptions(url: string, spec: Spec, o: Oracle)
    requires Parse(url, o) == Accepted(spec)
    ensures Ascending(spec.options) && forall p :: p in spec.options ==> p.0 in ALLOWED
  {
    var parts := UrlSplit(url);
    var pairs := Pairs(SplitOn(parts.query, '&'));
    ParseFacts(url, o, spec);
    FieldsFacts(parts, Folded(pairs).value, o, spec);
    OptionsSound(pairs);
  }

  lemma AcceptedNames(url: string, spec: Spec, o: Oracle)
    requires Parse(url, o) == Accepted(spec)
    ensures spec.username != "" && ',' !in spec.username && o.utf8(spec.username)
    ensures spec.password.Some? ==> o.utf8(spec.password.value)
    ensures spec.database != "" && o.utf8(spec.database)
  {
    var parts := UrlSplit(url);
    ParseFacts(url, o, spec);
    FieldsFacts(parts, Folded(Pairs(SplitOn(parts.query, '&'))).value, o, spec);
    DatabaseFacts(parts.path, o, spec.database);
    UserFacts(SplitAuthority(parts.netloc), o, spec.username, spec.password);
  }

  lemma AuthorityLowers(netloc: string, host: string)
    requires SplitAuthority(netloc).host == Some(host)
    ensures host == LowerHost(SplitHost(RPartition(netloc, '@').after).0)
  {
  }

  /** The endpoint of an accepted TCP connection is what its authority says. */
  lemma AcceptedEndpoint(url: string, spec: Spec, o: Oracle)
    requires Parse(url, o) == Accepted(spec) && !spec.isSocket
    ensures SplitAuthority(UrlSplit(url).netloc).host == Some(spec.host)
    ensures IsHost(spec.host, o) && 1 <= spec.port <= 65535
  {
    var parts := UrlSplit(url);
    var query := Folded(Pairs(SplitOn(parts.query, '&'))).value;
    ParseFacts(url, o, spec);
    FieldsFacts(parts, query, o, spec);
    EndpointFacts(SplitAuthority(parts.netloc), query, o, spec.host, spec.port);
  }

  lemma AcceptedHost(url: string, spec: Spec, o: Oracle)
    requires Parse(url, o) == Accepted(spec) && PlainAddresses(o) && !spec.isSocket && '%' !in spec.host
    ensures IsHost(spec.host, o) && IsHostText(spec.host) && 1 <= spec.port <= 65535
  {
    AcceptedEndpoint(url, spec, o);
    AuthorityHost(UrlSplit(url).netloc, spec.host, o);
  }

  lemma AuthorityHost(netloc: string, host: string, o: Oracle)
    requires SplitAuthority(netloc).host == Some(host)
    requires PlainAddresses(o) && IsHost(host, o) && '%' !in host
    ensures IsHostText(host)
  {
    AuthorityLowers(netloc, host);
    HostTexts(SplitHost(RPartition(netloc, '@').after).0, o);
  }

  lemma AcceptedSound(url: string, spec: Spec, o: Oracle)
    requires Parse(url, o) == Accepted(spec) && Renderable(spec) && PlainAddresses(o)
    requires !spec.isSocket && '%' !in spec.host && forall i :: 0 <= i < |spec.database| ==> Unreserved(spec.database[i])
    ensures Sound(spec, o)
  {
    AcceptedOptions(url, spec, o);
    AcceptedNames(url, spec, o);
    AcceptedHost(url, spec, o);
    ParametersBack(spec);
  }

  /** For an accepted TCP connection whose database name is unreserved and whose host has no zone,
      the canonical rendering parses to the same connection: user, password and options are
      encoded and decoded exactly once. */
  lemma UrlRoundTrip(url: string, spec: Spec, o: Oracle)
    requires Parse(url, o) == Accepted(spec) && Renderable(spec) && PlainAddresses(o)
    requires !spec.isSocket && '%' !in spec.host && forall i :: 0 <= i < |spec.database| ==> Unreserved(spec.database[i])
    ensures Parse(Render(spec), o) == Accepted(spec)
  {
    AcceptedSound(url, spec, o);
    SoundBack(spec, o);
  }
}
