/** The socket form: its directory is decoded by the query and then once more. */
module ConnectionSocket {
  import opened Base
  import opened UrlText
  import opened ConnectionUrl
  import opened ConnectionRoundTrip
  import Json
  import JsonText

  /** What a socket specification has when it has been accepted and its database name is unreserved. */
  ghost predicate SoundSocket(spec: Spec, o: Oracle) {
    && spec.isSocket && 1 <= spec.port <= 65535 && IsDirectory(spec.host) && IsBytes(spec.host)
    && IsBytes(spec.username) && spec.username != "" && ',' !in spec.username && o.utf8(spec.username)
    && (spec.password.Some? ==> IsBytes(spec.password.value) && o.utf8(spec.password.value))
    && spec.database != "" && (forall i :: 0 <= i < |spec.database| ==> Unreserved(spec.database[i])) && o.utf8(spec.database)
    && Ascending(spec.options) && BytePairs(spec.options) && forall p :: p in spec.options ==> p.0 in ALLOWED
  }

  // ------------------------------------------------------------------ the parameters

  function WithEndpoint(spec: Spec): seq<(string, string)> {
    spec.options + [("host", spec.host), ("port", JsonText.Digits(spec.port))]
  }

  lemma EndpointDistinct(spec: Spec, o: Oracle)
    requires SoundSocket(spec, o)
    ensures Distinct(WithEndpoint(spec))
  {
    AscendingDistinct(spec.options);
    forall i | 0 <= i < |spec.options| ensures spec.options[i].0 != "host" && spec.options[i].0 != "port" {
      assert spec.options[i] in spec.options;
      NotEndpoint(spec.options[i].0);
    }
  }

  lemma NotEndpoint(k: string)
    requires k in ALLOWED
    ensures k != "host" && k != "port"
  {
  }

  lemma DigitsBytes(n: nat)
    ensures IsBytes(JsonText.Digits(n))
  {
  }

  lemma {:induction false} LookupIn(pairs: seq<(string, string)>, p: (string, string))
    requires Distinct(pairs) && p in pairs
    ensures Lookup(pairs, p.0) == Some(p.1)
  {
    assert pairs == [pairs[0]] + pairs[1..];
    if p != pairs[0] {
      var i :| 0 <= i < |pairs| && pairs[i] == p;
      assert pairs[0].0 != pairs[i].0;
      LookupIn(pairs[1..], p);
    }
  }

  lemma {:induction false} KnownOnly(pairs: seq<(string, string)>)
    requires forall p :: p in pairs ==> p.0 in ALLOWED + ENDPOINT
    ensures Unknown(pairs) == []
    ensures forall p :: p in Options(pairs) <==> p in pairs && p.0 in ALLOWED
  {
    if pairs != [] {
      assert pairs == [pairs[0]] + pairs[1..];
      assert pairs[0] in pairs;
      KnownOnly(pairs[1..]);
    }
  }

  /** A sorted list is determined by what is in it. */
  lemma {:induction false} AscendingUnique(a: seq<(string, string)>, b: seq<(string, string)>)
    requires Ascending(a) && Ascending(b) && forall p :: p in a <==> p in b
    ensures a == b
  {
    EmptyTogether(a, b);
    if a != [] {
      SameFirst(a, b);
      forall p ensures p in a[1..] <==> p in b[1..] { LaterOnly(a, p); LaterOnly(b, p); }
      AscendingUnique(a[1..], b[1..]);
      assert a == [a[0]] + a[1..] && b == [b[0]] + b[1..];
    }
  }

  lemma LaterOnly(a: seq<(string, string)>, p: (string, string))
    requires Ascending(a) && a != []
    ensures p in a[1..] <==> p in a && p != a[0]
  {
    assert a == [a[0]] + a[1..];
    if p in a[1..] {
      var i :| 0 <= i < |a[1..]| && a[1..][i] == p;
      assert Json.Less(a[0].0, a[i + 1].0);
      Json.LessTotal(a[0].0, a[i + 1].0);
    }
  }

  lemma EmptyTogether(a: seq<(string, string)>, b: seq<(string, string)>)
    requires forall p :: p in a <==> p in b
    ensures a == [] <==> b == []
  {
    if a != [] { assert a[0] in a; }
    if b != [] { assert b[0] in b; }
  }

  lemma HeadFirst(a: seq<(string, string)>, p: (string, string))
    requires Ascending(a) && p in a
    ensures p == a[0] || Json.Less(a[0].0, p.0)
  {
  }

  lemma SameFirst(a: seq<(string, string)>, b: seq<(string, string)>)
    requires Ascending(a) && Ascending(b) && a != [] && b != [] && forall p :: p in a <==> p in b
    ensures a[0] == b[0]
  {
    assert a[0] in a && b[0] in b;
    HeadFirst(a, b[0]);
    HeadFirst(b, a[0]);
    Json.LessTotal(a[0].0, b[0].0);
  }

  lemma SocketParameters(spec: Spec, o: Oracle)
    requires SoundSocket(spec, o)
    ensures Renderable(spec) && Parameters(spec) != [] && Distinct(Parameters(spec))
    ensures forall p :: p in Parameters(spec) <==> p in WithEndpoint(spec)
    ensures forall p :: p in Parameters(spec) ==> p.0 in ALLOWED + ENDPOINT
  {
    EndpointDistinct(spec, o);
    SortedAscends(WithEndpoint(spec));
    AscendingDistinct(Parameters(spec));
    DigitsBytes(spec.port);
    assert ("host", spec.host) in WithEndpoint(spec);
    forall p | p in WithEndpoint(spec) ensures p.0 in ALLOWED + ENDPOINT && IsBytes(p.0) && IsBytes(p.1) {
      assert p in spec.options || p == ("host", spec.host) || p == ("port", JsonText.Digits(spec.port));
      KnownPlain(p.0);
    }
  }

  /** The query of the rendering says the endpoint and the options again. */
  lemma SocketQuery(spec: Spec, o: Oracle)
    requires SoundSocket(spec, o) && Renderable(spec)
    ensures Query(spec).Some? && Clean(Query(spec).value, {'#'})
    ensures Folded(Pairs(SplitOn(Query(spec).value, '&'))) == Some(Parameters(spec)) && Unknown(Parameters(spec)) == []
    ensures Lookup(Parameters(spec), "host") == Some(spec.host)
    ensures Lookup(Parameters(spec), "port") == Some(JsonText.Digits(spec.port))
    ensures Sorted(Options(Parameters(spec))) == spec.options
  {
    var ps := Parameters(spec);
    SocketParameters(spec, o);
    QueryBack(ps);
    QueryClean(ps);
    forall p | p in ps ensures PlainKey(p.0) { KnownPlain(p.0); }
    FoldedBack(ps);
    KnownOnly(ps);
    assert ("host", spec.host) in WithEndpoint(spec) && ("port", JsonText.Digits(spec.port)) in WithEndpoint(spec);
    LookupIn(ps, ("host", spec.host));
    LookupIn(ps, ("port", JsonText.Digits(spec.port)));
    OptionsAgain(spec, o);
  }

  lemma OptionsAgain(spec: Spec, o: Oracle)
    requires SoundSocket(spec, o)
    ensures Sorted(Options(Parameters(spec))) == spec.options
  {
    var ps := Parameters(spec);
    SocketParameters(spec, o);
    KnownOnly(ps);
    OptionsDistinct(ps);
    SortedAscends(Options(ps));
    forall p ensures p in Sorted(Options(ps)) <==> p in spec.options {
      if p in WithEndpoint(spec) && p.0 in ALLOWED { NotEndpoint(p.0); }
      assert p in WithEndpoint(spec) <==> p in spec.options || p == ("host", spec.host) || p == ("port", JsonText.Digits(spec.port));
    }
    AscendingUnique(Sorted(Options(ps)), spec.options);
  }

  // ------------------------------------------------------------------ the rest of the URL

  lemma NoHostSplits(u: string, username: string, password: Option<string>)
    requires Partition(u, ':') == Split(username, password.Some?, if password.Some? then password.value else "")
    ensures RPartition(u + ['@'] + "", '@').after == ""
    ensures SplitAuthority(u + ['@'] + "") == Authority(Some(username), password, None, None)
  {
    RPartitionAt(u, '@', "");
    PartitionNone("", '[');
    PartitionNone("", ':');
  }

  lemma NoHostClean(u: string)
    requires Clean(u, {'/', '?', '#', '[', ']'})
    ensures var netloc := u + ['@'] + ""; Clean(netloc, {'/', '?', '#'}) && '[' !in netloc && ']' !in netloc
  {
  }

  lemma NoEndpoint(username: string, password: Option<string>)
    requires IsBytes(username) && (password.Some? ==> IsBytes(password.value))
    ensures var netloc := UserInfo(username, password) + ['@'] + "";
            && RPartition(netloc, '@').after == ""
            && SplitAuthority(netloc) == Authority(Some(Quote(username, KEPT)),
                                                   if password.Some? then Some(Quote(password.value, KEPT)) else None, None, None)
            && Clean(netloc, {'/', '?', '#'}) && '[' !in netloc && ']' !in netloc
  {
    UserInfoBack(username, password);
    NoHostSplits(UserInfo(username, password), Quote(username, KEPT), if password.Some? then Some(Quote(password.value, KEPT)) else None);
    UserInfoClean(username, password);
    NoHostClean(UserInfo(username, password));
  }

  lemma StripDigits(n: nat)
    ensures Strip(JsonText.Digits(n)) == JsonText.Digits(n)
  {
  }

  lemma SocketParts(spec: Spec, o: Oracle)
    requires SoundSocket(spec, o) && Renderable(spec)
    ensures UrlSplit(Render(spec)) == RenderedParts(spec)
  {
    SocketQuery(spec, o);
    NoEndpoint(spec.username, spec.password);
    PathClean(spec.database);
    DriverPlain();
    SplitsBack(DRIVER, Netloc(spec), ['/'] + spec.database, Query(spec));
  }

  lemma SocketEndpoint(spec: Spec, a: Authority, query: seq<(string, string)>, o: Oracle)
    requires 1 <= spec.port <= 65535 && a.host.None? && a.port.None?
    requires Lookup(query, "host") == Some(spec.host) && Lookup(query, "port") == Some(JsonText.Digits(spec.port))
    ensures Endpoint(a, query, o) == if IsDirectory(Unquote(spec.host)) then (None, (Unquote(spec.host), spec.port, true))
                                     else (Some(BadSocketDirectory), ("", 0, false))
  {
    StripDigits(spec.port);
    PortBack(spec.port);
  }

  /** The rendering of a socket specification parses to the one whose directory is decoded again. */
  lemma SocketFields(spec: Spec, o: Oracle)
    requires SoundSocket(spec, o) && Renderable(spec)
    ensures ParseFields(RenderedParts(spec), Parameters(spec), o)
            == if IsDirectory(Unquote(spec.host)) then Accepted(spec.(host := Unquote(spec.host))) else Refused(BadSocketDirectory)
  {
    var parts := RenderedParts(spec);
    NoEndpoint(spec.username, spec.password);
    DatabaseBack(spec.database, o);
    UserBack(spec.username, spec.password, SplitAuthority(parts.netloc), o);
    SocketQuery(spec, o);
    SocketEndpoint(spec, SplitAuthority(parts.netloc), Parameters(spec), o);
  }

  lemma SocketBack(spec: Spec, o: Oracle)
    requires SoundSocket(spec, o)
    ensures Renderable(spec)
    ensures Parse(Render(spec), o)
            == if IsDirectory(Unquote(spec.host)) then Accepted(spec.(host := Unquote(spec.host))) else Refused(BadSocketDirectory)
  {
    SocketParameters(spec, o);
    SocketParts(spec, o);
    SocketQuery(spec, o);
    NoEndpoint(spec.username, spec.password);
    SocketFields(spec, o);
    RenderSolid(spec);
    ParseGoesOn(Render(spec), RenderedParts(spec), Parameters(spec), o);
  }

  lemma ParseGoesOn(url: string, parts: Parts, query: seq<(string, string)>, o: Oracle)
    requires Strip(url) != "" && UrlSplit(url) == parts && ('[' in parts.netloc <==> ']' in parts.netloc)
    requires parts.scheme in SCHEMES && Folded(Pairs(SplitOn(parts.query, '&'))) == Some(query) && Unknown(query) == []
    ensures Parse(url, o) == ParseFields(parts, query, o)
  {
  }

  // ------------------------------------------------------------------ the exact condition

  lemma AcceptedSocket(url: string, spec: Spec, o: Oracle)
    requires Parse(url, o) == Accepted(spec) && Renderable(spec) && spec.isSocket && IsBytes(spec.host) && BytePairs(spec.options)
    requires forall i :: 0 <= i < |spec.database| ==> Unreserved(spec.database[i])
    ensures SoundSocket(spec, o)
  {
    var parts := UrlSplit(url);
    var pairs := Pairs(SplitOn(parts.query, '&'));
    ParseFacts(url, o, spec);
    FieldsFacts(parts, Folded(pairs).value, o, spec);
    DirectoryFacts(SplitAuthority(parts.netloc), Folded(pairs).value, o, spec.host, spec.port);
    AcceptedOptions(url, spec, o);
    AcceptedNames(url, spec, o);
  }

  lemma DirectoryFacts(a: Authority, query: seq<(string, string)>, o: Oracle, host: string, port: nat)
    requires Endpoint(a, query, o) == (None, (host, port, true))
    ensures IsDirectory(host) && 1 <= port <= 65535
  {
  }

  /** An accepted socket connection is parsed from its rendering again exactly when decoding its
      directory once more leaves it as it is. */
  lemma SocketRoundTripExactly(url: string, spec: Spec, o: Oracle)
    requires Parse(url, o) == Accepted(spec) && Renderable(spec) && spec.isSocket && IsBytes(spec.host) && BytePairs(spec.options)
    requires forall i :: 0 <= i < |spec.database| ==> Unreserved(spec.database[i])
    ensures Parse(Render(spec), o) == Accepted(spec) <==> Unquote(spec.host) == spec.host
  {
    AcceptedSocket(url, spec, o);
    SocketBack(spec, o);
  }

  lemma DecodedOnce()
    ensures Unquote("/%2541") == "/%41"
  {
  }

  lemma DecodedAgain()
    ensures Unquote("/%41") == "/A"
  {
  }

  /** A directory that two decodings take apart is accepted once and then read as another. */
  lemma ReadAsAnother(given: Spec, o: Oracle)
    requires SoundSocket(given, o) && IsDirectory(Unquote(given.host)) && IsBytes(Unquote(given.host))
    requires Unquote(Unquote(given.host)) != Unquote(given.host)
    ensures var spec := given.(host := Unquote(given.host));
            Renderable(given) && Renderable(spec) && Parse(Render(given), o) == Accepted(spec) && Parse(Render(spec), o) != Accepted(spec)
  {
    SocketBack(given, o);
    SocketBack(given.(host := Unquote(given.host)), o);
  }

  /** There is one, with any user, database, port and options: the URL is accepted for "/%41", and
      the rendering of what it says is read as "/A". */
  lemma DirectoryDecodedTwice(given: Spec, o: Oracle)
    requires SoundSocket(given, o) && given.host == "/%2541"
    ensures var spec := given.(host := "/%41");
            Renderable(given) && Renderable(spec) && Parse(Render(given), o) == Accepted(spec) && Parse(Render(spec), o) != Accepted(spec)
  {
    DecodedOnce();
    DecodedAgain();
    ReadAsAnother(given, o);
  }
}
