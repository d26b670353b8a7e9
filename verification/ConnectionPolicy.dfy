/** Exactly which connection URLs are accepted, and what an accepted one says. */
module ConnectionPolicy {
  import opened Base
  import opened UrlText
  import opened ConnectionUrl
  import JsonText
  import ConnectionRoundTrip

  /** The name a query parameter is compared under. */
  function Named(p: (string, string)): string {
    Lower(Strip(p.0))
  }

  predicate AllowedName(k: string) {
    k in {"sslmode", "sslrootcert", "sslcert", "sslkey", "sslnegotiation", "connect_timeout", "application_name",
          "target_session_attrs", "host", "port"}
  }

  /** Every parameter is one that cannot reroute the connection, and none is given twice. */
  predicate KeysOk(pairs: seq<(string, string)>) {
    && (forall i :: 0 <= i < |pairs| ==> AllowedName(Named(pairs[i])))
    && (forall i, j :: 0 <= i < j < |pairs| ==> Named(pairs[i]) != Named(pairs[j]))
  }

  predicate Gives(pairs: seq<(string, string)>, key: string, value: string) {
    exists i :: 0 <= i < |pairs| && Named(pairs[i]) == key && pairs[i].1 == value
  }

  predicate Mentions(pairs: seq<(string, string)>, key: string) {
    exists i :: 0 <= i < |pairs| && Named(pairs[i]) == key
  }

  /** Each '%' begins an escape, and what the escapes stand for is UTF-8. */
  predicate Decodes(s: string, o: Oracle) {
    (forall i :: 0 <= i < |s| && s[i] == '%' ==> IsEscape(s[i..])) && o.utf8(Unquote(s))
  }

  predicate OneDatabase(path: string, o: Oracle) {
    var name := WithoutSlashes(path);
    Decodes(name, o) && Unquote(name) != "" && '/' !in Unquote(name) && ',' !in Unquote(name)
  }

  predicate OneUser(a: Authority, o: Oracle) {
    && a.username.Some? && Decodes(a.username.value, o) && Unquote(a.username.value) != "" && ',' !in Unquote(a.username.value)
    && (a.password.Some? ==> Decodes(a.password.value, o))
  }

  /** A literal address, or a name of labels that end and begin with a letter or digit. */
  predicate HostOk(host: string, o: Oracle) {
    host != "" && Unquote(host) == host &&
    (o.address(host) || forall l :: l in SplitOn(WithoutDots(host), '.') ==>
       1 <= |l| <= 63 && l[0] != '-' && l[|l| - 1] != '-'
       && forall i :: 0 <= i < |l| ==> 'a' <= l[i] <= 'z' || 'A' <= l[i] <= 'Z' || '0' <= l[i] <= '9' || l[i] == '-')
  }

  predicate DirectoryOk(dir: string) {
    dir != "" && dir[0] == '/' && forall i :: 0 <= i < |dir| ==> dir[i] != ',' && dir[i] as int !in {0, 10, 13}
  }

  /** A host and port in the authority and neither in the query. */
  predicate OneTcpEndpoint(a: Authority, pairs: seq<(string, string)>, o: Oracle) {
    && !Mentions(pairs, "host") && !Mentions(pairs, "port")
    && a.host.Some? && HostOk(a.host.value, o) && a.port.Some? && 1 <= PortOf(a.port.value) <= 65535
  }

  /** A directory and port in the query and neither in the authority. */
  predicate OneSocketEndpoint(a: Authority, pairs: seq<(string, string)>, dir: string, port: string) {
    && a.host.None? && a.port.None? && Gives(pairs, "host", dir) && Gives(pairs, "port", port)
    && DirectoryOk(Unquote(dir)) && 1 <= PortOf(Strip(port)) <= 65535
  }

  ghost predicate OneEndpoint(a: Authority, pairs: seq<(string, string)>, o: Oracle) {
    OneTcpEndpoint(a, pairs, o) || exists dir, port :: OneSocketEndpoint(a, pairs, dir, port)
  }

  // ------------------------------------------------------------------ the query

  lemma {:induction false} FoldedExactly(pairs: seq<(string, string)>)
    ensures Folded(pairs).Some? <==> forall i, j :: 0 <= i < j < |pairs| ==> Named(pairs[i]) != Named(pairs[j])
    ensures Folded(pairs).Some? ==>
              var q := Folded(pairs).value;
              |q| == |pairs| && forall i :: 0 <= i < |q| ==> q[i] == (Named(pairs[i]), pairs[i].1)
  {
    if pairs != [] {
      var init := pairs[..|pairs| - 1];
      FoldedExactly(init);
      assert forall i :: 0 <= i < |init| ==> init[i] == pairs[i];
    }
  }

  lemma {:induction false} UnknownExactly(query: seq<(string, string)>)
    ensures Unknown(query) == [] <==> forall i :: 0 <= i < |query| ==> query[i].0 in ALLOWED + ENDPOINT
  {
    if query != [] {
      UnknownExactly(query[1..]);
      assert forall i :: 0 < i < |query| ==> query[i] == query[1..][i - 1];
      assert forall i :: 0 <= i < |query[1..]| ==> query[1..][i] == query[i + 1];
    }
  }

  lemma {:induction false} LookupExactly(query: seq<(string, string)>, key: string)
    requires forall i, j :: 0 <= i < j < |query| ==> query[i].0 != query[j].0
    ensures Lookup(query, key).None? <==> forall i :: 0 <= i < |query| ==> query[i].0 != key
    ensures forall i :: 0 <= i < |query| && query[i].0 == key ==> Lookup(query, key) == Some(query[i].1)
    ensures Lookup(query, key).Some? ==> exists i :: 0 <= i < |query| && query[i] == (key, Lookup(query, key).value)
  {
    if query != [] {
      var rest := query[1..];
      assert forall i :: 0 <= i < |rest| ==> rest[i] == query[i + 1];
      assert forall i :: 0 < i < |query| ==> query[i] == rest[i - 1];
      LookupExactly(rest, key);
      if query[0].0 != key && Lookup(rest, key).Some? {
        var i :| 0 <= i < |rest| && rest[i] == (key, Lookup(rest, key).value);
        assert query[i + 1] == (key, Lookup(query, key).value);
      }
    }
  }

  lemma NameExactly(k: string)
    ensures k in ALLOWED + ENDPOINT <==> AllowedName(k)
  {
  }

  /** The query is let through exactly when its parameters are allowed and distinct. */
  lemma KeysExactly(pairs: seq<(string, string)>)
    ensures Folded(pairs).Some? && Unknown(Folded(pairs).value) == [] <==> KeysOk(pairs)
  {
    FoldedExactly(pairs);
    if Folded(pairs).Some? { NamesExactly(pairs, Folded(pairs).value); }
  }

  lemma NamesExactly(pairs: seq<(string, string)>, q: seq<(string, string)>)
    requires |q| == |pairs| && forall i :: 0 <= i < |q| ==> q[i] == (Named(pairs[i]), pairs[i].1)
    ensures Unknown(q) == [] <==> forall i :: 0 <= i < |pairs| ==> AllowedName(Named(pairs[i]))
  {
    UnknownExactly(q);
    forall i | 0 <= i < |q| ensures q[i].0 in ALLOWED + ENDPOINT <==> AllowedName(Named(pairs[i])) {
      NameExactly(q[i].0);
    }
  }

  lemma GivesExactly(pairs: seq<(string, string)>, key: string)
    requires Folded(pairs).Some?
    ensures Lookup(Folded(pairs).value, key).Some? <==> Mentions(pairs, key)
    ensures forall value :: Lookup(Folded(pairs).value, key) == Some(value) <==> Gives(pairs, key, value)
  {
    var q := Folded(pairs).value;
    FoldedExactly(pairs);
    LookupExactly(q, key);
    if Lookup(q, key).Some? {
      var i :| 0 <= i < |q| && q[i] == (key, Lookup(q, key).value);
      assert Named(pairs[i]) == key && pairs[i].1 == Lookup(q, key).value;
    }
  }

  // ------------------------------------------------------------------ the fields

  lemma DecodedExactly(s: string, field: Field, o: Oracle)
    ensures Decoded(s, field, o).0.None? <==> Decodes(s, o)
    ensures Decodes(s, o) ==> Decoded(s, field, o).1 == Unquote(s)
  {
  }

  lemma DatabaseExactly(path: string, o: Oracle)
    ensures DatabaseOf(path, o).0.None? <==> OneDatabase(path, o)
    ensures OneDatabase(path, o) ==> DatabaseOf(path, o).1 == Unquote(WithoutSlashes(path))
  {
    DecodedExactly(WithoutSlashes(path), Database, o);
  }

  lemma UserExactly(a: Authority, o: Oracle)
    ensures UserOf(a, o).0.None? <==> OneUser(a, o)
    ensures OneUser(a, o) ==>
              UserOf(a, o).1 == (Unquote(a.username.value), if a.password.Some? then Some(Unquote(a.password.value)) else None)
  {
    if a.username.Some? { DecodedExactly(a.username.value, Username, o); }
    if a.password.Some? { DecodedExactly(a.password.value, Password, o); }
  }

  lemma HostExactly(host: string, o: Oracle)
    ensures IsHost(host, o) <==> HostOk(host, o)
  {
    if forall l :: l in SplitOn(WithoutDots(host), '.') ==> IsLabel(l) {
    }
  }

  lemma DirectoryExactly(dir: string)
    ensures IsDirectory(dir) <==> DirectoryOk(dir)
  {
  }

  /** The endpoint is accepted exactly when there is one, in the authority or in the query. */
  lemma EndpointExactly(a: Authority, pairs: seq<(string, string)>, o: Oracle)
    requires Folded(pairs).Some?
    ensures Endpoint(a, Folded(pairs).value, o).0.None? <==> OneEndpoint(a, pairs, o)
    ensures forall host, port, isSocket :: Endpoint(a, Folded(pairs).value, o) == (None, (host, port, isSocket)) ==>
              if isSocket
              then exists dir, p :: OneSocketEndpoint(a, pairs, dir, p) && host == Unquote(dir) && port == PortOf(Strip(p))
              else OneTcpEndpoint(a, pairs, o) && Some(host) == a.host && port == PortOf(a.port.value)
  {
    var q := Folded(pairs).value;
    GivesExactly(pairs, "host");
    GivesExactly(pairs, "port");
    if a.host.Some? { HostExactly(a.host.value, o); }
    if Lookup(q, "host").Some? {
      var dir := Lookup(q, "host").value;
      DirectoryExactly(Unquote(dir));
      assert Gives(pairs, "host", dir);
      if Lookup(q, "port").Some? {
        assert OneSocketEndpoint(a, pairs, dir, Lookup(q, "port").value) <==>
               a.host.None? && a.port.None? && DirectoryOk(Unquote(dir)) && 1 <= PortOf(Strip(Lookup(q, "port").value)) <= 65535;
      }
    }
  }

  // ------------------------------------------------------------------ the URL

  /** Not blank, brackets in pairs, and one of the three schemes. */
  predicate Shaped(url: string, parts: Parts) {
    && Strip(url) != "" && ('[' in parts.netloc <==> ']' in parts.netloc)
    && (parts.scheme == "postgresql+psycopg" || parts.scheme == "postgresql" || parts.scheme == "postgres")
  }

  /** One database, one user, one host at most in the authority, and one endpoint. */
  ghost predicate FieldsOk(parts: Parts, pairs: seq<(string, string)>, o: Oracle) {
    && OneDatabase(parts.path, o) && OneUser(SplitAuthority(parts.netloc), o)
    && ',' !in RPartition(parts.netloc, '@').after && OneEndpoint(SplitAuthority(parts.netloc), pairs, o)
  }

  /** What a URL has to be. */
  ghost predicate Acceptable(url: string, o: Oracle) {
    var parts := UrlSplit(url);
    var pairs := Pairs(SplitOn(parts.query, '&'));
    Shaped(url, parts) && KeysOk(pairs) && FieldsOk(parts, pairs, o)
  }

  lemma FieldsExactly(parts: Parts, pairs: seq<(string, string)>, o: Oracle)
    requires Folded(pairs).Some?
    ensures ParseFields(parts, Folded(pairs).value, o).Accepted? <==> FieldsOk(parts, pairs, o)
  {
    DatabaseExactly(parts.path, o);
    UserExactly(SplitAuthority(parts.netloc), o);
    EndpointExactly(SplitAuthority(parts.netloc), pairs, o);
  }

  lemma QueryExactly(parts: Parts, pairs: seq<(string, string)>, o: Oracle)
    ensures ParseQuery(parts, Folded(pairs), o).Accepted? <==> KeysOk(pairs) && FieldsOk(parts, pairs, o)
  {
    KeysExactly(pairs);
    if Folded(pairs).Some? { FieldsExactly(parts, pairs, o); }
  }

  lemma SchemeExactly(scheme: string)
    ensures scheme in SCHEMES <==> scheme == "postgresql+psycopg" || scheme == "postgresql" || scheme == "postgres"
  {
  }

  lemma ParseIs(url: string, o: Oracle, parts: Parts, folded: Option<seq<(string, string)>>)
    requires parts == UrlSplit(url) && folded == Folded(Pairs(SplitOn(parts.query, '&')))
    ensures Shaped(url, parts) ==> Parse(url, o) == ParseQuery(parts, folded, o)
    ensures !Shaped(url, parts) ==> Parse(url, o).Refused?
  {
    SchemeExactly(parts.scheme);
  }

  /** A URL is accepted exactly when it is acceptable; every other one is refused. */
  lemma AcceptsExactly(url: string, o: Oracle)
    ensures Parse(url, o).Accepted? <==> Acceptable(url, o)
  {
    AcceptsSplit(url, o, UrlSplit(url), Pairs(SplitOn(UrlSplit(url).query, '&')));
  }

  lemma AcceptsSplit(url: string, o: Oracle, parts: Parts, pairs: seq<(string, string)>)
    requires parts == UrlSplit(url) && pairs == Pairs(SplitOn(parts.query, '&'))
    ensures Parse(url, o).Accepted? <==> Shaped(url, parts) && KeysOk(pairs) && FieldsOk(parts, pairs, o)
  {
    ParseIs(url, o, parts, Folded(pairs));
    QueryExactly(parts, pairs, o);
  }

  /** A parameter that is not allowed is never accepted, however it is written. */
  lemma ForbiddenRefused(url: string, o: Oracle, i: nat)
    requires var pairs := Pairs(SplitOn(UrlSplit(url).query, '&')); i < |pairs| && !AllowedName(Named(pairs[i]))
    ensures Parse(url, o).Refused?
  {
    AcceptsExactly(url, o);
  }

  /** What an accepted connection says of the parts of its URL: each is decoded once, and the
      directory of a socket twice. */
  ghost predicate Says(parts: Parts, pairs: seq<(string, string)>, o: Oracle, spec: Spec) {
    var a := SplitAuthority(parts.netloc);
    && spec.database == Unquote(WithoutSlashes(parts.path))
    && a.username.Some? && spec.username == Unquote(a.username.value)
    && spec.password == (if a.password.Some? then Some(Unquote(a.password.value)) else None)
    && (if spec.isSocket
        then exists dir, p :: OneSocketEndpoint(a, pairs, dir, p) && spec.host == Unquote(dir) && spec.port == PortOf(Strip(p))
        else OneTcpEndpoint(a, pairs, o) && Some(spec.host) == a.host && spec.port == PortOf(a.port.value))
  }

  lemma AcceptedSays(url: string, o: Oracle, spec: Spec)
    requires Parse(url, o) == Accepted(spec)
    ensures Says(UrlSplit(url), Pairs(SplitOn(UrlSplit(url).query, '&')), o, spec)
  {
    var parts := UrlSplit(url);
    var pairs := Pairs(SplitOn(parts.query, '&'));
    ParseIs(url, o, parts, Folded(pairs));
    QueryOf(parts, Folded(pairs), o, spec);
    SaysFields(parts, pairs, o, spec);
  }

  lemma QueryOf(parts: Parts, folded: Option<seq<(string, string)>>, o: Oracle, spec: Spec)
    requires ParseQuery(parts, folded, o) == Accepted(spec)
    ensures folded.Some? && Unknown(folded.value) == [] && ParseFields(parts, folded.value, o) == Accepted(spec)
  {
  }

  lemma SaysFields(parts: Parts, pairs: seq<(string, string)>, o: Oracle, spec: Spec)
    requires Folded(pairs).Some? && ParseFields(parts, Folded(pairs).value, o) == Accepted(spec)
    ensures Says(parts, pairs, o, spec)
  {
    var a := SplitAuthority(parts.netloc);
    DatabaseExactly(parts.path, o);
    UserExactly(a, o);
    EndpointExactly(a, pairs, o);
    ConnectionRoundTrip.FieldsFacts(parts, Folded(pairs).value, o, spec);
  }

  /** The user and the password, encoded but for spaces and plus signs, and a TCP connection's host
      and port. */
  lemma AuthorityPrintsAs(spec: Spec)
    requires Renderable(spec)
    ensures var password := if spec.password.Some? then [':'] + Quote(spec.password.value, {' ', '+'}) else "";
            var host := if ':' in spec.host then ['['] + spec.host + [']'] else spec.host;
            var endpoint := if spec.isSocket then "" else host + [':'] + JsonText.Digits(spec.port);
            Netloc(spec) == Quote(spec.username, {' ', '+'}) + password + ['@'] + endpoint
  {
  }

  /** What is printed names the driver, the authority, the database and the parameters, if any. */
  lemma PrintsAs(spec: Spec)
    requires Renderable(spec)
    ensures var query := if Parameters(spec) == [] then "" else ['?'] + QueryText(Parameters(spec));
            Render(spec) == "postgresql+psycopg://" + (Netloc(spec) + (['/'] + spec.database + query))
  {
    var rest := Netloc(spec) + Tail(['/'] + spec.database, Query(spec));
    assert DRIVER + [':'] + ("//" + rest) == "postgresql+psycopg://" + rest;
  }

  /** The options are exactly the parameters given, but for a socket's endpoint. */
  lemma OptionsExactly(url: string, o: Oracle, spec: Spec, p: (string, string))
    requires Parse(url, o) == Accepted(spec)
    ensures p in spec.options <==> Gives(Pairs(SplitOn(UrlSplit(url).query, '&')), p.0, p.1) && p.0 != "host" && p.0 != "port"
  {
    var parts := UrlSplit(url);
    var pairs := Pairs(SplitOn(parts.query, '&'));
    ParseIs(url, o, parts, Folded(pairs));
    QueryOf(parts, Folded(pairs), o, spec);
    ConnectionRoundTrip.FieldsFacts(parts, Folded(pairs).value, o, spec);
    OptionsGiven(pairs, p);
  }

  lemma OptionsGiven(pairs: seq<(string, string)>, p: (string, string))
    requires Folded(pairs).Some? && Unknown(Folded(pairs).value) == []
    ensures p in Sorted(Options(Folded(pairs).value)) <==> Gives(pairs, p.0, p.1) && p.0 != "host" && p.0 != "port"
  {
    var q := Folded(pairs).value;
    FoldedExactly(pairs);
    KeysExactly(pairs);
    SortedHolds(Options(q), p);
    OptionsHold(q, p);
    NotEndpoint(p.0);
    if Gives(pairs, p.0, p.1) {
      var i :| 0 <= i < |pairs| && Named(pairs[i]) == p.0 && pairs[i].1 == p.1;
      assert q[i] == p && AllowedName(p.0);
    }
    if p in q {
      var i :| 0 <= i < |q| && q[i] == p;
      assert Named(pairs[i]) == p.0 && pairs[i].1 == p.1;
    }
  }

  lemma NotEndpoint(k: string)
    ensures k in ALLOWED <==> AllowedName(k) && k != "host" && k != "port"
  {
  }

  lemma {:induction false} OptionsHold(query: seq<(string, string)>, p: (string, string))
    ensures p in Options(query) <==> p in query && p.0 in ALLOWED
  {
    if query != [] {
      OptionsHold(query[1..], p);
      assert query == [query[0]] + query[1..];
    }
  }

  lemma {:induction false} InsertHolds(q: (string, string), sorted: seq<(string, string)>, p: (string, string))
    ensures p in Insert(q, sorted) <==> p == q || p in sorted
  {
    if sorted != [] {
      InsertHolds(q, sorted[1..], p);
      assert sorted == [sorted[0]] + sorted[1..];
    }
  }

  lemma {:induction false} SortedHolds(pairs: seq<(string, string)>, p: (string, string))
    ensures p in Sorted(pairs) <==> p in pairs
  {
    if pairs != [] {
      SortedHolds(pairs[1..], p);
      InsertHolds(pairs[0], Sorted(pairs[1..]), p);
      assert pairs == [pairs[0]] + pairs[1..];
    }
  }

  // ------------------------------------------------------------------ trimming

  predicate White(c: char) {
    c == ' ' || 9 <= c as int <= 13
  }

  /** A text is its trimmed form with white space around it. */
  lemma {:induction false} StripsWhite(s: string) returns (i: nat, j: nat)
    ensures i <= j <= |s| && Strip(s) == s[i..j]
    ensures forall k :: 0 <= k < i || j <= k < |s| ==> White(s[k])
    decreases |s|
  {
    i, j := 0, |s|;
    if s != "" && IsSpace(s[0]) {
      i, j := StripsWhite(s[1..]);
      i, j := i + 1, j + 1;
      assert s[1..][i - 1..j - 1] == s[i..j];
      assert forall k :: 0 < k < |s| ==> s[k] == s[1..][k - 1];
    } else if s != "" && IsSpace(s[|s| - 1]) {
      i, j := StripsWhite(s[..|s| - 1]);
      assert s[..|s| - 1][i..j] == s[i..j];
    }
  }

  /** And that form neither begins nor ends with any. */
  lemma {:induction false} StripsAll(s: string)
    ensures Strip(s) != "" ==> !White(Strip(s)[0]) && !White(Strip(s)[|Strip(s)| - 1])
    decreases |s|
  {
    if s != "" && IsSpace(s[0]) {
      StripsAll(s[1..]);
    } else if s != "" && IsSpace(s[|s| - 1]) {
      StripsAll(s[..|s| - 1]);
    }
  }

  lemma {:induction false} SlashesExactly(path: string) returns (n: nat)
    ensures n <= |path| && WithoutSlashes(path) == path[n..] && forall i :: 0 <= i < n ==> path[i] == '/'
    ensures n < |path| ==> path[n] != '/'
  {
    n := 0;
    if path != "" && path[0] == '/' {
      var k := SlashesExactly(path[1..]);
      n := k + 1;
      assert path[1..][k..] == path[n..];
    }
  }

  lemma {:induction false} DotsExactly(host: string) returns (n: nat)
    ensures n <= |host| && WithoutDots(host) == host[..n] && forall i :: n <= i < |host| ==> host[i] == '.'
    ensures n > 0 ==> host[n - 1] != '.'
  {
    n := |host|;
    if host != "" && host[|host| - 1] == '.' {
      n := DotsExactly(host[..|host| - 1]);
    }
  }
}
