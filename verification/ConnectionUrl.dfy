/** parse_connection_url against ConnectionSpec.url: what is validated is what is opened. */
module ConnectionUrl {
  import opened Base
  import opened UrlText
  import Json
  import JsonText

  datatype Spec = Spec(username: string, password: Option<string>, database: string, host: string, port: nat,
                       isSocket: bool, options: seq<(string, string)>)

  datatype Field = Username | Password | Database

  datatype Error =
    | NotSet | NotParseable | BadScheme | Repeated | Forbidden(keys: seq<string>)
    | MalformedEscape(field: Field) | NotUtf8(field: Field)
    | NoDatabase | ManyDatabases | NoUsername | ManyUsernames | HostList | BadAuthority | TwoEndpoints
    | BadSocketDirectory | NoPort | PortWithoutSocket | NoHost | BadPort | BadHost

  datatype Parsed = Accepted(spec: Spec) | Refused(error: Error)

  /** What is asked of libraries: whether bytes are UTF-8, and whether a text is an IP address. */
  datatype Oracle = Oracle(utf8: string -> bool, address: string -> bool)

  const DRIVER := "postgresql+psycopg"
  const SCHEMES := {"postgresql+psycopg", "postgresql", "postgres"}
  const ALLOWED := {"sslmode", "sslrootcert", "sslcert", "sslkey", "sslnegotiation", "connect_timeout",
                    "application_name", "target_session_attrs"}
  const ENDPOINT := {"host", "port"}

  // ------------------------------------------------------------------ rendering

  const KEPT := {' ', '+'}

  /** SQLAlchemy's printer: user information quoted but for spaces and plus signs. */
  function UserInfo(username: string, password: Option<string>): string
    requires IsBytes(username) && (password.Some? ==> IsBytes(password.value))
  {
    Quote(username, KEPT) + (if password.Some? then [':'] + Quote(password.value, KEPT) else "")
  }

  function HostPort(host: string, port: nat): string {
    (if ':' in host then ['['] + host + [']'] else host) + [':'] + JsonText.Digits(port)
  }

  function PairText(p: (string, string)): string
    requires IsBytes(p.0) && IsBytes(p.1)
  {
    QuotePlus(p.0) + ['='] + QuotePlus(p.1)
  }

  predicate BytePairs(pairs: seq<(string, string)>) {
    forall p :: p in pairs ==> IsBytes(p.0) && IsBytes(p.1)
  }

  function QueryText(pairs: seq<(string, string)>): string
    requires pairs != [] && BytePairs(pairs)
  {
    if |pairs| == 1 then PairText(pairs[0]) else PairText(pairs[0]) + ['&'] + QueryText(pairs[1..])
  }

  /** Insertion by key. */
  function Insert(p: (string, string), sorted: seq<(string, string)>): seq<(string, string)> {
    if sorted == [] || !Json.Less(sorted[0].0, p.0) then [p] + sorted else [sorted[0]] + Insert(p, sorted[1..])
  }

  function Sorted(pairs: seq<(string, string)>): seq<(string, string)> {
    if pairs == [] then [] else Insert(pairs[0], Sorted(pairs[1..]))
  }

  /** The parameters of the rendered URL: a socket's endpoint travels among them. */
  function Parameters(spec: Spec): seq<(string, string)> {
    Sorted(spec.options + if spec.isSocket then [("host", spec.host), ("port", JsonText.Digits(spec.port))] else [])
  }

  predicate Renderable(spec: Spec) {
    && IsBytes(spec.username) && (spec.password.Some? ==> IsBytes(spec.password.value)) && BytePairs(Parameters(spec))
  }

  function Query(spec: Spec): Option<string>
    requires Renderable(spec)
  {
    if Parameters(spec) == [] then None else Some(QueryText(Parameters(spec)))
  }

  function Render(spec: Spec): string
    requires Renderable(spec)
  {
    DRIVER + [':'] + ("//" + (Netloc(spec) + Tail(['/'] + spec.database, Query(spec))))
  }

  function Netloc(spec: Spec): string
    requires Renderable(spec)
  {
    UserInfo(spec.username, spec.password) + ['@'] + (if spec.isSocket then "" else HostPort(spec.host, spec.port))
  }

  // ------------------------------------------------------------------ parsing

  predicate IsSpace(c: char) {
    c == ' ' || 9 <= c as int <= 13
  }

  function Strip(s: string): string {
    if s == "" then ""
    else if IsSpace(s[0]) then Strip(s[1..])
    else if IsSpace(s[|s| - 1]) then Strip(s[..|s| - 1])
    else s
  }

  function SplitOn(s: string, c: char): seq<string>
    decreases |s|
  {
    var p := Partition(s, c);
    if p.found then [p.before] + SplitOn(p.after, c) else [s]
  }

  /** parse_qsl with blank values kept. */
  function Pairs(parts: seq<string>): seq<(string, string)> {
    if parts == [] then []
    else if parts[0] == "" then Pairs(parts[1..])
    else
      var p := Partition(parts[0], '=');
      [(UnquotePlus(p.before), UnquotePlus(p.after))] + Pairs(parts[1..])
  }

  predicate HasKey(seen: seq<(string, string)>, key: string) {
    exists i :: 0 <= i < |seen| && seen[i].0 == key
  }

  /** The dictionary of decoded, folded keys; None on a repeated one. */
  function Folded(pairs: seq<(string, string)>): Option<seq<(string, string)>> {
    if pairs == [] then Some([])
    else
      var (raw, value) := pairs[|pairs| - 1];
      var seen := Folded(pairs[..|pairs| - 1]);
      var key := Lower(Strip(raw));
      if seen.None? || HasKey(seen.value, key) then None else Some(seen.value + [(key, value)])
  }

  function Lookup(query: seq<(string, string)>, key: string): Option<string> {
    if query == [] then None
    else if query[0].0 == key then Some(query[0].1)
    else Lookup(query[1..], key)
  }

  /** The parameters that are neither allowed nor a socket's endpoint. */
  function Unknown(query: seq<(string, string)>): seq<string> {
    if query == [] then []
    else (if query[0].0 in ALLOWED + ENDPOINT then [] else [query[0].0]) + Unknown(query[1..])
  }

  function Options(query: seq<(string, string)>): seq<(string, string)> {
    if query == [] then []
    else (if query[0].0 in ALLOWED then [query[0]] else []) + Options(query[1..])
  }

  /** _decoded_query: the dictionary is filled entry by entry, and a second value for a key is an error. */
  method DecodeQuery(text: string) returns (query: Option<seq<(string, string)>>)
    ensures query == Folded(Pairs(SplitOn(text, '&')))
  {
    var pairs := Pairs(SplitOn(text, '&'));
    var seen: seq<(string, string)> := [];
    for i := 0 to |pairs|
      invariant Folded(pairs[..i]) == Some(seen)
    {
      var key := Lower(Strip(pairs[i].0));
      assert pairs[..i + 1][..i] == pairs[..i];
      if HasKey(seen, key) {
        StaysRepeated(pairs, i + 1);
        return None;
      }
      seen := seen + [(key, pairs[i].1)];
    }
    assert pairs[..|pairs|] == pairs;
    return Some(seen);
  }

  lemma {:induction false} StaysRepeated(pairs: seq<(string, string)>, i: nat)
    requires i <= |pairs| && Folded(pairs[..i]) == None
    ensures Folded(pairs) == None
    decreases |pairs| - i
  {
    if i == |pairs| {
      assert pairs[..i] == pairs;
    } else {
      assert pairs[..i + 1][..i] == pairs[..i];
      StaysRepeated(pairs, i + 1);
    }
  }

  datatype Authority = Authority(username: Option<string>, password: Option<string>, host: Option<string>, port: Option<string>)

  /** The properties of a split result: user information up to the last '@', host and port after. */
  function SplitAuthority(netloc: string): Authority {
    var at := RPartition(netloc, '@');
    var info := Partition(at.before, ':');
    var (host, port) := SplitHost(at.after);
    Authority(if at.found then Some(info.before) else None, if at.found && info.found then Some(info.after) else None,
              if host == "" then None else Some(LowerHost(host)), if port == "" then None else Some(port))
  }

  function SplitHost(hostinfo: string): (string, string) {
    var bracket := Partition(hostinfo, '[');
    if bracket.found then
      var close := Partition(bracket.after, ']');
      (close.before, Partition(close.after, ':').after)
    else (Partition(hostinfo, ':').before, Partition(hostinfo, ':').after)
  }

  /** Lower case, except for an IPv6 zone. */
  function LowerHost(host: string): string {
    var zone := Partition(host, '%');
    if zone.found then Lower(zone.before) + ['%'] + zone.after else Lower(host)
  }

  function WithoutSlashes(path: string): string {
    if path != "" && path[0] == '/' then WithoutSlashes(path[1..]) else path
  }

  predicate IsNumber(s: string) {
    s != "" && JsonText.DigitSpan(s) == |s|
  }

  function PortOf(s: string): int {
    if IsNumber(s) then JsonText.ValueOf(s) else -1
  }

  /** _decode_user_info, exactly once. */
  function Decoded(value: string, field: Field, o: Oracle): (Option<Error>, string) {
    if Malformed(value) then (Some(MalformedEscape(field)), "")
    else if !o.utf8(Unquote(value)) then (Some(NotUtf8(field)), "")
    else (None, Unquote(value))
  }

  predicate LabelChar(c: char) {
    'a' <= c <= 'z' || 'A' <= c <= 'Z' || '0' <= c <= '9' || c == '-'
  }

  predicate IsLabel(s: string) {
    1 <= |s| <= 63 && s[0] != '-' && s[|s| - 1] != '-' && forall i :: 0 <= i < |s| ==> LabelChar(s[i])
  }

  function WithoutDots(s: string): string {
    if s != "" && s[|s| - 1] == '.' then WithoutDots(s[..|s| - 1]) else s
  }

  predicate IsDnsName(host: string) {
    forall l :: l in SplitOn(WithoutDots(host), '.') ==> IsLabel(l)
  }

  /** _require_authority_host. */
  predicate IsHost(host: string, o: Oracle) {
    Unquote(host) == host && host != "" && (o.address(host) || IsDnsName(host))
  }

  /** The socket directory, decoded once more than the query already was. */
  predicate IsDirectory(dir: string) {
    dir != "" && dir[0] == '/' && ',' !in dir && (0 as char) !in dir && (10 as char) !in dir && (13 as char) !in dir
  }

  /** The endpoint: TCP in the authority or a socket directory in the query, never both. */
  function Endpoint(a: Authority, query: seq<(string, string)>, o: Oracle): (Option<Error>, (string, nat, bool)) {
    var none := ("", 0, false);
    var socket, queryPort := Lookup(query, "host"), Lookup(query, "port");
    if a.port.Some? && !(0 <= PortOf(a.port.value) <= 65535) then (Some(BadAuthority), none)
    else if socket.Some? then
      if a.host.Some? || a.port.Some? then (Some(TwoEndpoints), none)
      else if !IsDirectory(Unquote(socket.value)) then (Some(BadSocketDirectory), none)
      else if queryPort.None? then (Some(NoPort), none)
      else if !(1 <= PortOf(Strip(queryPort.value)) <= 65535) then (Some(BadPort), none)
      else (None, (Unquote(socket.value), PortOf(Strip(queryPort.value)), true))
    else if queryPort.Some? then (Some(PortWithoutSocket), none)
    else if a.host.None? then (Some(NoHost), none)
    else if a.port.None? then (Some(NoPort), none)
    else if PortOf(a.port.value) == 0 then (Some(BadPort), none)
    else if !IsHost(a.host.value, o) then (Some(BadHost), none)
    else (None, (a.host.value, PortOf(a.port.value), false))
  }

  function Parse(url: string, o: Oracle): Parsed {
    if Strip(url) == "" then Refused(NotSet)
    else
      var parts := UrlSplit(url);
      if ('[' in parts.netloc) != (']' in parts.netloc) then Refused(NotParseable)
      else if parts.scheme !in SCHEMES then Refused(BadScheme)
      else
        ParseQuery(parts, Folded(Pairs(SplitOn(parts.query, '&'))), o)
  }

  function ParseQuery(parts: Parts, folded: Option<seq<(string, string)>>, o: Oracle): Parsed {
    if folded.None? then Refused(Repeated)
    else if Unknown(folded.value) != [] then Refused(Forbidden(Unknown(folded.value)))
    else ParseFields(parts, folded.value, o)
  }

  /** The database of the path, decoded once. */
  function DatabaseOf(path: string, o: Oracle): (Option<Error>, string) {
    var (bad, database) := Decoded(WithoutSlashes(path), Database, o);
    if bad.Some? then (bad, "")
    else if database == "" then (Some(NoDatabase), "")
    else if '/' in database || ',' in database then (Some(ManyDatabases), "")
    else (None, database)
  }

  /** User name and password, each decoded once. */
  function UserOf(a: Authority, o: Oracle): (Option<Error>, (string, Option<string>)) {
    var (badUser, username) := if a.username.Some? then Decoded(a.username.value, Username, o) else (None, "");
    var (badPassword, password) := if a.password.Some? then Decoded(a.password.value, Password, o) else (None, "");
    if badUser.Some? then (badUser, ("", None))
    else if badPassword.Some? then (badPassword, ("", None))
    else if username == "" then (Some(NoUsername), ("", None))
    else if ',' in username then (Some(ManyUsernames), ("", None))
    else (None, (username, if a.password.Some? then Some(password) else None))
  }

  function ParseFields(parts: Parts, query: seq<(string, string)>, o: Oracle): Parsed {
    var a := SplitAuthority(parts.netloc);
    var database := DatabaseOf(parts.path, o);
    var user := UserOf(a, o);
    var endpoint := Endpoint(a, query, o);
    if database.0.Some? then Refused(database.0.value)
    else if user.0.Some? then Refused(user.0.value)
    else if ',' in RPartition(parts.netloc, '@').after then Refused(HostList)
    else if endpoint.0.Some? then Refused(endpoint.0.value)
    else Accepted(Spec(user.1.0, user.1.1, database.1, endpoint.1.0, endpoint.1.1, endpoint.1.2, Sorted(Options(query))))
  }
}
