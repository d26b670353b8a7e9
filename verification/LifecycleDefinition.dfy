/** Machine definitions: what validation accepts, and what registering one leaves published. */
module LifecycleDefinition {
  import opened Base

  type Edge = (string, string)

  datatype Definition = Definition(key: string, version: int, states: seq<string>, initial: string,
                                   terminal: seq<string>, edges: seq<Edge>, scopes: Scopes)

  datatype Scopes = Scopes(read: string, create: string, transition: string)

  /** A published version, as every reader of the definition tables sees it. */
  datatype Machine = Machine(states: set<string>, initial: string, terminal: set<string>, edges: set<Edge>, scopes: Scopes)

  datatype Name = Name(key: string, version: int)

  const MAX_STATES := 64
  const MAX_EDGES := 512
  const ELIGIBLE := {"audit:read", "credential:manage", "mutation:execute", "tenant:read", "workspace:read", "workspace:write"}

  predicate IsName(s: string, secret: string -> bool) {
    && !secret(s) && 1 <= |s| <= 63 && 'a' <= s[0] <= 'z'
    && forall i :: 0 <= i < |s| ==> 'a' <= s[i] <= 'z' || '0' <= s[i] <= '9' || s[i] == '_'
  }

  predicate NoRepeats<T(==)>(s: seq<T>) {
    forall i, j :: 0 <= i < j < |s| ==> s[i] != s[j]
  }

  predicate GoodEdge(d: Definition, e: Edge, secret: string -> bool) {
    IsName(e.0, secret) && IsName(e.1, secret) && e.0 in d.states && e.1 in d.states && e.0 !in d.terminal
  }

  predicate WellFormed(d: Definition, secret: string -> bool) {
    && IsName(d.key, secret) && d.version >= 1
    && 1 <= |d.states| <= MAX_STATES && (forall s :: s in d.states ==> IsName(s, secret)) && NoRepeats(d.states)
    && d.initial in d.states
    && (forall s :: s in d.terminal ==> s in d.states) && NoRepeats(d.terminal)
    && |d.edges| <= MAX_EDGES && (forall e :: e in d.edges ==> GoodEdge(d, e, secret)) && NoRepeats(d.edges)
    && d.scopes.read in ELIGIBLE && d.scopes.create in ELIGIBLE && d.scopes.transition in ELIGIBLE
  }

  /** The rule a refusal names, and the position it found it broken at. */
  datatype Rule =
    | BadKey | BadVersion | NoStates | TooManyStates | BadState(at: nat) | RepeatedState
    | BadInitial | UnknownInitial | BadTerminal(at: nat) | UnknownTerminal(at: nat) | RepeatedTerminal
    | TooManyEdges | BadEdge(at: nat) | UnknownSource(at: nat) | UnknownTarget(at: nat)
    | LeavesTerminal(at: nat) | RepeatedEdge(at: nat) | IneligibleScope

  predicate Broken(d: Definition, rule: Rule, secret: string -> bool) {
    match rule
    case BadKey => !IsName(d.key, secret)
    case BadVersion => d.version < 1
    case NoStates => d.states == []
    case TooManyStates => |d.states| > MAX_STATES
    case BadState(i) => i < |d.states| && !IsName(d.states[i], secret)
    case RepeatedState => !NoRepeats(d.states)
    case BadInitial => !IsName(d.initial, secret)
    case UnknownInitial => d.initial !in d.states
    case BadTerminal(i) => i < |d.terminal| && !IsName(d.terminal[i], secret)
    case UnknownTerminal(i) => i < |d.terminal| && d.terminal[i] !in d.states
    case RepeatedTerminal => !NoRepeats(d.terminal)
    case TooManyEdges => |d.edges| > MAX_EDGES
    case BadEdge(i) => i < |d.edges| && !(IsName(d.edges[i].0, secret) && IsName(d.edges[i].1, secret))
    case UnknownSource(i) => i < |d.edges| && d.edges[i].0 !in d.states
    case UnknownTarget(i) => i < |d.edges| && d.edges[i].1 !in d.states
    case LeavesTerminal(i) => i < |d.edges| && d.edges[i].0 in d.terminal
    case RepeatedEdge(i) => i < |d.edges| && d.edges[i] in d.edges[..i]
    case IneligibleScope => d.scopes.read !in ELIGIBLE || d.scopes.create !in ELIGIBLE || d.scopes.transition !in ELIGIBLE
  }

  function Elements<T(==)>(s: seq<T>): set<T> {
    set x | x in s
  }

  /** `len(set(s)) == len(s)` says that nothing repeats. */
  lemma {:induction false} SizeOfElements<T>(s: seq<T>)
    ensures |Elements(s)| <= |s|
    ensures |Elements(s)| == |s| <==> NoRepeats(s)
  {
    if s != [] {
      var init, last := s[..|s| - 1], s[|s| - 1];
      SizeOfElements(init);
      assert s == init + [last];
      assert Elements(s) == Elements(init) + {last};
      if NoRepeats(init) && last in init {
        var i :| 0 <= i < |init| && init[i] == last;
        assert s[i] == s[|s| - 1];
      }
      if NoRepeats(s) {
        assert forall i, j :: 0 <= i < j < |init| ==> s[i] != s[j];
      }
    }
  }

  method CheckNames(names: seq<string>, secret: string -> bool) returns (bad: Option<nat>)
    ensures bad.None? <==> forall s :: s in names ==> IsName(s, secret)
    ensures bad.Some? ==> bad.value < |names| && !IsName(names[bad.value], secret)
  {
    for i := 0 to |names|
      invariant forall k :: 0 <= k < i ==> IsName(names[k], secret)
    {
      if !IsName(names[i], secret) { return Some(i); }
    }
    return None;
  }

  method CheckTerminals(d: Definition, secret: string -> bool) returns (rule: Option<Rule>)
    ensures rule.None? <==> forall s :: s in d.terminal ==> IsName(s, secret) && s in d.states
    ensures rule.Some? ==> Broken(d, rule.value, secret)
  {
    for i := 0 to |d.terminal|
      invariant forall k :: 0 <= k < i ==> IsName(d.terminal[k], secret) && d.terminal[k] in d.states
    {
      if !IsName(d.terminal[i], secret) { return Some(BadTerminal(i)); }
      if d.terminal[i] !in d.states { return Some(UnknownTerminal(i)); }
    }
    return None;
  }

  method CheckEdges(d: Definition, secret: string -> bool) returns (rule: Option<Rule>)
    ensures rule.None? <==> (forall e :: e in d.edges ==> GoodEdge(d, e, secret)) && NoRepeats(d.edges)
    ensures rule.Some? ==> Broken(d, rule.value, secret)
  {
    var seen: set<Edge> := {};
    for i := 0 to |d.edges|
      invariant seen == Elements(d.edges[..i])
      invariant forall k :: 0 <= k < i ==> GoodEdge(d, d.edges[k], secret)
      invariant NoRepeats(d.edges[..i])
    {
      var e := d.edges[i];
      assert e in d.edges;
      if !IsName(e.0, secret) || !IsName(e.1, secret) { return Some(BadEdge(i)); }
      if e.0 !in d.states { return Some(UnknownSource(i)); }
      if e.1 !in d.states { return Some(UnknownTarget(i)); }
      if e.0 in d.terminal { return Some(LeavesTerminal(i)); }
      if e in seen {
        var k :| 0 <= k < i && d.edges[k] == e;
        return Some(RepeatedEdge(i));
      }
      assert d.edges[..i + 1] == d.edges[..i] + [e];
      seen := seen + {e};
    }
    assert d.edges[..|d.edges|] == d.edges;
    return None;
  }

  /** Accepts exactly the well-formed definitions, and refuses the others for a rule they do
      break at the position it names. */
  method Validated(d: Definition, secret: string -> bool) returns (rule: Option<Rule>)
    ensures rule.None? <==> WellFormed(d, secret)
    ensures rule.Some? ==> Broken(d, rule.value, secret)
  {
    if !IsName(d.key, secret) { return Some(BadKey); }
    if d.version < 1 { return Some(BadVersion); }
    if d.states == [] { return Some(NoStates); }
    if |d.states| > MAX_STATES { return Some(TooManyStates); }
    var bad := CheckNames(d.states, secret);
    if bad.Some? { return Some(BadState(bad.value)); }
    SizeOfElements(d.states);
    if |Elements(d.states)| != |d.states| { return Some(RepeatedState); }
    if !IsName(d.initial, secret) { return Some(BadInitial); }
    if d.initial !in d.states { return Some(UnknownInitial); }
    rule := CheckTerminals(d, secret);
    if rule.Some? { return; }
    SizeOfElements(d.terminal);
    if |Elements(d.terminal)| != |d.terminal| { return Some(RepeatedTerminal); }
    if |d.edges| > MAX_EDGES { return Some(TooManyEdges); }
    rule := CheckEdges(d, secret);
    if rule.Some? { return; }
    if d.scopes.read !in ELIGIBLE || d.scopes.create !in ELIGIBLE || d.scopes.transition !in ELIGIBLE {
      return Some(IneligibleScope);
    }
  }

  // ------------------------------------------------------------------ registration

  datatype StateRow = StateRow(name: Name, state: string, isInitial: bool, isTerminal: bool)
  datatype EdgeRow = EdgeRow(name: Name, source: string, target: string)

  /** What lookups read of a version's rows. */
  function StatesOf(rows: seq<StateRow>, name: Name): set<string> {
    set r | r in rows && r.name == name :: r.state
  }

  function TerminalsOf(rows: seq<StateRow>, name: Name): set<string> {
    set r | r in rows && r.name == name && r.isTerminal :: r.state
  }

  function InitialsOf(rows: seq<StateRow>, name: Name): set<string> {
    set r | r in rows && r.name == name && r.isInitial :: r.state
  }

  function EdgesOf(rows: seq<EdgeRow>, name: Name): set<Edge> {
    set r | r in rows && r.name == name :: (r.source, r.target)
  }

  /** The whole-graph checks of publication, which look at the rows and at nothing else. */
  predicate Publishable(states: seq<StateRow>, edges: seq<EdgeRow>, name: Name, scopes: Scopes) {
    && StatesOf(states, name) != {}
    && |InitialsOf(states, name)| == 1
    && (forall e :: e in EdgesOf(edges, name) ==>
          e.0 in StatesOf(states, name) && e.1 in StatesOf(states, name) && e.0 !in TerminalsOf(states, name))
    && scopes.read in ELIGIBLE && scopes.create in ELIGIBLE && scopes.transition in ELIGIBLE
  }

  function Meaning(d: Definition): Machine {
    Machine(Elements(d.states), d.initial, Elements(d.terminal), Elements(d.edges), d.scopes)
  }

  /** A version is read as a machine by anything that looks its rows up. */
  ghost predicate Reads(states: seq<StateRow>, edges: seq<EdgeRow>, name: Name, scopes: Scopes, m: Machine) {
    && StatesOf(states, name) == m.states && InitialsOf(states, name) == {m.initial}
    && TerminalsOf(states, name) == m.terminal && EdgesOf(edges, name) == m.edges && scopes == m.scopes
  }

  class Catalogue {
    var machines: map<Name, (Scopes, bool)>
    var states: seq<StateRow>
    var edges: seq<EdgeRow>

    constructor ()
      ensures machines == map[] && states == [] && edges == []
    {
      machines, states, edges := map[], [], [];
    }

    /** Rows belong to a version that was inserted. */
    ghost predicate Rooted()
      reads this
    {
      && (forall r :: r in states ==> r.name in machines)
      && (forall r :: r in edges ==> r.name in machines)
    }

    method InsertStates(d: Definition)
      requires forall r :: r in states ==> r.name != Name(d.key, d.version)
      modifies `states
      ensures StatesOf(states, Name(d.key, d.version)) == Elements(d.states)
      ensures TerminalsOf(states, Name(d.key, d.version)) == Elements(d.states) * Elements(d.terminal)
      ensures InitialsOf(states, Name(d.key, d.version)) == Elements(d.states) * {d.initial}
      ensures forall r :: r in states <==> r in old(states) || (r in states && r.name == Name(d.key, d.version))
    {
      var name := Name(d.key, d.version);
      for i := 0 to |d.states|
        invariant StatesOf(states, name) == Elements(d.states[..i])
        invariant TerminalsOf(states, name) == Elements(d.states[..i]) * Elements(d.terminal)
        invariant InitialsOf(states, name) == Elements(d.states[..i]) * {d.initial}
        invariant forall r :: r in states <==> r in old(states) || (r in states && r.name == name)
      {
        var s := d.states[i];
        var row := StateRow(name, s, s == d.initial, s in d.terminal);
        StateRowAdded(states, row);
        assert d.states[..i + 1] == d.states[..i] + [s];
        states := states + [row];
      }
      assert d.states[..|d.states|] == d.states;
    }

    method InsertEdges(d: Definition)
      requires forall r :: r in edges ==> r.name != Name(d.key, d.version)
      modifies `edges
      ensures EdgesOf(edges, Name(d.key, d.version)) == Elements(d.edges)
      ensures forall r :: r in edges <==> r in old(edges) || (r in edges && r.name == Name(d.key, d.version))
    {
      var name := Name(d.key, d.version);
      for i := 0 to |d.edges|
        invariant EdgesOf(edges, name) == Elements(d.edges[..i])
        invariant forall r :: r in edges <==> r in old(edges) || (r in edges && r.name == name)
      {
        var row := EdgeRow(name, d.edges[i].0, d.edges[i].1);
        EdgeRowAdded(edges, row);
        assert d.edges[..i + 1] == d.edges[..i] + [d.edges[i]];
        edges := edges + [row];
      }
      assert d.edges[..|d.edges|] == d.edges;
    }

    /** Registers a definition exactly when it is well formed and its version is new, and then
        the published rows read back as that definition; publication's own checks never refuse
        what validation accepted, and no other version reads any differently. */
    method Register(d: Definition, secret: string -> bool) returns (ok: bool)
      requires Rooted()
      modifies this
      ensures Rooted()
      ensures ok <==> WellFormed(d, secret) && Name(d.key, d.version) !in old(machines)
      ensures ok ==> machines == old(machines)[Name(d.key, d.version) := (d.scopes, true)]
                     && Reads(states, edges, Name(d.key, d.version), d.scopes, Meaning(d))
      ensures !ok ==> machines == old(machines) && states == old(states) && edges == old(edges)
      ensures forall n :: n in old(machines) ==>
                StatesOf(states, n) == StatesOf(old(states), n) && InitialsOf(states, n) == InitialsOf(old(states), n)
                && TerminalsOf(states, n) == TerminalsOf(old(states), n) && EdgesOf(edges, n) == EdgesOf(old(edges), n)
    {
      var name := Name(d.key, d.version);
      var rule := Validated(d, secret);
      if rule.Some? || name in machines {
        return false;
      }
      machines := machines[name := (d.scopes, false)];
      InsertStates(d);
      InsertEdges(d);
      AcceptedIsPublishable(states, edges, d, secret);
      if !Publishable(states, edges, name, d.scopes) {
        assert false;
      }
      machines := machines[name := (d.scopes, true)];
      return true;
    }
  }

  lemma StateRowAdded(rows: seq<StateRow>, row: StateRow)
    ensures StatesOf(rows + [row], row.name) == StatesOf(rows, row.name) + {row.state}
    ensures TerminalsOf(rows + [row], row.name) == TerminalsOf(rows, row.name) + if row.isTerminal then {row.state} else {}
    ensures InitialsOf(rows + [row], row.name) == InitialsOf(rows, row.name) + if row.isInitial then {row.state} else {}
  {
  }

  lemma EdgeRowAdded(rows: seq<EdgeRow>, row: EdgeRow)
    ensures EdgesOf(rows + [row], row.name) == EdgesOf(rows, row.name) + {(row.source, row.target)}
  {
  }

  lemma AcceptedIsPublishable(states: seq<StateRow>, edges: seq<EdgeRow>, d: Definition, secret: string -> bool)
    requires WellFormed(d, secret)
    requires var name := Name(d.key, d.version);
             && StatesOf(states, name) == Elements(d.states) && EdgesOf(edges, name) == Elements(d.edges)
             && TerminalsOf(states, name) == Elements(d.states) * Elements(d.terminal)
             && InitialsOf(states, name) == Elements(d.states) * {d.initial}
    ensures Publishable(states, edges, Name(d.key, d.version), d.scopes)
    ensures Reads(states, edges, Name(d.key, d.version), d.scopes, Meaning(d))
  {
    assert Elements(d.states) * {d.initial} == {d.initial};
    assert Elements(d.states) * Elements(d.terminal) == Elements(d.terminal);
    assert d.states[0] in Elements(d.states);
  }

  /** Lower-case letters, digits and underscores, a letter first, at most 63, and no secret. */
  lemma NameExactly(s: string, secret: string -> bool)
    ensures IsName(s, secret) <==>
              && !secret(s) && s != "" && |s| <= 63 && 'a' <= s[0] <= 'z'
              && forall i :: 0 <= i < |s| ==> s[i] == '_' || 'a' <= s[i] <= 'z' || '0' <= s[i] <= '9'
  {
  }

  /** A definition is well formed exactly when its names are names, its states are distinct and
      include the initial and the terminal ones, its edges are distinct, run between states and
      leave no terminal one, its sizes are bounded, and its scopes are in the closed catalogue. */
  lemma WellFormedExactly(d: Definition, secret: string -> bool)
    ensures WellFormed(d, secret) <==>
              && IsName(d.key, secret) && d.version >= 1 && d.states != [] && |d.states| <= 64 && |d.edges| <= 512
              && (forall s :: s in d.states ==> IsName(s, secret))
              && (forall i, j :: 0 <= i < j < |d.states| ==> d.states[i] != d.states[j])
              && d.initial in d.states
              && (forall s :: s in d.terminal ==> s in d.states)
              && (forall i, j :: 0 <= i < j < |d.terminal| ==> d.terminal[i] != d.terminal[j])
              && (forall e :: e in d.edges ==> e.0 in d.states && e.1 in d.states && e.0 !in d.terminal)
              && (forall i, j :: 0 <= i < j < |d.edges| ==> d.edges[i] != d.edges[j])
              && IsScope(d.scopes.read) && IsScope(d.scopes.create) && IsScope(d.scopes.transition)
  {
    ScopeExactly(d.scopes.read);
    ScopeExactly(d.scopes.create);
    ScopeExactly(d.scopes.transition);
  }

  predicate IsScope(s: string) {
    s == "audit:read" || s == "credential:manage" || s == "mutation:execute" || s == "tenant:read"
    || s == "workspace:read" || s == "workspace:write"
  }

  lemma ScopeExactly(s: string)
    ensures s in ELIGIBLE <==> IsScope(s)
  {
  }

  /** Publication asks of a version's rows that there is a state, one initial state, edges between
      its states that leave no terminal one, and eligible scopes. */
  lemma PublishableExactly(states: seq<StateRow>, edges: seq<EdgeRow>, name: Name, scopes: Scopes)
    ensures Publishable(states, edges, name, scopes) <==>
              && (exists r :: r in states && r.name == name && r.isInitial)
              && (forall r, q :: r in states && q in states && r.name == q.name == name && r.isInitial && q.isInitial ==>
                    r.state == q.state)
              && (forall e :: e in edges && e.name == name ==>
                    && (exists r :: r in states && r.name == name && r.state == e.source)
                    && (exists r :: r in states && r.name == name && r.state == e.target)
                    && (forall r :: r in states && r.name == name && r.isTerminal ==> r.state != e.source))
              && IsScope(scopes.read) && IsScope(scopes.create) && IsScope(scopes.transition)
  {
    ScopeExactly(scopes.read);
    ScopeExactly(scopes.create);
    ScopeExactly(scopes.transition);
    if |InitialsOf(states, name)| == 1 { OneInitial(states, name); }
    if r :| r in states && r.name == name && r.isInitial
            && forall q :: q in states && q.name == name && q.isInitial ==> q.state == r.state {
      InitialAlone(states, name, r);
    }
    EdgesExactly(states, edges, name);
  }

  lemma OneInitial(states: seq<StateRow>, name: Name)
    requires |InitialsOf(states, name)| == 1
    ensures exists r :: r in states && r.name == name && r.isInitial
    ensures forall r, q :: r in states && q in states && r.name == q.name == name && r.isInitial && q.isInitial ==>
              r.state == q.state
    ensures StatesOf(states, name) != {}
  {
    var x :| x in InitialsOf(states, name);
    OneElement(InitialsOf(states, name), x);
    assert x in StatesOf(states, name);
    forall r | r in states && r.name == name && r.isInitial ensures r.state == x {
      assert r.state in InitialsOf(states, name);
    }
  }

  lemma InitialAlone(states: seq<StateRow>, name: Name, r: StateRow)
    requires r in states && r.name == name && r.isInitial
    requires forall q :: q in states && q.name == name && q.isInitial ==> q.state == r.state
    ensures InitialsOf(states, name) == {r.state} && r.state in StatesOf(states, name)
  {
  }

  lemma OneElement(xs: set<string>, x: string)
    requires |xs| == 1 && x in xs
    ensures xs == {x}
  {
    SubsetSameSize({x}, xs);
  }

  lemma EdgesExactly(states: seq<StateRow>, edges: seq<EdgeRow>, name: Name)
    ensures (forall e :: e in EdgesOf(edges, name) ==>
               e.0 in StatesOf(states, name) && e.1 in StatesOf(states, name) && e.0 !in TerminalsOf(states, name)) <==>
            (forall e :: e in edges && e.name == name ==>
               && (exists r :: r in states && r.name == name && r.state == e.source)
               && (exists r :: r in states && r.name == name && r.state == e.target)
               && (forall r :: r in states && r.name == name && r.isTerminal ==> r.state != e.source))
  {
    forall e | e in edges && e.name == name ensures (e.source, e.target) in EdgesOf(edges, name) {}
  }
}
