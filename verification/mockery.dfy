/** The top-level dispatcher of httpmock/mockery.go: an ordered list of
    registrations, each a priority, a predicate and a handler, plus the lazily
    created `http.ServeMux` that `Endpoint` registers into.  Dispatch serves the
    first registration whose predicate accepts the request, or 404. */
module Mockery {
  import opened Base
  import opened Http
  import opened Conditional
  import opened Handlers

  /** The priority `Endpoint`, `EndpointForCondition` and the mux entry use. */
  const DEFAULT_PRIORITY: int := 100

  /** A `mockeryHandler`.  The entry `Handle` adds for the mux is its own
      constructor: its predicate asks the mux whether it has a pattern for the
      request, and its handler is the mux itself. */
  datatype Registration =
    | Entry(priority: int, condition: Predicate, handler: Handler)
    | MuxEntry(priority: int)

  /** One `mux.Handle(pattern, handler)` registration. */
  datatype Route = Route(pattern: string, handler: Handler)

  /** The `mockery` struct: `mux` is None until the first `Handle`. */
  datatype Mockery = Mockery(mux: Option<seq<Route>>, handlers: seq<Registration>)

  /** `Mockery(...)` starts from an empty list and no mux. */
  const Empty := Mockery(None, [])

  function Patterns(m: Mockery): (ps: seq<string>)
    ensures m.mux.None? ==> ps == []
    ensures m.mux.Some? ==> |ps| == |m.mux.value| &&
                            forall i :: 0 <= i < |ps| ==> ps[i] == m.mux.value[i].pattern
  {
    match m.mux
    case None => []
    case Some(routes) => seq(|routes|, i requires 0 <= i < |routes| => routes[i].pattern)
  }

  /** `HandleForCondition`: appends one entry and changes nothing else. */
  function HandleForCondition(m: Mockery, priority: int, p: Predicate, h: Handler): (m': Mockery)
    ensures |m'.handlers| == |m.handlers| + 1
    ensures m'.handlers[..|m.handlers|] == m.handlers
    ensures m'.handlers[|m.handlers|] == Entry(priority, p, h)
    ensures m'.mux == m.mux
  {
    m.(handlers := m.handlers + [Entry(priority, p, h)])
  }

  /** `Handle(path, handler)`: the first call creates the mux and registers it at
      DEFAULT_PRIORITY; `mux.Handle` then rejects an empty pattern and a pattern
      registered before. */
  function Handle(m: Mockery, path: string, h: Handler): (r: Result<Mockery, ConfigError>)
    ensures path == "" ==> r == Failure(InvalidPattern(path))
    ensures path != "" && path in Patterns(m) ==> r == Failure(DuplicatePattern(path))
    ensures r.Success? <==> path != "" && path !in Patterns(m)
    ensures r.Success? ==> r.value.mux.Some? && r.value.mux.value == (if m.mux.Some? then m.mux.value else []) + [Route(path, h)]
    ensures r.Success? && m.mux.None? ==> r.value.handlers == m.handlers + [MuxEntry(DEFAULT_PRIORITY)]
    ensures r.Success? && m.mux.Some? ==> r.value.handlers == m.handlers
  {
    var routes := if m.mux.Some? then m.mux.value else [];
    var handlers := if m.mux.None? then m.handlers + [MuxEntry(DEFAULT_PRIORITY)] else m.handlers;
    if path == "" then Failure(InvalidPattern(path))
    else if path in Patterns(m) then Failure(DuplicatePattern(path))
    else Success(Mockery(Some(routes + [Route(path, h)]), handlers))
  }

  // ---------------------------------------------------------------------------
  // The stable sort of `Mockery` (`sort.Stable` on `byPriority`)

  predicate SortedByPriority(s: seq<Registration>) {
    forall i, j :: 0 <= i < j < |s| ==> s[i].priority <= s[j].priority
  }

  /** `[r]` when `r` has priority `p`, else nothing. */
  function Keep(r: Registration, p: int): seq<Registration> {
    if r.priority == p then [r] else []
  }

  /** The entries of `s` with priority `p`, in order. */
  function WithPriority(s: seq<Registration>, p: int): seq<Registration>
    decreases |s|
  {
    if s == [] then [] else Keep(s[0], p) + WithPriority(s[1..], p)
  }

  lemma {:induction false} WithPriorityAppend(a: seq<Registration>, b: seq<Registration>, p: int)
    ensures WithPriority(a + b, p) == WithPriority(a, p) + WithPriority(b, p)
    decreases |a|
  {
    if a == [] {
      assert a + b == b;
    } else {
      assert (a + b)[0] == a[0];
      assert (a + b)[1..] == a[1..] + b;
      WithPriorityAppend(a[1..], b, p);
      calc {
        WithPriority(a + b, p);
        Keep(a[0], p) + WithPriority(a[1..] + b, p);
        Keep(a[0], p) + (WithPriority(a[1..], p) + WithPriority(b, p));
        (Keep(a[0], p) + WithPriority(a[1..], p)) + WithPriority(b, p);
      }
    }
  }

  lemma {:induction false} WithPriorityNone(s: seq<Registration>, p: int)
    requires forall i :: 0 <= i < |s| ==> s[i].priority > p
    ensures WithPriority(s, p) == []
    decreases |s|
  {
    if s != [] {
      WithPriorityNone(s[1..], p);
    }
  }

  lemma WithPrioritySingle(x: Registration, p: int)
    ensures WithPriority([x], p) == Keep(x, p)
  {
    assert [x][1..] == [];
  }

  lemma ConsSorted(y: Registration, t: seq<Registration>)
    requires SortedByPriority(t)
    requires forall k :: 0 <= k < |t| ==> y.priority <= t[k].priority
    ensures SortedByPriority([y] + t)
  {
    forall i, j | 0 <= i < j < |[y] + t| ensures ([y] + t)[i].priority <= ([y] + t)[j].priority {
      assert ([y] + t)[j] == t[j - 1];
      if i > 0 {
        assert ([y] + t)[i] == t[i - 1];
      }
    }
  }

  /** Every entry of `r` comes from `s` or is `x`. */
  lemma FromEither(r: seq<Registration>, s: seq<Registration>, x: Registration, k: int)
    requires multiset(r) == multiset(s) + multiset{x}
    requires 0 <= k < |r|
    ensures r[k] == x || exists j :: 0 <= j < |s| && s[j] == r[k]
  {
    assert r[k] in multiset(r);
    if r[k] != x {
      assert r[k] in multiset(s);
      assert r[k] in s;
    }
  }

  /** Inserts `x` after every entry of priority at most its own. */
  function Insert(s: seq<Registration>, x: Registration): (r: seq<Registration>)
    requires SortedByPriority(s)
    ensures SortedByPriority(r)
    ensures multiset(r) == multiset(s) + multiset{x}
    decreases |s|
  {
    if s == [] then [x]
    else if x.priority < s[0].priority then
      ConsSorted(x, s);
      [x] + s
    else
      var rest := Insert(s[1..], x);
      assert s == [s[0]] + s[1..];
      forall k | 0 <= k < |rest| ensures s[0].priority <= rest[k].priority {
        FromEither(rest, s[1..], x, k);
      }
      ConsSorted(s[0], rest);
      [s[0]] + rest
  }

  lemma InsertFrontWithPriority(s: seq<Registration>, x: Registration, p: int)
    requires forall k :: 0 <= k < |s| ==> x.priority < s[k].priority
    ensures WithPriority([x] + s, p) == WithPriority(s, p) + Keep(x, p)
  {
    assert ([x] + s)[0] == x;
    assert ([x] + s)[1..] == s;
    if x.priority == p {
      WithPriorityNone(s, p);
    }
  }

  /** Insertion keeps the order of the entries of each priority and puts `x`
      after the entries of its own priority. */
  lemma {:induction false} InsertWithPriority(s: seq<Registration>, x: Registration, p: int)
    requires SortedByPriority(s)
    ensures WithPriority(Insert(s, x), p) == WithPriority(s, p) + Keep(x, p)
    decreases |s|
  {
    if s == [] {
      WithPrioritySingle(x, p);
    } else if x.priority < s[0].priority {
      InsertFrontWithPriority(s, x, p);
    } else {
      InsertWithPriority(s[1..], x, p);
      InsertLaterWithPriority(s, x, p);
    }
  }

  lemma InsertPastHead(s: seq<Registration>, x: Registration)
    requires SortedByPriority(s) && s != [] && s[0].priority <= x.priority
    ensures Insert(s, x) == [s[0]] + Insert(s[1..], x)
  {
  }

  /** The step of `InsertWithPriority` past an entry of priority at most `x`'s. */
  lemma InsertLaterWithPriority(s: seq<Registration>, x: Registration, p: int)
    requires SortedByPriority(s) && s != [] && s[0].priority <= x.priority
    requires WithPriority(Insert(s[1..], x), p) == WithPriority(s[1..], p) + Keep(x, p)
    ensures WithPriority(Insert(s, x), p) == WithPriority(s, p) + Keep(x, p)
  {
    var rest := Insert(s[1..], x);
    InsertPastHead(s, x);
    ConsWithPriority(s[0], rest, p);
    assert WithPriority(s, p) == Keep(s[0], p) + WithPriority(s[1..], p);
    ConcatAssoc(Keep(s[0], p), WithPriority(s[1..], p), Keep(x, p));
  }

  lemma ConcatAssoc(a: seq<Registration>, b: seq<Registration>, c: seq<Registration>)
    ensures a + (b + c) == (a + b) + c
  {
  }

  lemma ConsWithPriority(y: Registration, t: seq<Registration>, p: int)
    ensures WithPriority([y] + t, p) == Keep(y, p) + WithPriority(t, p)
  {
    assert ([y] + t)[0] == y;
    assert ([y] + t)[1..] == t;
  }

  /** `sort.Stable(byPriority)`: ascending priority, registration order kept
      among equal priorities. */
  function SortByPriority(s: seq<Registration>): (r: seq<Registration>)
    ensures SortedByPriority(r)
    ensures multiset(r) == multiset(s)
    ensures forall p :: WithPriority(r, p) == WithPriority(s, p)
    decreases |s|
  {
    if s == [] then []
    else
      var init := s[..|s| - 1];
      var last := s[|s| - 1];
      assert s == init + [last];
      var sorted := SortByPriority(init);
      assert forall p :: WithPriority(Insert(sorted, last), p) == WithPriority(s, p) by {
        forall p ensures WithPriority(Insert(sorted, last), p) == WithPriority(s, p) {
          InsertWithPriority(sorted, last, p);
          WithPriorityAppend(init, [last], p);
          WithPrioritySingle(last, p);
        }
      }
      Insert(sorted, last)
  }

  // ---------------------------------------------------------------------------
  // Dispatch (`mockery.ServeHTTP`)

  /** The handler of the first route with `pattern`. */
  function Lookup(routes: seq<Route>, pattern: string): (h: Option<Handler>)
    ensures h.Some? <==> exists i :: 0 <= i < |routes| && routes[i].pattern == pattern
    ensures h.Some? ==> exists i :: 0 <= i < |routes| && routes[i] == Route(pattern, h.value) &&
                                    forall j :: 0 <= j < i ==> routes[j].pattern != pattern
    decreases |routes|
  {
    if routes == [] then None
    else if routes[0].pattern == pattern then Some(routes[0].handler)
    else
      var h := Lookup(routes[1..], pattern);
      assert forall i :: 1 <= i < |routes| ==> routes[i] == routes[1..][i - 1];
      if h.Some? then
        ghost var i :| 0 <= i < |routes[1..]| && routes[1..][i] == Route(pattern, h.value) &&
                       forall j :: 0 <= j < i ==> routes[1..][j].pattern != pattern;
        assert routes[i + 1] == Route(pattern, h.value);
        h
      else h
  }

  /** `http.NotFound`, which the mux serves for a pattern it has no handler for. */
  const NotFoundEvents: seq<Event> := [
    HeaderSet("Content-Type", "text/plain; charset=utf-8"),
    HeaderSet("X-Content-Type-Options", "nosniff"),
    WriteHeader(404),
    Write("404 page not found\n")]

  /** Whether a registration's predicate accepts the request; None for a panic. */
  function Verdict(r: Registration, m: Mockery, req: Request, env: Env): Option<bool> {
    match r
    case Entry(_, p, _) => Eval(p, VReq(req), env.matches)
    case MuxEntry(_) => Some(env.route(Patterns(m), req) != "")
  }

  function Verdicts(m: Mockery, req: Request, env: Env): (vs: seq<Option<bool>>)
    ensures |vs| == |m.handlers|
  {
    seq(|m.handlers|, i requires 0 <= i < |m.handlers| => Verdict(m.handlers[i], m, req, env))
  }

  /** The handler a registration serves; the mux serves the route it picks. */
  function Serves(r: Registration, m: Mockery, req: Request, env: Env): Handler {
    match r
    case Entry(_, _, h) => h
    case MuxEntry(_) =>
      match Lookup(if m.mux.Some? then m.mux.value else [], env.route(Patterns(m), req))
      case None => Emit(NotFoundEvents)
      case Some(h) => h
  }

  /** A finished configuration: the sorted mockery and the switch arena its
      handlers refer to. */
  datatype Server = Server(mockery: Mockery, switches: seq<SwitchCaseSet>)

  /** `mockery.ServeHTTP`: the first accepting registration's handler, else 404. */
  function Serve(s: Server, req: Request, env: Env, fuel: nat): seq<Event> {
    match Select(Verdicts(s.mockery, req, env))
    case Chosen(i) => Run(Serves(s.mockery.handlers[i], s.mockery, req, env), req, s.switches, env, fuel)
    case NoneChosen => [WriteHeader(404)]
    case Panicked => [Panic]
  }

  /** Dispatch runs exactly the handler of the first registration, in list
      order, whose predicate accepts; when none accepts, it writes 404 and
      nothing else. */
  lemma ServeFirstMatch(s: Server, req: Request, env: Env, fuel: nat, i: nat)
    requires i <= |s.mockery.handlers|
    requires forall j :: 0 <= j < i ==> Verdict(s.mockery.handlers[j], s.mockery, req, env) == Some(false)
    requires i < |s.mockery.handlers| ==> Verdict(s.mockery.handlers[i], s.mockery, req, env) == Some(true)
    ensures Serve(s, req, env, fuel) ==
              if i < |s.mockery.handlers| then Run(Serves(s.mockery.handlers[i], s.mockery, req, env), req, s.switches, env, fuel)
              else [WriteHeader(404)]
  {
    var vs := Verdicts(s.mockery, req, env);
    if i < |s.mockery.handlers| {
      assert vs[i] == Some(true);
    }
  }

  /** With no registration accepting, the client sees a bare 404. */
  lemma NothingAcceptsIs404(s: Server, req: Request, env: Env, fuel: nat)
    requires forall j :: 0 <= j < |s.mockery.handlers| ==> Verdict(s.mockery.handlers[j], s.mockery, req, env) == Some(false)
    ensures Observe(Serve(s, req, env, fuel)) == Response(404, map[], "", map[])
  {
    ServeFirstMatch(s, req, env, fuel, |s.mockery.handlers|);
    var w := Writer(map[], Some(Commit(404, map[])), "");
    assert Step(Fresh, WriteHeader(404)) == Some(w);
    assert Play(Fresh, [WriteHeader(404)]) == Play(w, []);
  }
}
