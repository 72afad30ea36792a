/** The two configurations of httpmock/conditional_test.go, built by the
    interpreter and served.  The tests' hand-written `PredicateFunc` and
    `ExtractorFunc` closures are replaced by the built-in predicates and
    extractors that compute the same thing. */
module Scenarios {
  import opened Base
  import opened Http
  import opened Conditional
  import opened Handlers
  import opened Mockery
  import opened Dsl
  import opened Decorations
  import opened Switching

  const Json := "application/json"
  const Xml := "application/xml"

  /** A registry with one ServeMux route. */
  function OneRoute(pattern: string, h: Handler): Mockery {
    Mockery(Some([Route(pattern, h)]), [MuxEntry(DEFAULT_PRIORITY)])
  }

  /** A file response at 200 with its Content-Type header, wrapped around `h`. */
  function FileWithType(name: string, contentType: string, h: Handler): Handler {
    HeaderDecoration("Content-Type", contentType, Decorated(Noop, h, ServeFile(200, name)))
  }

  function NotAcceptable(h: Handler): Handler {
    Decorated(Noop, h, Emit([WriteHeader(406)]))
  }

  /** The events a file response runs: its header, the wrapped handler's
      events, then the status and the file (500 when it cannot be opened). */
  lemma RunFileWithType(name: string, contentType: string, h: Handler, req: Request, switches: seq<SwitchCaseSet>, env: Env, fuel: nat)
    ensures Run(FileWithType(name, contentType, h), req, switches, env, fuel) ==
            [HeaderAdd("Content-Type", contentType)] + Run(h, req, switches, env, fuel) +
            (match env.file(name) case None => [WriteHeader(500)] case Some(c) => [WriteHeader(200), Write(c)])
  {
    var inner := Decorated(Noop, h, ServeFile(200, name));
    assert Run(inner, req, switches, env, fuel) == [] + Run(h, req, switches, env, fuel) + Run(ServeFile(200, name), req, switches, env, fuel);
    assert Run(FileWithType(name, contentType, h), req, switches, env, fuel) ==
           [HeaderAdd("Content-Type", contentType)] + Run(inner, req, switches, env, fuel) + [];
  }

  lemma RunNotAcceptable(h: Handler, req: Request, switches: seq<SwitchCaseSet>, env: Env, fuel: nat)
    ensures Run(NotAcceptable(h), req, switches, env, fuel) == Run(h, req, switches, env, fuel) + [WriteHeader(406)]
  {
    assert Run(NotAcceptable(h), req, switches, env, fuel) == [] + Run(h, req, switches, env, fuel) + [WriteHeader(406)];
  }

  lemma RunHeader(name: string, value: string, h: Handler, req: Request, switches: seq<SwitchCaseSet>, env: Env, fuel: nat)
    ensures Run(HeaderDecoration(name, value, h), req, switches, env, fuel) == [HeaderAdd(name, value)] + Run(h, req, switches, env, fuel)
  {
    assert Run(HeaderDecoration(name, value, h), req, switches, env, fuel) == [HeaderAdd(name, value)] + Run(h, req, switches, env, fuel) + [];
  }

  /** A file response followed by its Content-Type header builds `FileWithType`. */
  lemma BuildFile(name: string, contentType: string, h: Handler, t: Tools)
    ensures Leaves([RespondWithFile(200, name), Header("Content-Type", contentType)], t)
    ensures Build([RespondWithFile(200, name), Header("Content-Type", contentType)], t, h) == FileWithType(name, contentType, h)
  {
    var ss := [RespondWithFile(200, name), Header("Content-Type", contentType)];
    var d := Decorated(Noop, h, ServeFile(200, name));
    assert Leaf(ss[0], t) && Leaf(ss[1], t);
    assert ss[1..] == [Header("Content-Type", contentType)];
    assert ss[1..][1..] == [];
    assert Build(ss, t, h) == Build(ss[1..], t, d);
    assert Build(ss[1..], t, d) == Build([], t, FileWithType(name, contentType, h));
  }

  lemma BuildNotAcceptable(h: Handler, t: Tools)
    ensures Leaves([Respond(406)], t)
    ensures Build([Respond(406)], t, h) == NotAcceptable(h)
  {
    assert [Respond(406)][1..] == [];
  }

  /** The first route registers the mux itself at the default priority. */
  lemma HandleEmpty(path: string, h: Handler)
    requires path != ""
    ensures Handle(Empty, path, h) == Success(OneRoute(path, h))
  {
    assert [] + [Route(path, h)] == [Route(path, h)];
    assert [] + [MuxEntry(DEFAULT_PRIORITY)] == [MuxEntry(DEFAULT_PRIORITY)];
  }

  lemma SortOne(r: Registration)
    ensures SortByPriority([r]) == [r]
  {
    var s := SortByPriority([r]);
    assert |s| == |multiset(s)| == 1;
    assert s[0] in multiset([r]);
  }

  /** Two headers, then a file: the response has both headers and the file. */
  lemma ObserveTwoHeadersThenFile(name1: string, value1: string, name2: string, value2: string, trace: seq<Event>,
                                  body: string)
    requires name1 != name2 && name1 != "Trailer" && name2 != "Trailer"
    requires trace == [HeaderAdd(name1, value1), HeaderAdd(name2, value2), WriteHeader(200), Write(body)]
    ensures Observe(trace) == Response(200, map[name1 := [value1], name2 := [value2]], body, map[])
  {
    var h1 := map[name1 := [value1]];
    var h2 := map[name1 := [value1], name2 := [value2]];
    var w1 := Writer(h1, None, "");
    var w2 := Writer(h2, None, "");
    var w3 := Writer(h2, Some(Commit(200, h2)), "");
    var w4 := Writer(h2, Some(Commit(200, h2)), body);
    assert [] + [value1] == [value1];
    assert [] + [value2] == [value2];
    assert "" + body == body;
    assert Step(Fresh, trace[0]) == Some(w1);
    assert Step(w1, trace[1]) == Some(w2);
    assert Step(w2, trace[2]) == Some(w3);
    assert Step(w3, trace[3]) == Some(w4);
    assert Play(Fresh, trace) == Some(w4) by {
      assert Play(Fresh, trace) == Play(w1, trace[1..]);
      assert Play(w1, trace[1..]) == Play(w2, trace[2..]);
      assert Play(w2, trace[2..]) == Play(w3, trace[3..]);
      assert Play(w3, trace[3..]) == Play(w4, []);
    }
  }

  /** 406 after "Foo: Bar". */
  lemma ObserveNotAcceptable()
    ensures Observe([HeaderAdd("Foo", "Bar"), WriteHeader(406)]) == Response(406, map["Foo" := ["Bar"]], "", map[])
  {
    var trace := [HeaderAdd("Foo", "Bar"), WriteHeader(406)];
    var h := map["Foo" := ["Bar"]];
    var w1 := Writer(h, None, "");
    var w2 := Writer(h, Some(Commit(406, h)), "");
    assert [] + ["Bar"] == ["Bar"];
    assert Step(Fresh, trace[0]) == Some(w1);
    assert Step(w1, trace[1]) == Some(w2);
    assert Play(Fresh, trace) == Some(w2) by {
      assert Play(Fresh, trace) == Play(w1, trace[1..]);
      assert Play(w1, trace[1..]) == Play(w2, []);
    }
  }

  /** The configuration inside the endpoint's method switch, before its body. */
  function InMethodSwitch(): Config {
    Initial.(switches := [SwitchCaseSet(MethodExtractor, [], Fallback(Noop))], currentSwitch := Some(0))
  }

  // ---------------------------------------------------------------------------
  // TestWhen: a `When` inside a `Method` inside an `Endpoint`.

  function AcceptsJson(): Predicate {
    HeaderEquals("Accept", Json)
  }

  function WhenGetBody(): seq<Stmt> {
    [When(AcceptsJson(), [RespondWithFile(200, "./ok.json"), Header("Content-Type", Json)], [Respond(406)]),
     Header("Foo", "Bar")]
  }

  function WhenTest(): seq<Stmt> {
    [Endpoint("/foo/bar", [Method("GET", WhenGetBody())])]
  }

  function WhenGetHandler(): Handler {
    HeaderDecoration("Foo", "Bar", WhenHandler(AcceptsJson(), FileWithType("./ok.json", Json, Noop), NotAcceptable(Noop)))
  }

  function WhenServer(): Server {
    Server(OneRoute("/foo/bar", SwitchRef(0)),
           [SwitchCaseSet(MethodExtractor, [SwitchCase(StringEquals("GET"), WhenGetHandler())], Fallback(Noop))])
  }

  /** The GET case's body leaves the `when` wrapped in "Foo: Bar" as the
      current handler. */
  lemma WhenGetBodyBuilds(t: Tools)
    ensures Exec(WhenGetBody(), InMethodSwitch(), t) == Success(InMethodSwitch().(current := WhenGetHandler()))
  {
    var c1 := InMethodSwitch();
    var onTrue := [RespondWithFile(200, "./ok.json"), Header("Content-Type", Json)];
    WhenIsolation(AcceptsJson(), onTrue, [Respond(406)], c1, t);
    BuildFile("./ok.json", Json, Noop, t);
    BuildNotAcceptable(Noop, t);
    var cw := c1.(current := WhenHandler(AcceptsJson(), FileWithType("./ok.json", Json, Noop), NotAcceptable(Noop)));
    assert ExecStmt(Header("Foo", "Bar"), cw, t) == Success(cw.(current := WhenGetHandler()));
    ExecTwo(WhenGetBody(), c1, t);
  }

  /** The GET case appends that handler to the method switch. */
  lemma WhenGetCaseBuilds(t: Tools)
    ensures ExecStmt(Method("GET", WhenGetBody()), InMethodSwitch(), t) ==
            Success(InMethodSwitch().(switches := WhenServer().switches))
  {
    var c1 := InMethodSwitch();
    var cb := c1.(current := WhenGetHandler());
    WhenGetBodyBuilds(t);
    CaseAfterBody(Some(StringEquals("GET")), WhenGetBody(), c1, t, cb, 0);
    assert [] + [SwitchCase(StringEquals("GET"), WhenGetHandler())] == [SwitchCase(StringEquals("GET"), WhenGetHandler())];
    assert cb.switches[0 := cb.switches[0].(cases := [SwitchCase(StringEquals("GET"), WhenGetHandler())])] == WhenServer().switches;
  }

  /** The endpoint registers one mux route to a method switch with a single
      GET case; that case adds "Foo: Bar" around a `when` whose branches were
      both built from the no-op handler. */
  lemma WhenTestBuilds(t: Tools)
    ensures NewMockery(WhenTest(), t) == Success(WhenServer())
  {
    var c1 := InMethodSwitch();
    var c2 := c1.(switches := WhenServer().switches);
    WhenGetCaseBuilds(t);
    assert Exec([Method("GET", WhenGetBody())], c1, t) == Success(c2);
    assert Initial.switches + [SwitchCaseSet(MethodExtractor, [], Fallback(Initial.current))] == c1.switches;
    assert ExecSwitch(MethodExtractor, [Method("GET", WhenGetBody())], Initial, t) == Success(c2.(current := SwitchRef(0)));
    HandleEmpty("/foo/bar", SwitchRef(0));
    var c3 := c2.(mockery := OneRoute("/foo/bar", SwitchRef(0)), current := Noop);
    assert ExecStmt(WhenTest()[0], Initial, t) == Success(c3);
    assert Exec(WhenTest(), Initial, t) == Success(c3);
    SortOne(MuxEntry(DEFAULT_PRIORITY));
  }

  /** Every request the mux routes to the endpoint goes to its method switch. */
  lemma WhenTestRoutes(req: Request, env: Env, fuel: nat)
    requires env.route(["/foo/bar"], req) == "/foo/bar"
    ensures Serve(WhenServer(), req, env, fuel) == Run(SwitchRef(0), req, WhenServer().switches, env, fuel)
  {
    var s := WhenServer();
    assert Patterns(s.mockery) == ["/foo/bar"];
    assert Verdict(s.mockery.handlers[0], s.mockery, req, env) == Some(true);
    ServeFirstMatch(s, req, env, fuel, 0);
  }

  /** The method switch sends a GET to the handler its one case built. */
  lemma WhenGetSelected(req: Request, env: Env, fuel: nat)
    requires req.verb == "GET" && fuel > 0
    ensures Run(SwitchRef(0), req, WhenServer().switches, env, fuel) == Run(WhenGetHandler(), req, WhenServer().switches, env, fuel - 1)
  {
    var sw := WhenServer().switches;
    assert Extract(sw[0].keySupplier, VReq(req)) == Some(VStr("GET"));
    assert Eval(sw[0].cases[0].condition, VStr("GET"), env.matches) == Some(true);
    SwitchFirstMatch(0, req, sw, env, fuel, VStr("GET"), 0);
  }

  /** The GET handler adds "Foo: Bar", then the `when` picks its branch by the
      Accept header. */
  lemma WhenGetEvents(req: Request, switches: seq<SwitchCaseSet>, env: Env, fuel: nat)
    ensures Run(WhenGetHandler(), req, switches, env, fuel) ==
            [HeaderAdd("Foo", "Bar")] +
            (if HeaderGet(req, "Accept") == Json then
               [HeaderAdd("Content-Type", Json)] +
               (match env.file("./ok.json") case None => [WriteHeader(500)] case Some(c) => [WriteHeader(200), Write(c)])
             else [WriteHeader(406)])
  {
    var when := WhenHandler(AcceptsJson(), FileWithType("./ok.json", Json, Noop), NotAcceptable(Noop));
    assert Eval(AcceptsJson(), VReq(req), env.matches) == Some(HeaderGet(req, "Accept") == Json);
    WhenRunsOneBranch(AcceptsJson(), FileWithType("./ok.json", Json, Noop), NotAcceptable(Noop), req, switches, env, fuel);
    RunHeader("Foo", "Bar", when, req, switches, env, fuel);
    RunFileWithType("./ok.json", Json, Noop, req, switches, env, fuel);
    RunNotAcceptable(Noop, req, switches, env, fuel);
    assert [] + [WriteHeader(406)] == [WriteHeader(406)];
  }

  /** The events of a GET the mux routes to the endpoint: the `when` picks its
      branch by the Accept header. */
  lemma WhenTestEvents(req: Request, env: Env, fuel: nat)
    requires req.verb == "GET" && env.route(["/foo/bar"], req) == "/foo/bar" && fuel > 0
    ensures Serve(WhenServer(), req, env, fuel) ==
            [HeaderAdd("Foo", "Bar")] +
            (if HeaderGet(req, "Accept") == Json then
               [HeaderAdd("Content-Type", Json)] +
               (match env.file("./ok.json") case None => [WriteHeader(500)] case Some(c) => [WriteHeader(200), Write(c)])
             else [WriteHeader(406)])
  {
    WhenTestRoutes(req, env, fuel);
    WhenGetSelected(req, env, fuel);
    WhenGetEvents(req, WhenServer().switches, env, fuel - 1);
  }

  /** Without `Accept: application/json` the client gets 406 with "Foo: Bar". */
  lemma WhenTestNotAcceptable(req: Request, env: Env, fuel: nat)
    requires req.verb == "GET" && env.route(["/foo/bar"], req) == "/foo/bar" && fuel > 0
    requires HeaderGet(req, "Accept") != Json
    ensures Observe(Serve(WhenServer(), req, env, fuel)) == Response(406, map["Foo" := ["Bar"]], "", map[])
  {
    WhenTestEvents(req, env, fuel);
    assert Serve(WhenServer(), req, env, fuel) == [HeaderAdd("Foo", "Bar"), WriteHeader(406)];
    ObserveNotAcceptable();
  }

  /** With it the client gets the file at 200, typed as JSON, with "Foo: Bar"
      and no trailers. */
  lemma WhenTestJson(req: Request, env: Env, fuel: nat, content: string)
    requires req.verb == "GET" && env.route(["/foo/bar"], req) == "/foo/bar" && fuel > 0
    requires HeaderGet(req, "Accept") == Json && env.file("./ok.json") == Some(content)
    ensures Observe(Serve(WhenServer(), req, env, fuel)) ==
            Response(200, map["Foo" := ["Bar"], "Content-Type" := [Json]], content, map[])
  {
    WhenTestEvents(req, env, fuel);
    var trace := [HeaderAdd("Foo", "Bar"), HeaderAdd("Content-Type", Json), WriteHeader(200), Write(content)];
    assert Serve(WhenServer(), req, env, fuel) == trace;
    ObserveTwoHeadersThenFile("Foo", "Bar", "Content-Type", Json, trace, content);
  }

  // ---------------------------------------------------------------------------
  // TestSwitch: a `Switch` on the Accept header inside a `Method` inside an
  // `Endpoint`.

  function SwitchCases(): seq<Stmt> {
    [Case(Some(StringEquals(Json)), [RespondWithFile(200, "./ok.json"), Header("Content-Type", Json)]),
     Case(Some(StringEquals(Xml)), [RespondWithFile(200, "./ok.xml"), Header("Content-Type", Xml)]),
     Default([Respond(406)])]
  }

  function SwitchGetBody(): seq<Stmt> {
    [Header("Foo", "Bar"), Switch(ExtractHeader("Accept"), SwitchCases())]
  }

  function SwitchTest(): seq<Stmt> {
    [Endpoint("/foo/bar", [Method("GET", SwitchGetBody())])]
  }

  function Foo(): Handler {
    HeaderDecoration("Foo", "Bar", Noop)
  }

  /** The Accept switch.  The method case `GET` lands in it, not in the
      endpoint's method switch: `Switch` leaves its own set as the current
      switch, and the `Case` that encloses it appends to whatever set is
      current when its body is done. */
  function AcceptSwitch(): SwitchCaseSet {
    SwitchCaseSet(ExtractHeader("Accept"),
                  [SwitchCase(StringEquals(Json), FileWithType("./ok.json", Json, Foo())),
                   SwitchCase(StringEquals(Xml), FileWithType("./ok.xml", Xml, Foo())),
                   SwitchCase(StringEquals("GET"), SwitchRef(1))],
                  NotAcceptable(Foo()))
  }

  /** The endpoint's method switch stays empty and unreachable. */
  function SwitchServer(): Server {
    Server(OneRoute("/foo/bar", SwitchRef(1)),
           [SwitchCaseSet(MethodExtractor, [], Fallback(Noop)), AcceptSwitch()])
  }

  lemma AcceptCasesBuilt(t: Tools)
    ensures FlatBody(SwitchCases(), t)
    ensures FlatCases(SwitchCases(), t, Foo()) == AcceptSwitch().cases[..2]
    ensures FlatDefault(SwitchCases(), t, Foo(), Fallback(Foo())) == NotAcceptable(Foo())
  {
    var b := SwitchCases();
    BuildFile("./ok.json", Json, Foo(), t);
    BuildFile("./ok.xml", Xml, Foo(), t);
    BuildNotAcceptable(Foo(), t);
    assert FlatBody(b, t);
    AcceptCasesFlat(t);
    assert FlatDefault(b, t, Foo(), Fallback(Foo())) == FlatDefault(b[1..], t, Foo(), Fallback(Foo()));
    assert FlatDefault(b[1..], t, Foo(), Fallback(Foo())) == FlatDefault(b[2..], t, Foo(), Fallback(Foo()));
    assert b[2..][1..] == [];
  }

  lemma AcceptCasesFlat(t: Tools)
    requires FlatBody(SwitchCases(), t)
    ensures FlatCases(SwitchCases(), t, Foo()) == AcceptSwitch().cases[..2]
  {
    var b := SwitchCases();
    BuildFile("./ok.json", Json, Foo(), t);
    BuildFile("./ok.xml", Xml, Foo(), t);
    assert b[2..][1..] == [];
    assert FlatCases(b[2..], t, Foo()) == [];
    assert FlatCases(b[1..], t, Foo()) == [AcceptSwitch().cases[1]] + FlatCases(b[2..], t, Foo());
    assert FlatCases(b, t, Foo()) == [AcceptSwitch().cases[0]] + FlatCases(b[1..], t, Foo());
  }

  /** The body of the GET case leaves the Accept switch, still without the GET
      case, as the current switch and the current handler. */
  lemma GetCaseBodyBuilds(t: Tools)
    ensures Exec(SwitchGetBody(), InMethodSwitch(), t) ==
            Success(InMethodSwitch().(switches := InMethodSwitch().switches + [AcceptSwitch().(cases := AcceptSwitch().cases[..2])],
                                      currentSwitch := Some(1), current := SwitchRef(1)))
  {
    var c1 := InMethodSwitch();
    var cf := c1.(current := Foo());
    assert ExecStmt(Header("Foo", "Bar"), c1, t) == Success(cf);
    AcceptCasesBuilt(t);
    FlatSwitch(ExtractHeader("Accept"), SwitchCases(), cf, t);
    ExecTwo(SwitchGetBody(), c1, t);
  }

  /** The GET case appends itself to the Accept switch, which is current when
      its body is done, and restores the current handler. */
  lemma GetCaseBuilds(t: Tools)
    ensures ExecStmt(Method("GET", SwitchGetBody()), InMethodSwitch(), t) ==
            Success(InMethodSwitch().(switches := SwitchServer().switches, currentSwitch := Some(1)))
  {
    var c1 := InMethodSwitch();
    GetCaseBodyBuilds(t);
    var inner := AcceptSwitch().(cases := AcceptSwitch().cases[..2]);
    var cs := c1.(switches := c1.switches + [inner], currentSwitch := Some(1), current := SwitchRef(1));
    CaseAfterBody(Some(StringEquals("GET")), SwitchGetBody(), c1, t, cs, 1);
    assert inner.(cases := inner.cases + [SwitchCase(StringEquals("GET"), SwitchRef(1))]) == AcceptSwitch();
    assert cs.switches[1 := AcceptSwitch()] == SwitchServer().switches;
  }

  lemma SwitchTestBuilds(t: Tools)
    ensures NewMockery(SwitchTest(), t) == Success(SwitchServer())
  {
    var c1 := InMethodSwitch();
    var c2 := c1.(switches := SwitchServer().switches, currentSwitch := Some(1));
    GetCaseBuilds(t);
    assert Exec([Method("GET", SwitchGetBody())], c1, t) == Success(c2);
    assert Initial.switches + [SwitchCaseSet(MethodExtractor, [], Fallback(Initial.current))] == c1.switches;
    assert ExecSwitch(MethodExtractor, [Method("GET", SwitchGetBody())], Initial, t) == Success(c2.(current := SwitchRef(1)));
    HandleEmpty("/foo/bar", SwitchRef(1));
    var c3 := c2.(mockery := OneRoute("/foo/bar", SwitchRef(1)), current := Noop);
    assert ExecStmt(SwitchTest()[0], Initial, t) == Success(c3);
    assert Exec(SwitchTest(), Initial, t) == Success(c3);
    SortOne(MuxEntry(DEFAULT_PRIORITY));
  }

  /** Every request the mux routes to the endpoint goes straight to the Accept
      switch, whatever its method. */
  lemma SwitchTestRoutes(req: Request, env: Env, fuel: nat)
    requires env.route(["/foo/bar"], req) == "/foo/bar"
    ensures Serve(SwitchServer(), req, env, fuel) == Run(SwitchRef(1), req, SwitchServer().switches, env, fuel)
  {
    var s := SwitchServer();
    assert Patterns(s.mockery) == ["/foo/bar"];
    assert Verdict(s.mockery.handlers[0], s.mockery, req, env) == Some(true);
    ServeFirstMatch(s, req, env, fuel, 0);
  }

  /** The position of the first Accept case that accepts `accept`; 3 for none. */
  function AcceptIndex(accept: string): nat {
    if accept == Json then 0 else if accept == Xml then 1 else if accept == "GET" then 2 else 3
  }

  /** The branch of the Accept switch that handles Accept value `accept`. */
  function AcceptBranch(accept: string): Handler {
    var i := AcceptIndex(accept);
    if i < 3 then AcceptSwitch().cases[i].response else AcceptSwitch().defaultHandler
  }

  /** The Accept switch runs the first case equal to the Accept header, or its
      default. */
  lemma AcceptSelects(req: Request, env: Env, fuel: nat)
    requires fuel > 0
    ensures Run(SwitchRef(1), req, SwitchServer().switches, env, fuel) ==
            Run(AcceptBranch(HeaderGet(req, "Accept")), req, SwitchServer().switches, env, fuel - 1)
  {
    var sw := SwitchServer().switches;
    var a := HeaderGet(req, "Accept");
    var i := AcceptIndex(a);
    assert Extract(sw[1].keySupplier, VReq(req)) == Some(VStr(a));
    assert forall j :: 0 <= j < 3 ==> Eval(sw[1].cases[j].condition, VStr(a), env.matches) == Some(sw[1].cases[j].condition.value == a);
    SwitchFirstMatch(1, req, sw, env, fuel, VStr(a), i);
  }

  /** A typed file around "Foo: Bar": the type, "Foo", then the file at 200. */
  lemma TypedFileEvents(name: string, contentType: string, content: string, req: Request, switches: seq<SwitchCaseSet>, env: Env, fuel: nat)
    requires env.file(name) == Some(content)
    ensures Run(FileWithType(name, contentType, Foo()), req, switches, env, fuel) ==
            [HeaderAdd("Content-Type", contentType), HeaderAdd("Foo", "Bar"), WriteHeader(200), Write(content)]
  {
    RunFileWithType(name, contentType, Foo(), req, switches, env, fuel);
    RunHeader("Foo", "Bar", Noop, req, switches, env, fuel);
  }

  /** A file branch of the Accept switch: the type, "Foo", then the file at 200. */
  lemma AcceptFileEvents(req: Request, env: Env, fuel: nat, name: string, contentType: string, content: string)
    requires fuel > 0 && env.file(name) == Some(content)
    requires AcceptBranch(HeaderGet(req, "Accept")) == FileWithType(name, contentType, Foo())
    ensures Run(SwitchRef(1), req, SwitchServer().switches, env, fuel) ==
            [HeaderAdd("Content-Type", contentType), HeaderAdd("Foo", "Bar"), WriteHeader(200), Write(content)]
  {
    AcceptSelects(req, env, fuel);
    TypedFileEvents(name, contentType, content, req, SwitchServer().switches, env, fuel - 1);
  }

  lemma ObserveTypedFile(contentType: string, content: string)
    ensures Observe([HeaderAdd("Content-Type", contentType), HeaderAdd("Foo", "Bar"), WriteHeader(200), Write(content)]) ==
            Response(200, map["Foo" := ["Bar"], "Content-Type" := [contentType]], content, map[])
  {
    var trace := [HeaderAdd("Content-Type", contentType), HeaderAdd("Foo", "Bar"), WriteHeader(200), Write(content)];
    ObserveTwoHeadersThenFile("Content-Type", contentType, "Foo", "Bar", trace, content);
    assert map["Content-Type" := [contentType], "Foo" := ["Bar"]] == map["Foo" := ["Bar"], "Content-Type" := [contentType]];
  }

  /** `Accept: application/json` gets the JSON file with "Foo: Bar". */
  lemma SwitchTestJson(req: Request, env: Env, fuel: nat, content: string)
    requires env.route(["/foo/bar"], req) == "/foo/bar" && fuel > 0
    requires HeaderGet(req, "Accept") == Json && env.file("./ok.json") == Some(content)
    ensures Observe(Serve(SwitchServer(), req, env, fuel)) ==
            Response(200, map["Foo" := ["Bar"], "Content-Type" := [Json]], content, map[])
  {
    SwitchTestRoutes(req, env, fuel);
    assert AcceptBranch(Json) == FileWithType("./ok.json", Json, Foo());
    AcceptFileEvents(req, env, fuel, "./ok.json", Json, content);
    ObserveTypedFile(Json, content);
  }

  /** `Accept: application/xml` gets the XML file with "Foo: Bar". */
  lemma SwitchTestXml(req: Request, env: Env, fuel: nat, content: string)
    requires env.route(["/foo/bar"], req) == "/foo/bar" && fuel > 0
    requires HeaderGet(req, "Accept") == Xml && env.file("./ok.xml") == Some(content)
    ensures Observe(Serve(SwitchServer(), req, env, fuel)) ==
            Response(200, map["Foo" := ["Bar"], "Content-Type" := [Xml]], content, map[])
  {
    SwitchTestRoutes(req, env, fuel);
    assert AcceptBranch(Xml) == FileWithType("./ok.xml", Xml, Foo());
    AcceptFileEvents(req, env, fuel, "./ok.xml", Xml, content);
    ObserveTypedFile(Xml, content);
  }

  /** Any other Accept value except "GET" gets the default: 406 with "Foo: Bar". */
  lemma SwitchTestDefault(req: Request, env: Env, fuel: nat)
    requires env.route(["/foo/bar"], req) == "/foo/bar" && fuel > 0
    requires HeaderGet(req, "Accept") !in {Json, Xml, "GET"}
    ensures Observe(Serve(SwitchServer(), req, env, fuel)) == Response(406, map["Foo" := ["Bar"]], "", map[])
  {
    SwitchTestRoutes(req, env, fuel);
    AcceptSelects(req, env, fuel);
    assert AcceptBranch(HeaderGet(req, "Accept")) == NotAcceptable(Foo());
    RunNotAcceptable(Foo(), req, SwitchServer().switches, env, fuel - 1);
    RunHeader("Foo", "Bar", Noop, req, SwitchServer().switches, env, fuel - 1);
    assert Serve(SwitchServer(), req, env, fuel) == [HeaderAdd("Foo", "Bar"), WriteHeader(406)];
    ObserveNotAcceptable();
  }

  /** `Accept: GET` selects the misplaced method case, which refers back to the
      Accept switch itself: the handler recurses until the stack is exhausted,
      at every depth bound. */
  lemma {:induction false} SwitchTestLoops(req: Request, env: Env, fuel: nat)
    requires HeaderGet(req, "Accept") == "GET"
    ensures Run(SwitchRef(1), req, SwitchServer().switches, env, fuel) == [Overflow]
    decreases fuel
  {
    if fuel > 0 {
      AcceptSelects(req, env, fuel);
      assert AcceptBranch("GET") == SwitchRef(1);
      SwitchTestLoops(req, env, fuel - 1);
    }
  }

  /** So the client of such a request gets no response. */
  lemma SwitchTestAcceptGetAborts(req: Request, env: Env, fuel: nat)
    requires env.route(["/foo/bar"], req) == "/foo/bar"
    requires HeaderGet(req, "Accept") == "GET"
    ensures Observe(Serve(SwitchServer(), req, env, fuel)) == Aborted
  {
    SwitchTestRoutes(req, env, fuel);
    SwitchTestLoops(req, env, fuel);
  }

  /** The method is never tested: a request differing only in its method is
      answered identically. */
  lemma SwitchTestIgnoresMethod(req: Request, verb: string, env: Env, fuel: nat)
    requires env.route(["/foo/bar"], req) == "/foo/bar" && env.route(["/foo/bar"], req.(verb := verb)) == "/foo/bar"
    ensures Serve(SwitchServer(), req.(verb := verb), env, fuel) == Serve(SwitchServer(), req, env, fuel)
  {
    SwitchTestRoutes(req, env, fuel);
    SwitchTestRoutes(req.(verb := verb), env, fuel);
    AcceptIgnoresMethod(req, verb, env, fuel);
  }

  /** A handler with no `when` and no switch in it. */
  predicate Plain(h: Handler) {
    match h
    case Decorated(pre, d, post) => Plain(pre) && Plain(d) && Plain(post)
    case WhenHandler(_, _, _) => false
    case SwitchRef(_) => false
    case _ => true
  }

  /** A plain handler's events do not depend on the request at all. */
  lemma {:induction false} PlainIgnoresRequest(h: Handler, req: Request, req': Request, switches: seq<SwitchCaseSet>, env: Env, fuel: nat)
    requires Plain(h)
    ensures Run(h, req', switches, env, fuel) == Run(h, req, switches, env, fuel)
    decreases h
  {
    match h
    case Decorated(pre, d, post) =>
      PlainIgnoresRequest(pre, req, req', switches, env, fuel);
      PlainIgnoresRequest(d, req, req', switches, env, fuel);
      PlainIgnoresRequest(post, req, req', switches, env, fuel);
    case _ =>
  }

  /** Every branch of the Accept switch but the GET case is plain. */
  lemma AcceptLeavesPlain(accept: string)
    requires accept != "GET"
    ensures Plain(AcceptBranch(accept))
  {
    assert Plain(Foo());
    assert Plain(FileWithType("./ok.json", Json, Foo()));
    assert Plain(FileWithType("./ok.xml", Xml, Foo()));
    assert Plain(NotAcceptable(Foo()));
  }

  /** The Accept switch never looks at the request method, at any depth. */
  lemma {:induction false} AcceptIgnoresMethod(req: Request, verb: string, env: Env, fuel: nat)
    ensures Run(SwitchRef(1), req.(verb := verb), SwitchServer().switches, env, fuel) ==
            Run(SwitchRef(1), req, SwitchServer().switches, env, fuel)
    decreases fuel
  {
    if fuel > 0 {
      var req' := req.(verb := verb);
      var switches := SwitchServer().switches;
      var a := HeaderGet(req, "Accept");
      assert HeaderGet(req', "Accept") == a;
      AcceptSelects(req, env, fuel);
      AcceptSelects(req', env, fuel);
      if a == "GET" {
        assert AcceptBranch(a) == SwitchRef(1);
        AcceptIgnoresMethod(req, verb, env, fuel - 1);
      } else {
        AcceptLeavesPlain(a);
        PlainIgnoresRequest(AcceptBranch(a), req, req', switches, env, fuel - 1);
      }
    }
  }
}
