/** The configuration DSL of httpmock.  In Go the user's configuration is a
    closure calling DSL functions that mutate three globals: the handler being
    decorated (`currentMockHandler`), the mockery being filled
    (`currentMockery`) and the switch that `Case` adds to (`currentSwitch`).
    Here a configuration is a list of statements, the globals are the fields of
    `Config`, and `Exec` interprets the list, failing where Go panics. */
module Dsl {
  import opened Base
  import opened Http
  import opened Conditional
  import Delay
  import opened Handlers
  import opened Mockery

  /** The body argument of `WriteStatusAndBody`: a string or byte slice is
      written as is; any other value goes through `json.Marshal`, whose output
      (None when marshalling fails) is given here. */
  datatype Body = Text(data: string) | Marshalled(json: Option<string>)

  /** One DSL call.  A body is the list of calls its closure makes. */
  datatype Stmt =
    | Header(name: string, value: string)
    | Trailer(name: string, value: string)
    | Respond(status: int)
    | RespondWithJson(status: int, encoded: string)       // what json.Encoder wrote ("" when it failed)
    | RespondWithFile(status: int, fileName: string)
    | WriteStatusAndBody(status: int, content: Body)
    | LogLocation(comment: string)
    | FixedDelay(duration: string)
    | UniformDelay(min: string, max: string)
    | NormalDelay(mean: string, stdDev: string, max: string)
    | When(condition: Predicate, onTrue: seq<Stmt>, onFalse: seq<Stmt>)
    | Switch(key: Extractor, body: seq<Stmt>)
    | Case(guard: Option<Predicate>, body: seq<Stmt>)  // None is `Case(nil, …)`, i.e. `Default`
    | Endpoint(url: string, body: seq<Stmt>)
    | EndpointPattern(pattern: string, body: seq<Stmt>)
    | EndpointForConditionWithPriority(priority: int, condition: Predicate, body: seq<Stmt>)

  // The DSL functions that are defined by another one.

  function Method(verb: string, body: seq<Stmt>): Stmt {
    Case(Some(StringEquals(verb)), body)
  }

  function Default(body: seq<Stmt>): Stmt {
    Case(None, body)
  }

  function EndpointForCondition(condition: Predicate, body: seq<Stmt>): Stmt {
    EndpointForConditionWithPriority(DEFAULT_PRIORITY, condition, body)
  }

  function RespondWithString(status: int, body: string): Stmt {
    WriteStatusAndBody(status, Text(body))
  }

  function Created(): Stmt {
    Respond(201)
  }

  function NotFound(): Stmt {
    Respond(404)
  }

  function RespondWithBadRequest(body: Body): Stmt {
    WriteStatusAndBody(400, body)
  }

  function RespondWithInternalServerError(body: Body): Stmt {
    WriteStatusAndBody(500, body)
  }

  /** The configuration-time oracles: `time.ParseDuration` and whether
      `regexp.MustCompile` accepts a pattern. */
  datatype Tools = Tools(parseDuration: Delay.DurationParser, compiles: string -> bool)

  /** The three globals.  `currentSwitch` is an index into the switch arena. */
  datatype Config = Config(current: Handler, currentSwitch: Option<nat>, switches: seq<SwitchCaseSet>, mockery: Mockery)

  predicate Valid(c: Config) {
    c.currentSwitch.Some? ==> c.currentSwitch.value < |c.switches|
  }

  /** What a statement can never undo: a current switch stays set (Go never
      resets `currentSwitch`) and the arena only grows. */
  predicate Grows(c: Config, c': Config) {
    (c.currentSwitch.Some? ==> c'.currentSwitch.Some?) && |c.switches| <= |c'.switches|
  }

  /** The state `Mockery(...)` starts its configuration from. */
  const Initial := Config(Noop, None, [], Empty)

  // ---------------------------------------------------------------------------
  // Decorating statements

  /** The statements that only decorate the current handler. */
  predicate IsDecorator(s: Stmt) {
    !(s.When? || s.Switch? || s.Case? || s.Endpoint? || s.EndpointPattern? || s.EndpointForConditionWithPriority?)
  }

  /** The decorating statements that succeed: a body that cannot be marshalled
      and an unparsable duration panic. */
  predicate Leaf(s: Stmt, t: Tools) {
    IsDecorator(s) &&
    match s
    case WriteStatusAndBody(_, Marshalled(json)) => json.Some?
    case FixedDelay(d) => t.parseDuration(d).Some?
    case UniformDelay(lo, hi) => t.parseDuration(lo).Some? && t.parseDuration(hi).Some?
    case NormalDelay(m, sd, mx) => t.parseDuration(m).Some? && t.parseDuration(sd).Some? && t.parseDuration(mx).Some?
    case _ => true
  }

  predicate Leaves(ss: seq<Stmt>, t: Tools) {
    forall i :: 0 <= i < |ss| ==> Leaf(ss[i], t)
  }

  /** `Header(n, v)`: a pre-action adding the header. */
  function HeaderDecoration(name: string, value: string, h: Handler): Handler {
    Decorated(Emit([HeaderAdd(name, value)]), h, Noop)
  }

  /** The handler a decorating statement makes of the current handler `h`:
      `DecorateHandler(pre, post)` wraps `h` as `Decorated(pre, h, post)`. */
  function Decorate(s: Stmt, t: Tools, h: Handler): (r: Result<Handler, ConfigError>)
    requires IsDecorator(s)
    ensures r.Success? <==> Leaf(s, t)
    ensures s.WriteStatusAndBody? && s.content == Marshalled(None) ==> r == Failure(MarshalFailed)
    ensures s.FixedDelay? && r.Failure? ==> r.error == DurationParse("FixedDelay", "time")
    ensures s.UniformDelay? && r.Failure? ==> r.error.DurationParse? && r.error.op == "UniformDelay"
    ensures s.NormalDelay? && r.Failure? ==> r.error.DurationParse? && r.error.op == "NormalDelay"
  {
    match s
    case Header(n, v) => Success(HeaderDecoration(n, v, h))
    case Trailer(n, v) => Success(Decorated(Emit([HeaderAdd("Trailer", n)]), h, Emit([HeaderAdd(n, v)])))
    case Respond(status) => Success(Decorated(Noop, h, Emit([WriteHeader(status)])))
    case RespondWithJson(status, encoded) =>
      Success(Decorated(Noop, h, Emit([HeaderSet("Content-Type", "application/json"), WriteHeader(status), Write(encoded)])))
    case RespondWithFile(status, name) => Success(Decorated(Noop, h, ServeFile(status, name)))
    case WriteStatusAndBody(status, Text(data)) => Success(Decorated(Noop, h, Emit([WriteHeader(status), Write(data)])))
    case WriteStatusAndBody(status, Marshalled(json)) =>
      (match json
       case None => Failure(MarshalFailed)
       case Some(data) =>
         var typed := HeaderDecoration("Content-Type", "application/json", h);
         Success(Decorated(Noop, typed, Emit([WriteHeader(status), Write(data)]))))
    case LogLocation(comment) => Success(Decorated(LogLine(comment), h, Noop))
    case FixedDelay(d) =>
      var sampler :- Delay.FixedDelay(d, t.parseDuration);
      Success(Decorated(Wait(sampler), h, Noop))
    case UniformDelay(lo, hi) =>
      var sampler :- Delay.UniformDelay(lo, hi, t.parseDuration);
      Success(Decorated(Wait(sampler), h, Noop))
    case NormalDelay(m, sd, mx) =>
      var sampler :- Delay.NormalDelay(m, sd, mx, t.parseDuration);
      Success(Decorated(Wait(sampler), h, Noop))
  }

  /** The fallback `Switch` installs: the handler current before it, then 404. */
  function Fallback(h: Handler): Handler {
    Decorated(Noop, h, Emit([WriteHeader(404)]))
  }

  /** The statements after which the current handler is the one before them. */
  predicate RestoresCurrent(s: Stmt) {
    s.Case? || s.Endpoint? || s.EndpointPattern? || s.EndpointForConditionWithPriority?
  }

  // ---------------------------------------------------------------------------
  // The interpreter

  function Exec(ss: seq<Stmt>, c: Config, t: Tools): (r: Result<Config, ConfigError>)
    requires Valid(c)
    ensures r.Success? ==> Valid(r.value) && Grows(c, r.value)
    decreases ss, 1
  {
    if ss == [] then Success(c)
    else
      var c1 :- ExecStmt(ss[0], c, t);
      Exec(ss[1..], c1, t)
  }

  function ExecStmt(s: Stmt, c: Config, t: Tools): (r: Result<Config, ConfigError>)
    requires Valid(c)
    ensures r.Success? ==> Valid(r.value) && Grows(c, r.value)
    ensures r.Success? && RestoresCurrent(s) ==> r.value.current == c.current
    ensures r.Success? && s.Switch? ==> r.value.currentSwitch.Some? && r.value.current == SwitchRef(r.value.currentSwitch.value)
    ensures r.Success? && s.When? ==> r.value.current.WhenHandler? && r.value.current.condition == s.condition
    ensures s.Case? && c.currentSwitch.None? && r.Failure? && Exec(s.body, c, t).Success? ==> r.error == CaseOutsideSwitch
    decreases s, 1
  {
    match s
    case When(p, onTrue, onFalse) =>
      var ct :- Exec(onTrue, c, t);
      var cf :- Exec(onFalse, ct.(current := c.current), t);
      Success(cf.(current := WhenHandler(p, ct.current, cf.current)))
    case Switch(key, body) => ExecSwitch(key, body, c, t)
    case Case(p, body) =>
      var cb :- Exec(body, c, t);
      (match cb.currentSwitch
       case None => Failure(CaseOutsideSwitch)
       case Some(k) =>
         var sw := cb.switches[k];
         var sw' := if p.Some? then sw.(cases := sw.cases + [SwitchCase(p.value, cb.current)])
                    else sw.(defaultHandler := cb.current);
         Success(cb.(switches := cb.switches[k := sw'], current := c.current)))
    case Endpoint(url, body) =>
      var cs :- ExecSwitch(MethodExtractor, body, c, t);
      var m :- Handle(cs.mockery, url, cs.current);
      Success(cs.(mockery := m, current := c.current))
    case EndpointPattern(pattern, body) =>
      if !t.compiles(pattern) then Failure(InvalidRegex(pattern))
      else ExecEndpoint(DEFAULT_PRIORITY, PathMatches(pattern), body, c, t)
    case EndpointForConditionWithPriority(priority, p, body) => ExecEndpoint(priority, p, body, c, t)
    case _ =>
      var h :- Decorate(s, t, c.current);
      Success(c.(current := h))
  }

  /** `Switch(key, body)`: a new switch whose fallback is the current handler
      then 404 becomes the current switch; after the body, whatever switch is
      current then becomes the current handler. */
  function ExecSwitch(key: Extractor, body: seq<Stmt>, c: Config, t: Tools): (r: Result<Config, ConfigError>)
    requires Valid(c)
    ensures r.Success? ==> Valid(r.value) && Grows(c, r.value) && |c.switches| < |r.value.switches|
    ensures r.Success? ==> r.value.currentSwitch.Some? && r.value.current == SwitchRef(r.value.currentSwitch.value)
    decreases body, 2
  {
    var k := |c.switches|;
    var c1 := c.(switches := c.switches + [SwitchCaseSet(key, [], Fallback(c.current))], currentSwitch := Some(k));
    var cb :- Exec(body, c1, t);
    Success(cb.(current := SwitchRef(cb.currentSwitch.value)))
  }

  /** `EndpointForConditionWithPriority`: the body decorates the current
      handler, the result is registered, and the current handler is restored. */
  function ExecEndpoint(priority: int, p: Predicate, body: seq<Stmt>, c: Config, t: Tools): (r: Result<Config, ConfigError>)
    requires Valid(c)
    ensures r.Success? ==> Valid(r.value) && Grows(c, r.value) && r.value.current == c.current
    ensures r.Success? ==> Exec(body, c, t).Success? &&
                           r.value.mockery.handlers == Exec(body, c, t).value.mockery.handlers + [Entry(priority, p, Exec(body, c, t).value.current)]
    decreases body, 2
  {
    var cb :- Exec(body, c, t);
    Success(cb.(mockery := HandleForCondition(cb.mockery, priority, p, cb.current), current := c.current))
  }

  /** `Mockery(config)`: run the configuration from an empty mockery with the
      no-op handler current, then sort the registrations stably by priority:
      registrations of equal priority keep their registration order. */
  function NewMockery(ss: seq<Stmt>, t: Tools): (r: Result<Server, ConfigError>)
    ensures r.Success? <==> Exec(ss, Initial, t).Success?
    ensures r.Success? ==> SortedByPriority(r.value.mockery.handlers) &&
                           multiset(r.value.mockery.handlers) == multiset(Exec(ss, Initial, t).value.mockery.handlers)
    ensures r.Success? ==> forall p :: WithPriority(r.value.mockery.handlers, p) ==
                                       WithPriority(Exec(ss, Initial, t).value.mockery.handlers, p)
    ensures r.Success? ==> r.value.mockery.mux == Exec(ss, Initial, t).value.mockery.mux &&
                           r.value.switches == Exec(ss, Initial, t).value.switches
  {
    var c :- Exec(ss, Initial, t);
    Success(Server(c.mockery.(handlers := SortByPriority(c.mockery.handlers)), c.switches))
  }
}
