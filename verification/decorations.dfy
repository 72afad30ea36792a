/** What the decorating statements of httpmock/decorators.go,
    httpmock/responses.go and httpmock/delay.go do to a request: each wraps the
    current handler between a pre-action and a post-action.  `PreEvents` and
    `PostEvents` list those actions' events statement by statement;
    `DecoratorSandwich` connects the table with the handlers `Decorate` builds. */
module Decorations {
  import opened Base
  import opened Http
  import opened Conditional
  import Delay
  import opened Handlers
  import opened Mockery
  import opened Dsl

  /** The events a decorating statement adds before the handler it wraps. */
  function PreEvents(s: Stmt, t: Tools, env: Env): seq<Event>
    requires Leaf(s, t)
  {
    match s
    case Header(n, v) => [HeaderAdd(n, v)]
    case Trailer(n, _) => [HeaderAdd("Trailer", n)]
    case WriteStatusAndBody(_, Marshalled(_)) => [HeaderAdd("Content-Type", "application/json")]
    case FixedDelay(d) => [Sleep(t.parseDuration(d).value)]
    case UniformDelay(lo, hi) =>
      Delay.WaitEvents(Delay.Uniform(t.parseDuration(lo).value, t.parseDuration(hi).value), env)
    case NormalDelay(m, sd, mx) =>
      Delay.WaitEvents(Delay.LogNormal(t.parseDuration(m).value, t.parseDuration(sd).value, t.parseDuration(mx).value), env)
    case _ => []
  }

  /** The events a decorating statement adds after the handler it wraps. */
  function PostEvents(s: Stmt, t: Tools, env: Env): seq<Event>
    requires Leaf(s, t)
  {
    match s
    case Trailer(n, v) => [HeaderAdd(n, v)]
    case Respond(status) => [WriteHeader(status)]
    case RespondWithJson(status, encoded) => [HeaderSet("Content-Type", "application/json"), WriteHeader(status), Write(encoded)]
    case RespondWithFile(status, name) =>
      (match env.file(name)
       case None => [WriteHeader(500)]
       case Some(content) => [WriteHeader(status), Write(content)])
    case WriteStatusAndBody(status, Text(data)) => [WriteHeader(status), Write(data)]
    case WriteStatusAndBody(status, Marshalled(json)) => [WriteHeader(status), Write(json.value)]
    case _ => []
  }

  /** Every decorating statement runs its pre-events, then the handler it
      wraps exactly once, then its post-events. */
  lemma DecoratorSandwich(s: Stmt, t: Tools, h: Handler, req: Request, switches: seq<SwitchCaseSet>, env: Env, fuel: nat)
    requires Leaf(s, t)
    ensures Run(Decorate(s, t, h).value, req, switches, env, fuel) ==
              PreEvents(s, t, env) + Run(h, req, switches, env, fuel) + PostEvents(s, t, env)
  {
    if s.WriteStatusAndBody? && s.content.Marshalled? {
      MarshalledSandwich(s.status, s.content.json.value, t, h, req, switches, env, fuel);
    } else if s.FixedDelay? || s.UniformDelay? || s.NormalDelay? {
      DelaySandwich(s, t, h, req, switches, env, fuel);
    } else {
      PlainSandwich(s, t, h, req, switches, env, fuel);
    }
  }

  lemma MarshalledSandwich(status: int, data: string, t: Tools, h: Handler, req: Request, switches: seq<SwitchCaseSet>, env: Env, fuel: nat)
    ensures Run(Decorate(WriteStatusAndBody(status, Marshalled(Some(data))), t, h).value, req, switches, env, fuel) ==
              [HeaderAdd("Content-Type", "application/json")] + Run(h, req, switches, env, fuel) + [WriteHeader(status), Write(data)]
  {
    var typed := HeaderDecoration("Content-Type", "application/json", h);
    assert Run(typed, req, switches, env, fuel) == [HeaderAdd("Content-Type", "application/json")] + Run(h, req, switches, env, fuel) + [];
  }

  lemma DelaySandwich(s: Stmt, t: Tools, h: Handler, req: Request, switches: seq<SwitchCaseSet>, env: Env, fuel: nat)
    requires s.FixedDelay? || s.UniformDelay? || s.NormalDelay?
    requires Leaf(s, t)
    ensures Run(Decorate(s, t, h).value, req, switches, env, fuel) ==
              PreEvents(s, t, env) + Run(h, req, switches, env, fuel) + PostEvents(s, t, env)
  {
    if s.FixedDelay? {
      assert Delay.WaitEvents(Delay.Fixed(t.parseDuration(s.duration).value), env) == [Sleep(t.parseDuration(s.duration).value)];
    }
  }

  lemma PlainSandwich(s: Stmt, t: Tools, h: Handler, req: Request, switches: seq<SwitchCaseSet>, env: Env, fuel: nat)
    requires Leaf(s, t)
    requires !(s.WriteStatusAndBody? && s.content.Marshalled?) && !(s.FixedDelay? || s.UniformDelay? || s.NormalDelay?)
    ensures Run(Decorate(s, t, h).value, req, switches, env, fuel) ==
              PreEvents(s, t, env) + Run(h, req, switches, env, fuel) + PostEvents(s, t, env)
  {
  }

  /** The handler a list of decorating statements makes of `h`: each
      statement wraps the result of the ones before it. */
  function Build(ss: seq<Stmt>, t: Tools, h: Handler): Handler
    requires Leaves(ss, t)
    decreases |ss|
  {
    if ss == [] then h else Build(ss[1..], t, Decorate(ss[0], t, h).value)
  }

  /** The pre-events of a list: the last statement's come first. */
  function PreAll(ss: seq<Stmt>, t: Tools, env: Env): seq<Event>
    requires Leaves(ss, t)
    decreases |ss|
  {
    if ss == [] then [] else PreAll(ss[1..], t, env) + PreEvents(ss[0], t, env)
  }

  /** The post-events of a list: the first statement's come first. */
  function PostAll(ss: seq<Stmt>, t: Tools, env: Env): seq<Event>
    requires Leaves(ss, t)
    decreases |ss|
  {
    if ss == [] then [] else PostEvents(ss[0], t, env) + PostAll(ss[1..], t, env)
  }

  /** Successive decorations nest outward: the handler they wrap runs once, in
      the middle, with the later statements' pre-actions before and their
      post-actions after the earlier ones'. */
  lemma {:induction false} BuildSandwich(ss: seq<Stmt>, t: Tools, h: Handler, req: Request, switches: seq<SwitchCaseSet>, env: Env, fuel: nat)
    requires Leaves(ss, t)
    ensures Run(Build(ss, t, h), req, switches, env, fuel) ==
              PreAll(ss, t, env) + Run(h, req, switches, env, fuel) + PostAll(ss, t, env)
    decreases |ss|
  {
    if ss != [] {
      var h1 := Decorate(ss[0], t, h).value;
      DecoratorSandwich(ss[0], t, h, req, switches, env, fuel);
      BuildSandwich(ss[1..], t, h1, req, switches, env, fuel);
      var pre, post := PreEvents(ss[0], t, env), PostEvents(ss[0], t, env);
      var core := Run(h, req, switches, env, fuel);
      assert Build(ss, t, h) == Build(ss[1..], t, h1);
      Regroup(PreAll(ss[1..], t, env), pre, core, post, PostAll(ss[1..], t, env));
      assert PreAll(ss, t, env) == PreAll(ss[1..], t, env) + pre;
      assert PostAll(ss, t, env) == post + PostAll(ss[1..], t, env);
    }
  }

  /** Interpreting decorating statements changes nothing but the current
      handler, which becomes their `Build`. */
  lemma {:induction false} ExecLeaves(ss: seq<Stmt>, c: Config, t: Tools)
    requires Valid(c) && Leaves(ss, t)
    ensures Exec(ss, c, t) == Success(c.(current := Build(ss, t, c.current)))
    decreases |ss|
  {
    if ss != [] {
      var c1 := c.(current := Decorate(ss[0], t, c.current).value);
      assert ExecStmt(ss[0], c, t) == Success(c1);
      assert Exec(ss, c, t) == Exec(ss[1..], c1, t);
      assert Leaves(ss[1..], t);
      ExecLeaves(ss[1..], c1, t);
      assert Build(ss, t, c.current) == Build(ss[1..], t, c1.current);
    }
  }

  /** Two decorations: pre2, pre1, core, post1, post2. */
  lemma TwoDecorationsNest(s1: Stmt, s2: Stmt, t: Tools, h: Handler, req: Request, switches: seq<SwitchCaseSet>, env: Env, fuel: nat)
    requires Leaf(s1, t) && Leaf(s2, t)
    ensures Run(Build([s1, s2], t, h), req, switches, env, fuel) ==
              PreEvents(s2, t, env) + PreEvents(s1, t, env) + Run(h, req, switches, env, fuel) +
              PostEvents(s1, t, env) + PostEvents(s2, t, env)
  {
    BuildSandwich([s1, s2], t, h, req, switches, env, fuel);
    assert [s1, s2][1..] == [s2];
    assert [s2][1..] == [];
    assert PreAll([s2], t, env) == PreEvents(s2, t, env);
    assert PostAll([s2], t, env) == PostEvents(s2, t, env);
    assert PreAll([s1, s2], t, env) == PreEvents(s2, t, env) + PreEvents(s1, t, env);
    assert PostAll([s1, s2], t, env) == PostEvents(s1, t, env) + PostEvents(s2, t, env);
  }

  /** A `Header` is a pre-action, so it has the same effect declared before
      or after a response statement. */
  lemma HeaderEitherSide(name: string, value: string, r: Stmt, t: Tools, h: Handler, req: Request, switches: seq<SwitchCaseSet>, env: Env, fuel: nat)
    requires Leaf(r, t) && PreEvents(r, t, env) == []
    ensures Run(Build([Header(name, value), r], t, h), req, switches, env, fuel) ==
            Run(Build([r, Header(name, value)], t, h), req, switches, env, fuel)
    ensures Run(Build([r, Header(name, value)], t, h), req, switches, env, fuel) ==
              [HeaderAdd(name, value)] + Run(h, req, switches, env, fuel) + PostEvents(r, t, env)
  {
    HeaderBeforeResponse(name, value, r, t, h, req, switches, env, fuel);
    HeaderAfterResponse(name, value, r, t, h, req, switches, env, fuel);
  }

  lemma HeaderBeforeResponse(name: string, value: string, r: Stmt, t: Tools, h: Handler, req: Request, switches: seq<SwitchCaseSet>, env: Env, fuel: nat)
    requires Leaf(r, t) && PreEvents(r, t, env) == []
    ensures Run(Build([Header(name, value), r], t, h), req, switches, env, fuel) ==
              [HeaderAdd(name, value)] + Run(h, req, switches, env, fuel) + PostEvents(r, t, env)
  {
    var core := Run(h, req, switches, env, fuel);
    TwoDecorationsNest(Header(name, value), r, t, h, req, switches, env, fuel);
    assert [] + [HeaderAdd(name, value)] + core + [] + PostEvents(r, t, env) == [HeaderAdd(name, value)] + core + PostEvents(r, t, env);
  }

  lemma HeaderAfterResponse(name: string, value: string, r: Stmt, t: Tools, h: Handler, req: Request, switches: seq<SwitchCaseSet>, env: Env, fuel: nat)
    requires Leaf(r, t) && PreEvents(r, t, env) == []
    ensures Run(Build([r, Header(name, value)], t, h), req, switches, env, fuel) ==
              [HeaderAdd(name, value)] + Run(h, req, switches, env, fuel) + PostEvents(r, t, env)
  {
    var core := Run(h, req, switches, env, fuel);
    TwoDecorationsNest(r, Header(name, value), t, h, req, switches, env, fuel);
    assert [HeaderAdd(name, value)] + [] + core + PostEvents(r, t, env) + [] == [HeaderAdd(name, value)] + core + PostEvents(r, t, env);
  }

  /** `Respond`, `Created` and `NotFound` write their status after the wrapped
      handler and nothing else. */
  lemma RespondWritesOnlyStatus(status: int, t: Tools, h: Handler, req: Request, switches: seq<SwitchCaseSet>, env: Env, fuel: nat)
    ensures Run(Decorate(Respond(status), t, h).value, req, switches, env, fuel) ==
              Run(h, req, switches, env, fuel) + [WriteHeader(status)]
    ensures Created() == Respond(201) && NotFound() == Respond(404)
  {
    DecoratorSandwich(Respond(status), t, h, req, switches, env, fuel);
  }

  /** A trailer declared after the response statement: "Trailer: n" is
      declared before the status, and (n, v) is added after the body, so the
      client gets it as a trailer and not as a header. */
  lemma TrailerAfterBody(status: int, body: string, name: string, value: string, t: Tools, req: Request, switches: seq<SwitchCaseSet>, env: Env, fuel: nat)
    requires ValidCode(status) && name != "Trailer"
    ensures Observe(Run(Build([RespondWithString(status, body), Trailer(name, value)], t, Noop), req, switches, env, fuel)) ==
              Response(status, map["Trailer" := [name]], body, map[name := [value]])
  {
    TwoDecorationsNest(RespondWithString(status, body), Trailer(name, value), t, Noop, req, switches, env, fuel);
    assert Run(Build([RespondWithString(status, body), Trailer(name, value)], t, Noop), req, switches, env, fuel) ==
           [HeaderAdd("Trailer", name), WriteHeader(status), Write(body), HeaderAdd(name, value)];
    ObserveTrailerAfterBody(status, body, name, value);
  }

  /** The writer's view of a declared trailer whose value is added after the body. */
  lemma ObserveTrailerAfterBody(status: int, body: string, name: string, value: string)
    requires ValidCode(status) && name != "Trailer"
    ensures Observe([HeaderAdd("Trailer", name), WriteHeader(status), Write(body), HeaderAdd(name, value)]) ==
              Response(status, map["Trailer" := [name]], body, map[name := [value]])
  {
    var trace := [HeaderAdd("Trailer", name), WriteHeader(status), Write(body), HeaderAdd(name, value)];
    var h1 := map["Trailer" := [name]];
    var w1 := Writer(h1, None, "");
    var w2 := Writer(h1, Some(Commit(status, h1)), "");
    var w3 := Writer(h1, Some(Commit(status, h1)), body);
    var w4 := Writer(h1[name := [value]], Some(Commit(status, h1)), body);
    assert [] + [name] == [name];
    assert [] + [value] == [value];
    assert "" + body == body;
    assert Step(Fresh, trace[0]) == Some(w1);
    assert Step(w1, trace[1]) == Some(w2);
    assert Step(w2, trace[2]) == Some(w3);
    assert Step(w3, trace[3]) == Some(w4);
    assert Play(Fresh, trace) == Some(w4) by {
      assert Play(Fresh, trace) == Play(w1, trace[1..]);
      assert Play(w1, trace[1..]) == Play(w2, trace[2..]);
      assert Play(w2, trace[2..]) == Play(w3, trace[3..]);
      assert Play(w3, trace[3..]) == Play(w4, []);
    }
    var trailer := map k | k in [name] && k in w4.header :: w4.header[k];
    assert trailer == map[name := [value]];
  }

  /** `RespondWithJson`: Content-Type is set before the status, and the body is
      the encoder's output. */
  lemma JsonResponse(status: int, encoded: string, t: Tools, req: Request, switches: seq<SwitchCaseSet>, env: Env, fuel: nat)
    requires ValidCode(status)
    ensures Observe(Run(Decorate(RespondWithJson(status, encoded), t, Noop).value, req, switches, env, fuel)) ==
              Response(status, map["Content-Type" := ["application/json"]], encoded, map[])
  {
    var trace := [HeaderSet("Content-Type", "application/json"), WriteHeader(status), Write(encoded)];
    assert Run(Decorate(RespondWithJson(status, encoded), t, Noop).value, req, switches, env, fuel) == trace;
    var h1 := map["Content-Type" := ["application/json"]];
    var w1 := Writer(h1, None, "");
    var w2 := Writer(h1, Some(Commit(status, h1)), "");
    var w3 := Writer(h1, Some(Commit(status, h1)), encoded);
    assert "" + encoded == encoded;
    assert Step(Fresh, trace[0]) == Some(w1);
    assert Step(w1, trace[1]) == Some(w2);
    assert Step(w2, trace[2]) == Some(w3);
    assert Play(Fresh, trace) == Some(w3) by {
      assert Play(Fresh, trace) == Play(w1, trace[1..]);
      assert Play(w1, trace[1..]) == Play(w2, trace[2..]);
      assert Play(w2, trace[2..]) == Play(w3, []);
    }
  }

  /** `RespondWithFile`: 500 with no body when the file does not open,
      otherwise the given status and the file's content. */
  lemma FileResponse(status: int, name: string, t: Tools, req: Request, switches: seq<SwitchCaseSet>, env: Env, fuel: nat)
    requires ValidCode(status)
    ensures env.file(name).None? ==>
              Observe(Run(Decorate(RespondWithFile(status, name), t, Noop).value, req, switches, env, fuel)) ==
              Response(500, map[], "", map[])
    ensures env.file(name).Some? ==>
              Observe(Run(Decorate(RespondWithFile(status, name), t, Noop).value, req, switches, env, fuel)) ==
              Response(status, map[], env.file(name).value, map[])
  {
    var trace := Run(Decorate(RespondWithFile(status, name), t, Noop).value, req, switches, env, fuel);
    DecoratorSandwich(RespondWithFile(status, name), t, Noop, req, switches, env, fuel);
    assert trace == PostEvents(RespondWithFile(status, name), t, env);
    match env.file(name)
    case None =>
      var w := Writer(map[], Some(Commit(500, map[])), "");
      assert Play(Fresh, trace) == Some(w) by {
        assert Step(Fresh, trace[0]) == Some(w);
        assert trace[1..] == [];
      }
    case Some(content) =>
      var w1 := Writer(map[], Some(Commit(status, map[])), "");
      var w2 := Writer(map[], Some(Commit(status, map[])), content);
      assert "" + content == content;
      assert Step(Fresh, trace[0]) == Some(w1);
      assert Step(w1, trace[1]) == Some(w2);
      assert Play(Fresh, trace) == Some(w2) by {
        assert Play(Fresh, trace) == Play(w1, trace[1..]);
        assert Play(w1, trace[1..]) == Play(w2, []);
      }
  }

  /** `WriteStatusAndBody` with a string body writes the status then exactly
      that body; with any other body it first adds a JSON Content-Type as a
      pre-action.  Its post-action never sets Content-Type itself. */
  lemma WriteStatusAndBodyEvents(status: int, body: Body, t: Tools, h: Handler, req: Request, switches: seq<SwitchCaseSet>, env: Env, fuel: nat)
    requires body.Marshalled? ==> body.json.Some?
    ensures Leaf(WriteStatusAndBody(status, body), t)
    ensures Run(Decorate(WriteStatusAndBody(status, body), t, h).value, req, switches, env, fuel) ==
              (if body.Text? then [] else [HeaderAdd("Content-Type", "application/json")]) +
              Run(h, req, switches, env, fuel) +
              [WriteHeader(status), Write(if body.Text? then body.data else body.json.value)]
  {
    DecoratorSandwich(WriteStatusAndBody(status, body), t, h, req, switches, env, fuel);
  }

  /** A body that cannot be marshalled fails the configuration. */
  lemma UnmarshallableBodyFails(status: int, c: Config, t: Tools)
    requires Valid(c)
    ensures ExecStmt(WriteStatusAndBody(status, Marshalled(None)), c, t) == Failure(MarshalFailed)
  {
  }

  /** The shortcuts write their fixed status: 400 and 500 with the given body. */
  lemma ErrorShortcuts(body: string, t: Tools, h: Handler, req: Request, switches: seq<SwitchCaseSet>, env: Env, fuel: nat)
    ensures Run(Decorate(RespondWithBadRequest(Text(body)), t, h).value, req, switches, env, fuel) ==
              Run(h, req, switches, env, fuel) + [WriteHeader(400), Write(body)]
    ensures Run(Decorate(RespondWithInternalServerError(Text(body)), t, h).value, req, switches, env, fuel) ==
              Run(h, req, switches, env, fuel) + [WriteHeader(500), Write(body)]
  {
    WriteStatusAndBodyEvents(400, Text(body), t, h, req, switches, env, fuel);
    WriteStatusAndBodyEvents(500, Text(body), t, h, req, switches, env, fuel);
  }

  /** `LogLocation` adds no response events. */
  lemma LogLocationSilent(comment: string, t: Tools, h: Handler, req: Request, switches: seq<SwitchCaseSet>, env: Env, fuel: nat)
    ensures Run(Decorate(LogLocation(comment), t, h).value, req, switches, env, fuel) == Run(h, req, switches, env, fuel)
  {
    DecoratorSandwich(LogLocation(comment), t, h, req, switches, env, fuel);
  }

  /** A delay is a pre-action: its wait comes before everything the wrapped
      handler does. */
  lemma DelaysComeFirst(s: Stmt, t: Tools, h: Handler, req: Request, switches: seq<SwitchCaseSet>, env: Env, fuel: nat)
    requires s.FixedDelay? || s.UniformDelay? || s.NormalDelay?
    requires Leaf(s, t)
    ensures Run(Decorate(s, t, h).value, req, switches, env, fuel) == PreEvents(s, t, env) + Run(h, req, switches, env, fuel)
    ensures |PreEvents(s, t, env)| == 1 && (PreEvents(s, t, env)[0].Sleep? || PreEvents(s, t, env)[0] == Panic)
  {
    DecoratorSandwich(s, t, h, req, switches, env, fuel);
  }
}
