/** `When`, `Switch`/`Case`/`Default`, `Method` and the `Endpoint…` family of
    httpmock/conditional.go, httpmock/method.go and httpmock/endpoint.go, for
    bodies built from decorating statements only.  ("Flat" bodies: a `Switch`
    nested in a case body changes which switch later cases join; that is
    stated separately, in the scenarios.) */
module Switching {
  import opened Base
  import opened Text
  import opened Http
  import opened Conditional
  import opened Handlers
  import opened Mockery
  import opened Dsl
  import opened Decorations

  // ---------------------------------------------------------------------------
  // When

  /** Both branches of a `When` are built from the handler current before it,
      so neither sees the other's decorations. */
  lemma WhenIsolation(p: Predicate, onTrue: seq<Stmt>, onFalse: seq<Stmt>, c: Config, t: Tools)
    requires Valid(c) && Leaves(onTrue, t) && Leaves(onFalse, t)
    ensures ExecStmt(When(p, onTrue, onFalse), c, t) ==
              Success(c.(current := WhenHandler(p, Build(onTrue, t, c.current), Build(onFalse, t, c.current))))
  {
    ExecLeaves(onTrue, c, t);
    var ct := c.(current := Build(onTrue, t, c.current));
    assert ct.(current := c.current) == c;
    ExecLeaves(onFalse, c, t);
  }

  // ---------------------------------------------------------------------------
  // Switch and Case

  /** A switch body made of `Case`s (and `Default`s) whose bodies only decorate. */
  predicate FlatBody(body: seq<Stmt>, t: Tools) {
    forall i :: 0 <= i < |body| ==> body[i].Case? && Leaves(body[i].body, t)
  }

  /** The cases a flat body declares, in declaration order, each built from `h`. */
  function FlatCases(body: seq<Stmt>, t: Tools, h: Handler): seq<SwitchCase>
    requires FlatBody(body, t)
    decreases |body|
  {
    if body == [] then []
    else
      var first := if body[0].guard.Some? then [SwitchCase(body[0].guard.value, Build(body[0].body, t, h))] else [];
      first + FlatCases(body[1..], t, h)
  }

  /** The default a flat body leaves: the last `Default`'s, or `d` if none. */
  function FlatDefault(body: seq<Stmt>, t: Tools, h: Handler, d: Handler): Handler
    requires FlatBody(body, t)
    decreases |body|
  {
    if body == [] then d
    else FlatDefault(body[1..], t, h, if body[0].guard.None? then Build(body[0].body, t, h) else d)
  }

  /** Each `Case` of a flat body appends its case to the current switch, after
      the ones already there, or (for `Default`) replaces its default; the
      current handler is unchanged after each. */
  lemma {:induction false} ExecFlatCases(body: seq<Stmt>, c: Config, t: Tools, k: nat)
    requires Valid(c) && c.currentSwitch == Some(k) && FlatBody(body, t)
    ensures Exec(body, c, t) ==
              Success(c.(switches := c.switches[k := c.switches[k].(
                 cases := c.switches[k].cases + FlatCases(body, t, c.current),
                 defaultHandler := FlatDefault(body, t, c.current, c.switches[k].defaultHandler))]))
    decreases |body|
  {
    var sw := c.switches[k];
    if body == [] {
      assert sw.cases + [] == sw.cases;
      assert c.switches[k := sw] == c.switches;
    } else {
      var sw' := CaseStep(sw, body[0], t, c.current);
      var c1 := c.(switches := c.switches[k := sw']);
      ExecFlatCase(body, c, t, k);
      FlatBodyTail(body, t);
      ExecFlatCases(body[1..], c1, t, k);
      FlatCasesCons(body, t, c.current, sw);
      FlatDefaultCons(body, t, c.current, sw);
      var done := sw.(cases := sw.cases + FlatCases(body, t, c.current),
                      defaultHandler := FlatDefault(body, t, c.current, sw.defaultHandler));
      assert c1.switches[k := sw'.(cases := sw'.cases + FlatCases(body[1..], t, c.current),
                                   defaultHandler := FlatDefault(body[1..], t, c.current, sw'.defaultHandler))] ==
             c.switches[k := done];
    }
  }

  /** One `Case` of a flat body applied to switch `sw`, built from `h`. */
  function CaseStep(sw: SwitchCaseSet, s: Stmt, t: Tools, h: Handler): SwitchCaseSet
    requires s.Case? && Leaves(s.body, t)
  {
    if s.guard.Some? then sw.(cases := sw.cases + [SwitchCase(s.guard.value, Build(s.body, t, h))])
    else sw.(defaultHandler := Build(s.body, t, h))
  }

  lemma ExecFlatCase(body: seq<Stmt>, c: Config, t: Tools, k: nat)
    requires Valid(c) && c.currentSwitch == Some(k) && FlatBody(body, t) && body != []
    ensures Exec(body, c, t) == Exec(body[1..], c.(switches := c.switches[k := CaseStep(c.switches[k], body[0], t, c.current)]), t)
  {
    var s := body[0];
    ExecLeaves(s.body, c, t);
    var c1 := c.(switches := c.switches[k := CaseStep(c.switches[k], s, t, c.current)]);
    assert ExecStmt(s, c, t) == Success(c1);
  }

  lemma FlatBodyTail(body: seq<Stmt>, t: Tools)
    requires FlatBody(body, t) && body != []
    ensures FlatBody(body[1..], t)
  {
    assert forall i :: 0 <= i < |body[1..]| ==> body[1..][i] == body[i + 1];
  }

  /** The cases of a flat body are those of its first `Case` followed by those
      of the rest. */
  lemma FlatCasesCons(body: seq<Stmt>, t: Tools, h: Handler, sw: SwitchCaseSet)
    requires FlatBody(body, t) && body != [] && FlatBody(body[1..], t)
    ensures CaseStep(sw, body[0], t, h).cases + FlatCases(body[1..], t, h) == sw.cases + FlatCases(body, t, h)
  {
    var rest := FlatCases(body[1..], t, h);
    if body[0].guard.Some? {
      var first := SwitchCase(body[0].guard.value, Build(body[0].body, t, h));
      assert FlatCases(body, t, h) == [first] + rest;
      assert CaseStep(sw, body[0], t, h).cases == sw.cases + [first];
      assert sw.cases + [first] + rest == sw.cases + ([first] + rest);
    } else {
      assert FlatCases(body, t, h) == [] + rest;
      assert [] + rest == rest;
    }
  }

  /** The default of a flat body is its first `Default` overridden by those of
      the rest. */
  lemma FlatDefaultCons(body: seq<Stmt>, t: Tools, h: Handler, sw: SwitchCaseSet)
    requires FlatBody(body, t) && body != [] && FlatBody(body[1..], t)
    ensures FlatDefault(body[1..], t, h, CaseStep(sw, body[0], t, h).defaultHandler) == FlatDefault(body, t, h, sw.defaultHandler)
  {
  }

  /** `Switch(key, body)` with a flat body adds one switch whose cases are the
      body's cases in order and whose default is the last `Default`, or else
      the fallback "handler current before the switch, then 404"; that switch
      becomes current and is the new current handler. */
  lemma FlatSwitch(key: Extractor, body: seq<Stmt>, c: Config, t: Tools)
    requires Valid(c) && FlatBody(body, t)
    ensures ExecStmt(Switch(key, body), c, t) ==
              Success(c.(switches := c.switches + [SwitchCaseSet(key, FlatCases(body, t, c.current),
                                                                  FlatDefault(body, t, c.current, Fallback(c.current)))],
                         currentSwitch := Some(|c.switches|),
                         current := SwitchRef(|c.switches|)))
  {
    var k := |c.switches|;
    var c1 := c.(switches := c.switches + [SwitchCaseSet(key, [], Fallback(c.current))], currentSwitch := Some(k));
    ExecFlatCases(body, c1, t, k);
    assert [] + FlatCases(body, t, c.current) == FlatCases(body, t, c.current);
    assert c1.switches[k := SwitchCaseSet(key, FlatCases(body, t, c.current), FlatDefault(body, t, c.current, Fallback(c.current)))] ==
           c.switches + [SwitchCaseSet(key, FlatCases(body, t, c.current), FlatDefault(body, t, c.current, Fallback(c.current)))];
  }

  /** Without a `Default` the switch keeps the fallback; otherwise the last
      `Default` wins, wherever it is written among the cases. */
  lemma FlatDefaultIsLast(body: seq<Stmt>, t: Tools, h: Handler, d: Handler)
    requires FlatBody(body, t)
    ensures (forall i :: 0 <= i < |body| ==> body[i].guard.Some?) ==> FlatDefault(body, t, h, d) == d
    ensures forall i :: 0 <= i < |body| && body[i].guard.None? && (forall j :: i < j < |body| ==> body[j].guard.Some?) ==>
              FlatDefault(body, t, h, d) == Build(body[i].body, t, h)
  {
    if forall i :: 0 <= i < |body| ==> body[i].guard.Some? {
      FlatDefaultNone(body, t, h, d);
    }
    forall i | 0 <= i < |body| && body[i].guard.None? && (forall j :: i < j < |body| ==> body[j].guard.Some?)
      ensures FlatDefault(body, t, h, d) == Build(body[i].body, t, h)
    {
      FlatDefaultLast(body, t, h, d, i);
    }
  }

  lemma {:induction false} FlatDefaultNone(body: seq<Stmt>, t: Tools, h: Handler, d: Handler)
    requires FlatBody(body, t)
    requires forall i :: 0 <= i < |body| ==> body[i].guard.Some?
    ensures FlatDefault(body, t, h, d) == d
    decreases |body|
  {
    if body != [] {
      assert FlatBody(body[1..], t);
      assert forall j :: 0 <= j < |body[1..]| ==> body[1..][j] == body[j + 1];
      FlatDefaultNone(body[1..], t, h, d);
    }
  }

  lemma {:induction false} FlatDefaultLast(body: seq<Stmt>, t: Tools, h: Handler, d: Handler, i: nat)
    requires FlatBody(body, t)
    requires i < |body| && body[i].guard.None? && forall j :: i < j < |body| ==> body[j].guard.Some?
    ensures FlatDefault(body, t, h, d) == Build(body[i].body, t, h)
    decreases |body|
  {
    var d' := if body[0].guard.None? then Build(body[0].body, t, h) else d;
    assert FlatBody(body[1..], t);
    assert forall j :: 0 <= j < |body[1..]| ==> body[1..][j] == body[j + 1];
    if i > 0 {
      FlatDefaultLast(body[1..], t, h, d', i - 1);
    } else {
      FlatDefaultNone(body[1..], t, h, d');
    }
  }

  /** Every case of a flat body's switch has the condition of one of the
      body's `Case`s. */
  lemma {:induction false} FlatCasesFrom(body: seq<Stmt>, t: Tools, h: Handler, i: nat)
    requires FlatBody(body, t) && i < |FlatCases(body, t, h)|
    ensures exists j :: 0 <= j < |body| && body[j].guard == Some(FlatCases(body, t, h)[i].condition)
    decreases |body|
  {
    assert FlatBody(body[1..], t);
    var first := if body[0].guard.Some? then [SwitchCase(body[0].guard.value, Build(body[0].body, t, h))] else [];
    if i < |first| {
      assert FlatCases(body, t, h)[i] == first[0];
    } else {
      assert FlatCases(body, t, h)[i] == FlatCases(body[1..], t, h)[i - |first|];
      FlatCasesFrom(body[1..], t, h, i - |first|);
      var j :| 0 <= j < |body[1..]| && body[1..][j].guard == Some(FlatCases(body[1..], t, h)[i - |first|].condition);
      assert body[j + 1] == body[1..][j];
    }
  }

  // ---------------------------------------------------------------------------
  // Method

  /** `Method(m, …)` matches the switch key exactly, case included, unlike
      `MethodIs`, which compares upper-cased. */
  lemma MethodExactMatch(verb: string, req: Request, re: Matcher)
    ensures Eval(Method(verb, []).guard.value, VStr(req.verb), re) == Some(req.verb == verb)
    ensures Eval(MethodIs(verb), VReq(req), re) == Some(ToUpper(req.verb) == ToUpper(verb))
  {
    assert Extract(UpperCaseExtractor(MethodExtractor), VReq(req)) == Some(VStr(ToUpper(req.verb)));
  }

  lemma MethodCaseExample(re: Matcher)
    ensures Eval(Method("GET", []).guard.value, VStr("get"), re) == Some(false)
    ensures Eval(MethodIs("GET"), VReq(Request("get", "/", "/", map[], map[])), re) == Some(true)
  {
    MethodExactMatch("GET", Request("get", "/", "/", map[], map[]), re);
    assert ToUpper("get") == "GET" by {
      assert UpperChar('g') == 'G' && UpperChar('e') == 'E' && UpperChar('t') == 'T';
    }
    assert ToUpper("GET") == "GET" by {
      assert UpperChar('G') == 'G' && UpperChar('E') == 'E' && UpperChar('T') == 'T';
    }
  }

  /** `Method` appends one case to the current switch, after the cases
      already there, built from the current handler, which it leaves current. */
  lemma MethodAppendsCase(verb: string, body: seq<Stmt>, c: Config, t: Tools, k: nat)
    requires Valid(c) && c.currentSwitch == Some(k) && Leaves(body, t)
    ensures ExecStmt(Method(verb, body), c, t) ==
              Success(c.(switches := c.switches[k := c.switches[k].(
                 cases := c.switches[k].cases + [SwitchCase(StringEquals(verb), Build(body, t, c.current))])]))
  {
    ExecLeaves(body, c, t);
  }

  /** Once its body has run inside a switch, a `Case` appends its case to the
      switch current at that point (a `Default` replaces that switch's
      default) and restores the current handler. */
  lemma CaseAfterBody(g: Option<Predicate>, body: seq<Stmt>, c: Config, t: Tools, cb: Config, k: nat)
    requires Valid(c) && Exec(body, c, t) == Success(cb) && cb.currentSwitch == Some(k)
    ensures k < |cb.switches|
    ensures ExecStmt(Case(g, body), c, t) ==
              Success(cb.(switches := cb.switches[k := if g.Some? then cb.switches[k].(cases := cb.switches[k].cases + [SwitchCase(g.value, cb.current)])
                                                      else cb.switches[k].(defaultHandler := cb.current)],
                          current := c.current))
  {
  }

  /** A `Case` whose body opens a `Switch` of flat cases never reaches the
      enclosing switch `k`: its case lands in the nested switch, after that
      switch's own cases, and refers back to that very switch, which stays
      current afterwards. */
  lemma NestedSwitchCapturesCase(g: Predicate, key: Extractor, inner: seq<Stmt>, c: Config, t: Tools, k: nat)
    requires Valid(c) && c.currentSwitch == Some(k) && FlatBody(inner, t)
    ensures var n := |c.switches|;
            ExecStmt(Case(Some(g), [Switch(key, inner)]), c, t) ==
              Success(c.(switches := c.switches + [SwitchCaseSet(key, FlatCases(inner, t, c.current) + [SwitchCase(g, SwitchRef(n))],
                                                                FlatDefault(inner, t, c.current, Fallback(c.current)))],
                         currentSwitch := Some(n)))
    ensures ExecStmt(Case(Some(g), [Switch(key, inner)]), c, t).Success? &&
            ExecStmt(Case(Some(g), [Switch(key, inner)]), c, t).value.switches[k] == c.switches[k]
  {
    var n := |c.switches|;
    FlatSwitch(key, inner, c, t);
    var cs := ExecStmt(Switch(key, inner), c, t).value;
    assert [Switch(key, inner)][1..] == [];
    assert Exec([Switch(key, inner)], c, t) == Success(cs);
    assert cs.switches[n := cs.switches[n].(cases := cs.switches[n].cases + [SwitchCase(g, SwitchRef(n))])] ==
           c.switches + [SwitchCaseSet(key, FlatCases(inner, t, c.current) + [SwitchCase(g, SwitchRef(n))],
                                       FlatDefault(inner, t, c.current, Fallback(c.current)))];
  }

  /** A `Case` outside any `Switch` panics once its body has run. */
  lemma CaseOutsideSwitchFails(g: Option<Predicate>, body: seq<Stmt>, c: Config, t: Tools)
    requires Valid(c) && c.currentSwitch.None? && Leaves(body, t)
    ensures ExecStmt(Case(g, body), c, t) == Failure(CaseOutsideSwitch)
  {
    ExecLeaves(body, c, t);
  }

  // ---------------------------------------------------------------------------
  // Endpoints

  /** `Endpoint(url, body)` with a flat body: a method switch over the body's
      cases, registered under `url`; the current handler is unchanged. */
  lemma FlatEndpoint(url: string, body: seq<Stmt>, c: Config, t: Tools)
    requires Valid(c) && FlatBody(body, t)
    ensures url == "" ==> ExecStmt(Endpoint(url, body), c, t) == Failure(InvalidPattern(url))
    ensures url != "" && url in Patterns(c.mockery) ==> ExecStmt(Endpoint(url, body), c, t) == Failure(DuplicatePattern(url))
    ensures url != "" && url !in Patterns(c.mockery) ==>
              var k := |c.switches|;
              ExecStmt(Endpoint(url, body), c, t) ==
                Success(c.(switches := c.switches + [SwitchCaseSet(MethodExtractor, FlatCases(body, t, c.current),
                                                                    FlatDefault(body, t, c.current, Fallback(c.current)))],
                           currentSwitch := Some(k),
                           mockery := Handle(c.mockery, url, SwitchRef(k)).value))
  {
    FlatSwitch(MethodExtractor, body, c, t);
  }

  /** `EndpointForConditionWithPriority(priority, p, body)`: one registration
      at the end, with that priority and predicate and the handler the body
      makes of the enclosing current handler; nothing else changes. */
  lemma EndpointForConditionLeaves(priority: int, p: Predicate, body: seq<Stmt>, c: Config, t: Tools)
    requires Valid(c) && Leaves(body, t)
    ensures ExecStmt(EndpointForConditionWithPriority(priority, p, body), c, t) ==
              Success(c.(mockery := HandleForCondition(c.mockery, priority, p, Build(body, t, c.current))))
  {
    ExecLeaves(body, c, t);
  }

  /** `EndpointForCondition` registers at DEFAULT_PRIORITY = 100. */
  lemma EndpointForConditionPriority(p: Predicate, body: seq<Stmt>, c: Config, t: Tools)
    requires Valid(c) && Leaves(body, t)
    ensures ExecStmt(EndpointForCondition(p, body), c, t).Success?
    ensures var m := ExecStmt(EndpointForCondition(p, body), c, t).value.mockery;
            m.handlers == c.mockery.handlers + [Entry(100, p, Build(body, t, c.current))]
  {
    EndpointForConditionLeaves(DEFAULT_PRIORITY, p, body, c, t);
  }

  /** `EndpointPattern(p, body)` is `EndpointForCondition(PathMatches(p), body)`
      once `p` compiles, and panics when it does not. */
  lemma EndpointPatternIsForCondition(pattern: string, body: seq<Stmt>, c: Config, t: Tools)
    requires Valid(c)
    ensures t.compiles(pattern) ==>
              ExecStmt(EndpointPattern(pattern, body), c, t) == ExecStmt(EndpointForCondition(PathMatches(pattern), body), c, t)
    ensures !t.compiles(pattern) ==> ExecStmt(EndpointPattern(pattern, body), c, t) == Failure(InvalidRegex(pattern))
  {
  }

  /** Two statements run one after the other. */
  lemma ExecTwo(ss: seq<Stmt>, c: Config, t: Tools)
    requires Valid(c) && |ss| == 2
    ensures ExecStmt(ss[0], c, t).Failure? ==> Exec(ss, c, t) == Failure(ExecStmt(ss[0], c, t).error)
    ensures ExecStmt(ss[0], c, t).Success? ==> Exec(ss, c, t) == ExecStmt(ss[1], ExecStmt(ss[0], c, t).value, t)
  {
    assert ss[1..][0] == ss[1];
    assert ss[1..][1..] == [];
    var r0 := ExecStmt(ss[0], c, t);
    if r0.Success? {
      var c1 := r0.value;
      assert Exec(ss, c, t) == Exec(ss[1..], c1, t);
      var r1 := ExecStmt(ss[1], c1, t);
      if r1.Success? {
        assert Exec(ss[1..], c1, t) == Exec([], r1.value, t);
      }
    }
  }

  /** Sibling endpoints do not see each other's decorations, and both see the
      decorations declared before them. */
  lemma SiblingEndpoints(p1: Predicate, b1: seq<Stmt>, p2: Predicate, b2: seq<Stmt>, c: Config, t: Tools)
    requires Valid(c) && Leaves(b1, t) && Leaves(b2, t)
    ensures Exec([EndpointForCondition(p1, b1), EndpointForCondition(p2, b2)], c, t).Success?
    ensures var c' := Exec([EndpointForCondition(p1, b1), EndpointForCondition(p2, b2)], c, t).value;
            c'.current == c.current &&
            c'.mockery.handlers == c.mockery.handlers + [Entry(100, p1, Build(b1, t, c.current)), Entry(100, p2, Build(b2, t, c.current))]
  {
    var ss := [EndpointForCondition(p1, b1), EndpointForCondition(p2, b2)];
    var e1 := Entry(DEFAULT_PRIORITY, p1, Build(b1, t, c.current));
    var e2 := Entry(DEFAULT_PRIORITY, p2, Build(b2, t, c.current));
    var c1 := c.(mockery := HandleForCondition(c.mockery, DEFAULT_PRIORITY, p1, Build(b1, t, c.current)));
    var c2 := c1.(mockery := HandleForCondition(c1.mockery, DEFAULT_PRIORITY, p2, Build(b2, t, c.current)));
    EndpointForConditionLeaves(DEFAULT_PRIORITY, p1, b1, c, t);
    assert ExecStmt(ss[0], c, t) == Success(c1);
    assert Valid(c1) && c1.current == c.current;
    EndpointForConditionLeaves(DEFAULT_PRIORITY, p2, b2, c1, t);
    assert ExecStmt(ss[1], c1, t) == Success(c2);
    ExecTwo(ss, c, t);
    assert Exec(ss, c, t) == Success(c2);
    assert c1.mockery.handlers == c.mockery.handlers + [e1];
    assert c2.mockery.handlers == c.mockery.handlers + [e1] + [e2];
    assert c.mockery.handlers + [e1] + [e2] == c.mockery.handlers + [e1, e2];
  }

  /** A decoration declared before an endpoint is part of its handler. */
  lemma EarlierDecorationInherited(name: string, value: string, p: Predicate, body: seq<Stmt>, c: Config, t: Tools)
    requires Valid(c) && Leaves(body, t)
    ensures Exec([Header(name, value), EndpointForCondition(p, body)], c, t).Success?
    ensures Exec([Header(name, value), EndpointForCondition(p, body)], c, t).value.mockery.handlers ==
              c.mockery.handlers + [Entry(100, p, Build(body, t, HeaderDecoration(name, value, c.current)))]
  {
    var ss := [Header(name, value), EndpointForCondition(p, body)];
    var c1 := c.(current := HeaderDecoration(name, value, c.current));
    assert ExecStmt(ss[0], c, t) == Success(c1);
    EndpointForConditionLeaves(DEFAULT_PRIORITY, p, body, c1, t);
    ExecTwo(ss, c, t);
  }

  /** Inside an `Endpoint` whose body only declares `Method`s, a request whose
      method matches none of them gets the enclosing handler's events, then
      404. */
  lemma UnmatchedMethodFallsBack(body: seq<Stmt>, t: Tools, h: Handler, switches: seq<SwitchCaseSet>, k: nat,
                                 req: Request, env: Env, fuel: nat)
    requires FlatBody(body, t) && fuel > 0 && k < |switches|
    requires forall i :: 0 <= i < |body| ==> body[i].guard.Some? && body[i].guard.value.StringEquals? &&
                                             body[i].guard.value.value != req.verb
    requires switches[k] == SwitchCaseSet(MethodExtractor, FlatCases(body, t, h), FlatDefault(body, t, h, Fallback(h)))
    ensures Run(SwitchRef(k), req, switches, env, fuel) == Run(h, req, switches, env, fuel - 1) + [WriteHeader(404)]
  {
    var cases := FlatCases(body, t, h);
    FlatDefaultIsLast(body, t, h, Fallback(h));
    forall j | 0 <= j < |cases| ensures Eval(cases[j].condition, VStr(req.verb), env.matches) == Some(false) {
      FlatCasesFrom(body, t, h, j);
    }
    SwitchFirstMatch(k, req, switches, env, fuel, VStr(req.verb), |cases|);
    assert Run(Fallback(h), req, switches, env, fuel - 1) == [] + Run(h, req, switches, env, fuel - 1) + [WriteHeader(404)];
  }
}
