/** The run-time handlers httpmock builds: the no-op handler, the pre/post
    decoration of `DecorateHandler`, the leaf actions of the decorators, the
    `when` branch and the `switchCaseSet` of httpmock/conditional.go.

    A `switchCaseSet` is a mutable object in Go, and `Switch`/`Case` keep
    appending to whichever one the global `currentSwitch` points at, even after
    it has been installed as a handler.  So switch sets live in an arena
    (`seq<SwitchCaseSet>`) and a handler refers to one by index; the arena can
    then hold a switch that reaches itself.  `Run` takes a `fuel` bound on the
    depth of switch references it follows; running out stands for the unbounded
    recursion (a fatal stack overflow) Go would run into. */
module Handlers {
  import opened Base
  import opened Http
  import opened Conditional
  import opened Delay

  datatype Handler =
    | Noop                                                          // NoopHandler
    | Emit(events: seq<Event>)                                      // a HandlerFunc with fixed effects
    | ServeFile(status: int, fileName: string)                      // RespondWithFile's post-action
    | Wait(sampler: Sampler)                                        // a delay's pre-action
    | LogLine(comment: string)                                      // LogLocation's pre-action: logging only
    | Decorated(pre: Handler, delegate: Handler, post: Handler)     // DecorateHandler's closure
    | WhenHandler(condition: Predicate, trueResponse: Handler, falseResponse: Handler)
    | SwitchRef(id: nat)                                            // a *switchCaseSet

  datatype SwitchCase = SwitchCase(condition: Predicate, response: Handler)

  datatype SwitchCaseSet = SwitchCaseSet(keySupplier: Extractor, cases: seq<SwitchCase>, defaultHandler: Handler)

  /** Which of a list of tests, evaluated in order, decides. */
  datatype Choice = Chosen(index: nat) | NoneChosen | Panicked

  /** The first accepting verdict wins and stops the scan; a panic before any
      acceptance aborts; otherwise nothing is chosen. */
  function Select(verdicts: seq<Option<bool>>): (c: Choice)
    ensures c.Chosen? ==> c.index < |verdicts| && verdicts[c.index] == Some(true) &&
                          forall j :: 0 <= j < c.index ==> verdicts[j] == Some(false)
    ensures c.NoneChosen? <==> forall j :: 0 <= j < |verdicts| ==> verdicts[j] == Some(false)
    ensures c.Panicked? ==> exists i :: 0 <= i < |verdicts| && verdicts[i] == None &&
                                       forall j :: 0 <= j < i ==> verdicts[j] == Some(false)
    decreases |verdicts|
  {
    if verdicts == [] then NoneChosen
    else match verdicts[0]
      case Some(true) => Chosen(0)
      case None => Panicked
      case Some(false) =>
        var c := Select(verdicts[1..]);
        assert forall j :: 1 <= j < |verdicts| ==> verdicts[j] == verdicts[1..][j - 1];
        match c
        case Chosen(i) => Chosen(i + 1)
        case NoneChosen => NoneChosen
        case Panicked =>
          ghost var i :| 0 <= i < |verdicts[1..]| && verdicts[1..][i] == None &&
                         forall j :: 0 <= j < i ==> verdicts[1..][j] == Some(false);
          assert verdicts[i + 1] == None;
          Panicked
  }

  /** The verdicts of the cases on the extracted key, in declaration order. */
  function CaseVerdicts(cases: seq<SwitchCase>, key: Value, re: Matcher): (vs: seq<Option<bool>>)
    ensures |vs| == |cases|
  {
    seq(|cases|, i requires 0 <= i < |cases| => Eval(cases[i].condition, key, re))
  }

  /** The events one request produces in handler `h`. */
  function Run(h: Handler, req: Request, switches: seq<SwitchCaseSet>, env: Env, fuel: nat): seq<Event>
    decreases fuel, h
  {
    match h
    case Noop => []
    case Emit(events) => events
    case ServeFile(status, name) =>
      (match env.file(name)
       case None => [WriteHeader(500)]
       case Some(content) => [WriteHeader(status), Write(content)])
    case Wait(s) => WaitEvents(s, env)
    case LogLine(_) => []
    case Decorated(pre, delegate, post) =>
      Run(pre, req, switches, env, fuel) + Run(delegate, req, switches, env, fuel) + Run(post, req, switches, env, fuel)
    case WhenHandler(p, t, f) =>
      (match Eval(p, VReq(req), env.matches)
       case None => [Panic]
       case Some(b) => if b then Run(t, req, switches, env, fuel) else Run(f, req, switches, env, fuel))
    case SwitchRef(k) =>
      if fuel == 0 then [Overflow]
      else if k >= |switches| then [Panic]
      else
        var s := switches[k];
        match Extract(s.keySupplier, VReq(req))
        case None => [Panic]
        case Some(key) =>
          match Select(CaseVerdicts(s.cases, key, env.matches))
          case Chosen(i) => Run(s.cases[i].response, req, switches, env, fuel - 1)
          case NoneChosen => Run(s.defaultHandler, req, switches, env, fuel - 1)
          case Panicked => [Panic]
  }

  /** A switch runs exactly the first case, in declaration order, whose
      predicate accepts the extracted key, and its default only when no case
      accepts. */
  lemma SwitchFirstMatch(k: nat, req: Request, switches: seq<SwitchCaseSet>, env: Env, fuel: nat, key: Value, i: nat)
    requires fuel > 0 && k < |switches|
    requires Extract(switches[k].keySupplier, VReq(req)) == Some(key)
    requires i <= |switches[k].cases|
    requires forall j :: 0 <= j < i ==> Eval(switches[k].cases[j].condition, key, env.matches) == Some(false)
    requires i < |switches[k].cases| ==> Eval(switches[k].cases[i].condition, key, env.matches) == Some(true)
    ensures Run(SwitchRef(k), req, switches, env, fuel) ==
              if i < |switches[k].cases| then Run(switches[k].cases[i].response, req, switches, env, fuel - 1)
              else Run(switches[k].defaultHandler, req, switches, env, fuel - 1)
  {
    var vs := CaseVerdicts(switches[k].cases, key, env.matches);
    if i < |switches[k].cases| {
      assert vs[i] == Some(true);
    }
  }

  /** A `when` handler runs exactly one branch, chosen by its predicate. */
  lemma WhenRunsOneBranch(p: Predicate, t: Handler, f: Handler, req: Request, switches: seq<SwitchCaseSet>, env: Env, fuel: nat)
    requires Eval(p, VReq(req), env.matches).Some?
    ensures Run(WhenHandler(p, t, f), req, switches, env, fuel) ==
              if Eval(p, VReq(req), env.matches).value then Run(t, req, switches, env, fuel)
              else Run(f, req, switches, env, fuel)
  {
  }

  /** Every switch reference in `h` points into an arena of `n` switches. */
  predicate RefsBelow(h: Handler, n: nat) {
    match h
    case SwitchRef(k) => k < n
    case Decorated(pre, d, post) => RefsBelow(pre, n) && RefsBelow(d, n) && RefsBelow(post, n)
    case WhenHandler(_, t, f) => RefsBelow(t, n) && RefsBelow(f, n)
    case _ => true
  }

  predicate ArenaClosed(switches: seq<SwitchCaseSet>) {
    forall k :: 0 <= k < |switches| ==> SwitchRefsBelow(switches[k], |switches|)
  }

  predicate SwitchRefsBelow(s: SwitchCaseSet, n: nat) {
    RefsBelow(s.defaultHandler, n) && forall i :: 0 <= i < |s.cases| ==> RefsBelow(s.cases[i].response, n)
  }
}
