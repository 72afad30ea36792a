/** The WireMock mapping import of httpmock/wiremock/wireMock.go: one decoded
    mapping record becomes one `EndpointForConditionWithPriority` statement.
    Its predicate is the conjunction of the record's request matchers; its body
    sets the response headers, writes the response and adds the delay.

    Reading the mapping file and decoding its JSON are not modelled: a mapping
    is given as the decoded record.  A JSON object decoded into a Go map is
    given as its entries, in the order Go's `range` happens to visit them. */
module WireMock {
  import opened Base
  import opened Text
  import opened Http
  import opened Conditional
  import opened Mockery
  import opened Dsl
  import opened Decorations
  import Switching

  /** A header or query-parameter matcher: the first non-empty one of
      `equalTo`, `contains`, `matches` and `doesNotMatch` applies. */
  datatype ValueCondition = ValueCondition(equalTo: string, caseInsensitive: Option<bool>, contains: string,
                                           matches: string, doesNotMatch: string)

  type Conditions = seq<(string, ValueCondition)>

  datatype RequestPattern = RequestPattern(verb: string, url: string, urlPattern: string, urlPath: string,
                                           urlPathPattern: string, headers: Conditions, queryParameters: Conditions)

  /** `delayDistribution`; `algorithm` is the JSON field `type`. */
  datatype Distribution = Distribution(algorithm: string, median: int, sigma: real, lower: int, upper: int)

  /** A response header's decoded JSON value: only a string can be used. */
  datatype HeaderValue = JsonString(s: string) | OtherJson

  /** `jsonBody` is the text the JSON encoder writes for the decoded value,
      None when the field is absent or null. */
  datatype ResponseDefinition = ResponseDefinition(status: int, headers: seq<(string, HeaderValue)>, body: string,
                                                   jsonBody: Option<string>, bodyFileName: string,
                                                   fixedDelayMilliseconds: Option<int>,
                                                   delayDistribution: Option<Distribution>)

  datatype Mapping = Mapping(priority: Option<int>, request: RequestPattern, response: ResponseDefinition)

  /** The three `%dns` texts the log-normal branch computes in floating point. */
  type LogNormalDurations = Distribution -> (string, string, string)

  // ---------------------------------------------------------------------------
  // Regular expressions: every `regexp.MustCompile` of the import, in order.

  predicate AllCompile(rs: seq<string>, tools: Tools) {
    forall i :: 0 <= i < |rs| ==> tools.compiles(rs[i])
  }

  /** `e` is the panic of the first pattern in `rs` that does not compile. */
  predicate FirstFailure(rs: seq<string>, tools: Tools, e: ConfigError) {
    exists i :: 0 <= i < |rs| && e == InvalidRegex(rs[i]) && !tools.compiles(rs[i]) && AllCompile(rs[..i], tools)
  }

  lemma CompileAppend(a: seq<string>, b: seq<string>, tools: Tools)
    ensures AllCompile(a + b, tools) <==> AllCompile(a, tools) && AllCompile(b, tools)
    ensures forall e :: FirstFailure(a, tools, e) ==> FirstFailure(a + b, tools, e)
    ensures AllCompile(a, tools) ==> forall e :: FirstFailure(b, tools, e) ==> FirstFailure(a + b, tools, e)
  {
    assert forall i :: 0 <= i < |a| ==> (a + b)[i] == a[i];
    assert forall i :: 0 <= i < |b| ==> (a + b)[|a| + i] == b[i];
    forall e | FirstFailure(a, tools, e) ensures FirstFailure(a + b, tools, e) {
      var i :| 0 <= i < |a| && e == InvalidRegex(a[i]) && !tools.compiles(a[i]) && AllCompile(a[..i], tools);
      assert (a + b)[..i] == a[..i];
      assert 0 <= i < |a + b| && e == InvalidRegex((a + b)[i]) && !tools.compiles((a + b)[i]) && AllCompile((a + b)[..i], tools);
    }
    if AllCompile(a, tools) {
      forall e | FirstFailure(b, tools, e) ensures FirstFailure(a + b, tools, e) {
        var i :| 0 <= i < |b| && e == InvalidRegex(b[i]) && !tools.compiles(b[i]) && AllCompile(b[..i], tools);
        var k := |a| + i;
        assert (a + b)[..k] == a + b[..i];
        assert forall j :: 0 <= j < k ==> (a + b)[..k][j] == if j < |a| then a[j] else b[..i][j - |a|];
        assert 0 <= k < |a + b| && e == InvalidRegex((a + b)[k]) && !tools.compiles((a + b)[k]) && AllCompile((a + b)[..k], tools);
      }
    }
  }

  /** A single pattern: its predicate once it compiles, its panic otherwise. */
  function Compiled(regex: string, tools: Tools, p: Predicate): (r: Result<seq<Predicate>, ConfigError>)
    ensures r.Success? <==> AllCompile([regex], tools)
    ensures r.Failure? ==> FirstFailure([regex], tools, r.error)
    ensures r.Success? ==> r.value == [p]
  {
    if tools.compiles(regex) then Success([p])
    else
      assert 0 <= 0 < |[regex]| && InvalidRegex(regex) == InvalidRegex([regex][0]) && !tools.compiles([regex][0]) &&
             AllCompile([regex][..0], tools);
      Failure(InvalidRegex(regex))
  }

  // ---------------------------------------------------------------------------
  // Header and query-parameter conditions.

  datatype Target = HeaderTarget | QueryTarget

  /** The value a condition tests: a missing header or parameter reads as "". */
  function Read(target: Target, req: Request, name: string): string {
    match target
    case HeaderTarget => HeaderGet(req, name)
    case QueryTarget => QueryGet(req, name)
  }

  function EqualsPredicate(target: Target, name: string, value: string, ignoreCase: bool): Predicate {
    match target
    case HeaderTarget => if ignoreCase then HeaderEqualsIgnoreCase(name, value) else HeaderEquals(name, value)
    case QueryTarget => if ignoreCase then QueryParamEqualsIgnoreCase(name, value) else QueryParamEquals(name, value)
  }

  function ContainsPredicate(target: Target, name: string, value: string, ignoreCase: bool): Predicate {
    match target
    case HeaderTarget => if ignoreCase then HeaderContainsIgnoreCase(name, value) else HeaderContains(name, value)
    case QueryTarget => if ignoreCase then QueryParamContainsIgnoreCase(name, value) else QueryParamContains(name, value)
  }

  function MatchesPredicate(target: Target, name: string, regex: string): Predicate {
    match target
    case HeaderTarget => HeaderMatches(name, regex)
    case QueryTarget => QueryParamMatches(name, regex)
  }

  /** `caseInsensitive` is a pointer: absent counts as false. */
  predicate IgnoresCase(c: ValueCondition) {
    c.caseInsensitive == Some(true)
  }

  /** The two readings of a `doesNotMatch` condition.  `AsWritten` is the
      import as it stands: that branch compiles and negates the `matches`
      pattern, which is always "" there.  `Intended` compiles and negates the
      `doesNotMatch` pattern itself. */
  datatype Reading = AsWritten | Intended

  /** The pattern a `doesNotMatch` condition negates. */
  function NegatedPattern(reading: Reading, c: ValueCondition): string {
    match reading
    case AsWritten => c.matches
    case Intended => c.doesNotMatch
  }

  /** A condition that only carries `doesNotMatch`. */
  predicate DoesNotMatchOnly(c: ValueCondition) {
    c.equalTo == "" && c.contains == "" && c.matches == "" && c.doesNotMatch != ""
  }

  /** What a condition demands of the value it tests: case-insensitive
      comparison upper-cases both sides; a `doesNotMatch` condition is met by
      a value its negated pattern does not match. */
  predicate Satisfies(reading: Reading, c: ValueCondition, value: string, re: Matcher) {
    if c.equalTo != "" then
      if IgnoresCase(c) then ToUpper(value) == ToUpper(c.equalTo) else value == c.equalTo
    else if c.contains != "" then
      if IgnoresCase(c) then Contains(ToUpper(value), ToUpper(c.contains)) else Contains(value, c.contains)
    else if c.matches != "" then re(c.matches, value)
    else if c.doesNotMatch != "" then !re(NegatedPattern(reading, c), value)
    else true
  }

  /** The pattern a condition compiles, if any. */
  function ConditionRegexes(reading: Reading, c: ValueCondition): seq<string> {
    if c.equalTo != "" || c.contains != "" then []
    else if c.matches != "" then [c.matches]
    else if c.doesNotMatch != "" then [NegatedPattern(reading, c)]
    else []
  }

  /** The predicates one condition adds: at most one, none for an empty condition. */
  function ConditionPredicates(reading: Reading, target: Target, name: string, c: ValueCondition, tools: Tools): (r: Result<seq<Predicate>, ConfigError>)
    ensures r.Success? <==> AllCompile(ConditionRegexes(reading, c), tools)
    ensures r.Failure? ==> FirstFailure(ConditionRegexes(reading, c), tools, r.error)
    ensures r.Success? ==> |r.value| <= 1
  {
    if c.equalTo != "" then Success([EqualsPredicate(target, name, c.equalTo, IgnoresCase(c))])
    else if c.contains != "" then Success([ContainsPredicate(target, name, c.contains, IgnoresCase(c))])
    else if c.matches != "" then Compiled(c.matches, tools, MatchesPredicate(target, name, c.matches))
    else if c.doesNotMatch != "" then
      Compiled(NegatedPattern(reading, c), tools, Not(MatchesPredicate(target, name, NegatedPattern(reading, c))))
    else Success([])
  }

  function ConditionsRegexes(reading: Reading, cs: Conditions): seq<string>
    decreases |cs|
  {
    if cs == [] then [] else ConditionRegexes(reading, cs[0].1) + ConditionsRegexes(reading, cs[1..])
  }

  /** The predicates of a header or query map, in iteration order; the first
      pattern that does not compile aborts the import. */
  function ConditionsPredicates(reading: Reading, target: Target, cs: Conditions, tools: Tools): (r: Result<seq<Predicate>, ConfigError>)
    ensures r.Success? <==> AllCompile(ConditionsRegexes(reading, cs), tools)
    ensures r.Failure? ==> FirstFailure(ConditionsRegexes(reading, cs), tools, r.error)
    decreases |cs|
  {
    if cs == [] then Success([])
    else
      var first := ConditionPredicates(reading, target, cs[0].0, cs[0].1, tools);
      var rest := ConditionsPredicates(reading, target, cs[1..], tools);
      CompileAppend(ConditionRegexes(reading, cs[0].1), ConditionsRegexes(reading, cs[1..]), tools);
      if first.Failure? then Failure(first.error)
      else if rest.Failure? then Failure(rest.error)
      else Success(first.value + rest.value)
  }

  predicate AllSatisfied(reading: Reading, target: Target, cs: Conditions, req: Request, re: Matcher) {
    forall i :: 0 <= i < |cs| ==> Satisfies(reading, cs[i].1, Read(target, req, cs[i].0), re)
  }

  // ---------------------------------------------------------------------------
  // The request pattern.

  /** The first non-empty one of `url`, `urlPattern`, `urlPath` and
      `urlPathPattern` tests the request; the others are ignored. */
  predicate UrlAccepts(r: RequestPattern, req: Request, re: Matcher) {
    if r.url != "" then req.requestURI == r.url
    else if r.urlPattern != "" then re(r.urlPattern, req.requestURI)
    else if r.urlPath != "" then req.path == r.urlPath
    else if r.urlPathPattern != "" then re(r.urlPathPattern, req.path)
    else true
  }

  function UrlRegexes(r: RequestPattern): seq<string> {
    if r.url != "" then []
    else if r.urlPattern != "" then [r.urlPattern]
    else if r.urlPath != "" then []
    else if r.urlPathPattern != "" then [r.urlPathPattern]
    else []
  }

  function UrlPredicates(r: RequestPattern, tools: Tools): (res: Result<seq<Predicate>, ConfigError>)
    ensures res.Success? <==> AllCompile(UrlRegexes(r), tools)
    ensures res.Failure? ==> FirstFailure(UrlRegexes(r), tools, res.error)
  {
    if r.url != "" then Success([RequestURIEquals(r.url)])
    else if r.urlPattern != "" then Compiled(r.urlPattern, tools, RequestURIMatches(r.urlPattern))
    else if r.urlPath != "" then Success([PathEquals(r.urlPath)])
    else if r.urlPathPattern != "" then Compiled(r.urlPathPattern, tools, PathMatches(r.urlPathPattern))
    else Success([])
  }

  /** The method is compared case-insensitively. */
  predicate MethodAccepts(r: RequestPattern, req: Request) {
    r.verb == "" || ToUpper(req.verb) == ToUpper(r.verb)
  }

  function MethodPredicates(r: RequestPattern): seq<Predicate> {
    if r.verb != "" then [MethodIs(r.verb)] else []
  }

  /** Every pattern the import compiles, in the order it compiles them. */
  function Regexes(reading: Reading, r: RequestPattern): seq<string> {
    UrlRegexes(r) + ConditionsRegexes(reading, r.headers) + ConditionsRegexes(reading, r.queryParameters)
  }

  /** The requests the mapping answers under a reading of `doesNotMatch`. */
  predicate Accepts(reading: Reading, r: RequestPattern, req: Request, re: Matcher) {
    UrlAccepts(r, req, re) && MethodAccepts(r, req) &&
    AllSatisfied(reading, HeaderTarget, r.headers, req, re) && AllSatisfied(reading, QueryTarget, r.queryParameters, req, re)
  }

  /** The predicate list: url, method, headers, query parameters. */
  function Predicates(reading: Reading, r: RequestPattern, tools: Tools): (res: Result<seq<Predicate>, ConfigError>)
    ensures res.Success? <==> AllCompile(Regexes(reading, r), tools)
    ensures res.Failure? ==> FirstFailure(Regexes(reading, r), tools, res.error)
  {
    var url := UrlPredicates(r, tools);
    var hs := ConditionsPredicates(reading, HeaderTarget, r.headers, tools);
    var qs := ConditionsPredicates(reading, QueryTarget, r.queryParameters, tools);
    CompileAppend(UrlRegexes(r), ConditionsRegexes(reading, r.headers), tools);
    CompileAppend(UrlRegexes(r) + ConditionsRegexes(reading, r.headers), ConditionsRegexes(reading, r.queryParameters), tools);
    if url.Failure? then Failure(url.error)
    else if hs.Failure? then Failure(hs.error)
    else if qs.Failure? then Failure(qs.error)
    else Success(url.value + MethodPredicates(r) + hs.value + qs.value)
  }

  // ---------------------------------------------------------------------------
  // What the predicates mean.

  /** Every predicate of `ps` gives a verdict on the request (none panics), and
      they all accept exactly when `b`. */
  predicate Means(ps: seq<Predicate>, req: Request, re: Matcher, b: bool) {
    (forall j :: 0 <= j < |ps| ==> Eval(ps[j], VReq(req), re).Some?) &&
    ((forall j :: 0 <= j < |ps| ==> Eval(ps[j], VReq(req), re) == Some(true)) <==> b)
  }

  lemma MeansAppend(a: seq<Predicate>, b: seq<Predicate>, req: Request, re: Matcher, x: bool, y: bool)
    requires Means(a, req, re, x) && Means(b, req, re, y)
    ensures Means(a + b, req, re, x && y)
  {
    var ab := a + b;
    assert forall j :: 0 <= j < |a| ==> ab[j] == a[j];
    assert forall j :: 0 <= j < |b| ==> ab[|a| + j] == b[j];
    assert forall j :: |a| <= j < |ab| ==> ab[j] == b[j - |a|];
    if forall j :: 0 <= j < |ab| ==> Eval(ab[j], VReq(req), re) == Some(true) {
      assert forall j :: 0 <= j < |a| ==> Eval(a[j], VReq(req), re) == Some(true);
      assert forall j :: 0 <= j < |b| ==> Eval(b[j], VReq(req), re) == Some(true);
    }
  }

  /** The conjunction of predicates that never panic is the conjunction of
      their verdicts. */
  lemma {:induction false} AndOfMeans(ps: seq<Predicate>, req: Request, re: Matcher, b: bool)
    requires Means(ps, req, re, b)
    ensures Eval(And(ps), VReq(req), re) == Some(b)
    decreases |ps|
  {
    if ps != [] {
      assert Eval(ps[0], VReq(req), re).Some?;
      if Eval(ps[0], VReq(req), re) == Some(true) {
        assert forall j :: 1 <= j < |ps| ==> ps[j] == ps[1..][j - 1];
        assert Means(ps[1..], req, re, b);
        AndOfMeans(ps[1..], req, re, b);
      }
    }
  }

  lemma MeansSingle(p: Predicate, req: Request, re: Matcher, b: bool)
    requires Eval(p, VReq(req), re) == Some(b)
    ensures Means([p], req, re, b)
  {
    assert [p][0] == p;
  }

  /** The verdicts of the builders the import uses. */
  lemma TargetVerdicts(target: Target, name: string, value: string, req: Request, re: Matcher)
    ensures Eval(EqualsPredicate(target, name, value, true), VReq(req), re) == Some(ToUpper(Read(target, req, name)) == ToUpper(value))
    ensures Eval(EqualsPredicate(target, name, value, false), VReq(req), re) == Some(Read(target, req, name) == value)
    ensures Eval(ContainsPredicate(target, name, value, true), VReq(req), re) == Some(Contains(ToUpper(Read(target, req, name)), ToUpper(value)))
    ensures Eval(ContainsPredicate(target, name, value, false), VReq(req), re) == Some(Contains(Read(target, req, name), value))
    ensures Eval(MatchesPredicate(target, name, value), VReq(req), re) == Some(re(value, Read(target, req, name)))
  {
    match target
    case HeaderTarget => HeaderVerdicts(req, name, value, re);
    case QueryTarget => QueryVerdicts(req, name, value, re);
  }

  lemma ConditionMeaning(reading: Reading, target: Target, name: string, c: ValueCondition, tools: Tools, req: Request, re: Matcher)
    requires ConditionPredicates(reading, target, name, c, tools).Success?
    ensures Means(ConditionPredicates(reading, target, name, c, tools).value, req, re, Satisfies(reading, c, Read(target, req, name), re))
  {
    var v := Read(target, req, name);
    if c.equalTo != "" {
      TargetVerdicts(target, name, c.equalTo, req, re);
      MeansSingle(EqualsPredicate(target, name, c.equalTo, IgnoresCase(c)), req, re, Satisfies(reading, c, v, re));
    } else if c.contains != "" {
      TargetVerdicts(target, name, c.contains, req, re);
      MeansSingle(ContainsPredicate(target, name, c.contains, IgnoresCase(c)), req, re, Satisfies(reading, c, v, re));
    } else if c.matches != "" {
      TargetVerdicts(target, name, c.matches, req, re);
      MeansSingle(MatchesPredicate(target, name, c.matches), req, re, Satisfies(reading, c, v, re));
    } else if c.doesNotMatch != "" {
      var pattern := NegatedPattern(reading, c);
      TargetVerdicts(target, name, pattern, req, re);
      MeansSingle(Not(MatchesPredicate(target, name, pattern)), req, re, Satisfies(reading, c, v, re));
    }
  }

  lemma {:induction false} ConditionsMeaning(reading: Reading, target: Target, cs: Conditions, tools: Tools, req: Request, re: Matcher)
    requires ConditionsPredicates(reading, target, cs, tools).Success?
    ensures Means(ConditionsPredicates(reading, target, cs, tools).value, req, re, AllSatisfied(reading, target, cs, req, re))
    decreases |cs|
  {
    if cs != [] {
      var first := ConditionPredicates(reading, target, cs[0].0, cs[0].1, tools);
      var sat := Satisfies(reading, cs[0].1, Read(target, req, cs[0].0), re);
      ConditionMeaning(reading, target, cs[0].0, cs[0].1, tools, req, re);
      ConditionsMeaning(reading, target, cs[1..], tools, req, re);
      MeansAppend(first.value, ConditionsPredicates(reading, target, cs[1..], tools).value, req, re,
                  sat, AllSatisfied(reading, target, cs[1..], req, re));
      assert forall i :: 1 <= i < |cs| ==> cs[i] == cs[1..][i - 1];
      assert AllSatisfied(reading, target, cs, req, re) <==> sat && AllSatisfied(reading, target, cs[1..], req, re);
    }
  }

  lemma UrlMeaning(r: RequestPattern, tools: Tools, req: Request, re: Matcher)
    requires UrlPredicates(r, tools).Success?
    ensures Means(UrlPredicates(r, tools).value, req, re, UrlAccepts(r, req, re))
  {
    if r.url != "" {
      MeansSingle(RequestURIEquals(r.url), req, re, UrlAccepts(r, req, re));
    } else if r.urlPattern != "" {
      MeansSingle(RequestURIMatches(r.urlPattern), req, re, UrlAccepts(r, req, re));
    } else if r.urlPath != "" {
      MeansSingle(PathEquals(r.urlPath), req, re, UrlAccepts(r, req, re));
    } else if r.urlPathPattern != "" {
      MeansSingle(PathMatches(r.urlPathPattern), req, re, UrlAccepts(r, req, re));
    }
  }

  lemma MethodMeaning(r: RequestPattern, req: Request, re: Matcher)
    ensures Means(MethodPredicates(r), req, re, MethodAccepts(r, req))
  {
    if r.verb != "" {
      IgnoreCaseSemantics(req, "", r.verb, re);
      MeansSingle(MethodIs(r.verb), req, re, MethodAccepts(r, req));
    }
  }

  /** The imported predicate never panics, and accepts exactly the requests
      the mapping describes under the same reading. */
  lemma PredicatesMeaning(reading: Reading, r: RequestPattern, tools: Tools, req: Request, re: Matcher)
    requires Predicates(reading, r, tools).Success?
    ensures Eval(And(Predicates(reading, r, tools).value), VReq(req), re) == Some(Accepts(reading, r, req, re))
  {
    var url := UrlPredicates(r, tools).value;
    var hs := ConditionsPredicates(reading, HeaderTarget, r.headers, tools).value;
    var qs := ConditionsPredicates(reading, QueryTarget, r.queryParameters, tools).value;
    var hsOk := AllSatisfied(reading, HeaderTarget, r.headers, req, re);
    var qsOk := AllSatisfied(reading, QueryTarget, r.queryParameters, req, re);
    UrlMeaning(r, tools, req, re);
    MethodMeaning(r, req, re);
    ConditionsMeaning(reading, HeaderTarget, r.headers, tools, req, re);
    ConditionsMeaning(reading, QueryTarget, r.queryParameters, tools, req, re);
    MeansAppend(url, MethodPredicates(r), req, re, UrlAccepts(r, req, re), MethodAccepts(r, req));
    MeansAppend(url + MethodPredicates(r), hs, req, re, UrlAccepts(r, req, re) && MethodAccepts(r, req), hsOk);
    MeansAppend(url + MethodPredicates(r) + hs, qs, req, re, UrlAccepts(r, req, re) && MethodAccepts(r, req) && hsOk, qsOk);
    AndOfMeans(Predicates(reading, r, tools).value, req, re, Accepts(reading, r, req, re));
  }

  /** A mapping without any request matcher answers every request. */
  lemma EmptyPatternMatchesAll(reading: Reading, r: RequestPattern, tools: Tools, req: Request, re: Matcher)
    requires r.verb == "" && r.url == "" && r.urlPattern == "" && r.urlPath == "" && r.urlPathPattern == ""
    requires r.headers == [] && r.queryParameters == []
    ensures Predicates(reading, r, tools) == Success([])
    ensures Eval(And(Predicates(reading, r, tools).value), VReq(req), re) == Some(true)
  {
    assert UrlPredicates(r, tools) == Success([]);
    assert ConditionsPredicates(reading, HeaderTarget, [], tools) == Success([]);
    assert ConditionsPredicates(reading, QueryTarget, [], tools) == Success([]);
    assert MethodPredicates(r) == [];
  }

  /** `url` wins over the other three url fields, whatever they hold. */
  lemma UrlPrecedence(reading: Reading, r: RequestPattern, tools: Tools, req: Request, re: Matcher)
    requires r.url != "" && r.headers == [] && r.queryParameters == [] && r.verb == ""
    ensures Predicates(reading, r, tools).Success?
    ensures Eval(And(Predicates(reading, r, tools).value), VReq(req), re) == Some(req.requestURI == r.url)
  {
    PredicatesMeaning(reading, r, tools, req, re);
  }

  // ---------------------------------------------------------------------------
  // The two readings of `doesNotMatch`.

  /** Conditions other than `doesNotMatch`-only ones translate the same way
      under both readings. */
  lemma {:induction false} ReadingsAgreeOnConditions(target: Target, cs: Conditions, tools: Tools)
    requires forall i :: 0 <= i < |cs| ==> !DoesNotMatchOnly(cs[i].1)
    ensures ConditionsRegexes(AsWritten, cs) == ConditionsRegexes(Intended, cs)
    ensures ConditionsPredicates(AsWritten, target, cs, tools) == ConditionsPredicates(Intended, target, cs, tools)
    decreases |cs|
  {
    if cs != [] {
      assert forall i :: 1 <= i < |cs| ==> cs[i] == cs[1..][i - 1];
      ReadingsAgreeOnConditions(target, cs[1..], tools);
    }
  }

  /** The defect is confined to `doesNotMatch`: a request pattern without a
      `doesNotMatch`-only condition imports the same predicate under both
      readings. */
  lemma ReadingsAgree(r: RequestPattern, tools: Tools)
    requires forall i :: 0 <= i < |r.headers| ==> !DoesNotMatchOnly(r.headers[i].1)
    requires forall i :: 0 <= i < |r.queryParameters| ==> !DoesNotMatchOnly(r.queryParameters[i].1)
    ensures Regexes(AsWritten, r) == Regexes(Intended, r)
    ensures Predicates(AsWritten, r, tools) == Predicates(Intended, r, tools)
  {
    ReadingsAgreeOnConditions(HeaderTarget, r.headers, tools);
    ReadingsAgreeOnConditions(QueryTarget, r.queryParameters, tools);
  }

  /** The regular-expression engine's empty pattern matches every value. */
  ghost predicate EmptyMatchesAll(re: Matcher) {
    forall v :: re("", v)
  }

  /** As written, a `doesNotMatch`-only condition is met by no value at all. */
  lemma AsWrittenDoesNotMatchUnsatisfiable(target: Target, cs: Conditions, name: string, c: ValueCondition, req: Request, re: Matcher)
    requires DoesNotMatchOnly(c) && (name, c) in cs && EmptyMatchesAll(re)
    ensures !AllSatisfied(AsWritten, target, cs, req, re)
  {
    var i :| 0 <= i < |cs| && cs[i] == (name, c);
    assert re("", Read(target, req, name));
    assert !Satisfies(AsWritten, cs[i].1, Read(target, req, cs[i].0), re);
  }

  /** A header `X-Kind: bar` against `doesNotMatch: "foo"`: the condition is
      met, the translation as written rejects the request, the intended one
      accepts it.  And `doesNotMatch: "("`, which does not compile, imports
      as written, where the intended translation panics. */
  lemma DoesNotMatchCounterexample(tools: Tools, re: Matcher)
    requires tools.compiles("") && tools.compiles("foo") && !tools.compiles("(")
    requires re("", "bar") && !re("foo", "bar")
    ensures Satisfies(Intended, ValueCondition("", None, "", "", "foo"), "bar", re)
    ensures !Satisfies(AsWritten, ValueCondition("", None, "", "", "foo"), "bar", re)
    ensures Eval(And(ConditionPredicates(AsWritten, HeaderTarget, "X-Kind", ValueCondition("", None, "", "", "foo"), tools).value),
                 VReq(WithHeader("X-Kind", "bar")), re) == Some(false)
    ensures Eval(And(ConditionPredicates(Intended, HeaderTarget, "X-Kind", ValueCondition("", None, "", "", "foo"), tools).value),
                 VReq(WithHeader("X-Kind", "bar")), re) == Some(true)
    ensures ConditionPredicates(AsWritten, HeaderTarget, "X-Kind", ValueCondition("", None, "", "", "("), tools).Success?
    ensures ConditionPredicates(Intended, HeaderTarget, "X-Kind", ValueCondition("", None, "", "", "("), tools) ==
            Failure(InvalidRegex("("))
  {
    var c := ValueCondition("", None, "", "", "foo");
    var req := WithHeader("X-Kind", "bar");
    assert HeaderGet(req, "X-Kind") == "bar";
    ConditionMeaning(AsWritten, HeaderTarget, "X-Kind", c, tools, req, re);
    AndOfMeans(ConditionPredicates(AsWritten, HeaderTarget, "X-Kind", c, tools).value, req, re, false);
    ConditionMeaning(Intended, HeaderTarget, "X-Kind", c, tools, req, re);
    AndOfMeans(ConditionPredicates(Intended, HeaderTarget, "X-Kind", c, tools).value, req, re, true);
  }

  // ---------------------------------------------------------------------------
  // The response.

  /** `Header(k, v.(string))` for each response header, in iteration order; a
      value that is not a JSON string panics. */
  function HeaderStatements(hs: seq<(string, HeaderValue)>): (r: Result<seq<Stmt>, ConfigError>)
    ensures r.Success? <==> forall i :: 0 <= i < |hs| ==> hs[i].1.JsonString?
    ensures r.Success? ==> |r.value| == |hs| && forall i :: 0 <= i < |hs| ==> r.value[i] == Header(hs[i].0, hs[i].1.s)
    ensures r.Failure? ==> exists i :: 0 <= i < |hs| && hs[i].1.OtherJson? && r.error == NonStringHeaderValue(hs[i].0) &&
                                       forall j :: 0 <= j < i ==> hs[j].1.JsonString?
    decreases |hs|
  {
    if hs == [] then Success([])
    else if hs[0].1.OtherJson? then Failure(NonStringHeaderValue(hs[0].0))
    else
      var rest := HeaderStatements(hs[1..]);
      assert forall i :: 1 <= i < |hs| ==> hs[i] == hs[1..][i - 1];
      if rest.Failure? then
        ghost var i :| 0 <= i < |hs[1..]| && hs[1..][i].1.OtherJson? && rest.error == NonStringHeaderValue(hs[1..][i].0) &&
                       forall j :: 0 <= j < i ==> hs[1..][j].1.JsonString?;
        assert hs[i + 1] == hs[1..][i];
        Failure(rest.error)
      else Success([Header(hs[0].0, hs[0].1.s)] + rest.value)
  }

  /** The statement that writes the response; a file is announced in the log first. */
  function ResponseStatements(resp: ResponseDefinition, dataDir: string): seq<Stmt> {
    if resp.bodyFileName != "" then
      [LogLocation("Responding with " + resp.bodyFileName), RespondWithFile(resp.status, dataDir + "/" + resp.bodyFileName)]
    else if resp.body != "" then [RespondWithString(resp.status, resp.body)]
    else if resp.jsonBody.Some? then [RespondWithJson(resp.status, resp.jsonBody.value)]
    else [Respond(resp.status)]
  }

  /** `fmt.Sprintf("%dms", n)`. */
  function Millis(n: int): string {
    FormatInt(n) + "ms"
  }

  function DelayStatements(resp: ResponseDefinition, lognormal: LogNormalDurations): seq<Stmt> {
    match resp.delayDistribution
    case Some(d) =>
      if d.algorithm == "lognormal" then
        var (mean, stdDev, max) := lognormal(d);
        [NormalDelay(mean, stdDev, max)]
      else if d.algorithm == "uniform" then [UniformDelay(Millis(d.lower), Millis(d.upper))]
      else []
    case None =>
      if resp.fixedDelayMilliseconds.Some? then [FixedDelay(Millis(resp.fixedDelayMilliseconds.value))] else []
  }

  /** The body of the endpoint the mapping registers. */
  function ResponseBody(resp: ResponseDefinition, dataDir: string, lognormal: LogNormalDurations): Result<seq<Stmt>, ConfigError> {
    var hs :- HeaderStatements(resp.headers);
    Success(hs + ResponseStatements(resp, dataDir) + DelayStatements(resp, lognormal))
  }

  /** The statements that write the response. */
  predicate Responds(s: Stmt) {
    s.Respond? || s.RespondWithJson? || s.RespondWithFile? || s.WriteStatusAndBody?
  }

  predicate Silent(ss: seq<Stmt>) {
    forall i :: 0 <= i < |ss| ==> !Responds(ss[i])
  }

  lemma ResponderOfConcat(a: seq<Stmt>, r: seq<Stmt>, d: seq<Stmt>)
    requires Silent(a) && Silent(d) && |r| >= 1
    requires forall i :: 0 <= i < |r| ==> (Responds(r[i]) <==> i == |r| - 1)
    ensures forall i :: 0 <= i < |a + r + d| ==> (Responds((a + r + d)[i]) <==> i == |a| + |r| - 1)
  {
    forall i | 0 <= i < |a + r + d| ensures Responds((a + r + d)[i]) <==> i == |a| + |r| - 1 {
      if i < |a| {
        assert (a + r + d)[i] == a[i];
      } else if i < |a| + |r| {
        assert (a + r + d)[i] == r[i - |a|];
      } else {
        assert (a + r + d)[i] == d[i - |a| - |r|];
      }
    }
  }

  /** The endpoint body sets the headers first, then writes the response with
      exactly one statement, at the mapping's status, then delays. */
  lemma OneResponder(resp: ResponseDefinition, dataDir: string, lognormal: LogNormalDurations)
    requires ResponseBody(resp, dataDir, lognormal).Success?
    ensures var b := ResponseBody(resp, dataDir, lognormal).value;
            var k := |resp.headers| + (if resp.bodyFileName != "" then 1 else 0);
            k < |b| && b[k].status == resp.status && (forall i :: 0 <= i < |b| ==> (Responds(b[i]) <==> i == k)) &&
            (forall i :: 0 <= i < |resp.headers| ==> b[i] == Header(resp.headers[i].0, resp.headers[i].1.s))
  {
    var hs := HeaderStatements(resp.headers).value;
    var rs := ResponseStatements(resp, dataDir);
    var ds := DelayStatements(resp, lognormal);
    assert ResponseBody(resp, dataDir, lognormal).value == hs + rs + ds;
    assert Silent(hs);
    assert Silent(ds);
    ResponderOfConcat(hs, rs, ds);
    assert forall i :: 0 <= i < |hs| ==> (hs + rs + ds)[i] == hs[i];
    assert (hs + rs + ds)[|hs| + |rs| - 1] == rs[|rs| - 1];
  }

  /** A body file wins over an inline body, which wins over a JSON body; with
      none of them only the status is written. */
  lemma ResponderPrecedence(resp: ResponseDefinition, dataDir: string)
    ensures resp.bodyFileName != "" ==>
              ResponseStatements(resp, dataDir)[|ResponseStatements(resp, dataDir)| - 1] ==
              RespondWithFile(resp.status, dataDir + "/" + resp.bodyFileName)
    ensures resp.bodyFileName == "" && resp.body != "" ==>
              ResponseStatements(resp, dataDir) == [WriteStatusAndBody(resp.status, Text(resp.body))]
    ensures resp.bodyFileName == "" && resp.body == "" && resp.jsonBody.Some? ==>
              ResponseStatements(resp, dataDir) == [RespondWithJson(resp.status, resp.jsonBody.value)]
    ensures resp.bodyFileName == "" && resp.body == "" && resp.jsonBody.None? ==>
              ResponseStatements(resp, dataDir) == [Respond(resp.status)]
  {
  }

  /** At most one delay: a distribution wins over a fixed delay, a uniform one
      waits between its bounds in milliseconds, and an unknown algorithm adds
      no delay even when a fixed delay is given. */
  lemma DelayChoice(resp: ResponseDefinition, lognormal: LogNormalDurations)
    ensures |DelayStatements(resp, lognormal)| <= 1
    ensures resp.delayDistribution.Some? && resp.delayDistribution.value.algorithm == "uniform" ==>
              DelayStatements(resp, lognormal) ==
              [UniformDelay(Millis(resp.delayDistribution.value.lower), Millis(resp.delayDistribution.value.upper))]
    ensures resp.delayDistribution.Some? && resp.delayDistribution.value.algorithm !in {"uniform", "lognormal"} ==>
              DelayStatements(resp, lognormal) == []
    ensures resp.delayDistribution.None? && resp.fixedDelayMilliseconds.Some? ==>
              DelayStatements(resp, lognormal) == [FixedDelay(Millis(resp.fixedDelayMilliseconds.value))]
    ensures resp.delayDistribution.None? && resp.fixedDelayMilliseconds.None? ==> DelayStatements(resp, lognormal) == []
  {
  }

  // ---------------------------------------------------------------------------
  // The mapping.

  /** An absent priority is `DefaultPriority`, 100. */
  function MappingPriority(m: Mapping): int {
    if m.priority.Some? then m.priority.value else DEFAULT_PRIORITY
  }

  /** The statement one mapping record stands for; the import as it stands is
      `Translate(AsWritten, ...)`.  A pattern that does not compile panics
      before a response header that is not a string does. */
  function Translate(reading: Reading, m: Mapping, dataDir: string, tools: Tools, lognormal: LogNormalDurations): (r: Result<Stmt, ConfigError>)
    ensures r.Success? <==> AllCompile(Regexes(reading, m.request), tools) &&
                            forall i :: 0 <= i < |m.response.headers| ==> m.response.headers[i].1.JsonString?
    ensures !AllCompile(Regexes(reading, m.request), tools) ==> r.Failure? && FirstFailure(Regexes(reading, m.request), tools, r.error)
    ensures r.Success? ==> r.value.EndpointForConditionWithPriority? &&
                           r.value.priority == (if m.priority.Some? then m.priority.value else 100)
  {
    var preds :- Predicates(reading, m.request, tools);
    var body :- ResponseBody(m.response, dataDir, lognormal);
    Success(EndpointForConditionWithPriority(MappingPriority(m), And(preds), body))
  }

  /** The registered predicate accepts exactly the requests the mapping
      describes under the same reading. */
  lemma TranslateMatches(reading: Reading, m: Mapping, dataDir: string, tools: Tools, lognormal: LogNormalDurations, req: Request, re: Matcher)
    requires Translate(reading, m, dataDir, tools, lognormal).Success?
    ensures Eval(Translate(reading, m, dataDir, tools, lognormal).value.condition, VReq(req), re) == Some(Accepts(reading, m.request, req, re))
  {
    PredicatesMeaning(reading, m.request, tools, req, re);
  }

  /** As written, a mapping with a `doesNotMatch`-only header or query
      condition registers a predicate that rejects every request. */
  lemma AsWrittenDoesNotMatchRejectsAll(m: Mapping, dataDir: string, tools: Tools, lognormal: LogNormalDurations,
                                        name: string, c: ValueCondition, req: Request, re: Matcher)
    requires Translate(AsWritten, m, dataDir, tools, lognormal).Success?
    requires DoesNotMatchOnly(c) && ((name, c) in m.request.headers || (name, c) in m.request.queryParameters)
    requires EmptyMatchesAll(re)
    ensures Eval(Translate(AsWritten, m, dataDir, tools, lognormal).value.condition, VReq(req), re) == Some(false)
  {
    TranslateMatches(AsWritten, m, dataDir, tools, lognormal, req, re);
    if (name, c) in m.request.headers {
      AsWrittenDoesNotMatchUnsatisfiable(HeaderTarget, m.request.headers, name, c, req, re);
    } else {
      AsWrittenDoesNotMatchUnsatisfiable(QueryTarget, m.request.queryParameters, name, c, req, re);
    }
  }

  lemma LeavesConcat(a: seq<Stmt>, b: seq<Stmt>, d: seq<Stmt>, t: Tools)
    requires Leaves(a, t) && Leaves(b, t) && Leaves(d, t)
    ensures Leaves(a + b + d, t)
  {
    forall i | 0 <= i < |a + b + d| ensures Leaf((a + b + d)[i], t) {
      if i < |a| {
        assert (a + b + d)[i] == a[i];
      } else if i < |a| + |b| {
        assert (a + b + d)[i] == b[i - |a|];
      } else {
        assert (a + b + d)[i] == d[i - |a| - |b|];
      }
    }
  }

  /** The statement a successful translation yields. */
  lemma TranslateShape(reading: Reading, m: Mapping, dataDir: string, tools: Tools, lognormal: LogNormalDurations)
    requires Translate(reading, m, dataDir, tools, lognormal).Success?
    ensures Predicates(reading, m.request, tools).Success? && HeaderStatements(m.response.headers).Success?
    ensures Translate(reading, m, dataDir, tools, lognormal).value ==
            EndpointForConditionWithPriority(MappingPriority(m), And(Predicates(reading, m.request, tools).value),
                                             HeaderStatements(m.response.headers).value +
                                             ResponseStatements(m.response, dataDir) + DelayStatements(m.response, lognormal))
  {
  }

  /** Running the statement registers one entry at the mapping's priority,
      whose handler is the response body wrapped around the enclosing handler;
      nothing else changes. */
  lemma TranslateRegisters(reading: Reading, m: Mapping, dataDir: string, tools: Tools, lognormal: LogNormalDurations, c: Config)
    requires Valid(c) && Translate(reading, m, dataDir, tools, lognormal).Success?
    requires Leaves(DelayStatements(m.response, lognormal), tools)
    ensures var s := Translate(reading, m, dataDir, tools, lognormal).value;
            Leaves(s.body, tools) &&
            ExecStmt(s, c, tools) ==
            Success(c.(mockery := HandleForCondition(c.mockery, MappingPriority(m), s.condition, Build(s.body, tools, c.current))))
  {
    TranslateShape(reading, m, dataDir, tools, lognormal);
    var s := Translate(reading, m, dataDir, tools, lognormal).value;
    var hs := HeaderStatements(m.response.headers).value;
    var rs := ResponseStatements(m.response, dataDir);
    var ds := DelayStatements(m.response, lognormal);
    assert Leaves(hs, tools);
    assert Leaves(rs, tools);
    LeavesConcat(hs, rs, ds, tools);
    assert s == EndpointForConditionWithPriority(s.priority, s.condition, s.body);
    Switching.EndpointForConditionLeaves(s.priority, s.condition, s.body, c, tools);
  }
}
