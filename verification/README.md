# httpmock in Dafny

This project models `httpmock`, the Go package of mockery that builds mock HTTP servers from a small
configuration DSL. A user writes a configuration closure that calls `Endpoint`, `Method`, `Header`,
`Respond`, `When`, `Switch`/`Case`, the delays and similar functions. These calls mutate three package
globals: the handler being decorated, the mockery being filled and the current switch. `Mockery(...)`
then returns a dispatcher that serves each request with the first registration, by priority, whose
predicate accepts it. The WireMock importer turns a decoded WireMock mapping record into one such
registration.

The model is functional throughout:

- **Base** has `Option` and `Result`, plus the `ConfigError` values that stand for the configuration-time
  panics.
- **Text** has ASCII `strings.ToUpper`, `Contains` with its specification, `Split`/`Join` on one
  separator (each the inverse of the other), and `%d` formatting.
- **Http** has the request as a record and the response events a handler emits (add header, set header,
  write status, write body, sleep, panic, overflow). It also has net/http's response writer as a fold
  over those events: the first `WriteHeader` commits the status and snapshots the headers. `Observe` is
  the response a client sees. The regex engine, the `http.ServeMux` pattern lookup, file contents,
  `rand.Intn` and the log-normal sample are oracles in `Env`.
- **Conditional** has the predicate/extractor algebra as an AST with `Eval`. A value is a string or the
  whole request. A failed Go type assertion is the `None` verdict.
- **Delay** covers the three delays: parsing their durations, and the wait each performs per request.
- **Handlers** has the run-time handler graph, with its `Run` producing a trace of events.
  - `switchCaseSet`s are mutable, shared objects in Go. Here they live in an arena, and a handler refers
    to one by index.
  - `Run` takes a fuel bound on the depth of switch references. Running out yields `Overflow`, which
    stands for Go's fatal stack overflow.
- **Mockery** has the registration list, the lazily created mux, the stable priority sort and dispatch.
- **Dsl** has the configuration closures as a list of statements. `Exec` interprets them over an
  explicit `Config` record that holds the three globals; each Go panic is a `Failure`.
- **Decorations**, **Switching** and **WireMock** state what those statements build and what the built
  handlers do.
- **Scenarios** builds and serves the two configurations of the package's `When` and `Switch` tests.

Where the code and its documentation disagree, the model follows the code:

- A second `Default` in one switch replaces the first; nothing rejects it.
- `Case` appends to whatever switch is current once its own body has run. So a `Switch` nested in a
  `Method` body captures that method case: the method case lands in the inner switch, and the outer
  method switch stays empty. Scenarios proves the consequences for the `Switch` test configuration.
  Every request routed there reaches the Accept switch whatever its method. An `Accept: GET` request
  recurses until the stack is exhausted.
- The WireMock importer uses `httpmock.DefaultPriority`, which the package does not declare; its
  constant is `DEFAULT_PRIORITY` = 100. The model uses 100.
- The WireMock importer's `doesNotMatch` branch negates the `matches` pattern, which is "" there (see
  Findings). The WireMock translation takes a `Reading`: `AsWritten` is the import as it stands and
  `Intended` negates the `doesNotMatch` pattern. Every property is stated for both readings, and
  `ReadingsAgree` shows they differ only on `doesNotMatch`-only conditions.

## Model

| member | source | states |
|---|---|---|
| Text.ToUpper | httpmock/conditional.go:241-245 | upper-casing keeps the length, leaves no lower-case ASCII letter, keeps every other character in place and turns each lower-case letter into its capital |
| Text.ToUpperIdempotent | httpmock/conditional.go:151-153 | upper-casing twice is upper-casing once, so an upper-cased literal compares consistently with upper-cased request data |
| Text.ContainsSpec | httpmock/conditional.go:80-84 | `Contains(s, sub)` holds exactly when `sub` occurs at some position of `s` |
| Text.Split | httpmock/conditional.go:266 | splitting yields at least one piece, and no piece contains the separator |
| Text.JoinSplit | httpmock/conditional.go:266 | joining the pieces of a split with the separator gives back the original string |
| Text.SplitJoin | httpmock/conditional.go:266 | splitting a join of separator-free pieces gives back exactly those pieces |
| Http.PlayAppend | httpmock/mockery.go:86-93 | replaying a trace in two parts equals replaying it at once, with an abort in the first part ending the replay |
| Http.PlayKeepsCommit | httpmock/decorators.go:78-83 | once the status is committed, no later non-aborting event changes the committed status or headers, a superfluous `WriteHeader` included whatever its code |
| Http.PlayHeadersOnly | httpmock/decorators.go:15-20 | header and sleep events alone never commit the response or write a body |
| Http.FirstWriteHeaderWins | httpmock/decorators.go:78-83 | the observed status is that of the first `WriteHeader`, and the observed headers are exactly those added before it, whatever codes later `WriteHeader` calls pass |
| Http.AbortedByPanic | httpmock/delay.go:161-164 | a panic while serving leaves the client without a response |
| Conditional.AndVerdict | httpmock/conditional.go:23-32 | `And` accepts when every member accepts; otherwise its verdict is that of the first non-accepting member, whatever the later members would say |
| Conditional.OrVerdict | httpmock/conditional.go:36-45 | `Or` rejects when every member rejects; otherwise its verdict is that of the first non-rejecting member |
| Conditional.AndAcceptsIffAll | httpmock/conditional.go:23-32 | `And` accepts exactly when all members accept, so the empty `And` accepts everything |
| Conditional.OrAcceptsIffSome | httpmock/conditional.go:36-45 | `Or` accepts exactly when some member accepts and every member before it rejects, so the empty `Or` rejects everything |
| Conditional.NotNot | httpmock/conditional.go:48-52 | a double negation gives the verdict of the predicate itself |
| Conditional.TrueAndFalse | httpmock/conditional.go:54-58 | `TruePredicate` accepts and `FalsePredicate` rejects every value |
| Conditional.RequestPredicateOnString | httpmock/conditional.go:121-123 | a request extractor applied to a string value is a failed type assertion (a panic) |
| Conditional.IgnoreCaseSemantics | httpmock/conditional.go:181-207 | every IgnoreCase builder and `MethodIs` accept exactly when the upper-cased request data equals or contains the upper-cased literal |
| Conditional.HeaderVerdicts | httpmock/conditional.go:140-161 | each header builder accepts exactly when the header value (empty when missing) equals, contains or matches the literal, upper-casing both sides for the IgnoreCase ones |
| Conditional.QueryVerdicts | httpmock/conditional.go:187-213 | each query-parameter builder accepts exactly when the parameter value (empty when missing) equals, contains or matches the literal, upper-casing both sides for the IgnoreCase ones |
| Conditional.IgnoreCaseExamples | httpmock/conditional.go:150-153 | `HeaderEqualsIgnoreCase("Accept", "Foo")` accepts FOO, foo and Foo and rejects food |
| Conditional.PathElementsRejoin | httpmock/conditional.go:264-278 | the elements read at positions 0 to n-1, joined with "/", give back the path, so indexing loses nothing |
| Conditional.PathElementFromEnd | httpmock/conditional.go:268-272 | a negative index -k reads the same element as the index n-k, and no element contains "/" |
| Conditional.PathElementExamples | httpmock/conditional_test.go:127-154 | on "/foo/bar/snafu", indices 1, 2, 3 give foo, bar, snafu; -1, -2, -3 give snafu, bar, foo; 0, 4 and -4 give "" |
| Conditional.PathElementExtractor | httpmock/conditional.go:264-278 | the extractor returns the path element at the given index of the request path, never panicking on a request |
| Delay.FixedDelay | httpmock/delay.go:36-44 | it fails exactly when the duration does not parse, naming "time"; otherwise it waits the parsed duration |
| Delay.UniformDelay | httpmock/delay.go:48-61 | it fails exactly when min or max does not parse, naming min first; otherwise it draws between the parsed bounds |
| Delay.NormalDelay | httpmock/delay.go:71-95 | it fails exactly when mean, stdDev or max does not parse, naming the first in that order; otherwise it samples with the parsed values |
| Delay.FixedWaitsExactly | httpmock/delay.go:156-159 | a fixed delay sleeps exactly its duration on every request |
| Delay.UniformWaitBounds | httpmock/delay.go:161-164 | with min < max a uniform delay sleeps once, for a duration w with min <= w < max |
| Delay.UniformEmptyRangePanics | httpmock/delay.go:161-164 | with max <= min the request panics in `rand.Intn` |
| Delay.NormalWaitCapped | httpmock/delay.go:63-67 | a normal delay never sleeps longer than max, and sleeps the sample itself when the sample is below max |
| Handlers.Select | httpmock/mockery.go:25-32 | the choice is the first accepting verdict with all earlier ones rejecting; nothing is chosen exactly when all reject; a panic aborts only if it comes before any acceptance |
| Handlers.SwitchFirstMatch | httpmock/conditional.go:326-335 | a switch runs exactly the first case, in declaration order, whose predicate accepts the extracted key, and its default only when none accepts |
| Handlers.WhenRunsOneBranch | httpmock/conditional.go:307-313 | a `when` handler runs exactly the branch its predicate selects |
| Mockery.HandleForCondition | httpmock/mockery.go:46-48 | one entry is appended at the end, earlier entries are unchanged, and the mux is untouched |
| Mockery.Handle | httpmock/mockery.go:35-44 | the first call creates the mux and adds one mux entry at priority 100; later calls only add a route; an empty or repeated pattern panics |
| Mockery.Insert | httpmock/mockery.go:16-18 | inserting into a priority-sorted list keeps it sorted and adds exactly the new entry |
| Mockery.InsertWithPriority | httpmock/mockery.go:16-18 | insertion keeps the order among entries of each priority and puts the new entry after those of its own priority |
| Mockery.WithPriorityAppend | httpmock/mockery.go:16-18 | the entries of one priority in a concatenation are those of each part, in order |
| Mockery.SortByPriority | httpmock/mockery.go:63 | the stable sort yields a permutation with non-decreasing priorities, where the entries of each priority keep their registration order |
| Mockery.Lookup | httpmock/mockery.go:36-43 | the mux finds a handler exactly when the pattern is registered, and it is the handler of the first route with that pattern |
| Mockery.ServeFirstMatch | httpmock/mockery.go:25-33 | dispatch runs exactly the handler of the first registration whose predicate accepts, and writes only 404 when none accepts |
| Mockery.NothingAcceptsIs404 | httpmock/mockery.go:32 | with no registration accepting, the client gets status 404 with no headers and no body |
| Dsl.Decorate | httpmock/mockery.go:86-93 | a decorating statement succeeds exactly when its body marshals and its durations parse, and the failure names the cause |
| Dsl.Exec | httpmock/mockery.go:50-53 | interpreting a configuration keeps the current switch inside the arena, never unsets it and never shrinks the arena |
| Dsl.ExecStmt | httpmock/endpoint.go:7-37 | `Case` and every `Endpoint…` restore the current handler; `Switch` makes its switch current and the current handler; `When` makes a `when` handler on its predicate; a `Case` outside any switch panics |
| Dsl.ExecSwitch | httpmock/conditional.go:342-354 | `Switch` adds a switch to the arena and leaves the current switch as the current handler |
| Dsl.ExecEndpoint | httpmock/endpoint.go:32-37 | the body decorates the enclosing handler, the result is registered at the given priority, and the current handler is restored |
| Dsl.NewMockery | httpmock/mockery.go:58-65 | configuration succeeds exactly when the statements do, starting from no registrations and the no-op handler; the registrations are then priority-sorted, permuted only, and kept in registration order within each priority, with the mux and the switches untouched |
| Decorations.DecoratorSandwich | httpmock/mockery.go:86-93 | every decorating statement runs its pre-events, the wrapped handler exactly once, then its post-events |
| Decorations.BuildSandwich | httpmock/mockery.go:86-93 | successive decorations nest outward: later pre-actions run first, the core once in the middle, later post-actions last |
| Decorations.ExecLeaves | httpmock/mockery.go:86-93 | decorating statements change nothing but the current handler |
| Decorations.TwoDecorationsNest | httpmock/mockery.go:87-92 | two decorations run pre2, pre1, core, post1, post2 |
| Decorations.HeaderEitherSide | httpmock/decorators.go:15-20 | a `Header` declared before or after a response statement produces the same events, with the header added first |
| Decorations.RespondWritesOnlyStatus | httpmock/decorators.go:78-83 | `Respond(s)` writes status s after the wrapped handler and nothing else; `Created` and `NotFound` are `Respond(201)` and `Respond(404)` |
| Decorations.TrailerAfterBody | httpmock/decorators.go:22-29 | a `Trailer` declared after the response reaches the client as a trailer, declared in the "Trailer" header, and not as a header |
| Decorations.JsonResponse | httpmock/decorators.go:33-41 | the client gets the status, Content-Type application/json and the encoder's output as the body |
| Decorations.FileResponse | httpmock/decorators.go:44-61 | a file that does not open gives 500 with no body; otherwise the client gets the status and the file's content |
| Decorations.WriteStatusAndBodyEvents | httpmock/responses.go:13-42 | a string body is written as is after the status; any other body first adds a JSON Content-Type as a pre-action; the post-action never sets Content-Type |
| Decorations.UnmarshallableBodyFails | httpmock/responses.go:27-31 | a body that cannot be marshalled fails the configuration |
| Decorations.ErrorShortcuts | httpmock/responses.go:49-57 | the bad-request and internal-error shortcuts write 400 and 500 with the given body |
| Decorations.LogLocationSilent | httpmock/decorators.go:86-100 | `LogLocation` adds no response event |
| Decorations.DelaysComeFirst | httpmock/delay.go:36-95 | every delay is one wait (or a panic) before all the wrapped handler's events, with nothing after them |
| Switching.WhenIsolation | httpmock/conditional.go:294-305 | both branches of `When` are built from the handler current before it, so neither sees the other's decorations |
| Switching.ExecFlatCases | httpmock/conditional.go:358-368 | each `Case` appends its case after the ones already in the current switch, each `Default` replaces its default, and the current handler is unchanged |
| Switching.FlatSwitch | httpmock/conditional.go:342-354 | a switch with a flat body gets the body's cases in order, and either the last `Default` or the fallback "previous handler, then 404" |
| Switching.FlatDefaultIsLast | httpmock/conditional.go:370-374 | without a `Default` the fallback stays; otherwise the last `Default` wins, wherever it is written |
| Switching.FlatCasesFrom | httpmock/conditional.go:362-363 | every case of the switch has the condition of one of the body's `Case`s |
| Switching.MethodExactMatch | httpmock/method.go:4-6 | `Method` compares the switch key exactly, case included, while `MethodIs` compares upper-cased |
| Switching.MethodCaseExample | httpmock/conditional.go:181-183 | `Method("GET")` rejects "get" while `MethodIs("GET")` accepts it |
| Switching.MethodAppendsCase | httpmock/method.go:4-6 | `Method` appends one exact-match case after those already in the current switch, built from the current handler, which stays current |
| Switching.CaseAfterBody | httpmock/conditional.go:358-368 | a `Case` adds to whatever switch is current once its body has run, and restores the handler current before it |
| Switching.NestedSwitchCapturesCase | httpmock/conditional.go:342-368 | a `Case` whose body opens a `Switch` of flat cases leaves the enclosing switch untouched; its case lands last in the nested switch, refers back to that switch, and the nested switch stays current |
| Switching.CaseOutsideSwitchFails | httpmock/conditional.go:362-363 | a `Case` outside any `Switch` panics once its body has run |
| Switching.FlatEndpoint | httpmock/endpoint.go:7-12 | `Endpoint` registers a method switch over the body's cases under the url, fails on an empty or repeated url, and keeps the current handler |
| Switching.EndpointForConditionLeaves | httpmock/endpoint.go:32-37 | one registration is appended with the given priority, the predicate and the handler the body makes of the enclosing handler; nothing else changes |
| Switching.EndpointForConditionPriority | httpmock/endpoint.go:23-28 | `EndpointForCondition` registers at DEFAULT_PRIORITY, 100 |
| Switching.EndpointPatternIsForCondition | httpmock/endpoint.go:17-20 | `EndpointPattern(p)` is `EndpointForCondition(PathMatches(p))` once p compiles, and panics otherwise |
| Switching.SiblingEndpoints | httpmock/endpoint.go:23-28 | sibling endpoints are built from the same enclosing handler and never see each other's decorations |
| Switching.EarlierDecorationInherited | httpmock/endpoint.go:23-28 | a decoration declared before an endpoint is part of that endpoint's handler |
| Switching.UnmatchedMethodFallsBack | httpmock/conditional.go:347-350 | in an endpoint of `Method`s only, a request matching no method gets the enclosing handler's events, then 404 |
| WireMock.Compiled | httpmock/wiremock/wireMock.go:98 | a pattern yields its predicate when it compiles and the compile panic otherwise |
| WireMock.CompileAppend | httpmock/wiremock/wireMock.go:94-148 | patterns compiled in sequence all compile exactly when both parts do, and the first failure of a prefix stays the first failure |
| WireMock.ConditionPredicates | httpmock/wiremock/wireMock.go:107-125 | a condition yields at most one predicate and fails exactly when the pattern it compiles does not compile; as written a `doesNotMatch`-only condition compiles "", not its own pattern |
| WireMock.ConditionMeaning | httpmock/wiremock/wireMock.go:107-148 | a condition's predicates never panic, and they accept exactly when the value satisfies the condition, with precedence equalTo, contains, matches, doesNotMatch, case folding only for the first two, and, as written, a `doesNotMatch` condition met only by values the empty pattern does not match |
| WireMock.ConditionsPredicates | httpmock/wiremock/wireMock.go:107-148 | a header or query map compiles exactly when all the patterns it compiles ("" for each `doesNotMatch`-only condition, as written) compile, and otherwise fails with the first that does not |
| WireMock.ConditionsMeaning | httpmock/wiremock/wireMock.go:107-148 | the predicates of a map accept exactly when every condition is satisfied by its header or parameter, under the same reading of `doesNotMatch` |
| WireMock.UrlPredicates | httpmock/wiremock/wireMock.go:95-103 | the url matcher compiles exactly when its pattern, if any, does |
| WireMock.UrlMeaning | httpmock/wiremock/wireMock.go:95-103 | at most one url test applies, with precedence url, urlPattern, urlPath, urlPathPattern |
| WireMock.MethodMeaning | httpmock/wiremock/wireMock.go:104-106 | a method, when given, is compared ignoring case |
| WireMock.Predicates | httpmock/wiremock/wireMock.go:94-148 | the whole matcher compiles exactly when all its patterns do, as written with "" for each `doesNotMatch`-only condition, and otherwise fails with the first that does not |
| WireMock.PredicatesMeaning | httpmock/wiremock/wireMock.go:94-153 | the conjunction the import registers never panics and accepts exactly the requests the mapping describes under the same reading; as written a `doesNotMatch`-only condition is met by no value the empty pattern matches |
| WireMock.EmptyPatternMatchesAll | httpmock/wiremock/wireMock.go:153 | a mapping without request matchers answers every request |
| WireMock.UrlPrecedence | httpmock/wiremock/wireMock.go:95-96 | `url` wins over the other url fields whatever they hold |
| WireMock.ReadingsAgreeOnConditions | httpmock/wiremock/wireMock.go:107-148 | a header or query map without `doesNotMatch`-only conditions translates identically as written and as intended |
| WireMock.ReadingsAgree | httpmock/wiremock/wireMock.go:94-148 | a request pattern without `doesNotMatch`-only conditions compiles the same patterns and imports the same predicate as written and as intended |
| WireMock.AsWrittenDoesNotMatchUnsatisfiable | httpmock/wiremock/wireMock.go:107-148 | as written, a map holding a `doesNotMatch`-only condition is satisfied by no request |
| WireMock.AsWrittenDoesNotMatchRejectsAll | httpmock/wiremock/wireMock.go:107-153 | as written, a mapping with a `doesNotMatch`-only header or query condition registers a predicate that rejects every request, since the empty pattern matches every value |
| WireMock.DoesNotMatchCounterexample | httpmock/wiremock/wireMock.go:144-146 | a value the `doesNotMatch` pattern does not match satisfies the intended condition and is rejected as written; a `doesNotMatch` pattern that does not compile imports as written, where the intended translation panics |
| WireMock.HeaderStatements | httpmock/wiremock/wireMock.go:154-158 | each response header becomes one `Header` statement in order; the first non-string value panics |
| WireMock.OneResponder | httpmock/wiremock/wireMock.go:154-168 | the body sets the headers first, then writes the response with exactly one statement at the mapping's status |
| WireMock.ResponderPrecedence | httpmock/wiremock/wireMock.go:159-168 | a body file wins over an inline body, which wins over a JSON body; with none only the status is written |
| WireMock.DelayChoice | httpmock/wiremock/wireMock.go:169-186 | at most one delay: a distribution overrides the fixed delay, uniform waits between its bounds in ms, and an unknown type adds none |
| WireMock.Translate | httpmock/wiremock/wireMock.go:94-187 | a mapping translates exactly when the patterns it compiles (as written, "" for each `doesNotMatch`-only condition) compile and its header values are strings; it registers at its priority, or 100 when absent |
| WireMock.TranslateMatches | httpmock/wiremock/wireMock.go:94-153 | the registered predicate accepts exactly the requests the mapping describes, as written or under the intended reading alike |
| WireMock.TranslateShape | httpmock/wiremock/wireMock.go:149-187 | the statement is one conditional endpoint whose body is the headers, then the response, then the delay |
| WireMock.TranslateRegisters | httpmock/wiremock/wireMock.go:153-187 | running the statement appends one registration, wrapping the response body around the enclosing handler, and changes nothing else |
| Scenarios.WhenTestBuilds | httpmock/conditional_test.go:19-33 | the `When` test configuration builds one mux route to a method switch whose GET case adds "Foo: Bar" around a `when` whose branches were both built from the no-op handler |
| Scenarios.WhenTestEvents | httpmock/conditional_test.go:18-52 | a GET routed to the endpoint adds "Foo: Bar", then the `when` picks the file or 406 by the Accept header |
| Scenarios.WhenTestNotAcceptable | httpmock/conditional_test.go:36-42 | without `Accept: application/json` the client gets 406 with "Foo: Bar" |
| Scenarios.WhenTestJson | httpmock/conditional_test.go:44-51 | with it the client gets the file at 200, typed application/json, with "Foo: Bar" and no trailer |
| Scenarios.SwitchTestBuilds | httpmock/conditional_test.go:55-80 | the `Switch` test configuration builds an empty method switch and an Accept switch that holds the JSON, XML and misplaced GET cases and a 406 default |
| Scenarios.SwitchTestRoutes | httpmock/conditional_test.go:54-80 | every request routed to the endpoint goes straight to the Accept switch, whatever its method |
| Scenarios.SwitchTestJson | httpmock/conditional_test.go:88-94 | `Accept: application/json` gets the JSON file at 200 with "Foo: Bar" |
| Scenarios.SwitchTestXml | httpmock/conditional_test.go:96-102 | `Accept: application/xml` gets the XML file at 200 with "Foo: Bar" |
| Scenarios.SwitchTestDefault | httpmock/conditional_test.go:104-109 | any other Accept value except "GET" gets 406 with "Foo: Bar" |
| Scenarios.SwitchTestLoops | httpmock/conditional.go:358-368 | `Accept: GET` selects the misplaced method case, which refers back to the Accept switch, so the handler recurses at every depth bound |
| Scenarios.SwitchTestAcceptGetAborts | httpmock/conditional.go:342-354 | so a request with `Accept: GET` gets no response |
| Scenarios.SwitchTestIgnoresMethod | httpmock/conditional_test.go:54-80 | requests that differ only in their method get identical events |
| Scenarios.AcceptIgnoresMethod | httpmock/conditional.go:326-335 | the Accept switch never looks at the request method, at any depth |

## Left out

- Reading the WireMock mapping directory and decoding mapping files (`WireMockEndpoints`, the file open
  and JSON decode of `WireMockEndpoint`): file-system and JSON I/O. A mapping is given as its decoded
  record.
- The iteration order of Go maps: the header, query and response-header maps of a mapping are given as
  lists in the order `range` visits them.
- JSON encoding and marshalling: a JSON body is given as the text the encoder writes, and a
  `json.Marshal` result as that text or its failure.
- `RespondWithReader` and the reader and reader-producer body kinds of `WriteStatusAndBody`: stream I/O.
- `SmoothedNormalDelay`: a goroutine feeding a channel, marked unfinished in the source.
- The floating-point derivation of the log-normal parameters and the sampler's `exp`: a normal delay's
  draw is the oracle `Env.sample`. The three durations the WireMock lognormal branch formats are the
  oracle `LogNormalDurations`.
- Actual sleeping and the random source: a wait is a `Sleep` event, and `rand.Intn` is the oracle
  `Env.intn`.
- `http.ServeMux` pattern matching: the pattern the mux picks for a request is the oracle `Env.route`.
  The mux's rejection of empty and repeated patterns is modelled.
- `ServeMux` redirects: `Env.route` is assumed to return only a pattern whose own handler the mux runs.
  The 301 `RedirectHandler` that `ServeMux.Handler` returns with a non-empty pattern is not modelled.
  It arises for a path missing its trailing slash (`/static` when `/static/` is registered) and for an
  unclean path (`/a//b`, `/a/../b`). Such a request is accepted by the mux registration in Go too, but
  the model runs the routed handler where Go answers 301. The routing scenarios inherit this assumption.
- Body suppression by net/http: `Observe` keeps the body written for a `HEAD` request or under a 1xx,
  204 or 304 status, whereas net/http drops it.
- The regex engine and `regexp.MustCompile`: matching is the oracle `Env.matches`, and compilability is
  `Tools.compiles`.
- `time.ParseDuration`: the oracle `Tools.parseDuration`.
- The file system behind `RespondWithFile`: a file's contents, or its failure to open, is the oracle
  `Env.file`.
- Text.ToUpper: only ASCII letters are upper-cased, not the Unicode case mapping of `strings.ToUpper`.
- The headers net/http adds on its own when it writes the header (`Date`, `Content-Length` for a short
  body, a sniffed `Content-Type`) are not part of `Observe`: only the headers the handler sets are.
- The go-http-matchers `predicate` package that the WireMock importer imports
  (httpmock/wiremock/wireMock.go:4) is not part of this model. Its `RequestURIEquals`,
  `RequestURIMatches`, `PathEquals`, `PathMatches`, `MethodIs`, the `Header*` and `QueryParam*`
  builders, `Not` and `And` (the empty `And` accepting every request) are assumed to behave like
  httpmock's namesakes, and the model uses those.
- Header names: `Header.Get` canonicalisation is not modelled; a request header is looked up by the name
  as given.
- URL parsing: `URL.RequestURI()` and `URL.Query()` are fields of the request record.
- XPath extraction (`ExtractXPathString`) and the body predicates of body.go: they rely on an XML library
  and on go-http-matchers.
- `PredicateFunc` and `ExtractorFunc` closures: the scenarios use the built-in predicates and
  extractors that compute what the tests' closures compute.
- Logging: `LogLocation`'s call-site lookup through `runtime.Callers` and the log line itself. Only the
  fact that it emits no response events is kept.
- 64-bit integer width of statuses, priorities and durations: integers are unbounded.
- Concurrent serving of requests: the handler graph is read-only once `Mockery` returns.
- Go's unbounded recursion is represented by the fuel bound of `Run`. Running out of fuel stands for the
  fatal stack overflow, so a handler graph deeper than the fuel reads as aborting.
- `currentSwitch` outliving one `Mockery(...)` call: each configuration starts with no current switch,
  so a `Case` outside any `Switch` always panics, whereas Go panics only before any `Switch` has ever
  run.
- The `httpMock/` directory: an earlier draft of the package that does not compile.

## Findings

| source | as written | input that shows it | evidently intended | confidence | as-written member | corrected member |
|---|---|---|---|---|---|---|
| httpmock/wiremock/wireMock.go:123-125 and 144-146 | the `doesNotMatch` branch compiles and negates `condition.Matches`, which is always "" on that branch, so the predicate is "not (matches the empty pattern)" and rejects every request | header condition `doesNotMatch: "foo"` against a request with header value "bar"; also `doesNotMatch: "("`, which imports without the compile panic | the request is accepted, because "bar" does not match "foo"; "(" panics as an invalid pattern | not executed | WireMock.AsWrittenDoesNotMatchRejectsAll, WireMock.AsWrittenDoesNotMatchUnsatisfiable, WireMock.DoesNotMatchCounterexample | WireMock.PredicatesMeaning, WireMock.TranslateMatches, WireMock.ReadingsAgree |
