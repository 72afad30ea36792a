/** The predicate/extractor algebra of httpmock/conditional.go.  Go passes
    `interface{}` values around and type-asserts them; here a value is either a
    string or the whole request, and a failed type assertion (a panic in Go)
    is the `None` verdict. */
module Conditional {
  import opened Base
  import opened Text
  import opened Http

  datatype Value = VStr(s: string) | VReq(r: Request)

  /** The regex engine: does the pattern match somewhere in the subject. */
  type Matcher = (string, string) -> bool

  datatype Extractor =
    | IdentityExtractor
    | MethodExtractor
    | ExtractPath
    | ExtractRequestURI
    | ExtractHeader(name: string)
    | ExtractQueryParameter(name: string)
    | ExtractPathElementByIndex(index: int)
    | UpperCaseExtractor(inner: Extractor)

  datatype Predicate =
    | And(ps: seq<Predicate>)
    | Or(ps: seq<Predicate>)
    | Not(p: Predicate)
    | TruePredicate
    | FalsePredicate
    | StringEquals(value: string)
    | StringContains(value: string)
    | StringStartsWith(value: string)
    | StringEndsWith(value: string)
    | StringMatches(regex: string)
    | ExtractedValueAccepted(extractor: Extractor, test: Predicate)

  /** The path element at a 1-based position, counting from the end when
      negative; "" when out of range.  Element 0 is the empty piece before the
      leading "/". */
  function PathElement(path: string, idx: int): string {
    var elements := Split(path, '/');
    var i := if idx < 0 then |elements| + idx else idx;
    if i < 0 || i >= |elements| then "" else elements[i]
  }

  /** `Extract`: None when the extractor type-asserts a value of the wrong shape. */
  function Extract(e: Extractor, v: Value): Option<Value> {
    match e
    case IdentityExtractor => Some(v)
    case UpperCaseExtractor(inner) =>
      (match Extract(inner, v)
       case Some(VStr(s)) => Some(VStr(ToUpper(s)))
       case _ => None)
    case _ =>
      if !v.VReq? then None
      else
        var r := v.r;
        match e
        case MethodExtractor => Some(VStr(r.verb))
        case ExtractPath => Some(VStr(r.path))
        case ExtractRequestURI => Some(VStr(r.requestURI))
        case ExtractHeader(name) => Some(VStr(HeaderGet(r, name)))
        case ExtractQueryParameter(name) => Some(VStr(QueryGet(r, name)))
        case ExtractPathElementByIndex(idx) => Some(VStr(PathElement(r.path, idx)))
  }

  /** `Accept`: Some(b) is the verdict, None a type-assertion panic. */
  function Eval(p: Predicate, v: Value, re: Matcher): Option<bool>
    decreases p
  {
    match p
    case And(ps) => EvalAnd(ps, v, re)
    case Or(ps) => EvalOr(ps, v, re)
    case Not(q) => (match Eval(q, v, re) case None => None case Some(b) => Some(!b))
    case TruePredicate => Some(true)
    case FalsePredicate => Some(false)
    case ExtractedValueAccepted(e, q) =>
      (match Extract(e, v) case None => None case Some(x) => Eval(q, x, re))
    case _ =>
      if !v.VStr? then None
      else
        var s := v.s;
        match p
        case StringEquals(value) => Some(s == value)
        case StringContains(value) => Some(Contains(s, value))
        case StringStartsWith(value) => Some(HasPrefix(s, value))
        case StringEndsWith(value) => Some(HasSuffix(s, value))
        case StringMatches(regex) => Some(re(regex, s))
  }

  /** The loop of `And`: stop at the first member that does not accept. */
  function EvalAnd(ps: seq<Predicate>, v: Value, re: Matcher): Option<bool>
    decreases ps
  {
    if ps == [] then Some(true)
    else match Eval(ps[0], v, re)
      case Some(true) => EvalAnd(ps[1..], v, re)
      case other => other
  }

  /** The loop of `Or`: stop at the first member that does not reject. */
  function EvalOr(ps: seq<Predicate>, v: Value, re: Matcher): Option<bool>
    decreases ps
  {
    if ps == [] then Some(false)
    else match Eval(ps[0], v, re)
      case Some(false) => EvalOr(ps[1..], v, re)
      case other => other
  }

  // The request predicates built from extractors and string comparisons.

  function PathMatches(regex: string): Predicate {
    ExtractedValueAccepted(ExtractPath, StringMatches(regex))
  }

  function PathEquals(path: string): Predicate {
    ExtractedValueAccepted(ExtractPath, StringEquals(path))
  }

  function PathStartsWith(path: string): Predicate {
    ExtractedValueAccepted(ExtractPath, StringStartsWith(path))
  }

  function HeaderMatches(name: string, regex: string): Predicate {
    ExtractedValueAccepted(ExtractHeader(name), StringMatches(regex))
  }

  function HeaderEquals(name: string, value: string): Predicate {
    ExtractedValueAccepted(ExtractHeader(name), StringEquals(value))
  }

  /** The literal is upper-cased once, here, when the predicate is built. */
  function HeaderEqualsIgnoreCase(name: string, value: string): Predicate {
    ExtractedValueAccepted(UpperCaseExtractor(ExtractHeader(name)), StringEquals(ToUpper(value)))
  }

  function HeaderContains(name: string, value: string): Predicate {
    ExtractedValueAccepted(ExtractHeader(name), StringContains(value))
  }

  function HeaderContainsIgnoreCase(name: string, value: string): Predicate {
    ExtractedValueAccepted(UpperCaseExtractor(ExtractHeader(name)), StringContains(ToUpper(value)))
  }

  function HeaderStartsWith(name: string, value: string): Predicate {
    ExtractedValueAccepted(ExtractHeader(name), StringStartsWith(value))
  }

  function RequestURIMatches(regex: string): Predicate {
    ExtractedValueAccepted(ExtractRequestURI, StringMatches(regex))
  }

  function RequestURIEquals(uri: string): Predicate {
    ExtractedValueAccepted(ExtractRequestURI, StringEquals(uri))
  }

  function RequestURIStartsWith(uri: string): Predicate {
    ExtractedValueAccepted(ExtractRequestURI, StringStartsWith(uri))
  }

  /** Case-insensitive method test, unlike the exact `Method` case of a switch. */
  function MethodIs(verb: string): Predicate {
    ExtractedValueAccepted(UpperCaseExtractor(MethodExtractor), StringEquals(ToUpper(verb)))
  }

  function QueryParamEquals(name: string, value: string): Predicate {
    ExtractedValueAccepted(ExtractQueryParameter(name), StringEquals(value))
  }

  function QueryParamEqualsIgnoreCase(name: string, value: string): Predicate {
    ExtractedValueAccepted(UpperCaseExtractor(ExtractQueryParameter(name)), StringEquals(ToUpper(value)))
  }

  function QueryParamContains(name: string, value: string): Predicate {
    ExtractedValueAccepted(ExtractQueryParameter(name), StringContains(value))
  }

  function QueryParamContainsIgnoreCase(name: string, value: string): Predicate {
    ExtractedValueAccepted(UpperCaseExtractor(ExtractQueryParameter(name)), StringContains(ToUpper(value)))
  }

  function QueryParamMatches(name: string, regex: string): Predicate {
    ExtractedValueAccepted(ExtractQueryParameter(name), StringMatches(regex))
  }

  function QueryParamStartsWith(name: string, prefix: string): Predicate {
    ExtractedValueAccepted(ExtractQueryParameter(name), StringStartsWith(prefix))
  }

  // ---------------------------------------------------------------------------
  // Laws of the algebra.

  /** `And` accepts iff every member accepts; otherwise its verdict is that of
      the first member that does not accept, whatever the later members would
      say (they are never evaluated).  With no members it accepts. */
  lemma {:induction false} AndVerdict(ps: seq<Predicate>, v: Value, re: Matcher, i: nat)
    requires i <= |ps|
    requires forall j :: 0 <= j < i ==> Eval(ps[j], v, re) == Some(true)
    requires i < |ps| ==> Eval(ps[i], v, re) != Some(true)
    ensures Eval(And(ps), v, re) == (if i == |ps| then Some(true) else Eval(ps[i], v, re))
    decreases i
  {
    if i > 0 {
      assert Eval(ps[0], v, re) == Some(true);
      AndVerdict(ps[1..], v, re, i - 1);
    }
  }

  /** `Or` rejects iff every member rejects; otherwise its verdict is that of
      the first member that does not reject.  With no members it rejects. */
  lemma {:induction false} OrVerdict(ps: seq<Predicate>, v: Value, re: Matcher, i: nat)
    requires i <= |ps|
    requires forall j :: 0 <= j < i ==> Eval(ps[j], v, re) == Some(false)
    requires i < |ps| ==> Eval(ps[i], v, re) != Some(false)
    ensures Eval(Or(ps), v, re) == (if i == |ps| then Some(false) else Eval(ps[i], v, re))
    decreases i
  {
    if i > 0 {
      assert Eval(ps[0], v, re) == Some(false);
      OrVerdict(ps[1..], v, re, i - 1);
    }
  }

  /** `And` accepts exactly when all members accept. */
  lemma {:induction false} AndAcceptsIffAll(ps: seq<Predicate>, v: Value, re: Matcher)
    ensures Eval(And(ps), v, re) == Some(true) <==> forall j :: 0 <= j < |ps| ==> Eval(ps[j], v, re) == Some(true)
    decreases |ps|
  {
    if ps != [] {
      AndAcceptsIffAll(ps[1..], v, re);
      assert forall j :: 1 <= j < |ps| ==> ps[j] == ps[1..][j - 1];
    }
  }

  /** `Or` accepts exactly when some member accepts and no earlier member panics. */
  lemma {:induction false} OrAcceptsIffSome(ps: seq<Predicate>, v: Value, re: Matcher)
    ensures Eval(Or(ps), v, re) == Some(true) <==>
            exists j :: 0 <= j < |ps| && Eval(ps[j], v, re) == Some(true) &&
                        forall k :: 0 <= k < j ==> Eval(ps[k], v, re) == Some(false)
    decreases |ps|
  {
    if ps != [] {
      OrAcceptsIffSome(ps[1..], v, re);
      if Eval(ps[0], v, re) == Some(true) {
        assert Eval(Or(ps), v, re) == Some(true);
      } else if Eval(ps[0], v, re) == Some(false) {
        assert Eval(Or(ps), v, re) == Eval(Or(ps[1..]), v, re);
        if Eval(Or(ps), v, re) == Some(true) {
          var j :| 0 <= j < |ps[1..]| && Eval(ps[1..][j], v, re) == Some(true) &&
                   forall k :: 0 <= k < j ==> Eval(ps[1..][k], v, re) == Some(false);
          assert Eval(ps[j + 1], v, re) == Some(true);
          assert forall k :: 0 <= k < j + 1 ==> Eval(ps[k], v, re) == Some(false) by {
            forall k | 0 <= k < j + 1 ensures Eval(ps[k], v, re) == Some(false) {
              if k > 0 { assert ps[k] == ps[1..][k - 1]; }
            }
          }
        } else {
          forall j | 0 <= j < |ps| && Eval(ps[j], v, re) == Some(true)
            ensures exists k :: 0 <= k < j && Eval(ps[k], v, re) != Some(false)
          {
            assert j > 0;
            assert ps[j] == ps[1..][j - 1];
            var k :| 0 <= k < j - 1 && Eval(ps[1..][k], v, re) != Some(false);
            assert ps[k + 1] == ps[1..][k];
          }
        }
      }
    }
  }

  lemma NotNot(p: Predicate, v: Value, re: Matcher)
    ensures Eval(Not(Not(p)), v, re) == Eval(p, v, re)
  {
  }

  lemma TrueAndFalse(v: Value, re: Matcher)
    ensures Eval(TruePredicate, v, re) == Some(true)
    ensures Eval(FalsePredicate, v, re) == Some(false)
  {
  }

  /** A request extractor applied to a string is a failed type assertion. */
  lemma RequestPredicateOnString(e: Extractor, q: Predicate, s: string, re: Matcher)
    requires e != IdentityExtractor && !e.UpperCaseExtractor?
    ensures Eval(ExtractedValueAccepted(e, q), VStr(s), re) == None
  {
  }

  /** The case-insensitive builders compare upper-cased request data with the
      upper-cased literal; the case-sensitive ones compare as given. */
  lemma IgnoreCaseSemantics(r: Request, name: string, value: string, re: Matcher)
    ensures Eval(HeaderEqualsIgnoreCase(name, value), VReq(r), re) == Some(ToUpper(HeaderGet(r, name)) == ToUpper(value))
    ensures Eval(HeaderContainsIgnoreCase(name, value), VReq(r), re) == Some(Contains(ToUpper(HeaderGet(r, name)), ToUpper(value)))
    ensures Eval(QueryParamEqualsIgnoreCase(name, value), VReq(r), re) == Some(ToUpper(QueryGet(r, name)) == ToUpper(value))
    ensures Eval(QueryParamContainsIgnoreCase(name, value), VReq(r), re) == Some(Contains(ToUpper(QueryGet(r, name)), ToUpper(value)))
    ensures Eval(MethodIs(value), VReq(r), re) == Some(ToUpper(r.verb) == ToUpper(value))
    ensures Eval(HeaderEquals(name, value), VReq(r), re) == Some(HeaderGet(r, name) == value)
  {
    HeaderVerdicts(r, name, value, re);
    QueryVerdicts(r, name, value, re);
    assert Extract(UpperCaseExtractor(MethodExtractor), VReq(r)) == Some(VStr(ToUpper(r.verb)));
  }

  /** The verdicts of the header builders, in terms of the header's value. */
  lemma HeaderVerdicts(r: Request, name: string, value: string, re: Matcher)
    ensures Eval(HeaderEqualsIgnoreCase(name, value), VReq(r), re) == Some(ToUpper(HeaderGet(r, name)) == ToUpper(value))
    ensures Eval(HeaderEquals(name, value), VReq(r), re) == Some(HeaderGet(r, name) == value)
    ensures Eval(HeaderContainsIgnoreCase(name, value), VReq(r), re) == Some(Contains(ToUpper(HeaderGet(r, name)), ToUpper(value)))
    ensures Eval(HeaderContains(name, value), VReq(r), re) == Some(Contains(HeaderGet(r, name), value))
    ensures Eval(HeaderMatches(name, value), VReq(r), re) == Some(re(value, HeaderGet(r, name)))
  {
    var v := HeaderGet(r, name);
    assert Extract(ExtractHeader(name), VReq(r)) == Some(VStr(v));
    assert Extract(UpperCaseExtractor(ExtractHeader(name)), VReq(r)) == Some(VStr(ToUpper(v)));
  }

  /** The verdicts of the query-parameter builders, in terms of the parameter's value. */
  lemma QueryVerdicts(r: Request, name: string, value: string, re: Matcher)
    ensures Eval(QueryParamEqualsIgnoreCase(name, value), VReq(r), re) == Some(ToUpper(QueryGet(r, name)) == ToUpper(value))
    ensures Eval(QueryParamEquals(name, value), VReq(r), re) == Some(QueryGet(r, name) == value)
    ensures Eval(QueryParamContainsIgnoreCase(name, value), VReq(r), re) == Some(Contains(ToUpper(QueryGet(r, name)), ToUpper(value)))
    ensures Eval(QueryParamContains(name, value), VReq(r), re) == Some(Contains(QueryGet(r, name), value))
    ensures Eval(QueryParamMatches(name, value), VReq(r), re) == Some(re(value, QueryGet(r, name)))
  {
    var v := QueryGet(r, name);
    assert Extract(ExtractQueryParameter(name), VReq(r)) == Some(VStr(v));
    assert Extract(UpperCaseExtractor(ExtractQueryParameter(name)), VReq(r)) == Some(VStr(ToUpper(v)));
  }

  function WithHeader(name: string, value: string): Request {
    Request("GET", "/", "/", map[name := value], map[])
  }

  /** `HeaderEqualsIgnoreCase("Accept", "Foo")` accepts FOO, foo and Foo and rejects food. */
  lemma IgnoreCaseExamples(re: Matcher)
    ensures Eval(HeaderEqualsIgnoreCase("Accept", "Foo"), VReq(WithHeader("Accept", "FOO")), re) == Some(true)
    ensures Eval(HeaderEqualsIgnoreCase("Accept", "Foo"), VReq(WithHeader("Accept", "foo")), re) == Some(true)
    ensures Eval(HeaderEqualsIgnoreCase("Accept", "Foo"), VReq(WithHeader("Accept", "Foo")), re) == Some(true)
    ensures Eval(HeaderEqualsIgnoreCase("Accept", "Foo"), VReq(WithHeader("Accept", "food")), re) == Some(false)
  {
    assert ToUpper("Foo") == "FOO";
    assert ToUpper("FOO") == "FOO";
    assert ToUpper("foo") == "FOO";
    assert ToUpper("food") == "FOOD";
  }

  /** The elements `ExtractPathElementByIndex` reads, rejoined with "/", give back the path. */
  lemma PathElementsRejoin(path: string)
    ensures var n := |Split(path, '/')|;
            Join(seq(n, i requires 0 <= i < n => PathElement(path, i)), '/') == path
  {
    var n := |Split(path, '/')|;
    assert seq(n, i requires 0 <= i < n => PathElement(path, i)) == Split(path, '/');
    JoinSplit(path, '/');
  }

  /** Counting from the end: -k names the same element as n-k. */
  lemma PathElementFromEnd(path: string, k: int)
    requires 1 <= k <= |Split(path, '/')|
    ensures PathElement(path, -k) == PathElement(path, |Split(path, '/')| - k)
    ensures '/' !in PathElement(path, -k)
  {
  }

  function PathRequest(path: string): Request {
    Request("GET", path, path, map[], map[])
  }

  lemma SplitExample()
    ensures Split("/foo/bar/snafu", '/') == ["", "foo", "bar", "snafu"]
  {
    var parts := ["", "foo", "bar", "snafu"];
    assert Join(parts, '/') == "/foo/bar/snafu" by {
      assert Join(parts[3..], '/') == "snafu";
      assert Join(parts[2..], '/') == "bar/snafu";
      assert Join(parts[1..], '/') == "foo/bar/snafu";
    }
    SplitJoin(parts, '/');
  }

  /** On "/foo/bar/snafu": 1,2,3 give foo,bar,snafu; -1,-2,-3 give snafu,bar,foo; 0 gives the empty
      leading piece; 4 and -4 are out of range. */
  lemma PathElementExamples()
    ensures PathElement("/foo/bar/snafu", 1) == "foo"
    ensures PathElement("/foo/bar/snafu", 2) == "bar"
    ensures PathElement("/foo/bar/snafu", 3) == "snafu"
    ensures PathElement("/foo/bar/snafu", -1) == "snafu"
    ensures PathElement("/foo/bar/snafu", -2) == "bar"
    ensures PathElement("/foo/bar/snafu", -3) == "foo"
    ensures PathElement("/foo/bar/snafu", 0) == ""
    ensures PathElement("/foo/bar/snafu", 4) == ""
    ensures PathElement("/foo/bar/snafu", -4) == ""
  {
    SplitExample();
  }

  /** The extractor reads those elements off the request path. */
  lemma PathElementExtractor(r: Request, idx: int)
    ensures Extract(ExtractPathElementByIndex(idx), VReq(r)) == Some(VStr(PathElement(r.path, idx)))
    ensures Extract(ExtractPathElementByIndex(idx), VStr(r.path)) == None
  {
  }
}
