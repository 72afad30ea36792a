/** The HTTP objects the handlers see, reduced to plain records: the inbound
    request, the events a handler emits on its `http.ResponseWriter`, and the
    response a client observes from a trace of such events.  Everything the
    handlers consult outside the handler graph (the regex engine, the
    `http.ServeMux` pattern lookup, the file system, the random source) is an
    oracle in `Env`. */
module Http {
  import opened Base

  /** `*http.Request` as the handlers read it; `verb` is its `Method`.  `header` maps a name, as
      `Header.Get` resolves it, to its first value; `query` does the same for
      `URL.Query().Get`; `requestURI` is `URL.RequestURI()`. */
  datatype Request = Request(
    verb: string,
    path: string,
    requestURI: string,
    header: map<string, string>,
    query: map<string, string>)

  /** `r.Header.Get(name)`: a missing header reads as "". */
  function HeaderGet(r: Request, name: string): string {
    if name in r.header then r.header[name] else ""
  }

  /** `r.URL.Query().Get(name)`: a missing parameter reads as "". */
  function QueryGet(r: Request, name: string): string {
    if name in r.query then r.query[name] else ""
  }

  /** One effect of a handler on the response, in the order it happens. */
  datatype Event =
    | HeaderAdd(name: string, value: string)  // w.Header().Add
    | HeaderSet(name: string, value: string)  // w.Header().Set
    | WriteHeader(code: int)                  // w.WriteHeader
    | Write(data: string)                     // w.Write / io.Copy
    | Sleep(duration: int)                    // time.Sleep, in nanoseconds
    | Panic                                   // a run-time panic inside the handler
    | Overflow                                // unbounded handler recursion (Go's fatal stack overflow)

  /** The request-time oracles. */
  datatype Env = Env(
    matches: (string, string) -> bool,        // regexp.MatchString(pattern, subject)
    route: (seq<string>, Request) -> string,  // pattern ServeMux.Handler picks among the registered ones, "" if none; never a redirect
    file: string -> Option<string>,           // contents of a file that opens, None if os.Open fails
    intn: int -> int,                         // rand.Intn
    sample: (int, int) -> int)                // one log-normal draw in nanoseconds for (mean, stdDev)

  /** What the client sees.  A panic or a fatal overflow leaves no response. */
  datatype Response =
    | Aborted
    | Response(status: int, header: map<string, seq<string>>, body: string, trailer: map<string, seq<string>>)

  /** The response writer's state: the live header map, the status and header
      snapshot taken when the response was committed, and the body so far. */
  datatype Writer = Writer(header: map<string, seq<string>>, committed: Option<Commit>, body: string)
  datatype Commit = Commit(status: int, header: map<string, seq<string>>)

  function AddValue(h: map<string, seq<string>>, name: string, value: string): map<string, seq<string>> {
    h[name := (if name in h then h[name] else []) + [value]]
  }

  /** `checkWriteHeaderCode` in net/http panics outside 100..999. */
  predicate ValidCode(code: int) {
    100 <= code <= 999
  }

  /** One event applied to the writer; None when the handler aborts.  The first
      `WriteHeader` (or a `Write` before any, which implies 200) commits the
      status and snapshots the headers; later `WriteHeader` calls are ignored
      whatever their code, because net/http returns before checking it. */
  function Step(w: Writer, e: Event): Option<Writer> {
    match e
    case HeaderAdd(n, v) => Some(w.(header := AddValue(w.header, n, v)))
    case HeaderSet(n, v) => Some(w.(header := w.header[n := [v]]))
    case WriteHeader(code) =>
      if w.committed.Some? then Some(w)
      else if !ValidCode(code) then None
      else Some(w.(committed := Some(Commit(code, w.header))))
    case Write(data) =>
      var c := if w.committed.Some? then w.committed.value else Commit(200, w.header);
      Some(w.(committed := Some(c), body := w.body + data))
    case Sleep(_) => Some(w)
    case Panic => None
    case Overflow => None
  }

  function Play(w: Writer, trace: seq<Event>): Option<Writer>
    decreases |trace|
  {
    if trace == [] then Some(w)
    else match Step(w, trace[0])
      case None => None
      case Some(w') => Play(w', trace[1..])
  }

  const Fresh := Writer(map[], None, "")

  /** The response a client observes for the events of one request.  Trailers
      are the final values of the names the committed header declared under
      "Trailer". */
  function Observe(trace: seq<Event>): Response {
    match Play(Fresh, trace)
    case None => Aborted
    case Some(w) => Finish(w)
  }

  /** The response once the handler returns: an uncommitted writer commits 200
      with the headers as they stand. */
  function Finish(w: Writer): Response {
    var c := if w.committed.Some? then w.committed.value else Commit(200, w.header);
    var declared := if "Trailer" in c.header then c.header["Trailer"] else [];
    Response(c.status, c.header, w.body, map k | k in declared && k in w.header :: w.header[k])
  }

  /** `Header.Get` on an observed header map. */
  function ValueOf(h: map<string, seq<string>>, name: string): string {
    if name in h && |h[name]| > 0 then h[name][0] else ""
  }

  predicate Aborts(e: Event) {
    e.Panic? || e.Overflow?
  }

  predicate HeaderOnly(e: Event) {
    e.HeaderAdd? || e.HeaderSet? || e.Sleep?
  }

  lemma {:induction false} PlayAppend(w: Writer, a: seq<Event>, b: seq<Event>)
    ensures Play(w, a + b) == (match Play(w, a) case None => None case Some(w') => Play(w', b))
    decreases |a|
  {
    if a == [] {
      assert a + b == b;
    } else {
      assert (a + b)[0] == a[0];
      assert (a + b)[1..] == a[1..] + b;
      match Step(w, a[0])
      case None =>
      case Some(w') =>
        PlayAppend(w', a[1..], b);
    }
  }

  /** Events after the commit never change the committed status or headers. */
  lemma {:induction false} PlayKeepsCommit(w: Writer, trace: seq<Event>)
    requires w.committed.Some?
    requires forall i :: 0 <= i < |trace| ==> !Aborts(trace[i])
    ensures Play(w, trace).Some?
    ensures Play(w, trace).value.committed == w.committed
    decreases |trace|
  {
    if trace != [] {
      PlayKeepsCommit(Step(w, trace[0]).value, trace[1..]);
    }
  }

  /** Header-only events leave the response uncommitted. */
  lemma {:induction false} PlayHeadersOnly(w: Writer, trace: seq<Event>)
    requires w.committed.None?
    requires forall i :: 0 <= i < |trace| ==> HeaderOnly(trace[i])
    ensures Play(w, trace).Some?
    ensures Play(w, trace).value.committed.None?
    ensures Play(w, trace).value.body == w.body
    decreases |trace|
  {
    if trace != [] {
      PlayHeadersOnly(Step(w, trace[0]).value, trace[1..]);
    }
  }

  /** The status a client sees is the one of the first `WriteHeader`, and the
      headers it sees are exactly those set before it; nothing after it
      changes either, as long as the handler does not abort. */
  lemma FirstWriteHeaderWins(before: seq<Event>, code: int, after: seq<Event>)
    requires forall i :: 0 <= i < |before| ==> HeaderOnly(before[i])
    requires ValidCode(code)
    requires forall i :: 0 <= i < |after| ==> !Aborts(after[i])
    ensures Play(Fresh, before).Some?
    ensures Observe(before + [WriteHeader(code)] + after).Response?
    ensures Observe(before + [WriteHeader(code)] + after).status == code
    ensures Observe(before + [WriteHeader(code)] + after).header == Play(Fresh, before).value.header
  {
    PlayHeadersOnly(Fresh, before);
    var w := Play(Fresh, before).value;
    var w1 := w.(committed := Some(Commit(code, w.header)));
    assert Step(w, WriteHeader(code)) == Some(w1);
    assert Play(w, [WriteHeader(code)] + after) == Play(w1, after);
    PlayKeepsCommit(w1, after);
    PlayAppend(Fresh, before, [WriteHeader(code)] + after);
    assert before + [WriteHeader(code)] + after == before + ([WriteHeader(code)] + after);
    var w2 := Play(w1, after).value;
    assert Play(Fresh, before + [WriteHeader(code)] + after) == Some(w2);
    assert w2.committed == Some(Commit(code, w.header));
  }

  lemma AbortedByPanic(before: seq<Event>, after: seq<Event>)
    requires forall i :: 0 <= i < |before| ==> HeaderOnly(before[i])
    ensures Observe(before + [Panic] + after) == Aborted
  {
    PlayHeadersOnly(Fresh, before);
    PlayAppend(Fresh, before, [Panic] + after);
    assert before + [Panic] + after == before + ([Panic] + after);
  }
}
