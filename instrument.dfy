/**
 * The wrapper `instrument(route, next)`: for every request it installs the
 * status interceptor, opens a span, runs the handler and, when the handler
 * returns normally, records one latency observation, one counter increment
 * and the span's final status before ending the span.
 */
module Instrument {
  import opened Strconv
  import opened Tracing
  import opened Metrics
  import opened Recorder

  /** The parts of an incoming request the wrapper reads. */
  datatype Request = Request(httpMethod: string, path: string)

  /**
   * A handler, reduced to the status codes it sets on its response writer, in
   * order, and whether it then panics instead of returning.
   */
  datatype Handler = Handler(writes: seq<int>, panics: bool)

  /** The root and slow routes set 200; the error route sets 500 through `http.Error`. */
  const RootHandler: Handler := Handler([200], false)
  const ErrorHandler: Handler := Handler([500], false)
  const SlowHandler: Handler := Handler([200], false)

  /** The status the interceptor holds once `h` has returned. */
  function HandlerStatus(h: Handler): int
  {
    Recorded(DefaultStatus, h.writes)
  }

  /** Counter cell for a request: (method, route, decimal status). */
  function CounterLabels(route: string, r: Request, status: int): RequestLabels
  {
    (r.httpMethod, route, Itoa(status))
  }

  /** Histogram cell for a request: (method, route). */
  function HistogramLabels(route: string, r: Request): DurationLabels
  {
    (r.httpMethod, route)
  }

  /**
   * The span as it stands while the handler runs: named "<method> <route>",
   * carrying the request's method, route label and path, status unset, open.
   */
  function OpenedSpan(route: string, r: Request): (o: Span)
    ensures o.tracer == TracerName && o.name == SpanName(r.httpMethod, route)
    ensures o.attrs == map["http.method" := StringAttr(r.httpMethod),
                           "http.route" := StringAttr(route),
                           "http.target" := StringAttr(r.path)]
    ensures o.code == Unset && o.description == "" && !o.ended
  {
    SetAttributes(Start(TracerName, SpanName(r.httpMethod, route)),
      map["http.method" := StringAttr(r.httpMethod),
          "http.route" := StringAttr(route),
          "http.target" := StringAttr(r.path)])
  }

  /**
   * The span once the wrapper has finalised it with the recorded status: the
   * open span plus `http.status_code`, Error with its description at 500 and
   * above, Ok below, and ended.
   */
  function ClosedSpan(route: string, r: Request, status: int): (c: Span)
    ensures c.tracer == TracerName && c.name == SpanName(r.httpMethod, route)
    ensures c.attrs == OpenedSpan(route, r).attrs["http.status_code" := IntAttr(status)]
    ensures c.code == SpanCodeFor(status)
    ensures c.description == (if status >= ServerErrorThreshold then "server error" else "")
    ensures c.ended
  {
    var code := SpanCodeFor(status);
    End(SetStatus(SetAttributes(OpenedSpan(route, r), map["http.status_code" := IntAttr(status)]),
                  code, if code == Error then "server error" else "ok"))
  }

  /** Runs the handler against the interceptor: each of its status codes goes through `WriteHeader`. */
  method RunHandler(h: Handler, rr: RespRecorder) returns (returned: bool)
    modifies rr, rr.inner
    ensures rr.status == Recorded(old(rr.status), h.writes)
    ensures rr.inner.headers == old(rr.inner.headers) + h.writes
    ensures returned == !h.panics
  {
    ghost var init := rr.status;
    var i := 0;
    while i < |h.writes|
      invariant 0 <= i <= |h.writes|
      invariant rr.status == Recorded(init, h.writes[..i])
      invariant rr.inner.headers == old(rr.inner.headers) + h.writes[..i]
    {
      rr.WriteHeader(h.writes[i]);
      LastWriteWins(init, h.writes[..i + 1]);
      assert h.writes[..i + 1] == h.writes[..i] + [h.writes[i]];
      i := i + 1;
    }
    assert h.writes[..i] == h.writes;
    returned := !h.panics;
  }

  /**
   * `span.End`, together with the registry as it stands at that moment: the
   * snapshot is taken by the call that ends the span, so it shows which
   * metric updates had happened when the span was ended.
   */
  method EndSpan(s: Span, ghost reg: Registry)
    returns (r: Span, ghost snap: (map<RequestLabels, nat>, map<DurationLabels, nat>))
    ensures r == End(s)
    ensures snap == (reg.requestsTotal, reg.durationObservations)
  {
    r := End(s);
    snap := (reg.requestsTotal, reg.durationObservations);
  }

  /** The handler returned by `instrument(route, next)`, with the registry it records into. */
  class Instrumented {
    const route: string
    const next: Handler
    const registry: Registry

    constructor (route: string, next: Handler, registry: Registry)
      ensures this.route == route && this.next == next && this.registry == registry
    {
      this.route := route;
      this.next := next;
      this.registry := registry;
    }

    /**
     * Serves one request. Every status code the handler sets reaches `w`
     * unchanged. On normal return one observation and one increment are
     * recorded and the finished span is returned; `atEnd`, the registry as
     * `EndSpan` saw it when it ended the span, already holds both. When the handler
     * panics nothing is recorded and the span is left open.
     */
    method ServeHTTP(w: ResponseSink, r: Request)
      returns (span: Span, returned: bool, ghost atEnd: (map<RequestLabels, nat>, map<DurationLabels, nat>))
      modifies registry, w
      ensures w.headers == old(w.headers) + next.writes
      ensures returned == !next.panics
      ensures returned ==> registry.requestsTotal == Bump(old(registry.requestsTotal), CounterLabels(route, r, HandlerStatus(next)))
      ensures returned ==> registry.durationObservations == Bump(old(registry.durationObservations), HistogramLabels(route, r))
      ensures returned ==> span == ClosedSpan(route, r, HandlerStatus(next))
      ensures returned ==> atEnd == (registry.requestsTotal, registry.durationObservations)
      ensures !returned ==> unchanged(registry) && span == OpenedSpan(route, r)
    {
      var rr := new RespRecorder(w);

      span := Start(TracerName, SpanName(r.httpMethod, route));
      span := SetAttributes(span, map["http.method" := StringAttr(r.httpMethod),
                                      "http.route" := StringAttr(route),
                                      "http.target" := StringAttr(r.path)]);

      returned := RunHandler(next, rr);
      if !returned {
        // No span is ended on this path; the snapshot is the untouched registry.
        atEnd := (registry.requestsTotal, registry.durationObservations);
        return;
      }

      registry.ObserveDuration((r.httpMethod, route));
      registry.IncRequests((r.httpMethod, route, Itoa(rr.status)));

      span := SetAttributes(span, map["http.status_code" := IntAttr(rr.status)]);
      if rr.status >= ServerErrorThreshold {
        span := SetStatus(span, Error, "server error");
      } else {
        span := SetStatus(span, Ok, "ok");
      }
      span, atEnd := EndSpan(span, registry);
    }
  }

  /** A handler that never sets a status is recorded as 200 and its span ends Ok. */
  lemma DefaultStatusIs200(route: string, r: Request, h: Handler)
    requires h.writes == []
    ensures HandlerStatus(h) == 200
    ensures CounterLabels(route, r, HandlerStatus(h)) == (r.httpMethod, route, "200")
    ensures ClosedSpan(route, r, HandlerStatus(h)).code == Ok
  {
    StatusLabels();
  }

  /** A handler that sets statuses is recorded with the last one it set. */
  lemma HandlerStatusIsLastWrite(h: Handler)
    requires h.writes != []
    ensures HandlerStatus(h) == h.writes[|h.writes| - 1]
  {
    LastWriteWins(DefaultStatus, h.writes);
  }

  /**
   * The span's outcome is Error exactly when the status is at least 500, and
   * the status on the span is the one the counter label encodes.
   */
  lemma SpanOutcomeRule(route: string, r: Request, status: int)
    ensures ClosedSpan(route, r, status).code == Error <==> status >= 500
    ensures ClosedSpan(route, r, status).code == Ok <==> status < 500
    ensures ClosedSpan(route, r, status).attrs["http.status_code"] == IntAttr(status)
    ensures ParseInt(CounterLabels(route, r, status).2) == Some(status)
  {
    ItoaRoundTrip(status);
  }

  /**
   * The order matters: a span ended as soon as the handler returns keeps
   * neither the status code attribute nor the outcome set afterwards.
   */
  lemma EndingEarlyLosesStatus(route: string, r: Request, status: int)
    ensures SetStatus(SetAttributes(End(OpenedSpan(route, r)), map["http.status_code" := IntAttr(status)]),
                      SpanCodeFor(status), if SpanCodeFor(status) == Error then "server error" else "ok")
            == End(OpenedSpan(route, r))
    ensures End(OpenedSpan(route, r)) != ClosedSpan(route, r, status)
  {
  }

  /** The three demo routes: root and slow count under "200" with an Ok span, error under "500" with an Error span. */
  lemma DemoScenarios(r: Request)
    ensures CounterLabels("root", r, HandlerStatus(RootHandler)) == (r.httpMethod, "root", "200")
    ensures ClosedSpan("root", r, HandlerStatus(RootHandler)).code == Ok
    ensures CounterLabels("slow", r, HandlerStatus(SlowHandler)) == (r.httpMethod, "slow", "200")
    ensures ClosedSpan("slow", r, HandlerStatus(SlowHandler)).code == Ok
    ensures CounterLabels("error", r, HandlerStatus(ErrorHandler)) == (r.httpMethod, "error", "500")
    ensures ClosedSpan("error", r, HandlerStatus(ErrorHandler)).code == Error
  {
    StatusLabels();
  }

  /** Three increments of three distinct, empty cells leave each at one. */
  lemma ThreeCells<K(!new)>(a: K, b: K, c: K)
    requires a != b && b != c && a != c
    ensures Bump(Bump(Bump(map[], a), b), c) == map[a := 1, b := 1, c := 1]
  {
  }

  /** The counter and histogram cells the three demo requests land in. */
  lemma DemoCells()
    ensures Bump(Bump(Bump(map[], CounterLabels("root", Request("GET", "/"), HandlerStatus(RootHandler))),
                           CounterLabels("error", Request("GET", "/error"), HandlerStatus(ErrorHandler))),
                      CounterLabels("slow", Request("GET", "/slow"), HandlerStatus(SlowHandler)))
         == map[("GET", "root", "200") := 1, ("GET", "error", "500") := 1, ("GET", "slow", "200") := 1]
    ensures Bump(Bump(Bump(map[], HistogramLabels("root", Request("GET", "/"))),
                           HistogramLabels("error", Request("GET", "/error"))),
                      HistogramLabels("slow", Request("GET", "/slow")))
         == map[("GET", "root") := 1, ("GET", "error") := 1, ("GET", "slow") := 1]
  {
    StatusLabels();
    ThreeCells(("GET", "root", "200"), ("GET", "error", "500"), ("GET", "slow", "200"));
    ThreeCells(("GET", "root"), ("GET", "error"), ("GET", "slow"));
  }

  /** One GET to each demo route through the wrapper, starting from an empty registry. */
  method DemoRequests() returns (counts: map<RequestLabels, nat>, observations: map<DurationLabels, nat>,
                                 rootSpan: Span, errorSpan: Span, slowSpan: Span, allReturned: bool)
    ensures counts == map[("GET", "root", "200") := 1, ("GET", "error", "500") := 1, ("GET", "slow", "200") := 1]
    ensures observations == map[("GET", "root") := 1, ("GET", "error") := 1, ("GET", "slow") := 1]
    ensures rootSpan == ClosedSpan("root", Request("GET", "/"), 200) && rootSpan.code == Ok
    ensures errorSpan == ClosedSpan("error", Request("GET", "/error"), 500) && errorSpan.code == Error
    ensures slowSpan == ClosedSpan("slow", Request("GET", "/slow"), 200) && slowSpan.code == Ok
    ensures allReturned
  {
    var registry := new Registry();
    var root := new Instrumented("root", RootHandler, registry);
    var failing := new Instrumented("error", ErrorHandler, registry);
    var slow := new Instrumented("slow", SlowHandler, registry);

    var w := new ResponseSink();
    var rootReturned, errorReturned, slowReturned;
    ghost var atEnd;
    rootSpan, rootReturned, atEnd := root.ServeHTTP(w, Request("GET", "/"));
    w := new ResponseSink();
    errorSpan, errorReturned, atEnd := failing.ServeHTTP(w, Request("GET", "/error"));
    w := new ResponseSink();
    slowSpan, slowReturned, atEnd := slow.ServeHTTP(w, Request("GET", "/slow"));
    allReturned := rootReturned && errorReturned && slowReturned;
    DemoCells();
    assert rootSpan.code == Ok && errorSpan.code == Error && slowSpan.code == Ok by {
      DemoScenarios(Request("GET", "/"));
      DemoScenarios(Request("GET", "/error"));
      DemoScenarios(Request("GET", "/slow"));
    }
    counts := registry.requestsTotal;
    observations := registry.durationObservations;
    // The last span was ended with every request already counted.
    assert atEnd == (counts, observations);
  }
}
