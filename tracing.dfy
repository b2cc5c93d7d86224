/**
 * The span a request produces: its name, its attributes, its status and
 * whether it has been ended. The tracing library's update operations are
 * functions on this value; like the library, they leave an ended span as it is.
 */
module Tracing {

  /** Name the instrumentation obtains its tracer under. */
  const TracerName: string := "demo-app"

  /** Statuses at or above this threshold mark the span as an error. */
  const ServerErrorThreshold: int := 500

  /** Span status codes, ordered Unset < Error < Ok as the tracing library orders them. */
  datatype SpanCode = Unset | Error | Ok

  function Rank(c: SpanCode): nat
  {
    match c
    case Unset => 0
    case Error => 1
    case Ok => 2
  }

  datatype Attr = StringAttr(s: string) | IntAttr(i: int)

  datatype Span = Span(
    tracer: string,
    name: string,
    attrs: map<string, Attr>,
    code: SpanCode,
    description: string,
    ended: bool)

  /** `tracer.Start`: a new span with the given name, no attributes, status unset, not ended. */
  function Start(tracer: string, name: string): (s: Span)
    ensures s.tracer == tracer && s.name == name
    ensures s.attrs == map[] && s.code == Unset && s.description == ""
    ensures !s.ended
  {
    Span(tracer, name, map[], Unset, "", false)
  }

  /**
   * `span.SetAttributes`: on a span still open, adds the attributes, a key
   * already present taking the new value; an ended span is left as it is.
   */
  function SetAttributes(s: Span, kvs: map<string, Attr>): (r: Span)
    ensures s.ended ==> r == s
    ensures !s.ended ==> r.attrs.Keys == s.attrs.Keys + kvs.Keys
    ensures !s.ended ==> forall k :: k in kvs ==> r.attrs[k] == kvs[k]
    ensures !s.ended ==> forall k :: k in s.attrs && k !in kvs ==> r.attrs[k] == s.attrs[k]
    ensures r.(attrs := s.attrs) == s
  {
    if s.ended then s else s.(attrs := s.attrs + kvs)
  }

  /**
   * `span.SetStatus`: on a span still open, takes the new code unless the
   * span already has a higher one (so Ok is final); the description is kept
   * only for Error. An ended span is left as it is.
   */
  function SetStatus(s: Span, code: SpanCode, description: string): (r: Span)
    ensures s.ended || Rank(code) < Rank(s.code) ==> r == s
    ensures !s.ended && Rank(s.code) <= Rank(code) ==>
              r.code == code && r.description == (if code == Error then description else "")
    ensures r.(code := s.code, description := s.description) == s
  {
    if s.ended || Rank(code) < Rank(s.code) then s
    else s.(code := code, description := if code == Error then description else "")
  }

  /** `span.End`: the span is ended; nothing else about it changes. */
  function End(s: Span): (r: Span)
    ensures r.ended
    ensures r.(ended := s.ended) == s
  {
    s.(ended := true)
  }

  /** Once a span is ended, no attribute, status or further end changes it. */
  lemma EndedSpanIsFrozen(s: Span, kvs: map<string, Attr>, code: SpanCode, description: string)
    ensures SetAttributes(End(s), kvs) == End(s)
    ensures SetStatus(End(s), code, description) == End(s)
    ensures End(End(s)) == End(s)
  {
  }

  /** The span name "<method> <route>". */
  function SpanName(httpMethod: string, route: string): (n: string)
    ensures |n| == |httpMethod| + 1 + |route|
    ensures n[..|httpMethod|] == httpMethod && n[|httpMethod|] == ' ' && n[|httpMethod| + 1..] == route
  {
    httpMethod + " " + route
  }

  /** Outcome of a finished request: Error exactly at and above the threshold, Ok below it. */
  function SpanCodeFor(status: int): (c: SpanCode)
    ensures c != Unset
    ensures c == Error <==> status >= ServerErrorThreshold
  {
    if status >= ServerErrorThreshold then Error else Ok
  }

  /** The classification is monotone in the status. */
  lemma SpanCodeMonotone(a: int, b: int)
    requires a <= b
    ensures SpanCodeFor(a) == Error ==> SpanCodeFor(b) == Error
    ensures SpanCodeFor(b) == Ok ==> SpanCodeFor(a) == Ok
  {
  }

  /** Index of the first space in `s`, or |s| when there is none. */
  function FirstSpace(s: string): (i: nat)
    ensures i <= |s|
    ensures i < |s| ==> s[i] == ' '
    ensures forall j :: 0 <= j < i ==> s[j] != ' '
  {
    if s == [] then 0 else if s[0] == ' ' then 0 else 1 + FirstSpace(s[1..])
  }

  /** Splits a span name at its first space. */
  function SplitSpanName(n: string): (string, string)
  {
    var i := FirstSpace(n);
    if i < |n| then (n[..i], n[i + 1..]) else (n, "")
  }

  /**
   * When the method has no space in it (an HTTP method is a token), the span
   * name determines both the method and the route label.
   */
  lemma SpanNameSplits(httpMethod: string, route: string)
    requires forall j :: 0 <= j < |httpMethod| ==> httpMethod[j] != ' '
    ensures SplitSpanName(SpanName(httpMethod, route)) == (httpMethod, route)
  {
  }
}
