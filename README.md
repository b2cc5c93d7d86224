# Request instrumentation of the monitoring demo app

This project models, in Dafny, the request instrumentation of the demo HTTP
service in `demo-app/main.go`. Each of the three demo handlers (main.go:63-80)
is wrapped by `instrument(route, next)`; the `/metrics` endpoint is not. For
each request the wrapper:

- puts a status interceptor (`respRecorder`) in front of the response writer;
- opens a trace span named `"<method> <route>"` with the attributes
  `http.method`, `http.route` and `http.target`;
- runs the handler;
- records one observation in the latency histogram
  `http_request_duration_seconds{method, route}`;
- adds one to the counter `http_requests_total{method, route, status}`;
- sets the span's `http.status_code`, marks the span Error when the status is
  500 or more and Ok otherwise, and ends the span.

The model has one module per component:

- `Strconv` (`strconv.dfy`): `Itoa`, the decimal status label. It also has a
  reference decoder, `ParseInt`, used to show that a label determines its status.
- `Env` (`env.dfy`): `getenv` over an explicit environment map.
- `Tracing` (`tracing.dfy`): the span as a record. It holds the span name, the
  `>= 500` classification and the functions that stand for the tracing
  library's calls. As in the library, an ended span ignores later updates, an
  Ok status is never downgraded, and a description is kept only for Error.
- `Metrics` (`metrics.dfy`): the registry as a class. Its two maps count
  increments per `(method, route, status)` cell and observations per
  `(method, route)` cell. Both update methods are specified by the pure `Bump`.
  `Tally`, a run of `Bump`s, states what a sequence of requests does.
- `Recorder` (`recorder.dfy`): the wrapped response writer (`ResponseSink`, a
  log of the status codes it received) and the interceptor class `RespRecorder`.
- `Instrument` (`instrument.dfy`): the wrapped handler as the class
  `Instrumented`. Its `ServeHTTP` method is the closure that `instrument`
  returns. The module also holds the pure description of one request's effects
  (`HandlerStatus`, `CounterLabels`, `OpenedSpan`, `ClosedSpan`) and the
  lemmas about it.

A handler is modelled as the list of status codes it passes to `WriteHeader`,
in order, plus a flag saying whether it then panics. The root and slow
handlers call `WriteHeader(200)`. The error handler calls `http.Error(..., 500)`,
which sets 500.

Two behaviours of the code are worth stating plainly:

- The span is started on every request through the global tracer. There is no
  tracing-disabled path.
- Finalisation is not deferred. The metrics, the span status and `End` happen
  only when the handler returns normally. A panicking handler leaves the
  registry unchanged and its span open.

## Model

| member | source | states |
|---|---|---|
| `Strconv.Itoa` | demo-app/main.go:146 | the status label is non-empty, starts with '-' exactly for negative statuses, is otherwise all decimal digits, and has no leading zero (only 0 is written "0") |
| `Strconv.ItoaRoundTrip` | demo-app/main.go:146 | every status label decodes back to the status it was made from |
| `Strconv.ItoaInjective` | demo-app/main.go:146 | two statuses share a counter label exactly when they are equal, so distinct statuses use distinct counter cells |
| `Strconv.StatusLabels` | demo-app/main.go:146 | statuses 200 and 500 are labelled "200" and "500" |
| `Env.OsGetenv` | demo-app/main.go:170 | the value of a set variable, and the empty string for an unset one |
| `Env.Getenv` | demo-app/main.go:169-174 | the variable's value when it is set and non-empty; the default when it is unset or empty; the result is empty only if the default is |
| `Tracing.Start` | demo-app/main.go:133 | a new span carries the tracer and the given name, has no attributes, status Unset and is not ended |
| `Tracing.SetAttributes` | demo-app/main.go:134-138 | on an open span the new attributes are added, a repeated key takes the new value, all other attributes and span fields are kept; an ended span is unchanged |
| `Tracing.SetStatus` | demo-app/main.go:150-154 | on an open span the code is taken unless the span already has a higher one, and the description is kept only for Error; an ended span is unchanged; nothing else changes |
| `Tracing.End` | demo-app/main.go:155 | the span is ended and nothing else about it changes |
| `Tracing.EndedSpanIsFrozen` | demo-app/main.go:149-155 | after `End`, setting attributes, setting the status or ending again leaves the span as it is |
| `Tracing.SpanName` | demo-app/main.go:133 | the span name is the method, one space, then the route label |
| `Tracing.SpanNameSplits` | demo-app/main.go:133 | when the method has no space, splitting the span name at its first space gives back the method and the route |
| `Tracing.SpanCodeFor` | demo-app/main.go:150-154 | the outcome is never Unset, and it is Error exactly when the status is at least 500 |
| `Tracing.SpanCodeMonotone` | demo-app/main.go:150 | a higher status never gives a better outcome than a lower one |
| `Metrics.Bump` | demo-app/main.go:146 | one increment adds exactly 1 to its cell, creating the cell on first use; every other cell is unchanged and no cell decreases |
| `Metrics.TallyCell` | demo-app/main.go:145-146 | after a run of increments, each cell has grown by the number of increments for its key |
| `Metrics.SameCellTotal` | demo-app/main.go:146 | n requests counted in the same cell add exactly n to it, with no update lost |
| `Metrics.Registry.constructor` | demo-app/main.go:25-42 | both metric vectors start with no cells |
| `Metrics.Registry.IncRequests` | demo-app/main.go:146 | the counter vector gets one increment in the given cell and the histogram is untouched |
| `Metrics.Registry.ObserveDuration` | demo-app/main.go:145 | the histogram gets one observation in the given cell and the counter is untouched |
| `Recorder.ResponseSink.WriteHeader` | demo-app/main.go:166 | the wrapped writer receives the code after those it already had |
| `Recorder.LastWriteWins` | demo-app/main.go:164-167 | with no writes the recorded status is the initial one; otherwise it is the last code written |
| `Recorder.RecordedIsWritten` | demo-app/main.go:164-165 | the recorded status is either the initial status or one of the codes written |
| `Recorder.RespRecorder.constructor` | demo-app/main.go:130 | a fresh interceptor wraps the given writer and holds status 200 |
| `Recorder.RespRecorder.WriteHeader` | demo-app/main.go:164-167 | the interceptor stores the code and forwards exactly that code to the wrapped writer |
| `Instrument.RunHandler` | demo-app/main.go:140 | after the handler's `WriteHeader` calls, the interceptor holds the status obtained by overwriting its status with each code in turn, and the wrapped writer has received the same codes in the same order |
| `Instrument.EndSpan` | demo-app/main.go:155 | the span is ended exactly as `End` ends it, and the snapshot returned is the registry at the moment of that call |
| `Instrument.Instrumented.constructor` | demo-app/main.go:125-126 | the wrapped handler keeps its route label, its handler and the registry it records into |
| `Instrument.OpenedSpan` | demo-app/main.go:133-138 | while the handler runs, the span is named `method + " " + route`, has exactly the attributes `http.method`, `http.route` and `http.target` set to the method, the route label and the URL path, status Unset, and is open |
| `Instrument.ClosedSpan` | demo-app/main.go:149-155 | the finished span keeps the name, adds `http.status_code` equal to the status, is Error with description "server error" at 500 and above and Ok with no description below, and is ended |
| `Instrument.Instrumented.ServeHTTP` | demo-app/main.go:128-156 | the writer receives the handler's codes unchanged. On normal return: one increment in cell (method, route, Itoa(recorded status)), one observation in cell (method, route), and the returned span is the finished span for the recorded status. The snapshot `EndSpan` took when it ended the span already holds both updates, so the span is ended after the metrics are recorded. On panic: the registry is unchanged and the span is still open |
| `Instrument.DefaultStatusIs200` | demo-app/main.go:130-154 | a handler that never sets a status is counted under "200" and its span ends Ok |
| `Instrument.HandlerStatusIsLastWrite` | demo-app/main.go:164-165 | a handler that sets statuses is recorded with the last one it set |
| `Instrument.SpanOutcomeRule` | demo-app/main.go:146-154 | the span is Error exactly when the status is at least 500 and Ok otherwise; its `http.status_code` is the status, and the counter label decodes to that same status |
| `Instrument.EndingEarlyLosesStatus` | demo-app/main.go:149-155 | a span ended before the status is set would keep neither `http.status_code` nor the outcome, so it differs from the finished span |
| `Instrument.DemoScenarios` | demo-app/main.go:63-80 | the root and slow routes count under status "200" with an Ok span; the error route counts under "500" with an Error span |
| `Instrument.DemoCells` | demo-app/main.go:63-80 | one request to each demo route leaves exactly three counter cells and three histogram cells, each at one |
| `Instrument.DemoRequests` | demo-app/main.go:63-80 | serving one GET to each demo route through the wrapper, from an empty registry, gives those counter and histogram cells; every request returns normally; the root and slow spans are the finished spans for 200 and Ok, the error span the finished span for 500 and Error |

## Left out

- Server wiring in `main`: mux registration, `http.Server`, `ListenAndServe` and the `/metrics` endpoint. These are network I/O and library plumbing.
- `initTracerProvider`: the OTLP exporter to `tempo:4318`, the resource, the batcher and `otel.SetTracerProvider`. These are foreign library calls and network clients.
- Tracer shutdown with a 5-second timeout. Its point is timing and background flushing, which a sequential model does not capture.
- Metric registration (`prometheus.MustRegister`) and its panic on a duplicate name. This is library behaviour; the registry here starts empty.
- Metrics.Registry.ObserveDuration: counts observations only. The latency value, the histogram's bucket placement into the default buckets, and its running sum are wall-clock floats and are not modelled.
- Time: `time.Now`, `time.Since` and the slow handler's random delay and `time.Sleep`.
- Output: all `log.Printf` calls and the body writes (`fmt.Fprint*`, the body written by `http.Error`).
- Instrument.Handler: a handler is its status codes and a panic flag; what it does with the request and the span context is not modelled. `r.WithContext(ctx)` is treated as passing the span to the handler and nothing more.
- Recorder.ResponseSink: the wrapped writer is reduced to the list of codes it receives. The `net/http` rules are not modelled: the first code is the one sent on the wire, later ones are ignored, and an out-of-range code makes it panic.
- Tracing.End: ending an ended span changes nothing, as in the tracing library, so "ended exactly once" is shown by `ServeHTTP` calling `End` on one path only, not by a count of calls.
- The tracing library's export of ended spans (the batch span processor) is not modelled; the finished span is returned by `ServeHTTP`.
- Concurrency: many requests updating the registry at once. The model is sequential. `Metrics.SameCellTotal` states the no-lost-update total for requests applied one after another.
