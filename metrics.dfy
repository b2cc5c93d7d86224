/**
 * The two metric vectors the instrumentation writes to: the request counter
 * `http_requests_total{method, route, status}` and the latency histogram
 * `http_request_duration_seconds{method, route}`, of which only the number of
 * observations per cell is kept.
 */
module Metrics {

  type RequestLabels = (string, string, string)   // (method, route, status)
  type DurationLabels = (string, string)          // (method, route)

  /** The value of a cell; a cell not yet created reads as zero. */
  function Cell<K>(m: map<K, nat>, k: K): nat
  {
    if k in m then m[k] else 0
  }

  /**
   * One increment of cell `k`, creating it on first use: that cell grows by
   * exactly one and every other cell keeps its value.
   */
  function Bump<K(!new)>(m: map<K, nat>, k: K): (r: map<K, nat>)
    ensures r.Keys == m.Keys + {k}
    ensures Cell(r, k) == Cell(m, k) + 1
    ensures forall j :: j != k ==> Cell(r, j) == Cell(m, j)
    ensures forall j :: Cell(m, j) <= Cell(r, j)
  {
    m[k := Cell(m, k) + 1]
  }

  /** The cells after one increment per key of `ks`, in order. */
  function Tally<K(!new)>(m: map<K, nat>, ks: seq<K>): map<K, nat>
    decreases |ks|
  {
    if ks == [] then m else Tally(Bump(m, ks[0]), ks[1..])
  }

  /** After a run of increments, each cell has grown by the number of times its key occurred. */
  lemma {:induction false} TallyCell<K(!new)>(m: map<K, nat>, ks: seq<K>, k: K)
    ensures Cell(Tally(m, ks), k) == Cell(m, k) + multiset(ks)[k]
    decreases |ks|
  {
    if ks != [] {
      TallyCell(Bump(m, ks[0]), ks[1..], k);
      assert ks == [ks[0]] + ks[1..];
    }
  }

  lemma {:induction false} UniformMultiset<K>(ks: seq<K>, k: K)
    requires forall i :: 0 <= i < |ks| ==> ks[i] == k
    ensures multiset(ks)[k] == |ks|
  {
    if ks != [] {
      UniformMultiset(ks[1..], k);
      assert ks == [ks[0]] + ks[1..];
    }
  }

  /** n requests to the same (method, route, status) cell add exactly n to it: no lost updates. */
  lemma SameCellTotal<K(!new)>(m: map<K, nat>, ks: seq<K>, k: K)
    requires forall i :: 0 <= i < |ks| ==> ks[i] == k
    ensures Cell(Tally(m, ks), k) == Cell(m, k) + |ks|
  {
    TallyCell(m, ks, k);
    UniformMultiset(ks, k);
  }

  /** The process-wide registry holding both vectors. */
  class Registry {
    var requestsTotal: map<RequestLabels, nat>
    var durationObservations: map<DurationLabels, nat>

    constructor ()
      ensures requestsTotal == map[] && durationObservations == map[]
    {
      requestsTotal := map[];
      durationObservations := map[];
    }

    /** `reqTotal.WithLabelValues(method, route, status).Inc()` */
    method IncRequests(labels: RequestLabels)
      modifies this
      ensures requestsTotal == Bump(old(requestsTotal), labels)
      ensures durationObservations == old(durationObservations)
    {
      requestsTotal := Bump(requestsTotal, labels);
    }

    /** `reqDur.WithLabelValues(method, route).Observe(elapsed)`, counting the observation. */
    method ObserveDuration(labels: DurationLabels)
      modifies this
      ensures durationObservations == Bump(old(durationObservations), labels)
      ensures requestsTotal == old(requestsTotal)
    {
      durationObservations := Bump(durationObservations, labels);
    }
  }
}
