/** `GetRecorder` of the server-side package: the default recorder's instrument names. */
module GinRecorder {
  import opened Recording

  /** The five server instrument names under `metricsPrefix`. */
  function ServerNames(metricsPrefix: string): InstrumentNames
  {
    InstrumentNames(
      MetricName(metricsPrefix, "http.server.request_count"),
      MetricName(metricsPrefix, "http.server.duration"),
      MetricName(metricsPrefix, "http.server.active_requests"),
      MetricName(metricsPrefix, "http.server.request_content_length"),
      MetricName(metricsPrefix, "http.server.response_content_length"))
  }

  /**
   * Whatever the prefix, the five names are pairwise distinct; each ends with its
   * `http.server.*` base name, and without a prefix each is that base name.
   */
  lemma ServerNamesWellFormed(metricsPrefix: string)
    ensures PairwiseDistinct(ServerNames(metricsPrefix))
    ensures var n := ServerNames(metricsPrefix);
      && n.requestCount[|n.requestCount| - 25..] == "http.server.request_count"
      && n.duration[|n.duration| - 20..] == "http.server.duration"
      && n.activeRequests[|n.activeRequests| - 27..] == "http.server.active_requests"
      && n.requestContentLength[|n.requestContentLength| - 34..] == "http.server.request_content_length"
      && n.responseContentLength[|n.responseContentLength| - 35..] == "http.server.response_content_length"
    ensures metricsPrefix == "" ==> ServerNames(metricsPrefix) == InstrumentNames(
      "http.server.request_count", "http.server.duration", "http.server.active_requests",
      "http.server.request_content_length", "http.server.response_content_length")
  {
    var n := ServerNames(metricsPrefix);
    // The five base names have pairwise different lengths (25, 20, 27, 34, 35),
    // and the prefix rule adds the same length to each.
    assert |n.requestCount| == MetricLength(metricsPrefix, 25);
    assert |n.duration| == MetricLength(metricsPrefix, 20);
    assert |n.activeRequests| == MetricLength(metricsPrefix, 27);
    assert |n.requestContentLength| == MetricLength(metricsPrefix, 34);
    assert |n.responseContentLength| == MetricLength(metricsPrefix, 35);
  }

  /** GetRecorder: a recorder whose instruments carry the server names and hold nothing yet. */
  method GetRecorder(metricsPrefix: string) returns (r: OtelRecorder)
    ensures fresh(r) && r.names == ServerNames(metricsPrefix)
    ensures r.Calls == [] && r.Snapshot() == NoMeasurements()
    ensures r.Valid()
  {
    r := new OtelRecorder(ServerNames(metricsPrefix));
  }
}
