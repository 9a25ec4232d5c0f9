/** `GetRecorder` of the client-side package: the default recorder's instrument names. */
module HttpRecorder {
  import opened Recording

  /** The five client instrument names under `metricsPrefix`. */
  function ClientNames(metricsPrefix: string): InstrumentNames
  {
    InstrumentNames(
      MetricName(metricsPrefix, "http.client.request_count"),
      MetricName(metricsPrefix, "http.client.duration"),
      MetricName(metricsPrefix, "http.client.active_requests"),
      MetricName(metricsPrefix, "http.client.request_content_length"),
      MetricName(metricsPrefix, "http.client.response_content_length"))
  }

  /**
   * Whatever the prefix, the five names are pairwise distinct; each ends with its
   * `http.client.*` base name, and without a prefix each is that base name.
   */
  lemma ClientNamesWellFormed(metricsPrefix: string)
    ensures PairwiseDistinct(ClientNames(metricsPrefix))
    ensures var n := ClientNames(metricsPrefix);
      && n.requestCount[|n.requestCount| - 25..] == "http.client.request_count"
      && n.duration[|n.duration| - 20..] == "http.client.duration"
      && n.activeRequests[|n.activeRequests| - 27..] == "http.client.active_requests"
      && n.requestContentLength[|n.requestContentLength| - 34..] == "http.client.request_content_length"
      && n.responseContentLength[|n.responseContentLength| - 35..] == "http.client.response_content_length"
    ensures metricsPrefix == "" ==> ClientNames(metricsPrefix) == InstrumentNames(
      "http.client.request_count", "http.client.duration", "http.client.active_requests",
      "http.client.request_content_length", "http.client.response_content_length")
  {
    var n := ClientNames(metricsPrefix);
    // The five base names have pairwise different lengths (25, 20, 27, 34, 35),
    // and the prefix rule adds the same length to each.
    assert |n.requestCount| == MetricLength(metricsPrefix, 25);
    assert |n.duration| == MetricLength(metricsPrefix, 20);
    assert |n.activeRequests| == MetricLength(metricsPrefix, 27);
    assert |n.requestContentLength| == MetricLength(metricsPrefix, 34);
    assert |n.responseContentLength| == MetricLength(metricsPrefix, 35);
  }

  /** GetRecorder: a recorder whose instruments carry the client names and hold nothing yet. */
  method GetRecorder(metricsPrefix: string) returns (r: OtelRecorder)
    ensures fresh(r) && r.names == ClientNames(metricsPrefix)
    ensures r.Calls == [] && r.Snapshot() == NoMeasurements()
    ensures r.Valid()
  {
    r := new OtelRecorder(ClientNames(metricsPrefix));
  }
}
