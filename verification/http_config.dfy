/** Configuration of the client-side transport wrapper and its default attribute deriver. */
module HttpConfig {
  import opened Attribute
  import opened Recording

  /** `*url.URL`, of which only the path is read; `NoUrl` is a nil URL. */
  datatype Url = NoUrl | Url(path: string)

  /** The parts of an outbound `*http.Request` the wrapper reads. */
  datatype Request = Request(
    httpMethod: string,
    url: Url,
    proto: string,
    header: map<string, seq<string>>,
    host: string,
    contentLength: int)

  /**
   * `config`. The attribute deriver may be partial: the default one dereferences
   * the request's URL, so it is defined only for requests that have one.
   */
  datatype Config = Config(
    recordInFlight: bool,
    recordSize: bool,
    recordDuration: bool,
    groupedStatus: bool,
    recorder: OtelRecorder?,
    attributes: Request --> seq<KeyValue>,
    shouldRecord: Request -> bool)

  /** defaultConfig: every measurement on, grouped status, record every request, no recorder yet. */
  function DefaultConfig(): (c: Config)
    ensures c.recordInFlight && c.recordDuration && c.recordSize && c.groupedStatus
    ensures c.recorder == null
    ensures forall r: Request :: c.shouldRecord(r)
    ensures forall r: Request :: c.attributes.requires(r) <==> r.url.Url?
    ensures forall r: Request | r.url.Url? :: c.attributes(r) == DefaultAttributes(r)
  {
    Config(true, true, true, true, null, DefaultAttributes, _ => true)
  }

  /** Where a key stands in the order DefaultAttributes emits: method, host, target. */
  function KeyRank(key: string): nat
  {
    if key == HttpMethodKey then 0
    else if key == HttpHostKey then 1
    else if key == HttpTargetKey then 2
    else 3
  }

  /**
   * DefaultAttributes: the method always comes first; the host attribute is there
   * exactly when the host is non-empty, the target attribute exactly when the URL
   * path is non-empty; keys appear in the order method, host, target, once each.
   */
  function DefaultAttributes(request: Request): (attrs: seq<KeyValue>)
    requires request.url.Url?
    ensures 1 <= |attrs| <= 3
    ensures attrs[0] == String(HttpMethodKey, request.httpMethod)
    ensures HasKey(attrs, HttpHostKey) <==> request.host != ""
    ensures HasKey(attrs, HttpTargetKey) <==> request.url.path != ""
    ensures forall a :: a in attrs ==>
      || a == String(HttpMethodKey, request.httpMethod)
      || a == String(HttpHostKey, request.host)
      || a == String(HttpTargetKey, request.url.path)
    ensures forall i, j :: 0 <= i < j < |attrs| ==> KeyRank(attrs[i].key) < KeyRank(attrs[j].key)
    ensures DistinctKeys(attrs)
  {
    var attrs := [String(HttpMethodKey, request.httpMethod)];
    var origin := request.host;
    var target := request.url.path;
    assert HttpMethodKey[5] != HttpTargetKey[5] && HttpMethodKey != HttpHostKey && HttpHostKey != HttpTargetKey;
    var attrs := if origin != "" then attrs + [String(HttpHostKey, origin)] else attrs;
    var attrs := if target != "" then attrs + [String(HttpTargetKey, target)] else attrs;
    assert origin != "" ==> attrs[1].key == HttpHostKey;
    assert target != "" ==> attrs[|attrs| - 1].key == HttpTargetKey;
    attrs
  }
}
