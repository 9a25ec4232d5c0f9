/**
 * The client-side wrapper: `NewTransport` builds the configuration from options,
 * and `RoundTrip` surrounds one outbound exchange with calls on the recorder.
 * The network round trip of the wrapped transport is given as its outcome, and
 * the two clock readings as instants in nanoseconds.
 */
module HttpTransport {
  import opened Attribute
  import opened Recording
  import opened HttpConfig
  import opened RequestSize
  import HttpRecorder
  import GoArith

  /** An option's `apply`, as the configuration it turns a configuration into. */
  type Option = Config -> Config

  /** The options applied one after another, first to last, to `c`. */
  function Fold(c: Config, options: seq<Option>): Config
    decreases |options|
  {
    if options == [] then c else Fold(options[0](c), options[1..])
  }

  /** The configuration the options make out of the defaults. */
  function Configure(options: seq<Option>): Config
  {
    Fold(DefaultConfig(), options)
  }

  /** An option appended to the list is applied after all the others. */
  lemma {:induction false} FoldAppend(c: Config, options: seq<Option>, o: Option)
    ensures Fold(c, options + [o]) == o(Fold(c, options))
    decreases |options|
  {
    if options == [] {
      assert [o][1..] == [];
    } else {
      assert (options + [o])[1..] == options[1..] + [o];
      FoldAppend(options[0](c), options[1..], o);
    }
  }

  /** Options that leave a field alone leave it alone in the fold too. */
  lemma {:induction false} FoldKeeps<T>(c: Config, options: seq<Option>, field: Config -> T)
    requires forall k, d :: 0 <= k < |options| ==> field(options[k](d)) == field(d)
    ensures field(Fold(c, options)) == field(c)
    decreases |options|
  {
    if options != [] {
      assert forall k, d :: 0 <= k < |options| - 1 ==> options[1..][k](d) == options[k + 1](d);
      FoldKeeps(options[0](c), options[1..], field);
    }
  }

  /**
   * Last write wins: when option `j` sets a field to `v` and no later option
   * touches that field, the configuration ends up with `v` there.
   */
  lemma {:induction false} LastWriteWins<T>(c: Config, options: seq<Option>, j: nat, field: Config -> T, v: T)
    requires j < |options|
    requires forall d :: field(options[j](d)) == v
    requires forall k, d :: j < k < |options| ==> field(options[k](d)) == field(d)
    ensures field(Fold(c, options)) == v
    decreases |options|
  {
    assert forall k, d :: 0 <= k < |options| - 1 ==> options[1..][k](d) == options[k + 1](d);
    if j == 0 {
      FoldKeeps(options[0](c), options[1..], field);
    } else {
      LastWriteWins(options[0](c), options[1..], j - 1, field, v);
    }
  }

  /** The wrapped transport's answer: a response, or a transport-level error. */
  datatype Response = Response(statusCode: int, contentLength: int)
  datatype Outcome = Ok(response: Response) | Err(error: string)

  /** `int(StatusCode/100) * 100`: the hundreds class of a status code. */
  function GroupStatus(statusCode: int): (code: int)
    ensures code % 100 == 0
    ensures 0 <= statusCode ==> 0 <= code <= statusCode < code + 100
    ensures statusCode < 0 ==> code - 100 < statusCode <= code <= 0
  {
    GoArith.Div(statusCode, 100) * 100
  }

  /**
   * The attributes of the completion metrics: the request attributes followed by
   * the status, grouped or as the exact-status deriver gives it.
   */
  function ResultAttributes(cfg: Config, base: seq<KeyValue>, statusCode: int,
                            exactStatus: int -> seq<KeyValue>): seq<KeyValue>
  {
    base + (if cfg.groupedStatus then [Int(HttpStatusCodeKey, GroupStatus(statusCode))]
            else exactStatus(statusCode))
  }

  /**
   * The result attributes keep the request attributes as they are, in front;
   * grouped, exactly one status attribute follows, holding the hundreds class
   * of the code; otherwise the exact-status attributes follow.
   */
  lemma ResultAttributesExtendBase(cfg: Config, base: seq<KeyValue>, statusCode: int,
                                   exactStatus: int -> seq<KeyValue>)
    ensures var r := ResultAttributes(cfg, base, statusCode, exactStatus);
      && |base| <= |r| && r[..|base|] == base
      && (cfg.groupedStatus ==>
            && |r| == |base| + 1
            && r[|base|].key == HttpStatusCodeKey
            && r[|base|].value.IntValue?
            && r[|base|].value.i % 100 == 0
            && (0 <= statusCode ==> 0 <= r[|base|].value.i <= statusCode < r[|base|].value.i + 100))
      && (!cfg.groupedStatus ==> r[|base|..] == exactStatus(statusCode))
  {
  }

  /** What the completion closure records after a successful round trip. */
  ghost function CompletionCalls(cfg: Config, r: Request, res: Response, resAttributes: seq<KeyValue>,
                                 elapsed: int): seq<Call>
  {
    [Requests(1, resAttributes)]
    + (if cfg.recordSize
       then [RequestSize(ApproximateSize(r), resAttributes), ResponseSize(res.contentLength, resAttributes)]
       else [])
    + (if cfg.recordDuration then [Duration(elapsed, resAttributes)] else [])
  }

  /** What the completion closure records: nothing after an error. */
  ghost function Completed(cfg: Config, r: Request, outcome: Outcome, base: seq<KeyValue>, elapsed: int,
                           exactStatus: int -> seq<KeyValue>): seq<Call>
  {
    match outcome
    case Err(_) => []
    case Ok(res) => CompletionCalls(cfg, r, res, ResultAttributes(cfg, base, res.statusCode, exactStatus), elapsed)
  }

  /**
   * Every call RoundTrip makes on the recorder, in order: nothing when the request
   * is not to be recorded; otherwise the in-flight increment, the completion
   * metrics, and last of all the in-flight decrement with the same attributes.
   */
  ghost function ExchangeCalls(cfg: Config, r: Request, outcome: Outcome, elapsed: int,
                               exactStatus: int -> seq<KeyValue>): seq<Call>
    requires cfg.shouldRecord(r) ==> cfg.attributes.requires(r)
  {
    if !cfg.shouldRecord(r) then []
    else
      var base := cfg.attributes(r);
      (if cfg.recordInFlight then [Inflight(1, base)] else [])
      + Completed(cfg, r, outcome, base, elapsed, exactStatus)
      + (if cfg.recordInFlight then [Inflight(-1, base)] else [])
  }

  /** A call registered with `defer`. */
  datatype Deferred =
    | AddInflight(quantity: int, attrs: seq<KeyValue>)   // defer recorder.AddInflightRequests(ctx, -1, reqAttributes)
    | Completion                                         // defer func() { ... }()

  /** The calls one deferred function makes; `completed` is what the completion closure records. */
  ghost function DeferredCalls(d: Deferred, completed: seq<Call>): seq<Call>
  {
    match d
    case AddInflight(q, attrs) => [Inflight(q, attrs)]
    case Completion => completed
  }

  /** The calls of deferred functions run at return: the last registered runs first. */
  ghost function Unwind(ds: seq<Deferred>, completed: seq<Call>): seq<Call>
    decreases |ds|
  {
    if ds == [] then [] else Unwind(ds[1..], completed) + DeferredCalls(ds[0], completed)
  }

  /** The body of the completion closure. */
  method Complete(recorder: OtelRecorder, cfg: Config, r: Request, outcome: Outcome, reqAttributes: seq<KeyValue>,
                  start: int, now: int, exactStatus: int -> seq<KeyValue>)
    modifies recorder
    ensures recorder.Calls == old(recorder.Calls) + Completed(cfg, r, outcome, reqAttributes, now - start, exactStatus)
    ensures recorder.Snapshot() == Replay(old(recorder.Snapshot()), Completed(cfg, r, outcome, reqAttributes, now - start, exactStatus))
  {
    if outcome.Err? {
      return;
    }
    var res := outcome.response;
    var resAttributes := reqAttributes;
    if cfg.groupedStatus {
      var code := GroupStatus(res.statusCode);
      resAttributes := resAttributes + [Int(HttpStatusCodeKey, code)];
    } else {
      resAttributes := resAttributes + exactStatus(res.statusCode);
    }
    assert resAttributes == ResultAttributes(cfg, reqAttributes, res.statusCode, exactStatus);
    RecordCompletion(recorder, cfg, r, res, resAttributes, now - start);
  }

  /** The recorder calls of the completion closure, once the result attributes are known. */
  method RecordCompletion(recorder: OtelRecorder, cfg: Config, r: Request, res: Response, resAttributes: seq<KeyValue>,
                          elapsed: int)
    modifies recorder
    ensures recorder.Calls == old(recorder.Calls) + CompletionCalls(cfg, r, res, resAttributes, elapsed)
    ensures recorder.Snapshot() == Replay(old(recorder.Snapshot()), CompletionCalls(cfg, r, res, resAttributes, elapsed))
  {
    ghost var s0 := recorder.Snapshot();
    recorder.AddRequests(1, resAttributes);
    ghost var made: seq<Call> := [Requests(1, resAttributes)];
    ReplaySnoc(s0, [], Requests(1, resAttributes));
    assert [] + [Requests(1, resAttributes)] == made;
    if cfg.recordSize {
      var requestSize := ComputeApproximateRequestSize(r);
      ghost var sizes := [RequestSize(requestSize, resAttributes), ResponseSize(res.contentLength, resAttributes)];
      RecordSizes(recorder, requestSize, res.contentLength, resAttributes);
      ReplayConcat(s0, made, sizes);
      made := made + sizes;
    }
    if cfg.recordDuration {
      recorder.ObserveHTTPRequestDuration(elapsed, resAttributes);
      ReplaySnoc(s0, made, Duration(elapsed, resAttributes));
      made := made + [Duration(elapsed, resAttributes)];
    }
    assert made == CompletionCalls(cfg, r, res, resAttributes, elapsed);
  }

  /** The request-size and response-size observations, in that order. */
  method RecordSizes(recorder: OtelRecorder, requestSize: int, responseSize: int, resAttributes: seq<KeyValue>)
    modifies recorder
    ensures recorder.Calls == old(recorder.Calls) + [RequestSize(requestSize, resAttributes), ResponseSize(responseSize, resAttributes)]
    ensures recorder.Snapshot() == Replay(old(recorder.Snapshot()), [RequestSize(requestSize, resAttributes), ResponseSize(responseSize, resAttributes)])
  {
    ghost var s0 := recorder.Snapshot();
    recorder.ObserveHTTPRequestSize(requestSize, resAttributes);
    ReplaySnoc(s0, [], RequestSize(requestSize, resAttributes));
    recorder.ObserveHTTPResponseSize(responseSize, resAttributes);
    ReplaySnoc(s0, [RequestSize(requestSize, resAttributes)], ResponseSize(responseSize, resAttributes));
    assert [RequestSize(requestSize, resAttributes)] + [ResponseSize(responseSize, resAttributes)]
        == [RequestSize(requestSize, resAttributes), ResponseSize(responseSize, resAttributes)];
  }

  /** The deferred calls RoundTrip registers, in registration order. */
  function Registered(recordInFlight: bool, reqAttributes: seq<KeyValue>): seq<Deferred>
  {
    (if recordInFlight then [AddInflight(-1, reqAttributes)] else []) + [Completion]
  }

  lemma AppendAssoc<T>(a: seq<T>, b: seq<T>, c: seq<T>)
    ensures (a + b) + c == a + (b + c)
  {
  }

  /** Run LIFO, RoundTrip's deferred calls record the completion metrics first and the decrement last. */
  lemma UnwindRegistered(recordInFlight: bool, reqAttributes: seq<KeyValue>, completed: seq<Call>)
    ensures Unwind(Registered(recordInFlight, reqAttributes), completed)
         == completed + (if recordInFlight then [Inflight(-1, reqAttributes)] else [])
  {
    var ds := Registered(recordInFlight, reqAttributes);
    assert Unwind([Completion], completed) == completed by {
      assert [Completion][1..] == [];
    }
    if recordInFlight {
      assert ds[1..] == [Completion];
    }
  }

  /**
   * Returning from RoundTrip: the deferred calls run, the last registered first,
   * so the completion closure records before the in-flight decrement.
   */
  method Unwinding(recorder: OtelRecorder, cfg: Config, r: Request, outcome: Outcome, reqAttributes: seq<KeyValue>,
                   start: int, now: int, exactStatus: int -> seq<KeyValue>)
    modifies recorder
    ensures var leaving := Unwind(Registered(cfg.recordInFlight, reqAttributes),
                                  Completed(cfg, r, outcome, reqAttributes, now - start, exactStatus));
      && recorder.Calls == old(recorder.Calls) + leaving
      && recorder.Snapshot() == Replay(old(recorder.Snapshot()), leaving)
  {
    ghost var completed := Completed(cfg, r, outcome, reqAttributes, now - start, exactStatus);
    ghost var c0, s0 := recorder.Calls, recorder.Snapshot();
    Complete(recorder, cfg, r, outcome, reqAttributes, start, now, exactStatus);
    if cfg.recordInFlight {
      recorder.AddInflightRequests(-1, reqAttributes);
      ReplaySnoc(s0, completed, Inflight(-1, reqAttributes));
      AppendAssoc(c0, completed, [Inflight(-1, reqAttributes)]);
    } else {
      assert completed + [] == completed;
    }
    UnwindRegistered(cfg.recordInFlight, reqAttributes, completed);
  }

  /** What RoundTrip records before the round trip: the in-flight increment, when enabled. */
  function Entering(recordInFlight: bool, reqAttributes: seq<KeyValue>): seq<Call>
  {
    if recordInFlight then [Inflight(1, reqAttributes)] else []
  }

  /** The start of RoundTrip: the in-flight increment, when enabled. */
  method Enter(recorder: OtelRecorder, recordInFlight: bool, reqAttributes: seq<KeyValue>)
    modifies recorder
    ensures recorder.Calls == old(recorder.Calls) + Entering(recordInFlight, reqAttributes)
    ensures recorder.Snapshot() == Replay(old(recorder.Snapshot()), Entering(recordInFlight, reqAttributes))
  {
    if recordInFlight {
      recorder.AddInflightRequests(1, reqAttributes);
      ReplaySnoc(old(recorder.Snapshot()), [], Inflight(1, reqAttributes));
    } else {
      assert recorder.Calls + [] == recorder.Calls;
    }
  }

  /** A recorded exchange is the in-flight increment followed by the unwinding of RoundTrip's deferred calls. */
  lemma ExchangeUnwinds(cfg: Config, r: Request, outcome: Outcome, elapsed: int, exactStatus: int -> seq<KeyValue>)
    requires cfg.shouldRecord(r) && cfg.attributes.requires(r)
    ensures var base := cfg.attributes(r);
      ExchangeCalls(cfg, r, outcome, elapsed, exactStatus)
      == Entering(cfg.recordInFlight, base)
         + Unwind(Registered(cfg.recordInFlight, base), Completed(cfg, r, outcome, base, elapsed, exactStatus))
  {
    var base := cfg.attributes(r);
    var entering := Entering(cfg.recordInFlight, base);
    var completed := Completed(cfg, r, outcome, base, elapsed, exactStatus);
    UnwindRegistered(cfg.recordInFlight, base, completed);
    AppendAssoc(entering, completed, if cfg.recordInFlight then [Inflight(-1, base)] else []);
  }

  /** `transport`: the wrapped round tripper's configuration, fixed at construction. */
  class Transport {
    const cfg: Config

    constructor (cfg: Config)
      requires cfg.recorder != null
      ensures this.cfg == cfg
    {
      this.cfg := cfg;
    }

    /**
     * RoundTrip: returns the wrapped transport's outcome unchanged and makes
     * exactly the calls ExchangeCalls lists on the configured recorder.
     * `start` is read on entry, `now` when the completion closure runs.
     */
    method RoundTrip(r: Request, outcome: Outcome, start: int, now: int, exactStatus: int -> seq<KeyValue>)
      returns (result: Outcome)
      requires cfg.recorder != null
      requires cfg.shouldRecord(r) ==> cfg.attributes.requires(r)
      modifies cfg.recorder
      ensures result == outcome
      ensures cfg.recorder.Calls == old(cfg.recorder.Calls) + ExchangeCalls(cfg, r, outcome, now - start, exactStatus)
      ensures cfg.recorder.Snapshot() == Replay(old(cfg.recorder.Snapshot()), ExchangeCalls(cfg, r, outcome, now - start, exactStatus))
    {
      var recorder := cfg.recorder;
      ghost var calls0, s0 := recorder.Calls, recorder.Snapshot();
      if !cfg.shouldRecord(r) {
        return outcome;
      }
      var reqAttributes := cfg.attributes(r);
      Enter(recorder, cfg.recordInFlight, reqAttributes);
      ghost var entering := Entering(cfg.recordInFlight, reqAttributes);
      result := outcome;
      ghost var s1 := recorder.Snapshot();
      // Returning runs the deferred calls, the last registered first.
      Unwinding(recorder, cfg, r, outcome, reqAttributes, start, now, exactStatus);
      ghost var leaving := Unwind(Registered(cfg.recordInFlight, reqAttributes),
                                  Completed(cfg, r, outcome, reqAttributes, now - start, exactStatus));
      ghost var exchange := ExchangeCalls(cfg, r, outcome, now - start, exactStatus);
      ExchangeUnwinds(cfg, r, outcome, now - start, exactStatus);
      assert exchange == entering + leaving;
      ReplayConcat(s0, entering, leaving);
      assert recorder.Snapshot() == Replay(s1, leaving);
      assert recorder.Snapshot() == Replay(s0, exchange);
      AppendAssoc(calls0, entering, leaving);
    }
  }

  /**
   * NewTransport: applies the options in order to the defaults and, when none of
   * them installed a recorder, installs a fresh default one without a prefix.
   */
  method NewTransport(options: seq<Option>) returns (t: Transport)
    ensures fresh(t)
    ensures var c := Configure(options);
      && t.cfg == c.(recorder := t.cfg.recorder)
      && t.cfg.recorder != null
      && (c.recorder != null ==> t.cfg.recorder == c.recorder)
      && (c.recorder == null ==>
            && fresh(t.cfg.recorder) && t.cfg.recorder.names == HttpRecorder.ClientNames("")
            && t.cfg.recorder.Calls == [] && t.cfg.recorder.Snapshot() == NoMeasurements()
            && t.cfg.recorder.Valid())
  {
    var cfg := DefaultConfig();
    for i := 0 to |options|
      invariant cfg == Fold(DefaultConfig(), options[..i])
    {
      FoldAppend(DefaultConfig(), options[..i], options[i]);
      assert options[..i + 1] == options[..i] + [options[i]];
      cfg := options[i](cfg);
    }
    assert options[..|options|] == options;
    if cfg.recorder == null {
      var recorder := HttpRecorder.GetRecorder("");
      cfg := cfg.(recorder := recorder);
    }
    t := new Transport(cfg);
  }
}
