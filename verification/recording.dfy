/**
 * The Recorder interface shared by both packages, seen as the sequence of calls
 * it receives, and the default OpenTelemetry recorder (`otelRecorder`) that binds
 * those calls to five named instruments: two up/down counters and three histograms.
 */
module Recording {
  import opened Attribute
  import GoArith

  /** One call on the Recorder interface. */
  datatype Call =
    | Inflight(quantity: int, attrs: seq<KeyValue>)      // AddInflightRequests
    | Requests(quantity: int, attrs: seq<KeyValue>)      // AddRequests
    | Duration(nanos: int, attrs: seq<KeyValue>)         // ObserveHTTPRequestDuration (a time.Duration)
    | RequestSize(bytes: int, attrs: seq<KeyValue>)      // ObserveHTTPRequestSize
    | ResponseSize(bytes: int, attrs: seq<KeyValue>)     // ObserveHTTPResponseSize

  /** An up/down counter: the running sum per attribute list. */
  type Counter = map<seq<KeyValue>, int>

  /** One value recorded into a histogram. */
  datatype Sample = Sample(value: int, attrs: seq<KeyValue>)

  /** The five instruments of `otelRecorder`, by field. */
  datatype Instrument = AttemptsCounter | TotalDuration | ActiveRequestsCounter | RequestSizes | ResponseSizes

  datatype Instruments = Instruments(
    attempts: Counter,
    totalDuration: seq<Sample>,
    activeRequests: Counter,
    requestSize: seq<Sample>,
    responseSize: seq<Sample>)

  function NoMeasurements(): Instruments
  {
    Instruments(map[], [], map[], [], [])
  }

  /** The value a counter currently holds for `attrs` (zero before the first Add). */
  function Total(c: Counter, attrs: seq<KeyValue>): int
  {
    if attrs in c then c[attrs] else 0
  }

  /** `counter.Add(ctx, quantity, attrs...)` */
  function CounterAdd(c: Counter, attrs: seq<KeyValue>, quantity: int): (d: Counter)
    ensures Total(d, attrs) == Total(c, attrs) + quantity
    ensures forall other :: other != attrs ==> Total(d, other) == Total(c, other)
  {
    c[attrs := Total(c, attrs) + quantity]
  }

  const NanosPerMilli: int := 1_000_000

  /** `int64(duration / time.Millisecond)`: whole milliseconds, truncated toward zero. */
  function Millis(nanos: int): (ms: int)
    ensures 0 <= nanos ==> 0 <= ms * NanosPerMilli <= nanos < ms * NanosPerMilli + NanosPerMilli
    ensures nanos < 0 ==> ms * NanosPerMilli - NanosPerMilli < nanos <= ms * NanosPerMilli <= 0
  {
    GoArith.Div(nanos, NanosPerMilli)
  }

  /** The instrument a call lands in. */
  function Target(c: Call): Instrument
  {
    match c
    case Inflight(_, _) => ActiveRequestsCounter
    case Requests(_, _) => AttemptsCounter
    case Duration(_, _) => TotalDuration
    case RequestSize(_, _) => RequestSizes
    case ResponseSize(_, _) => ResponseSizes
  }

  predicate Same(s: Instruments, t: Instruments, i: Instrument)
  {
    match i
    case AttemptsCounter => s.attempts == t.attempts
    case TotalDuration => s.totalDuration == t.totalDuration
    case ActiveRequestsCounter => s.activeRequests == t.activeRequests
    case RequestSizes => s.requestSize == t.requestSize
    case ResponseSizes => s.responseSize == t.responseSize
  }

  /** The effect of one Recorder call on the default recorder's instruments (see ObserveEffect). */
  function Observe(s: Instruments, c: Call): Instruments
  {
    match c
    case Inflight(q, attrs) => s.(activeRequests := CounterAdd(s.activeRequests, attrs, q))
    case Requests(q, attrs) => s.(attempts := CounterAdd(s.attempts, attrs, q))
    case Duration(nanos, attrs) => s.(totalDuration := s.totalDuration + [Sample(Millis(nanos), attrs)])
    case RequestSize(n, attrs) => s.(requestSize := s.requestSize + [Sample(n, attrs)])
    case ResponseSize(n, attrs) => s.(responseSize := s.responseSize + [Sample(n, attrs)])
  }

  /**
   * A call changes only the instrument it targets: a counter call adds its quantity
   * under its own attributes and nowhere else; a histogram call appends one sample,
   * a duration converted to whole milliseconds.
   */
  lemma ObserveEffect(s: Instruments, c: Call)
    ensures forall i :: i != Target(c) ==> Same(s, Observe(s, c), i)
    ensures c.Inflight? ==> Total(Observe(s, c).activeRequests, c.attrs) == Total(s.activeRequests, c.attrs) + c.quantity
    ensures c.Inflight? ==> forall a :: a != c.attrs ==> Total(Observe(s, c).activeRequests, a) == Total(s.activeRequests, a)
    ensures c.Requests? ==> Total(Observe(s, c).attempts, c.attrs) == Total(s.attempts, c.attrs) + c.quantity
    ensures c.Requests? ==> forall a :: a != c.attrs ==> Total(Observe(s, c).attempts, a) == Total(s.attempts, a)
    ensures c.Duration? ==> Observe(s, c).totalDuration == s.totalDuration + [Sample(Millis(c.nanos), c.attrs)]
    ensures c.RequestSize? ==> Observe(s, c).requestSize == s.requestSize + [Sample(c.bytes, c.attrs)]
    ensures c.ResponseSize? ==> Observe(s, c).responseSize == s.responseSize + [Sample(c.bytes, c.attrs)]
  {
  }

  /** The instruments after a sequence of calls, in order. */
  function Replay(s: Instruments, calls: seq<Call>): Instruments
    decreases |calls|
  {
    if calls == [] then s else Observe(Replay(s, calls[..|calls| - 1]), calls[|calls| - 1])
  }

  /** Replaying two sequences one after the other is replaying their concatenation. */
  lemma {:induction false} ReplayConcat(s: Instruments, a: seq<Call>, b: seq<Call>)
    ensures Replay(s, a + b) == Replay(Replay(s, a), b)
    decreases |b|
  {
    if b == [] {
      assert a + b == a;
    } else {
      var b' := b[..|b| - 1];
      assert (a + b)[..|a + b| - 1] == a + b';
      ReplayConcat(s, a, b');
    }
  }

  /**
   * Instruments that are the replay of a history on empty instruments remain the
   * replay of the extended history after any further calls: the invariant of
   * OtelRecorder carries across a whole exchange, or a whole life.
   */
  lemma HistoryReplays(s: Instruments, history: seq<Call>, more: seq<Call>)
    requires s == Replay(NoMeasurements(), history)
    ensures Replay(s, more) == Replay(NoMeasurements(), history + more)
  {
    ReplayConcat(NoMeasurements(), history, more);
  }

  /** One more call: the replay moves one Observe further. */
  lemma ReplaySnoc(s: Instruments, calls: seq<Call>, c: Call)
    ensures Replay(s, calls + [c]) == Observe(Replay(s, calls), c)
  {
    assert (calls + [c])[..|calls|] == calls;
  }

  /** Calls that do not land in an instrument leave it untouched. */
  lemma {:induction false} ReplayKeeps(s: Instruments, calls: seq<Call>, i: Instrument)
    requires forall k :: 0 <= k < |calls| ==> Target(calls[k]) != i
    ensures Same(s, Replay(s, calls), i)
    decreases |calls|
  {
    if calls != [] {
      ReplayKeeps(s, calls[..|calls| - 1], i);
      ObserveEffect(Replay(s, calls[..|calls| - 1]), calls[|calls| - 1]);
    }
  }

  /** The number a call records: its quantity, its size, or its duration in whole milliseconds. */
  function Recorded(c: Call): int
  {
    match c
    case Inflight(q, _) => q
    case Requests(q, _) => q
    case Duration(nanos, _) => Millis(nanos)
    case RequestSize(n, _) => n
    case ResponseSize(n, _) => n
  }

  /** The sample one call contributes to instrument `i`: none unless it lands there. */
  function Contribution(c: Call, i: Instrument): seq<Sample>
  {
    if Target(c) == i then [Sample(Recorded(c), c.attrs)] else []
  }

  /** The samples that the calls landing in instrument `i` contribute, in call order. */
  function Samples(calls: seq<Call>, i: Instrument): seq<Sample>
    decreases |calls|
  {
    if calls == [] then []
    else
      var c := calls[|calls| - 1];
      Samples(calls[..|calls| - 1], i) + Contribution(c, i)
  }

  /** The sum of the samples taken under the attribute list `attrs`. */
  function SampleSum(samples: seq<Sample>, attrs: seq<KeyValue>): int
    decreases |samples|
  {
    if samples == [] then 0
    else
      var last := samples[|samples| - 1];
      SampleSum(samples[..|samples| - 1], attrs) + (if last.attrs == attrs then last.value else 0)
  }

  /** Replaying calls on a histogram appends the samples of the calls that land in it. */
  lemma {:induction false} ReplaySamples(s: Instruments, calls: seq<Call>)
    ensures Replay(s, calls).totalDuration == s.totalDuration + Samples(calls, TotalDuration)
    ensures Replay(s, calls).requestSize == s.requestSize + Samples(calls, RequestSizes)
    ensures Replay(s, calls).responseSize == s.responseSize + Samples(calls, ResponseSizes)
    decreases |calls|
  {
    if calls != [] {
      var init := calls[..|calls| - 1];
      ReplaySamples(s, init);
      ObserveEffect(Replay(s, init), calls[|calls| - 1]);
    }
  }

  lemma ContributionSum(c: Call, i: Instrument, attrs: seq<KeyValue>)
    ensures SampleSum(Contribution(c, i), attrs) == if Target(c) == i && c.attrs == attrs then Recorded(c) else 0
  {
    assert [Sample(Recorded(c), c.attrs)][..0] == [];
  }

  /**
   * Replaying calls on a counter adds, under each attribute list, the quantities
   * of the calls that land in it with that list: a counter sees its calls only
   * through their sum.
   */
  lemma {:induction false} ReplayTotals(s: Instruments, calls: seq<Call>)
    ensures forall a :: Total(Replay(s, calls).attempts, a)
                        == Total(s.attempts, a) + SampleSum(Samples(calls, AttemptsCounter), a)
    ensures forall a :: Total(Replay(s, calls).activeRequests, a)
                        == Total(s.activeRequests, a) + SampleSum(Samples(calls, ActiveRequestsCounter), a)
    decreases |calls|
  {
    if calls != [] {
      var init, c := calls[..|calls| - 1], calls[|calls| - 1];
      ReplayTotals(s, init);
      var before, after := Replay(s, init), Replay(s, calls);
      ObserveEffect(before, c);
      forall a
        ensures Total(after.attempts, a) == Total(s.attempts, a) + SampleSum(Samples(calls, AttemptsCounter), a)
      {
        SampleSumConcat(Samples(init, AttemptsCounter), Contribution(c, AttemptsCounter), a);
        ContributionSum(c, AttemptsCounter, a);
        if !c.Requests? {
          assert Same(before, after, AttemptsCounter);
        }
      }
      forall a
        ensures Total(after.activeRequests, a) == Total(s.activeRequests, a) + SampleSum(Samples(calls, ActiveRequestsCounter), a)
      {
        SampleSumConcat(Samples(init, ActiveRequestsCounter), Contribution(c, ActiveRequestsCounter), a);
        ContributionSum(c, ActiveRequestsCounter, a);
        if !c.Inflight? {
          assert Same(before, after, ActiveRequestsCounter);
        }
      }
    }
  }

  lemma {:induction false} SamplesConcat(a: seq<Call>, b: seq<Call>, i: Instrument)
    ensures Samples(a + b, i) == Samples(a, i) + Samples(b, i)
    decreases |b|
  {
    if b == [] {
      assert a + b == a;
    } else {
      assert (a + b)[..|a + b| - 1] == a + b[..|b| - 1];
      SamplesConcat(a, b[..|b| - 1], i);
    }
  }

  lemma {:induction false} SampleSumConcat(a: seq<Sample>, b: seq<Sample>, attrs: seq<KeyValue>)
    ensures SampleSum(a + b, attrs) == SampleSum(a, attrs) + SampleSum(b, attrs)
    decreases |b|
  {
    if b == [] {
      assert a + b == a;
    } else {
      assert (a + b)[..|a + b| - 1] == a + b[..|b| - 1];
      SampleSumConcat(a, b[..|b| - 1], attrs);
    }
  }

  /**
   * `metricName`: the instrument name under an optional prefix, joined by a dot.
   * The result always ends with `name`; it starts with `prefix` and a dot exactly
   * when the prefix is non-empty.
   */
  function MetricName(prefix: string, name: string): (r: string)
    ensures |r| == MetricLength(prefix, |name|)
    ensures r[|r| - |name|..] == name
    ensures |prefix| == 0 ==> r == name
    ensures |prefix| > 0 ==> r[..|prefix|] == prefix && r[|prefix|] == '.'
  {
    if |prefix| > 0 then prefix + "." + name else name
  }

  /** The length of a metric name whose base name has `nameLength` characters. */
  function MetricLength(prefix: string, nameLength: nat): nat
  {
    if |prefix| > 0 then |prefix| + 1 + nameLength else nameLength
  }

  /** Under one prefix, distinct names stay distinct. */
  lemma MetricNameInjective(prefix: string, a: string, b: string)
    requires MetricName(prefix, a) == MetricName(prefix, b)
    ensures a == b
  {
    var r := MetricName(prefix, a);
    assert a == r[|r| - |a|..];
    assert |a| == |b|;
  }

  /** The five instrument names of one recorder. */
  datatype InstrumentNames = InstrumentNames(
    requestCount: string,
    duration: string,
    activeRequests: string,
    requestContentLength: string,
    responseContentLength: string)

  predicate PairwiseDistinct(n: InstrumentNames)
  {
    && n.requestCount != n.duration
    && n.requestCount != n.activeRequests
    && n.requestCount != n.requestContentLength
    && n.requestCount != n.responseContentLength
    && n.duration != n.activeRequests
    && n.duration != n.requestContentLength
    && n.duration != n.responseContentLength
    && n.activeRequests != n.requestContentLength
    && n.activeRequests != n.responseContentLength
    && n.requestContentLength != n.responseContentLength
  }

  /**
   * `otelRecorder`. Each method adds to or records into exactly one instrument,
   * as Observe describes, and appends its call to `Calls`, the history of calls
   * received. Valid: the instruments are always the replay of that history on
   * empty instruments, so the replay lemmas describe a recorder over its whole life.
   */
  class OtelRecorder {
    const names: InstrumentNames
    var attempts: Counter
    var totalDuration: seq<Sample>
    var activeRequests: Counter
    var requestSize: seq<Sample>
    var responseSize: seq<Sample>
    ghost var Calls: seq<Call>

    function Snapshot(): Instruments
      reads this
    {
      Instruments(attempts, totalDuration, activeRequests, requestSize, responseSize)
    }

    ghost predicate Valid()
      reads this
    {
      Snapshot() == Replay(NoMeasurements(), Calls)
    }

    /** The struct literal at the end of `GetRecorder`, with freshly created instruments. */
    constructor (names: InstrumentNames)
      ensures this.names == names
      ensures Calls == [] && Snapshot() == NoMeasurements()
      ensures Valid()
    {
      this.names := names;
      attempts, totalDuration, activeRequests := map[], [], map[];
      requestSize, responseSize := [], [];
      Calls := [];
    }

    /** AddRequests: adds `quantity` to the request-count counter. */
    method AddRequests(quantity: int, attributes: seq<KeyValue>)
      modifies this
      ensures Calls == old(Calls) + [Requests(quantity, attributes)]
      ensures Snapshot() == Observe(old(Snapshot()), Requests(quantity, attributes))
      ensures old(Valid()) ==> Valid()
    {
      ghost var before := Calls;
      attempts := CounterAdd(attempts, attributes, quantity);
      Calls := Calls + [Requests(quantity, attributes)];
      ReplaySnoc(NoMeasurements(), before, Requests(quantity, attributes));
    }

    /** ObserveHTTPRequestDuration: records the duration in whole milliseconds. */
    method ObserveHTTPRequestDuration(duration: int, attributes: seq<KeyValue>)
      modifies this
      ensures Calls == old(Calls) + [Duration(duration, attributes)]
      ensures Snapshot() == Observe(old(Snapshot()), Duration(duration, attributes))
      ensures old(Valid()) ==> Valid()
    {
      ghost var before := Calls;
      totalDuration := totalDuration + [Sample(Millis(duration), attributes)];
      Calls := Calls + [Duration(duration, attributes)];
      ReplaySnoc(NoMeasurements(), before, Duration(duration, attributes));
    }

    /** ObserveHTTPRequestSize: records `sizeBytes` into the request-size histogram. */
    method ObserveHTTPRequestSize(sizeBytes: int, attributes: seq<KeyValue>)
      modifies this
      ensures Calls == old(Calls) + [RequestSize(sizeBytes, attributes)]
      ensures Snapshot() == Observe(old(Snapshot()), RequestSize(sizeBytes, attributes))
      ensures old(Valid()) ==> Valid()
    {
      ghost var before := Calls;
      requestSize := requestSize + [Sample(sizeBytes, attributes)];
      Calls := Calls + [RequestSize(sizeBytes, attributes)];
      ReplaySnoc(NoMeasurements(), before, RequestSize(sizeBytes, attributes));
    }

    /** ObserveHTTPResponseSize: records `sizeBytes` into the response-size histogram. */
    method ObserveHTTPResponseSize(sizeBytes: int, attributes: seq<KeyValue>)
      modifies this
      ensures Calls == old(Calls) + [ResponseSize(sizeBytes, attributes)]
      ensures Snapshot() == Observe(old(Snapshot()), ResponseSize(sizeBytes, attributes))
      ensures old(Valid()) ==> Valid()
    {
      ghost var before := Calls;
      responseSize := responseSize + [Sample(sizeBytes, attributes)];
      Calls := Calls + [ResponseSize(sizeBytes, attributes)];
      ReplaySnoc(NoMeasurements(), before, ResponseSize(sizeBytes, attributes));
    }

    /** AddInflightRequests: adds `quantity` (+1 or -1) to the active-requests counter. */
    method AddInflightRequests(quantity: int, attributes: seq<KeyValue>)
      modifies this
      ensures Calls == old(Calls) + [Inflight(quantity, attributes)]
      ensures Snapshot() == Observe(old(Snapshot()), Inflight(quantity, attributes))
      ensures old(Valid()) ==> Valid()
    {
      ghost var before := Calls;
      activeRequests := CounterAdd(activeRequests, attributes, quantity);
      Calls := Calls + [Inflight(quantity, attributes)];
      ReplaySnoc(NoMeasurements(), before, Inflight(quantity, attributes));
    }
  }
}
