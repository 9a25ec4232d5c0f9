/**
 * What one RoundTrip does to the recorder, stated on the calls it makes
 * (ExchangeCalls) and on the default recorder's instruments: the short-circuit,
 * the error path, the flags, the in-flight bracket and the status grouping.
 */
module ExchangeLaws {
  import opened Attribute
  import opened Recording
  import opened HttpConfig
  import opened RequestSize
  import opened HttpTransport

  lemma SamplesOfOne(c: Call, i: Instrument)
    ensures Samples([c], i) == Contribution(c, i)
  {
    assert [c][..0] == [];
  }

  lemma SamplesOfPair(c: Call, d: Call, i: Instrument)
    ensures Samples([c, d], i) == Contribution(c, i) + Contribution(d, i)
  {
    assert [c, d] == [c] + [d];
    SamplesConcat([c], [d], i);
    SamplesOfOne(c, i);
    SamplesOfOne(d, i);
  }

  /** The completion closure's samples, call by call, for one instrument. */
  lemma CompletionContributions(cfg: Config, r: Request, res: Response, attrs: seq<KeyValue>, elapsed: int,
                                i: Instrument)
    ensures Samples(CompletionCalls(cfg, r, res, attrs, elapsed), i)
         == Contribution(Requests(1, attrs), i)
            + (if cfg.recordSize
               then Contribution(RequestSize(ApproximateSize(r), attrs), i)
                    + Contribution(ResponseSize(res.contentLength, attrs), i)
               else [])
            + (if cfg.recordDuration then Contribution(Duration(elapsed, attrs), i) else [])
  {
    var count := [Requests(1, attrs)];
    var sizes := if cfg.recordSize then [RequestSize(ApproximateSize(r), attrs), ResponseSize(res.contentLength, attrs)] else [];
    var duration := if cfg.recordDuration then [Duration(elapsed, attrs)] else [];
    assert CompletionCalls(cfg, r, res, attrs, elapsed) == count + sizes + duration;
    SamplesConcat(count + sizes, duration, i);
    SamplesConcat(count, sizes, i);
    SamplesOfOne(count[0], i);
    if cfg.recordSize {
      SamplesOfPair(sizes[0], sizes[1], i);
    }
    if cfg.recordDuration {
      SamplesOfOne(duration[0], i);
    }
  }

  /**
   * The completion closure after a response: one count, the two size samples
   * when sizes are recorded, the duration sample when durations are, and no
   * in-flight change.
   */
  lemma CompletionSamples(cfg: Config, r: Request, res: Response, attrs: seq<KeyValue>, elapsed: int)
    ensures Samples(CompletionCalls(cfg, r, res, attrs, elapsed), AttemptsCounter) == [Sample(1, attrs)]
    ensures Samples(CompletionCalls(cfg, r, res, attrs, elapsed), RequestSizes)
         == if cfg.recordSize then [Sample(ApproximateSize(r), attrs)] else []
    ensures Samples(CompletionCalls(cfg, r, res, attrs, elapsed), ResponseSizes)
         == if cfg.recordSize then [Sample(res.contentLength, attrs)] else []
    ensures Samples(CompletionCalls(cfg, r, res, attrs, elapsed), TotalDuration)
         == if cfg.recordDuration then [Sample(Millis(elapsed), attrs)] else []
    ensures Samples(CompletionCalls(cfg, r, res, attrs, elapsed), ActiveRequestsCounter) == []
  {
    CompletionContributions(cfg, r, res, attrs, elapsed, AttemptsCounter);
    CompletionContributions(cfg, r, res, attrs, elapsed, RequestSizes);
    CompletionContributions(cfg, r, res, attrs, elapsed, ResponseSizes);
    CompletionContributions(cfg, r, res, attrs, elapsed, TotalDuration);
    CompletionContributions(cfg, r, res, attrs, elapsed, ActiveRequestsCounter);
  }

  /** A request the predicate turns away: the recorder is not called at all. */
  lemma NotRecordedSilent(cfg: Config, r: Request, outcome: Outcome, elapsed: int, exactStatus: int -> seq<KeyValue>)
    requires !cfg.shouldRecord(r)
    ensures ExchangeCalls(cfg, r, outcome, elapsed, exactStatus) == []
  {
  }

  /** A failed round trip: the in-flight increment and decrement if in-flight is recorded, otherwise nothing. */
  lemma ErrorPath(cfg: Config, r: Request, error: string, elapsed: int, exactStatus: int -> seq<KeyValue>)
    requires cfg.shouldRecord(r) && cfg.attributes.requires(r)
    ensures ExchangeCalls(cfg, r, Err(error), elapsed, exactStatus)
         == if cfg.recordInFlight then [Inflight(1, cfg.attributes(r)), Inflight(-1, cfg.attributes(r))] else []
  {
  }

  /** An exchange's samples for one instrument: the in-flight bracket around the completion closure's. */
  lemma ExchangeContributions(cfg: Config, r: Request, outcome: Outcome, elapsed: int,
                              exactStatus: int -> seq<KeyValue>, i: Instrument)
    requires cfg.shouldRecord(r) && cfg.attributes.requires(r)
    ensures Samples(ExchangeCalls(cfg, r, outcome, elapsed, exactStatus), i)
         == (if cfg.recordInFlight then Contribution(Inflight(1, cfg.attributes(r)), i) else [])
            + Samples(Completed(cfg, r, outcome, cfg.attributes(r), elapsed, exactStatus), i)
            + (if cfg.recordInFlight then Contribution(Inflight(-1, cfg.attributes(r)), i) else [])
  {
    var base := cfg.attributes(r);
    var pre := if cfg.recordInFlight then [Inflight(1, base)] else [];
    var completed := Completed(cfg, r, outcome, base, elapsed, exactStatus);
    var post := if cfg.recordInFlight then [Inflight(-1, base)] else [];
    assert pre + completed + post == ExchangeCalls(cfg, r, outcome, elapsed, exactStatus);
    SamplesConcat(pre + completed, post, i);
    SamplesConcat(pre, completed, i);
    if cfg.recordInFlight {
      SamplesOfOne(pre[0], i);
      SamplesOfOne(post[0], i);
    }
  }

  /**
   * With in-flight recording on, the first call is the +1 and the last the -1,
   * both under the request attributes, and there is no other in-flight call
   * in between; with it off there is none at all.
   */
  lemma InflightBracket(cfg: Config, r: Request, outcome: Outcome, elapsed: int, exactStatus: int -> seq<KeyValue>)
    requires cfg.shouldRecord(r) && cfg.attributes.requires(r)
    ensures var calls := ExchangeCalls(cfg, r, outcome, elapsed, exactStatus);
      cfg.recordInFlight ==>
        && 2 <= |calls|
        && calls[0] == Inflight(1, cfg.attributes(r))
        && calls[|calls| - 1] == Inflight(-1, cfg.attributes(r))
    ensures Samples(ExchangeCalls(cfg, r, outcome, elapsed, exactStatus), ActiveRequestsCounter)
         == if cfg.recordInFlight then [Sample(1, cfg.attributes(r)), Sample(-1, cfg.attributes(r))] else []
  {
    ExchangeContributions(cfg, r, outcome, elapsed, exactStatus, ActiveRequestsCounter);
    if outcome.Ok? {
      var res := outcome.response;
      CompletionSamples(cfg, r, res, ResultAttributes(cfg, cfg.attributes(r), res.statusCode, exactStatus), elapsed);
    }
  }

  /**
   * A successful round trip: exactly one count of 1 under the request attributes
   * followed by the status, a request-size and a response-size sample exactly
   * when sizes are recorded (the response's content length as it is, -1 for
   * unknown included), and a duration sample exactly when durations are.
   */
  lemma SuccessSamples(cfg: Config, r: Request, res: Response, elapsed: int, exactStatus: int -> seq<KeyValue>)
    requires cfg.shouldRecord(r) && cfg.attributes.requires(r)
    ensures var calls := ExchangeCalls(cfg, r, Ok(res), elapsed, exactStatus);
      var attrs := ResultAttributes(cfg, cfg.attributes(r), res.statusCode, exactStatus);
      && Samples(calls, AttemptsCounter) == [Sample(1, attrs)]
      && Samples(calls, RequestSizes) == (if cfg.recordSize then [Sample(ApproximateSize(r), attrs)] else [])
      && Samples(calls, ResponseSizes) == (if cfg.recordSize then [Sample(res.contentLength, attrs)] else [])
      && Samples(calls, TotalDuration) == (if cfg.recordDuration then [Sample(Millis(elapsed), attrs)] else [])
  {
    var attrs := ResultAttributes(cfg, cfg.attributes(r), res.statusCode, exactStatus);
    CompletionSamples(cfg, r, res, attrs, elapsed);
    OnlyCompletionSamples(cfg, r, res, elapsed, exactStatus, AttemptsCounter);
    OnlyCompletionSamples(cfg, r, res, elapsed, exactStatus, RequestSizes);
    OnlyCompletionSamples(cfg, r, res, elapsed, exactStatus, ResponseSizes);
    OnlyCompletionSamples(cfg, r, res, elapsed, exactStatus, TotalDuration);
  }

  /** Outside the active-requests counter, an exchange's samples are the completion closure's. */
  lemma OnlyCompletionSamples(cfg: Config, r: Request, res: Response, elapsed: int,
                              exactStatus: int -> seq<KeyValue>, i: Instrument)
    requires cfg.shouldRecord(r) && cfg.attributes.requires(r)
    requires i != ActiveRequestsCounter
    ensures Samples(ExchangeCalls(cfg, r, Ok(res), elapsed, exactStatus), i)
         == Samples(CompletionCalls(cfg, r, res, ResultAttributes(cfg, cfg.attributes(r), res.statusCode, exactStatus), elapsed), i)
  {
    ExchangeContributions(cfg, r, Ok(res), elapsed, exactStatus, i);
  }

  lemma BracketSum(base: seq<KeyValue>, attrs: seq<KeyValue>)
    ensures SampleSum([Sample(1, base), Sample(-1, base)], attrs) == 0
  {
    assert [Sample(1, base), Sample(-1, base)][..1] == [Sample(1, base)];
    assert [Sample(1, base)][..0] == [];
    assert SampleSum([Sample(1, base)], attrs) == if base == attrs then 1 else 0;
  }

  /** The active-requests counter ends every exchange where it began, under every attribute list. */
  lemma InflightRestored(s: Instruments, cfg: Config, r: Request, outcome: Outcome, elapsed: int,
                         exactStatus: int -> seq<KeyValue>)
    requires cfg.shouldRecord(r) ==> cfg.attributes.requires(r)
    ensures var t := Replay(s, ExchangeCalls(cfg, r, outcome, elapsed, exactStatus));
      forall a :: Total(t.activeRequests, a) == Total(s.activeRequests, a)
  {
    ReplayTotals(s, ExchangeCalls(cfg, r, outcome, elapsed, exactStatus));
    if cfg.shouldRecord(r) {
      InflightBracket(cfg, r, outcome, elapsed, exactStatus);
      var base := cfg.attributes(r);
      forall a {
        BracketSum(base, a);
      }
    }
  }

  /** A turned-away request or a failed round trip leaves the attempts counter and the histograms as they were. */
  lemma FailureLeavesMetrics(s: Instruments, cfg: Config, r: Request, outcome: Outcome, elapsed: int,
                             exactStatus: int -> seq<KeyValue>)
    requires cfg.shouldRecord(r) ==> cfg.attributes.requires(r)
    requires !cfg.shouldRecord(r) || outcome.Err?
    ensures var t := Replay(s, ExchangeCalls(cfg, r, outcome, elapsed, exactStatus));
      && (forall a :: Total(t.attempts, a) == Total(s.attempts, a))
      && t.totalDuration == s.totalDuration && t.requestSize == s.requestSize && t.responseSize == s.responseSize
  {
    var calls := ExchangeCalls(cfg, r, outcome, elapsed, exactStatus);
    ReplayTotals(s, calls);
    ReplaySamples(s, calls);
    if cfg.shouldRecord(r) {
      ErrorPath(cfg, r, outcome.error, elapsed, exactStatus);
      if cfg.recordInFlight {
        SamplesOfPair(calls[0], calls[1], AttemptsCounter);
        SamplesOfPair(calls[0], calls[1], TotalDuration);
        SamplesOfPair(calls[0], calls[1], RequestSizes);
        SamplesOfPair(calls[0], calls[1], ResponseSizes);
      }
    }
  }

  /**
   * A response adds one attempt under the result attributes and nowhere else,
   * and appends to each histogram the sample its flag enables.
   */
  lemma SuccessEffect(s: Instruments, cfg: Config, r: Request, res: Response, elapsed: int,
                      exactStatus: int -> seq<KeyValue>)
    requires cfg.shouldRecord(r) && cfg.attributes.requires(r)
    ensures var t := Replay(s, ExchangeCalls(cfg, r, Ok(res), elapsed, exactStatus));
      var attrs := ResultAttributes(cfg, cfg.attributes(r), res.statusCode, exactStatus);
      && (forall a :: Total(t.attempts, a) == Total(s.attempts, a) + (if a == attrs then 1 else 0))
      && t.totalDuration == s.totalDuration + (if cfg.recordDuration then [Sample(Millis(elapsed), attrs)] else [])
      && t.requestSize == s.requestSize + (if cfg.recordSize then [Sample(ApproximateSize(r), attrs)] else [])
      && t.responseSize == s.responseSize + (if cfg.recordSize then [Sample(res.contentLength, attrs)] else [])
  {
    var calls := ExchangeCalls(cfg, r, Ok(res), elapsed, exactStatus);
    ReplayTotals(s, calls);
    ReplaySamples(s, calls);
    SuccessSamples(cfg, r, res, elapsed, exactStatus);
    var attrs := ResultAttributes(cfg, cfg.attributes(r), res.statusCode, exactStatus);
    forall a
      ensures SampleSum([Sample(1, attrs)], a) == if a == attrs then 1 else 0
    {
      assert [Sample(1, attrs)][..0] == [];
    }
  }

  /** Status grouping by hundreds: a few codes, and grouping a grouped code changes nothing. */
  lemma GroupStatusClasses(statusCode: int)
    ensures GroupStatus(200) == 200 && GroupStatus(201) == 200 && GroupStatus(404) == 400 && GroupStatus(503) == 500
    ensures GroupStatus(GroupStatus(statusCode)) == GroupStatus(statusCode)
  {
    var code := GroupStatus(statusCode);
    assert GroupStatus(code) == code by {
      var g := GroupStatus(code);
      if 0 <= code {
        assert g <= code < g + 100;
      } else {
        assert g - 100 < code <= g;
      }
    }
  }

  /**
   * Durations are truncated to whole milliseconds: 150.9 ms is recorded as 150,
   * every duration shorter than a millisecond either way as 0, and -1.5 ms as -1.
   */
  lemma MillisTruncates()
    ensures Millis(150_900_000) == 150
    ensures forall n :: -NanosPerMilli < n < NanosPerMilli ==> Millis(n) == 0
    ensures Millis(-1_500_000) == -1
  {
  }
}
