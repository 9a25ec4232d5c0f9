# otel-go-contrib metrics wrappers, modelled in Dafny

This project models the core of `otelhttpmetrics` and `otelginmetrics`. These two
packages instrument HTTP exchanges with OpenTelemetry metrics:

- An outbound `http.RoundTripper` wrapper (`transport`) surrounds each round trip
  with calls on a `Recorder`:
  - an in-flight increment and decrement;
  - after a successful round trip, a request count, request and response sizes,
    and a duration, all under the request attributes extended with the status code.
- The default recorder (`otelRecorder`, one per package) binds the five Recorder
  operations to five named instruments, optionally under a name prefix:
  - two up/down counters: request count and active requests;
  - three histograms: duration, request size and response size.
- Both packages build their configuration from defaults and a list of options,
  applied in order. The last write wins.

## Structure

- `go_arith.dfy` (`GoArith`): Go's signed integer division, which truncates toward zero.
- `go_string.dfy` (`GoString`): Go's `len` on strings, i.e. the number of bytes of the
  UTF-8 encoding, as opposed to the number of characters.
- `attribute.dfy` (`Attribute`): attribute key/value pairs and the semantic-convention
  keys used here.
- `recording.dfy` (`Recording`):
  - The Recorder calls (`Call`) and the default recorder's instruments (`Instruments`).
  - What one call does to the instruments (`Observe`) and what a sequence does (`Replay`).
  - An independent per-instrument reference semantics (`Samples`, `SampleSum`),
    with the lemmas that connect it to `Replay`.
  - The metric-name prefix rule (`MetricName`).
  - The class `OtelRecorder`, whose five methods update the instruments in place and
    keep a ghost history of the calls received. Its invariant `Valid` says the
    instruments are the replay of that history on empty instruments. The same class
    stands for both packages' `otelRecorder`
    (otelhttpmetrics/otelrecorder.go:51-73 and otelginmetrics/otelrecorder.go:43-66).
- `http_recorder.dfy`, `gin_recorder.dfy`: the two packages' `GetRecorder` and their
  instrument names (`http.client.*` and `http.server.*`).
- `http_config.dfy` (`HttpConfig`): the client configuration, `defaultConfig` and
  `DefaultAttributes`.
- `request_size.dfy` (`RequestSize`): `computeApproximateRequestSize`, proved against a
  definition of the size that does not depend on the order of the header map. Every
  length is a byte length, as Go's `len` gives it.
- `http_transport.dfy` (`HttpTransport`):
  - `NewTransport`, i.e. the option fold and the default recorder.
  - `transport.RoundTrip`: the in-flight increment (`Enter`), then the deferred calls,
    run last-registered-first (`Unwinding`).
  - `ExchangeCalls`, the exact sequence of recorder calls one round trip makes.
- `exchange_laws.dfy` (`ExchangeLaws`): what one round trip does to the instruments:
  - the short-circuit when a request is not recorded;
  - the error path;
  - the in-flight bracket;
  - the flags;
  - the status grouping.
- `gin_config.dfy`, `gin_option.dfy`: the server package's `config` (a class whose fields
  the options overwrite), `defaultConfig`, the `With…` options and `optionFunc.apply`.

### Order of the completion metrics and the in-flight decrement

`RoundTrip` registers two deferred calls, in this order:

1. the in-flight decrement (otelhttpmetrics/transport.go:47);
2. the completion closure (otelhttpmetrics/transport.go:52).

Go runs deferred calls last-registered-first. So the completion metrics are recorded
BEFORE the in-flight decrement, and the decrement is the very last call of an exchange.
The model states this order:

- `ExchangeCalls` ends with the decrement.
- `UnwindRegistered` and `ExchangeUnwinds` show that this order is exactly the LIFO
  unwinding of the two registered deferred calls.

Both orders leave the same final totals in every instrument, because the decrement is
on a different instrument from the completion metrics.

## Model

| member | source | states |
|---|---|---|
| GoArith.Div | otelhttpmetrics/transport.go:60 | Go's `/` for a positive divisor: the quotient times the divisor lies within one divisor of the dividend, rounded toward zero on both sides of zero |
| GoString.Len | otelhttpmetrics/transport.go:84-95 | `len` of a string counts the bytes of its UTF-8 encoding: at least one and at most four per character |
| GoString.LenConcat | otelhttpmetrics/transport.go:87-95 | the byte length of a concatenation is the sum of the byte lengths, so lengths can be added piece by piece as the function does |
| GoString.AsciiLen | otelhttpmetrics/transport.go:84-95 | bytes and characters coincide exactly when the string is ASCII |
| GoString.NonAsciiWidths | otelhttpmetrics/transport.go:84 | `/é` is 3 bytes, `/café` 6 and `€` 3 |
| Recording.CounterAdd | otelhttpmetrics/otelrecorder.go:52 | a counter `Add` raises the total under its own attribute list by the quantity and leaves every other attribute list's total unchanged |
| Recording.Millis | otelhttpmetrics/otelrecorder.go:57 | a duration in nanoseconds is recorded as whole milliseconds truncated toward zero, for negative durations as well |
| Recording.ObserveEffect | otelhttpmetrics/otelrecorder.go:51-73 | each Recorder call changes only the instrument it targets: counter calls add their quantity under their attributes only; histogram calls append exactly one sample (durations in milliseconds) |
| Recording.ReplaySamples | otelhttpmetrics/otelrecorder.go:56-68 | after any sequence of calls, each histogram holds its old samples followed by the samples of exactly the calls that land in it, in call order |
| Recording.ReplayTotals | otelhttpmetrics/otelrecorder.go:51-53 | after any sequence of calls, each counter's total under every attribute list is its old total plus the quantities of the calls that land in it with that list |
| Recording.ReplayConcat | otelhttpmetrics/otelrecorder.go:51-73 | replaying two call sequences one after the other equals replaying their concatenation |
| Recording.HistoryReplays | otelhttpmetrics/otelrecorder.go:51-73 | instruments that replay a history on empty instruments still replay the extended history after any further calls; with RoundTrip's contract, a `Valid` recorder stays `Valid` across every exchange |
| Recording.MetricName | otelhttpmetrics/otelrecorder.go:29-34 | a metric name ends with the base name; without a prefix it is the base name; with a prefix it starts with the prefix and a dot |
| Recording.MetricNameInjective | otelhttpmetrics/otelrecorder.go:29-34 | under one prefix, two base names give the same metric name only if they are equal |
| Recording.OtelRecorder.constructor | otelhttpmetrics/otelrecorder.go:41-47 | a new recorder has the given instrument names, no recorded calls and empty instruments, and is `Valid` (also the server package's struct literal, otelginmetrics/otelrecorder.go:34-40) |
| Recording.OtelRecorder.AddRequests | otelhttpmetrics/otelrecorder.go:51-53 | appends the call to the history, adds the quantity to the request-count counter under the attributes as Observe does, and keeps `Valid` (also otelginmetrics/otelrecorder.go:44-46) |
| Recording.OtelRecorder.ObserveHTTPRequestDuration | otelhttpmetrics/otelrecorder.go:56-58 | appends the call, records the duration in whole milliseconds into the duration histogram and keeps `Valid` (also otelginmetrics/otelrecorder.go:49-51) |
| Recording.OtelRecorder.ObserveHTTPRequestSize | otelhttpmetrics/otelrecorder.go:61-63 | appends the call, records the size into the request-size histogram and keeps `Valid` (also otelginmetrics/otelrecorder.go:54-56) |
| Recording.OtelRecorder.ObserveHTTPResponseSize | otelhttpmetrics/otelrecorder.go:66-68 | appends the call, records the size into the response-size histogram and keeps `Valid` (also otelginmetrics/otelrecorder.go:59-61) |
| Recording.OtelRecorder.AddInflightRequests | otelhttpmetrics/otelrecorder.go:71-73 | appends the call, adds the (signed) quantity to the active-requests counter under the attributes and keeps `Valid` (also otelginmetrics/otelrecorder.go:64-66) |
| HttpRecorder.ClientNames | otelhttpmetrics/otelrecorder.go:36-40 | the five client instrument names under the prefix; what they satisfy is stated by HttpRecorder.ClientNamesWellFormed |
| HttpRecorder.ClientNamesWellFormed | otelhttpmetrics/otelrecorder.go:36-40 | for every prefix the five client instrument names are pairwise distinct and each ends with its `http.client.*` base name; with the empty prefix they are exactly the base names |
| HttpRecorder.GetRecorder | otelhttpmetrics/otelrecorder.go:28-48 | returns a fresh `Valid` recorder with the client names under the prefix and no measurements |
| GinRecorder.ServerNames | otelginmetrics/otelrecorder.go:35-39 | the five server instrument names under the prefix; what they satisfy is stated by GinRecorder.ServerNamesWellFormed |
| GinRecorder.ServerNamesWellFormed | otelginmetrics/otelrecorder.go:35-39 | the same for the five `http.server.*` names of the server package |
| GinRecorder.GetRecorder | otelginmetrics/otelrecorder.go:26-41 | returns a fresh `Valid` recorder with the server names under the prefix and no measurements |
| HttpConfig.DefaultConfig | otelhttpmetrics/config.go:20-31 | all four switches are on, no recorder is set, every request is recorded, and the attribute deriver is DefaultAttributes, defined exactly on requests with a URL |
| HttpConfig.DefaultAttributes | otelhttpmetrics/config.go:33-46 | the method attribute comes first; the host attribute is present iff the host is non-empty; the target attribute is present iff the URL path is non-empty; keys are distinct and in the order method, host, target |
| RequestSize.HeaderBytesWithout | otelhttpmetrics/transport.go:89-94 | the header total does not depend on which header is taken first, i.e. on map iteration order |
| RequestSize.AddHeaderGrows | otelhttpmetrics/transport.go:89-94 | adding a header that was absent adds exactly the length of its name and of all its values |
| RequestSize.SentinelIgnored | otelhttpmetrics/transport.go:99-101 | a content length of -1 contributes nothing; any other content length is added as it is |
| RequestSize.NonAsciiPathInBytes | otelhttpmetrics/transport.go:81-103 | `GET /é HTTP/1.1` to host `h` with unknown length measures 15 bytes, not its 14 characters |
| RequestSize.ComputeApproximateRequestSize | otelhttpmetrics/transport.go:81-103 | the loop over headers, in whatever order the map yields them, computes the approximate size: the byte lengths of the path (when a URL exists), method, protocol, header names and values, and host, plus the declared length unless unknown |
| HttpTransport.FoldAppend | otelhttpmetrics/transport.go:21-23 | an option appended to the list is applied after all the others |
| HttpTransport.FoldKeeps | otelhttpmetrics/transport.go:21-23 | a field that no option touches keeps its default |
| HttpTransport.LastWriteWins | otelhttpmetrics/transport.go:21-23 | when one option sets a field and no later option touches it, the configuration ends up with that value |
| HttpTransport.NewTransport | otelhttpmetrics/transport.go:15-34 | the transport's configuration is the defaults with the options applied in order; a recorder an option installed is kept; otherwise a fresh default recorder with unprefixed client names and no measurements is installed |
| HttpTransport.GroupStatus | otelhttpmetrics/transport.go:59-61 | the grouped status is a multiple of 100 within 100 of the status code, rounded toward zero, so 2xx becomes 200 |
| HttpTransport.ResultAttributes | otelhttpmetrics/transport.go:57-64 | the completion metrics' attributes; their shape is stated by HttpTransport.ResultAttributesExtendBase |
| HttpTransport.ResultAttributesExtendBase | otelhttpmetrics/transport.go:57-64 | the request attributes stay in front unchanged; grouped, exactly one status-code attribute follows, holding the hundreds class of the code; otherwise the exact-status attributes follow |
| HttpTransport.RecordSizes | otelhttpmetrics/transport.go:68-72 | records the request size and then the response size under the result attributes |
| HttpTransport.RecordCompletion | otelhttpmetrics/transport.go:66-76 | records one request count, then both sizes if sizes are recorded, then the elapsed duration if durations are recorded, all under the result attributes |
| HttpTransport.Complete | otelhttpmetrics/transport.go:52-77 | the completion closure records nothing after a transport error; otherwise it extends the request attributes with the grouped or exact status and records the completion metrics |
| HttpTransport.UnwindRegistered | otelhttpmetrics/transport.go:45-52 | running the deferred calls last-first yields the completion metrics followed by the in-flight decrement (when in-flight is recorded) |
| HttpTransport.Enter | otelhttpmetrics/transport.go:45-46 | before the round trip, the recorder receives the in-flight increment on the request attributes when in-flight is recorded, and nothing otherwise |
| HttpTransport.Unwinding | otelhttpmetrics/transport.go:47-77 | on return, the recorder receives exactly the calls of the registered deferred functions run last-registered-first |
| HttpTransport.ExchangeUnwinds | otelhttpmetrics/transport.go:43-78 | a recorded exchange's calls are the in-flight increment followed by the LIFO unwinding of the deferred decrement and completion closure |
| HttpTransport.Transport.RoundTrip | otelhttpmetrics/transport.go:36-79 | returns the wrapped transport's outcome unchanged and makes exactly the calls ExchangeCalls lists on the configured recorder: nothing when the request is not to be recorded; otherwise the increment, the completion metrics and the decrement with the same attributes |
| ExchangeLaws.CompletionSamples | otelhttpmetrics/transport.go:66-76 | the completion closure gives one count sample of 1, a sample in each size histogram iff sizes are recorded (the response's content length as it is), a millisecond duration sample iff durations are recorded, and nothing in-flight |
| ExchangeLaws.NotRecordedSilent | otelhttpmetrics/transport.go:40-42 | a request that `shouldRecord` turns away causes no recorder call at all |
| ExchangeLaws.ErrorPath | otelhttpmetrics/transport.go:45-55 | after a transport error, the recorder sees exactly the in-flight increment and decrement when in-flight is recorded, and nothing otherwise |
| ExchangeLaws.InflightBracket | otelhttpmetrics/transport.go:45-47 | with in-flight recorded, the first call is the +1 and the last call is the -1 on the request attributes, and they are the only active-request samples; without it there are none |
| ExchangeLaws.SuccessSamples | otelhttpmetrics/transport.go:57-76 | a successful exchange gives exactly one count of 1 under the result attributes, size samples iff sizes are on, and a duration sample iff durations are on |
| ExchangeLaws.InflightRestored | otelhttpmetrics/transport.go:45-47 | every exchange, successful or failed, leaves the active-requests total under every attribute list where it was |
| ExchangeLaws.FailureLeavesMetrics | otelhttpmetrics/transport.go:40-55 | a turned-away request or a failed round trip leaves the request counts and all three histograms as they were |
| ExchangeLaws.SuccessEffect | otelhttpmetrics/transport.go:57-76 | a response adds one request count under the result attributes and nowhere else, and appends to each histogram exactly the sample its switch enables |
| ExchangeLaws.GroupStatusClasses | otelhttpmetrics/transport.go:59-61 | 200 and 201 group to 200, 404 to 400 and 503 to 500; grouping is idempotent |
| ExchangeLaws.MillisTruncates | otelhttpmetrics/otelrecorder.go:57 | 150.9 ms records as 150, every duration strictly between -1 ms and 1 ms as 0, and -1.5 ms as -1 |
| GinConfig.Config.Default | otelginmetrics/config.go:18-25 | all four switches are on, there are no extra attributes and no recorder |
| GinOption.WithRecordInFlightDisabled | otelginmetrics/option.go:31-35 | the option value; its effect is stated by GinOption.DisabledOptionsIgnoreArgument |
| GinOption.WithRecordDurationDisabled | otelginmetrics/option.go:39-43 | the option value; its effect is stated by GinOption.DisabledOptionsIgnoreArgument |
| GinOption.WithRecordSizeDisabled | otelginmetrics/option.go:47-51 | the option value; its effect is stated by GinOption.DisabledOptionsIgnoreArgument |
| GinOption.WithGroupedStatusDisabled | otelginmetrics/option.go:55-59 | the option value; its effect is stated by GinOption.GroupedStatusDisabledEffect |
| GinOption.WithRecorder | otelginmetrics/option.go:61-65 | the option value; its effect is stated by GinOption.WithRecorderEffect |
| GinOption.WithAdditionalAttributes | otelginmetrics/option.go:19-27 | the option value; its effect is stated by GinOption.AdditionalAttributesEffect |
| GinOption.DisabledOptionsIgnoreArgument | otelginmetrics/option.go:31-51 | each of the three "disabled" options turns its switch off whatever boolean it is given, and changes nothing else |
| GinOption.GroupedStatusDisabledEffect | otelginmetrics/option.go:55-59 | turns status grouping off and changes nothing else |
| GinOption.WithRecorderEffect | otelginmetrics/option.go:61-65 | installs the given recorder and changes nothing else |
| GinOption.AdditionalAttributesEffect | otelginmetrics/option.go:19-27 | replaces the extra attributes with a listing of the map and changes nothing else |
| GinOption.AttributesFromMap | otelginmetrics/option.go:21-25 | the map loop produces one string attribute per entry, each entry exactly once, in some order |
| GinOption.ListingsPermute | otelginmetrics/option.go:21-25 | two runs of the map loop over the same map differ only in order (equal multisets) |
| GinOption.Apply | otelginmetrics/option.go:14-16 | applying an option to the configuration updates it in place exactly as that option's closure does |
| GinOption.ApplyTwice | otelginmetrics/option.go:14-65 | applying an option a second time changes nothing, except that attributes added again may be listed in another order |

## Left out

- The wrapped transport's network round trip (`t.rt.RoundTrip`) is not modelled as code. `RoundTrip` takes its outcome, a response or an error, as a parameter and returns it unchanged.
- The `base == nil` fallback to `http.DefaultTransport` and the `rt` field are left out, because the wrapped transport is represented only by its outcome.
- `time.Now()` and `time.Since(start)` are left out. The clock readings are the parameters `start` (taken on entry) and `now` (taken when the completion closure runs).
- `semconv.HTTPAttributesFromHTTPStatusCode` is outside this code base. Its result is the function parameter `exactStatus`.
- Request contexts (`r.Context()`, `ctx`) are left out, because the metrics do not depend on them.
- The OpenTelemetry SDK itself is left out: the meter provider, the instrumentation name and version, instrument descriptions and units, errors from instrument creation (discarded by the client package), `metric.Must` panics in the server package, aggregation and export. Instruments are represented by what they have been given.
- Concurrency is left out. Exchanges are modelled one at a time, and the instruments' internal synchronisation is not represented.
- Strings are Unicode text. A Go string may hold bytes that are not valid UTF-8; such strings have no counterpart here. Lengths are the UTF-8 byte counts that `len` gives.
- `DefaultAttributes` is an exported package variable that `defaultConfig` reads when it runs. The model fixes it to its initial function, so a program that reassigns it is not modelled.
- The `With…` option functions of the server package have no contract of their own, because the configuration they act on holds a recorder reference. Their effect is stated by the lemmas beside them, over every pair of settings.
- Integer widths are left out. Sizes, content lengths and durations are unbounded integers, so `int64` and `int` overflow is not modelled.
- The `Recorder` interface is modelled by its default implementation, `OtelRecorder`. A user-supplied Recorder would receive the same call sequence, `ExchangeCalls`, but its own behaviour is not modelled.
- The client package's option constructors (otelhttpmetrics/option.go) are not part of this model. Client options are arbitrary configuration-to-configuration functions, folded in order.
- Go slice aliasing is not captured. `append(reqAttributes[0:0], reqAttributes...)` can write into the backing array of the request attributes; the model uses value semantics, so the decrement always sees the request attributes.
- HttpTransport.Transport.RoundTrip: requires that the attribute deriver be defined on a recorded request. With DefaultAttributes a request without a URL would make Go panic (a nil dereference), and the model does not represent panics.
- HttpTransport.Transport.RoundTrip: requires a configured recorder. `NewTransport` always installs one, and the transport type is not exported.
- The server package's gin middleware, which consumes `config`, is not part of this model. Neither is the example program under otelginmetrics/example.
- `SemVersion` and the instrumentation-name constants are not modelled, because they only label the meter.
