# SignalFx output plugin

This is a model of telegraf's SignalFx output plugin. The plugin turns a batch of
telegraf metrics into SignalFx datapoints and submits them to an HTTP datapoint
sink. The model covers three things:

- **Field-value coercion** (`valFromField`). The dynamic type of a field value
  is a closed datatype, `Flattening.FieldValue`. `int`, `int32`, `int64`, `bool`
  and `time.Time` become integer values. `float32` and `float64` become float
  values. Every other type gives `errUndetermineableType`.
- **Batch flattening and submission** (`Write`). Each field whose value coerces
  becomes one `Gauge` point. The point takes the metric's name, with `"." + key`
  appended unless the key is `"value"`, and the metric's tags and timestamp.
  The whole batch goes to the sink in one `AddDatapoints` call, under the
  configured timeout, and the sink's answer is returned as it is. An empty batch
  returns `nil` and never reaches the sink.
- **Connection set-up** (`Connect`). An empty token gives `errNoTokenSet` and
  nothing changes. Otherwise a zero timeout becomes 3 s, and a fresh HTTP sink
  gets the token and the timeout. The sink's endpoint changes only when one is
  configured.

Files:

- `datapoint.dfy` (module `Datapoint`): the SignalFx datapoint library types the
  plugin uses. These are fixed-width integers, `Instant` (a `time.Time` as Unix
  nanoseconds), `Value`, `MetricType` and `Point`.
- `flattening.dfy` (module `Flattening`): the coercion, the naming rule, the
  metric type, and the specification functions `FieldPoints` and `Flatten` that
  give the points of one metric and of a batch.
- `flattening_lemmas.dfy` (module `FlatteningLemmas`): lemmas about coercion,
  naming, the points of one metric and the points of a batch, and the batch
  that the plugin's own client test writes.
- `signalfx.dfy` (module `SignalFx`): the two loops of `Write`, as methods proved
  against `FieldPoints` and `Flatten`, the recording `Sink` class, and the plugin
  class `SignalFx` with `Connect`, `Write` and `Close`. `ClientScenario` replays
  the plugin's client test against these contracts.

Go's `range` over a map visits keys in an unspecified order. The inner loop of
`Write` therefore picks the next key with `:|` from the keys not yet visited. It
returns the order it chose as a ghost out-parameter. Every claim about the points
of one metric holds for every such order: which points appear, that each appears
once, and how many there are. The order of points within one metric is never
claimed. Across metrics, the points of earlier metrics come first (`FlattenAppend`).

Only `int`, `int32` and `int64` are integer cases of `valFromField`
(plugins/outputs/signalfx/signalfx.go:66-71). `int8`, `int16` and every unsigned
type reach the default branch (plugins/outputs/signalfx/signalfx.go:83-84) and
are refused with `errUndetermineableType`. The model follows the code: those
types are `Other`.

## Model

| member | source | states |
|---|---|---|
| `Flattening.ValFromField` | plugins/outputs/signalfx/signalfx.go:64-86 | coercion fails exactly for the unlisted types, and then with `errUndetermineableType`; a successful result is a float value exactly when the input is a `float32` or `float64` |
| `FlatteningLemmas.IntegerKindsCoerceToSameInteger` | plugins/outputs/signalfx/signalfx.go:66-71 | every `int` and `int64`, over the whole 64-bit range, and every `int32` coerce to the integer value holding the same number |
| `FlatteningLemmas.BoolCoercesAsOneOrZero` | plugins/outputs/signalfx/signalfx.go:76-80 | a boolean coerces as the integer 1 (true) or 0 (false) does |
| `FlatteningLemmas.TimeCoercesToUnixNanos` | plugins/outputs/signalfx/signalfx.go:81-82 | a time coerces to the integer value of its Unix nanoseconds; the Unix epoch gives 0 |
| `FlatteningLemmas.FloatsCoerceToFloatValues` | plugins/outputs/signalfx/signalfx.go:72-75 | a `float32` or `float64` coerces to a float value carrying that float |
| `Flattening.PointName` | plugins/outputs/signalfx/signalfx.go:101-104 | the point name starts with the metric name, and equals it exactly when the field key is `"value"` |
| `FlatteningLemmas.PointNameRoundTrip` | plugins/outputs/signalfx/signalfx.go:101-104 | the field key can be recovered from the point name and the metric name |
| `FlatteningLemmas.PointNameInjective` | plugins/outputs/signalfx/signalfx.go:101-104 | two fields of one metric never give the same point name |
| `FlatteningLemmas.PointNamesMayCoincideAcrossMetrics` | plugins/outputs/signalfx/signalfx.go:101-104 | metric `a` with field `b.c` and metric `a.b` with field `c` both give the point name `a.b.c` |
| `SignalFx.MetricPoints` | plugins/outputs/signalfx/signalfx.go:95-107 | the inner loop visits every key of the metric once, in some order, and its points are `FieldPoints` of the metric in that order; whatever the order, they are the points of the coercible fields, each once, one per coercible field |
| `SignalFx.FlattenBatch` | plugins/outputs/signalfx/signalfx.go:93-108 | the outer loop's points are `Flatten` of the batch under the iteration orders it chose, one per coercible field of the batch |
| `FlatteningLemmas.FieldPointsSound` | plugins/outputs/signalfx/signalfx.go:95-106 | every point of a metric is the point of one of its visited fields whose value coerces |
| `FlatteningLemmas.FieldPointsComplete` | plugins/outputs/signalfx/signalfx.go:95-106 | every visited field whose value coerces gives its point |
| `FlatteningLemmas.FieldPointsNoDuplicates` | plugins/outputs/signalfx/signalfx.go:95-106 | the points of one metric are pairwise distinct |
| `FlatteningLemmas.FieldPointsLength` | plugins/outputs/signalfx/signalfx.go:95-106 | a metric gives as many points as it has visited fields whose value coerces |
| `FlatteningLemmas.MetricPointsArePointSet` | plugins/outputs/signalfx/signalfx.go:95-106 | in every iteration order, the points of a metric are exactly the points of its coercible fields, each once, and there are as many as there are coercible fields |
| `FlatteningLemmas.MetricPointsOrderIrrelevant` | plugins/outputs/signalfx/signalfx.go:95 | two iteration orders of one metric give the same points, up to order |
| `FlatteningLemmas.MetricPointsCarryMetricData` | plugins/outputs/signalfx/signalfx.go:101-106 | every point carries its metric's tags and timestamp and the type `Gauge`, and is named after the metric and one of its coercible fields |
| `FlatteningLemmas.FlattenAppend` | plugins/outputs/signalfx/signalfx.go:94-108 | the points of a batch are the points of its first metrics followed by the points of the rest, so earlier metrics' points come first |
| `FlatteningLemmas.FlattenLength` | plugins/outputs/signalfx/signalfx.go:93-108 | a batch gives as many points as it has coercible fields, over all metrics |
| `FlatteningLemmas.FlattenPointsComeFromFields` | plugins/outputs/signalfx/signalfx.go:94-106 | every point of a batch is the point of a coercible field of one of its metrics |
| `FlatteningLemmas.FlattenContainsEveryField` | plugins/outputs/signalfx/signalfx.go:94-106 | every coercible field of every metric of the batch gives its point in the batch's points |
| `FlatteningLemmas.NothingCoercibleGivesNoPoints` | plugins/outputs/signalfx/signalfx.go:93-108 | a batch none of whose fields coerce flattens to the empty point list, which `Write`'s contract then submits |
| `FlatteningLemmas.ScenarioGivesTwoPoints` | plugins/outputs/signalfx/signalfx_test.go:85-115 | metrics `test1` (`value=1`), `test2` (`cpuusage=10`) and `test3` (a function field) give the two points `test1` and `test2.cpuusage`, in that order, with their tags, values and timestamp |
| `SignalFx.EffectiveTimeout` | plugins/outputs/signalfx/signalfx.go:43-45 | the settled timeout is never zero; a non-zero timeout is kept and a zero one becomes 3 s |
| `SignalFx.EffectiveTimeoutIdempotent` | plugins/outputs/signalfx/signalfx.go:43-45 | settling the timeout a second time changes nothing |
| `SignalFx.ResolveEndpoint` | plugins/outputs/signalfx/signalfx.go:49-51 | the sink keeps its default endpoint exactly when none is configured, and otherwise uses the configured one |
| `SignalFx.Sink.NewHTTPDatapointSink` | plugins/outputs/signalfx/signalfx.go:46 | a new HTTP sink posts to the library's built-in endpoint, has no submissions and does not accept everything: what the remote end will reply is left open |
| `SignalFx.Sink.BasicSink` | plugins/outputs/signalfx/signalfx_test.go:81 | the test sink has no submissions and accepts everything, so it replies nil to every submission |
| `SignalFx.Sink.AddDatapoints` | plugins/outputs/signalfx/signalfx.go:110-113 | the sink records one submission, holding the timeout and the points, and returns its reply to that submission; the reply to the next submission is open again |
| `SignalFx.SignalFx.constructor` | plugins/outputs/signalfx/signalfx.go:128-131 | a new plugin has an empty token, a zero timeout, no endpoint and no client |
| `SignalFx.SignalFx.Connect` | plugins/outputs/signalfx/signalfx.go:39-62 | an empty token gives `errNoTokenSet` and changes neither the timeout nor the client; otherwise it succeeds, settles the timeout, and installs a fresh HTTP sink with the token, timeout and endpoint and no submissions |
| `SignalFx.SignalFx.Write` | plugins/outputs/signalfx/signalfx.go:88-114 | an empty batch returns nil and leaves the sink as it was, its pending reply included; otherwise the sink gets exactly one submission, holding the timeout and the batch's points, one per coercible field, and the sink's reply to that submission is returned; the sink's configuration is unchanged |
| `SignalFx.SignalFx.Close` | plugins/outputs/signalfx/signalfx.go:124-126 | closing always returns nil |
| `SignalFx.ClientScenario` | plugins/outputs/signalfx/signalfx_test.go:66-116 | the client test's run: connecting without a token gives `errNoTokenSet`, connecting with one, closing and writing an empty batch give nil, and writing metrics `test1`, `test2` and `test3` to a basic sink gives nil and exactly one submission, under the 3 s timeout, holding the points `test1` (1) and `test2.cpuusage` (10) at the test's timestamp |
| `SignalFx.FailingSinkScenario` | plugins/outputs/signalfx/signalfx.go:110-113 | when the sink fails the submission, a non-empty `Write` returns that failure, after one submission under the settled timeout holding one point per coercible field; an empty batch returns nil and submits nothing |

## Left out

- The HTTP transport behind `AddDatapoints`, the context's cancellation and the
  sink's internals are not modelled. `Sink` records each submission and returns
  its reply, which stands for what the other end answers. Nothing is promised
  about the reply of an HTTP sink, to the first submission or to any later one,
  so nothing is promised about the result of a non-empty `Write` beyond that it
  is that reply. The test sink replies nil every time.
- The sink's built-in default ingest URL is not part of this model. It is the
  value `DefaultIngest`.
- The `UserAgent` string built from `runtime.Version()`, the debug log line in
  `Connect` and the per-field log comment in `Write` are not modelled. They are
  logging and runtime plumbing.
- The `init` registration with `outputs.Add` is not modelled. The plugin
  constructor gives the zero value that the registered factory returns.
- `SampleConfig` and `Description` return constant strings and are not modelled.
- Float numerics are not modelled. A float is an opaque bit pattern, and the
  float value keeps the input's width: the widening of `float32` to `float64` is
  not modelled.
- A `time.Time` is a number of Unix nanoseconds in the `int64` range. Times
  outside that range, for which Go leaves `UnixNano` undefined, are not modelled,
  nor are time zones or monotonic readings.
- Go's `int` is modelled as 64 bits wide. On a 32-bit platform its range is
  smaller, which the model does not distinguish.
- `Value.String()`, which the tests use to compare values, is not modelled. The
  model compares the values themselves.
- SignalFx.SignalFx.Write: requires a client when the batch is not empty. The Go
  code dereferences a nil client there and panics, and the model does not model
  the panic.
- No claim is made about the order of points that come from one metric. Go's map
  iteration order is unspecified.
