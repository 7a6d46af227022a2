/**
 The pure part of the SignalFx output plugin: coercion of a telegraf field
 value to a SignalFx value, the naming of points, and the points a batch of
 metrics flattens into.
 */
module Flattening {
  import opened Datapoint

  /** The Go `error` values the plugin returns or meets. */
  datatype Error =
    | NoTokenSet                  // errNoTokenSet
    | UndetermineableType         // errUndetermineableType
    | SinkFailure(reason: string) // whatever the sink reports

  datatype Result<T> = Ok(value: T) | Err(error: Error)

  datatype Option<T> = None | Some(value: T)

  /** A field value as telegraf hands it over: the dynamic type of the Go
      `interface{}` and its payload. `Other` is every type the coercion does
      not list (strings, functions, unsigned and narrow integers, ...). */
  datatype FieldValue =
    | Int(intVal: Int64)
    | Int32(int32Val: Int32)
    | Int64(int64Val: Int64)
    | Float32(float32Bits: bv32)
    | Float64(float64Bits: bv64)
    | Bool(boolVal: bool)
    | Time(instant: Instant)
    | Other

  /** `valFromField`: integers, booleans and times become integer values,
      floats become float values, and every other type is refused. */
  function ValFromField(v: FieldValue): (r: Result<Value>)
    ensures r.Err? <==> v.Other?
    ensures r.Err? ==> r.error == UndetermineableType
    ensures r.Ok? ==> (r.value.FloatValue? <==> v.Float32? || v.Float64?)
  {
    match v
    case Int(d) => Ok(IntValue(d))
    case Int32(d) => Ok(IntValue(d))
    case Int64(d) => Ok(IntValue(d))
    case Float32(d) => Ok(FloatValue(Single(d)))
    case Float64(d) => Ok(FloatValue(Double(d)))
    case Bool(d) => if d then Ok(IntValue(1)) else Ok(IntValue(0))
    case Time(d) => Ok(IntValue(d.unixNanos))
    case Other => Err(UndetermineableType)
  }

  predicate Coerces(v: FieldValue) {
    ValFromField(v).Ok?
  }

  /** The field key whose point is named after the metric alone. */
  const ValueKey: string := "value"

  /** The name `Write` gives the point of field `key` of metric `metricName`. */
  function PointName(metricName: string, key: string): (r: string)
    ensures metricName <= r
    ensures r == metricName <==> key == ValueKey
  {
    if key == ValueKey then metricName else metricName + "." + key
  }

  /** Recovers the field key from a point name, given the metric's name. */
  function FieldKeyOf(metricName: string, pointName: string): (k: Option<string>)
  {
    if pointName == metricName then Some(ValueKey)
    else if |pointName| > |metricName| && pointName[..|metricName|] == metricName
            && pointName[|metricName|] == '.'
    then Some(pointName[|metricName| + 1..])
    else None
  }

  /** A `telegraf.Metric`: name, tags, fields and timestamp. */
  datatype Metric = Metric(
    name: string,
    tags: map<string, string>,
    fields: map<string, FieldValue>,
    time: Instant)

  /** The point that field `key` of `m` becomes when its value coerces. */
  function PointOf(m: Metric, key: string): (p: Point)
    requires key in m.fields && Coerces(m.fields[key])
  {
    Point(PointName(m.name, key), m.tags, ValFromField(m.fields[key]).value, Gauge, m.time)
  }

  /** The keys of `m` whose values coerce. */
  function CoercibleKeys(m: Metric): (keys: set<string>) {
    set k | k in m.fields && Coerces(m.fields[k])
  }

  /** The points `m` contributes, as a set. */
  function PointSet(m: Metric): (points: set<Point>) {
    set k | k in m.fields && Coerces(m.fields[k]) :: PointOf(m, k)
  }

  predicate NoDuplicates<T(==)>(s: seq<T>) {
    forall i, j :: 0 <= i < j < |s| ==> s[i] != s[j]
  }

  /** `order` is one order in which Go's `range` may visit the keys of
      `m.fields`: each key exactly once. */
  ghost predicate IsIterationOrder(m: Metric, order: seq<string>) {
    && NoDuplicates(order)
    && forall k :: k in order <==> k in m.fields
  }

  ghost predicate AreIterationOrders(metrics: seq<Metric>, orders: seq<seq<string>>) {
    && |orders| == |metrics|
    && forall i :: 0 <= i < |metrics| ==> IsIterationOrder(metrics[i], orders[i])
  }

  /** The points of `m` when its fields are visited in `order`; fields whose
      value does not coerce are skipped. */
  function FieldPoints(m: Metric, order: seq<string>): (points: seq<Point>)
    requires forall k :: k in order ==> k in m.fields
  {
    if order == [] then []
    else
      var k := order[|order| - 1];
      FieldPoints(m, order[..|order| - 1]) + (if Coerces(m.fields[k]) then [PointOf(m, k)] else [])
  }

  /** The points of a whole batch, metric after metric. */
  function Flatten(metrics: seq<Metric>, orders: seq<seq<string>>): (points: seq<Point>)
    requires AreIterationOrders(metrics, orders)
  {
    if metrics == [] then []
    else
      var n := |metrics| - 1;
      Flatten(metrics[..n], orders[..n]) + FieldPoints(metrics[n], orders[n])
  }

  /** The number of fields of the batch whose values coerce. */
  function CoercibleFieldCount(metrics: seq<Metric>): (n: nat) {
    if metrics == [] then 0
    else CoercibleFieldCount(metrics[..|metrics| - 1]) + |CoercibleKeys(metrics[|metrics| - 1])|
  }
}
