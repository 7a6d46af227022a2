/**
 The part of SignalFx's datapoint library that the output plugin uses:
 the value a point carries, its metric type and the point itself.
 Go's fixed-width integers are subset types of `int`.
 */
module Datapoint {

  const MinInt64: int := -0x8000_0000_0000_0000
  const MaxInt64: int := 0x7FFF_FFFF_FFFF_FFFF

  /** Go's `int64` (and `int`, which is at most 64 bits wide). */
  type Int64 = x: int | MinInt64 <= x <= MaxInt64

  /** Go's `int32`. */
  type Int32 = x: int | -0x8000_0000 <= x <= 0x7FFF_FFFF

  /** A `time.Time`, by its count of nanoseconds since the Unix epoch. */
  datatype Instant = Instant(unixNanos: Int64)

  /** An IEEE-754 number, kept as its bit pattern: no arithmetic is done on it. */
  datatype Float = Single(bits32: bv32) | Double(bits64: bv64)

  /** `datapoint.Value`: what `NewIntValue` and `NewFloatValue` build. */
  datatype Value = IntValue(i: Int64) | FloatValue(f: Float)

  /** `datapoint.MetricType`. */
  datatype MetricType = Gauge | Count | Enum | Counter | Rate | Timestamp

  /** `datapoint.Datapoint`, as built by `datapoint.New`. */
  datatype Point = Point(
    metric: string,
    dimensions: map<string, string>,
    value: Value,
    metricType: MetricType,
    timestamp: Instant)
}
