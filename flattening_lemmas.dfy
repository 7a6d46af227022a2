/**
 What the SignalFx output plugin promises about coercion, point names, the
 points of one metric (whatever order its fields are visited in) and the
 points of a batch.
 */
module FlatteningLemmas {
  import opened Datapoint
  import opened Flattening

  // ---------------------------------------------------------------- coercion

  /** `int` and `int64` coerce to an integer value holding the same number,
      over the whole 64-bit range, and so does `int32` over its range. */
  lemma IntegerKindsCoerceToSameInteger(x: Int64)
    ensures ValFromField(Int(x)) == Ok(IntValue(x))
    ensures ValFromField(Int64(x)) == Ok(IntValue(x))
    ensures -0x8000_0000 <= x <= 0x7FFF_FFFF ==> ValFromField(Int32(x)) == Ok(IntValue(x))
  {
  }

  /** A boolean coerces as the integer 1 or 0 does. */
  lemma BoolCoercesAsOneOrZero(b: bool)
    ensures ValFromField(Bool(b)) == ValFromField(Int(if b then 1 else 0))
    ensures ValFromField(Bool(true)) == Ok(IntValue(1))
    ensures ValFromField(Bool(false)) == Ok(IntValue(0))
  {
  }

  /** A time coerces to its Unix nanoseconds; the epoch to 0. */
  lemma TimeCoercesToUnixNanos(t: Instant)
    ensures ValFromField(Time(t)) == Ok(IntValue(t.unixNanos))
    ensures ValFromField(Time(Instant(0))) == Ok(IntValue(0))
  {
  }

  /** A float is carried as it is, as a float value. */
  lemma FloatsCoerceToFloatValues(b32: bv32, b64: bv64)
    ensures ValFromField(Float32(b32)) == Ok(FloatValue(Single(b32)))
    ensures ValFromField(Float64(b64)) == Ok(FloatValue(Double(b64)))
  {
  }

  // ---------------------------------------------------------------- naming

  /** The field key can be read back from the point name. */
  lemma PointNameRoundTrip(metricName: string, key: string)
    ensures FieldKeyOf(metricName, PointName(metricName, key)) == Some(key)
  {
  }

  /** Two fields of one metric never give two points the same name. */
  lemma PointNameInjective(metricName: string, k1: string, k2: string)
    requires PointName(metricName, k1) == PointName(metricName, k2)
    ensures k1 == k2
  {
    PointNameRoundTrip(metricName, k1);
    PointNameRoundTrip(metricName, k2);
  }

  /** Across metrics names can coincide: metric "a" with field "b.c" and
      metric "a.b" with field "c" both give "a.b.c". */
  lemma PointNamesMayCoincideAcrossMetrics()
    ensures PointName("a", "b.c") == PointName("a.b", "c") == "a.b.c"
  {
  }

  // ---------------------------------------------------------------- one metric

  /** Every point of a metric is the point of one of its coercible fields. */
  lemma {:induction false} FieldPointsSound(m: Metric, order: seq<string>)
    requires forall k :: k in order ==> k in m.fields
    ensures forall p :: p in FieldPoints(m, order) ==>
      exists k :: k in order && k in m.fields && Coerces(m.fields[k]) && p == PointOf(m, k)
  {
    if order != [] {
      var prefix := order[..|order| - 1];
      FieldPointsSound(m, prefix);
      forall p | p in FieldPoints(m, order)
        ensures exists k :: k in order && k in m.fields && Coerces(m.fields[k]) && p == PointOf(m, k)
      {
        if p in FieldPoints(m, prefix) {
          var k :| k in prefix && k in m.fields && Coerces(m.fields[k]) && p == PointOf(m, k);
          assert k in order;
        } else {
          assert p == PointOf(m, order[|order| - 1]);
        }
      }
    }
  }

  /** Every coercible field visited gives its point. */
  lemma {:induction false} FieldPointsComplete(m: Metric, order: seq<string>)
    requires forall k :: k in order ==> k in m.fields
    ensures forall k :: k in order && k in m.fields && Coerces(m.fields[k]) ==>
      PointOf(m, k) in FieldPoints(m, order)
  {
    if order != [] {
      var prefix := order[..|order| - 1];
      FieldPointsComplete(m, prefix);
      forall k | k in order && k in m.fields && Coerces(m.fields[k])
        ensures PointOf(m, k) in FieldPoints(m, order)
      {
        if k != order[|order| - 1] {
          assert k in prefix;
        }
      }
    }
  }

  /** No point of a metric is submitted twice. */
  lemma {:induction false} FieldPointsNoDuplicates(m: Metric, order: seq<string>)
    requires forall k :: k in order ==> k in m.fields
    requires NoDuplicates(order)
    ensures NoDuplicates(FieldPoints(m, order))
  {
    if order != [] {
      var prefix := order[..|order| - 1];
      var last := order[|order| - 1];
      var before := FieldPoints(m, prefix);
      FieldPointsNoDuplicates(m, prefix);
      if Coerces(m.fields[last]) {
        var p := PointOf(m, last);
        FieldPointsSound(m, prefix);
        if p in before {
          var k :| k in prefix && k in m.fields && Coerces(m.fields[k]) && p == PointOf(m, k);
          PointNameInjective(m.name, k, last);
          assert false;
        }
        assert FieldPoints(m, order) == before + [p];
      }
    }
  }

  /** One point per coercible field visited. */
  lemma {:induction false} FieldPointsLength(m: Metric, order: seq<string>)
    requires forall k :: k in order ==> k in m.fields
    requires NoDuplicates(order)
    ensures |FieldPoints(m, order)| == |set k | k in order && k in m.fields && Coerces(m.fields[k])|
  {
    if order != [] {
      var prefix := order[..|order| - 1];
      var last := order[|order| - 1];
      FieldPointsLength(m, prefix);
      var before := set k | k in prefix && k in m.fields && Coerces(m.fields[k]);
      var after := set k | k in order && k in m.fields && Coerces(m.fields[k]);
      assert last !in prefix;
      if Coerces(m.fields[last]) {
        assert after == before + {last};
      } else {
        assert after == before;
      }
    }
  }

  /** In a sequence without duplicates every element occurs once. */
  lemma {:induction false} NoDuplicatesOccurOnce<T>(s: seq<T>)
    requires NoDuplicates(s)
    ensures forall x :: multiset(s)[x] == if x in s then 1 else 0
  {
    if s != [] {
      var prefix := s[..|s| - 1];
      assert s == prefix + [s[|s| - 1]];
      NoDuplicatesOccurOnce(prefix);
    }
  }

  /** Whatever order Go visits the fields in, the points of a metric are
      exactly the points of its coercible fields, each once. */
  lemma MetricPointsArePointSet(m: Metric, order: seq<string>)
    requires IsIterationOrder(m, order)
    ensures multiset(FieldPoints(m, order)) == multiset(PointSet(m))
    ensures |FieldPoints(m, order)| == |CoercibleKeys(m)|
  {
    var points := FieldPoints(m, order);
    FieldPointsSound(m, order);
    FieldPointsComplete(m, order);
    FieldPointsNoDuplicates(m, order);
    NoDuplicatesOccurOnce(points);
    forall p ensures multiset(points)[p] == multiset(PointSet(m))[p] {
      if p in points {
        var k :| k in order && k in m.fields && Coerces(m.fields[k]) && p == PointOf(m, k);
        assert p in PointSet(m);
      }
      if p in PointSet(m) {
        var k :| k in m.fields && Coerces(m.fields[k]) && p == PointOf(m, k);
        assert k in order;
      }
    }
    FieldPointsLength(m, order);
    assert (set k | k in order && k in m.fields && Coerces(m.fields[k])) == CoercibleKeys(m);
  }

  /** The order in which a metric's fields are visited changes only the order
      of its points. */
  lemma MetricPointsOrderIrrelevant(m: Metric, o1: seq<string>, o2: seq<string>)
    requires IsIterationOrder(m, o1) && IsIterationOrder(m, o2)
    ensures multiset(FieldPoints(m, o1)) == multiset(FieldPoints(m, o2))
  {
    MetricPointsArePointSet(m, o1);
    MetricPointsArePointSet(m, o2);
  }

  /** Every point carries its metric's tags and timestamp, type Gauge, and a
      name made from the metric's name and a field key. */
  lemma MetricPointsCarryMetricData(m: Metric, order: seq<string>)
    requires IsIterationOrder(m, order)
    ensures forall p :: p in FieldPoints(m, order) ==>
      && p.dimensions == m.tags && p.timestamp == m.time && p.metricType == Gauge
      && exists k :: k in m.fields && Coerces(m.fields[k]) && p.metric == PointName(m.name, k)
  {
    FieldPointsSound(m, order);
  }

  // ---------------------------------------------------------------- a batch

  lemma IterationOrdersConcat(
    ms1: seq<Metric>, os1: seq<seq<string>>, ms2: seq<Metric>, os2: seq<seq<string>>)
    requires AreIterationOrders(ms1, os1) && AreIterationOrders(ms2, os2)
    ensures AreIterationOrders(ms1 + ms2, os1 + os2)
  {
  }

  /** The batch's points are the points of its first metrics followed by
      those of the rest: earlier metrics' points come first. */
  lemma {:induction false} FlattenAppend(
    ms1: seq<Metric>, os1: seq<seq<string>>, ms2: seq<Metric>, os2: seq<seq<string>>)
    requires AreIterationOrders(ms1, os1) && AreIterationOrders(ms2, os2)
    ensures AreIterationOrders(ms1 + ms2, os1 + os2)
    ensures Flatten(ms1 + ms2, os1 + os2) == Flatten(ms1, os1) + Flatten(ms2, os2)
    decreases |ms2|
  {
    IterationOrdersConcat(ms1, os1, ms2, os2);
    if ms2 == [] {
      assert ms1 + ms2 == ms1 && os1 + os2 == os1;
    } else {
      var n := |ms2| - 1;
      var ms, os := ms1 + ms2, os1 + os2;
      assert AreIterationOrders(ms2[..n], os2[..n]);
      FlattenAppend(ms1, os1, ms2[..n], os2[..n]);
      assert ms[..|ms| - 1] == ms1 + ms2[..n];
      assert os[..|os| - 1] == os1 + os2[..n];
      assert ms[|ms| - 1] == ms2[n] && os[|os| - 1] == os2[n];
      calc {
        Flatten(ms, os);
        Flatten(ms1 + ms2[..n], os1 + os2[..n]) + FieldPoints(ms2[n], os2[n]);
        Flatten(ms1, os1) + Flatten(ms2[..n], os2[..n]) + FieldPoints(ms2[n], os2[n]);
        Flatten(ms1, os1) + Flatten(ms2, os2);
      }
    }
  }

  /** The batch has one point per coercible field, over all metrics. */
  lemma {:induction false} FlattenLength(metrics: seq<Metric>, orders: seq<seq<string>>)
    requires AreIterationOrders(metrics, orders)
    ensures |Flatten(metrics, orders)| == CoercibleFieldCount(metrics)
  {
    if metrics != [] {
      var n := |metrics| - 1;
      assert AreIterationOrders(metrics[..n], orders[..n]);
      FlattenLength(metrics[..n], orders[..n]);
      MetricPointsArePointSet(metrics[n], orders[n]);
    }
  }

  /** Every point of the batch is the point of a coercible field of one of
      its metrics. */
  lemma {:induction false} FlattenPointsComeFromFields(metrics: seq<Metric>, orders: seq<seq<string>>)
    requires AreIterationOrders(metrics, orders)
    ensures forall p :: p in Flatten(metrics, orders) ==>
      exists i, k :: 0 <= i < |metrics| && k in metrics[i].fields
        && Coerces(metrics[i].fields[k]) && p == PointOf(metrics[i], k)
  {
    if metrics != [] {
      var n := |metrics| - 1;
      assert AreIterationOrders(metrics[..n], orders[..n]);
      FlattenPointsComeFromFields(metrics[..n], orders[..n]);
      FieldPointsSound(metrics[n], orders[n]);
      forall p | p in Flatten(metrics, orders)
        ensures exists i, k ::
          0 <= i < |metrics| && k in metrics[i].fields
          && Coerces(metrics[i].fields[k]) && p == PointOf(metrics[i], k)
      {
        if p in Flatten(metrics[..n], orders[..n]) {
          var i, k :| 0 <= i < n && k in metrics[..n][i].fields
            && Coerces(metrics[..n][i].fields[k]) && p == PointOf(metrics[..n][i], k);
          assert metrics[..n][i] == metrics[i];
        } else {
          var k :| k in orders[n] && k in metrics[n].fields
            && Coerces(metrics[n].fields[k]) && p == PointOf(metrics[n], k);
        }
      }
    }
  }

  /** Every coercible field of every metric of the batch gives its point. */
  lemma {:induction false} FlattenContainsEveryField(metrics: seq<Metric>, orders: seq<seq<string>>)
    requires AreIterationOrders(metrics, orders)
    ensures forall i, k :: 0 <= i < |metrics| && k in CoercibleKeys(metrics[i]) ==>
      PointOf(metrics[i], k) in Flatten(metrics, orders)
  {
    if metrics != [] {
      var n := |metrics| - 1;
      assert AreIterationOrders(metrics[..n], orders[..n]);
      FlattenContainsEveryField(metrics[..n], orders[..n]);
      FieldPointsComplete(metrics[n], orders[n]);
      forall i, k | 0 <= i < |metrics| && k in CoercibleKeys(metrics[i])
        ensures PointOf(metrics[i], k) in Flatten(metrics, orders)
      {
        if i < n {
          assert metrics[..n][i] == metrics[i];
          assert PointOf(metrics[..n][i], k) in Flatten(metrics[..n], orders[..n]);
        } else {
          assert k in orders[n];
        }
      }
    }
  }

  /** A batch whose fields all fail coercion flattens to no points; `Write`'s
      contract then submits this empty list to the sink. */
  lemma {:induction false} NothingCoercibleGivesNoPoints(metrics: seq<Metric>, orders: seq<seq<string>>)
    requires AreIterationOrders(metrics, orders)
    requires forall i :: 0 <= i < |metrics| ==> CoercibleKeys(metrics[i]) == {}
    ensures Flatten(metrics, orders) == []
  {
    if metrics != [] {
      var n := |metrics| - 1;
      assert AreIterationOrders(metrics[..n], orders[..n]);
      NothingCoercibleGivesNoPoints(metrics[..n], orders[..n]);
      MetricPointsArePointSet(metrics[n], orders[n]);
    }
  }

  // ---------------------------------------------------------------- the client scenario

  /** 2009-11-10T23:00:00Z. */
  const November10th2009: Instant := Instant(1_257_894_000_000_000_000)

  function ScenarioBatch(tags1: map<string, string>): (batch: seq<Metric>) {
    [ Metric("test1", tags1, map["value" := Int(1)], November10th2009),
      Metric("test2", map[], map["cpuusage" := Int(10)], November10th2009),
      Metric("test3", map[], map["inconceivable" := Other], November10th2009) ]
  }

  /** A sequence without duplicates is as long as the set of its elements. */
  lemma {:induction false} NoDuplicatesLength<T>(s: seq<T>)
    requires NoDuplicates(s)
    ensures |s| == |set x | x in s|
  {
    if s != [] {
      var prefix, last := s[..|s| - 1], s[|s| - 1];
      NoDuplicatesLength(prefix);
      assert (set x | x in s) == (set x | x in prefix) + {last};
      assert last !in prefix;
    }
  }

  /** A metric with a single field has a single iteration order. */
  lemma SingleFieldOrder(m: Metric, key: string, order: seq<string>)
    requires m.fields.Keys == {key}
    requires IsIterationOrder(m, order)
    ensures order == [key]
  {
    NoDuplicatesLength(order);
    assert (set x | x in order) == {key};
    assert order[0] in m.fields.Keys;
  }

  /** Three metrics, the last with a function-valued field, give two points
      in metric order: "test1" and "test2.cpuusage". */
  lemma ScenarioGivesTwoPoints(tags1: map<string, string>, orders: seq<seq<string>>)
    requires AreIterationOrders(ScenarioBatch(tags1), orders)
    ensures Flatten(ScenarioBatch(tags1), orders) ==
      [ Point("test1", tags1, IntValue(1), Gauge, November10th2009),
        Point("test2.cpuusage", map[], IntValue(10), Gauge, November10th2009) ]
  {
    var ms := ScenarioBatch(tags1);
    SingleFieldOrder(ms[0], "value", orders[0]);
    SingleFieldOrder(ms[1], "cpuusage", orders[1]);
    SingleFieldOrder(ms[2], "inconceivable", orders[2]);
    assert FieldPoints(ms[0], ["value"]) == [Point("test1", tags1, IntValue(1), Gauge, November10th2009)];
    assert "cpuusage" != ValueKey;
    assert PointName("test2", "cpuusage") == "test2.cpuusage";
    assert FieldPoints(ms[1], ["cpuusage"]) == [Point("test2.cpuusage", map[], IntValue(10), Gauge, November10th2009)];
    assert FieldPoints(ms[2], ["inconceivable"]) == [];
    assert AreIterationOrders(ms[..1], orders[..1]);
    assert AreIterationOrders(ms[..2], orders[..2]);
    assert ms[..2][..1] == ms[..1] && orders[..2][..1] == orders[..1];
    assert ms[..1][..0] == [] && orders[..1][..0] == [];
    assert Flatten(ms[..1], orders[..1]) == FieldPoints(ms[0], orders[0]);
    assert Flatten(ms[..2], orders[..2]) == Flatten(ms[..1], orders[..1]) + FieldPoints(ms[1], orders[1]);
    assert Flatten(ms, orders) == Flatten(ms[..2], orders[..2]) + FieldPoints(ms[2], orders[2]);
  }
}
