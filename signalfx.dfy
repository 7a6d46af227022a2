/**
 The SignalFx output plugin object: `Connect` configures the HTTP sink and
 `Write` flattens one batch and submits it in one call.
 */
module SignalFx {
  import opened Datapoint
  import opened Flattening
  import opened FlatteningLemmas

  /** The inner loop of `Write`: one point per field of `m` whose value
      coerces. The keys are visited in an unspecified order, returned in `order`. */
  method MetricPoints(m: Metric) returns (points: seq<Point>, ghost order: seq<string>)
    ensures IsIterationOrder(m, order)
    ensures points == FieldPoints(m, order)
    ensures multiset(points) == multiset(PointSet(m))
    ensures |points| == |CoercibleKeys(m)|
  {
    points, order := [], [];
    var remaining := m.fields.Keys;
    while remaining != {}
      invariant remaining <= m.fields.Keys
      invariant forall k :: k in order <==> k in m.fields && k !in remaining
      invariant NoDuplicates(order)
      invariant points == FieldPoints(m, order)
      decreases remaining
    {
      var k :| k in remaining;
      remaining := remaining - {k};
      var val := ValFromField(m.fields[k]);
      if val.Ok? {
        var metricName := m.name;
        if k != ValueKey {
          metricName := metricName + "." + k;
        }
        points := points + [Point(metricName, m.tags, val.value, Gauge, m.time)];
      }
      assert (order + [k])[..|order|] == order;
      order := order + [k];
    }
    MetricPointsArePointSet(m, order);
  }

  /** The outer loop of `Write`: the points of every metric, in batch order. */
  method FlattenBatch(metrics: seq<Metric>) returns (points: seq<Point>, ghost orders: seq<seq<string>>)
    ensures AreIterationOrders(metrics, orders)
    ensures points == Flatten(metrics, orders)
    ensures |points| == CoercibleFieldCount(metrics)
  {
    points, orders := [], [];
    for i := 0 to |metrics|
      invariant AreIterationOrders(metrics[..i], orders)
      invariant points == Flatten(metrics[..i], orders)
    {
      var mp, order := MetricPoints(metrics[i]);
      assert metrics[..i + 1][..i] == metrics[..i];
      assert (orders + [order])[..i] == orders;
      points, orders := points + mp, orders + [order];
    }
    assert metrics[..|metrics|] == metrics;
    FlattenLength(metrics, orders);
  }

  /** `time.Duration`: nanoseconds. */
  type Duration = Int64

  /** `time.Second * 3`. */
  const DefaultTimeout: Duration := 3_000_000_000

  /** The timeout `Connect` settles on: a zero timeout means the default. */
  function EffectiveTimeout(configured: Duration): (t: Duration)
    ensures t != 0
    ensures configured != 0 ==> t == configured
    ensures configured == 0 ==> t == DefaultTimeout
  {
    if configured == 0 then DefaultTimeout else configured
  }

  /** Where the HTTP sink posts: its built-in ingest URL, or one configured. */
  datatype Endpoint = DefaultIngest | Custom(url: string)

  /** The endpoint `Connect` leaves the sink with. */
  function ResolveEndpoint(configured: string): (e: Endpoint)
    ensures e == DefaultIngest <==> configured == ""
    ensures e.Custom? ==> e.url == configured
  {
    if configured != "" then Custom(configured) else DefaultIngest
  }

  /** One `AddDatapoints` call: the timeout of its context and its points. */
  datatype Submission = Submission(timeout: Duration, points: seq<Point>)

  /** `sfxclient.Sink`: a datapoint sink, seen from outside. It records every
      submission. `answer` is what the other end replies to the next
      submission; after a submission it is open again. A sink that
      `acceptsAll` replies nil to every submission. */
  class Sink {
    var authToken: string
    var timeout: Duration
    var endpoint: Endpoint
    var answer: Result<()>
    var submissions: seq<Submission>
    const acceptsAll: bool

    /** `sfxclient.NewHTTPDatapointSink`. What the remote end will reply (nil,
        a network error, a timeout) is not known, so the contract leaves
        `answer` open; its token and timeout are set by the caller. */
    constructor NewHTTPDatapointSink()
      ensures endpoint == DefaultIngest && submissions == [] && !acceptsAll
    {
      authToken, timeout, endpoint := "", 0, DefaultIngest;
      answer, submissions := Ok(()), [];
      acceptsAll := false;
    }

    /** `dptest.NewBasicSink`: the test double, which accepts every submission
        and replies nil. */
    constructor BasicSink()
      ensures acceptsAll && submissions == []
    {
      authToken, timeout, endpoint := "", 0, DefaultIngest;
      answer, submissions := Ok(()), [];
      acceptsAll := true;
    }

    /** The reply the next submission gets. */
    function Reply(): (r: Result<()>)
      reads this
      ensures acceptsAll ==> r == Ok(())
      ensures !acceptsAll ==> r == answer
    {
      if acceptsAll then Ok(()) else answer
    }

    /** Records the submission and returns the reply to it; the reply to a
        later submission may differ. */
    method AddDatapoints(deadline: Duration, points: seq<Point>) returns (status: Result<()>)
      modifies this`submissions, this`answer
      ensures submissions == old(submissions) + [Submission(deadline, points)]
      ensures status == old(Reply())
    {
      status := Reply();
      submissions := submissions + [Submission(deadline, points)];
    }
  }

  /** The plugin object `signalFx`. */
  class SignalFx {
    var token: string
    var timeout: Duration
    var endpoint: string
    var debug: bool
    var client: Sink?

    /** The zero value `&signalFx{}` that the plugin registry hands out. */
    constructor ()
      ensures token == "" && timeout == 0 && endpoint == "" && !debug && client == null
    {
      token, timeout, endpoint, debug, client := "", 0, "", false, null;
    }

    /** Refuses an empty token; otherwise defaults the timeout and installs a
        fresh HTTP sink configured with the token, timeout and endpoint. */
    method Connect() returns (err: Result<()>)
      modifies this`timeout, this`client
      ensures token == "" ==> err == Err(NoTokenSet) && timeout == old(timeout) && client == old(client)
      ensures token != "" ==>
        && err == Ok(())
        && timeout == EffectiveTimeout(old(timeout))
        && client != null && fresh(client)
        && client.authToken == token && client.timeout == timeout
        && client.endpoint == ResolveEndpoint(endpoint)
        && client.submissions == [] && !client.acceptsAll
    {
      if token == "" {
        return Err(NoTokenSet);
      }
      if timeout == 0 {
        timeout := DefaultTimeout;
      }
      var httpClient := new Sink.NewHTTPDatapointSink();
      httpClient.timeout := timeout;
      httpClient.authToken := token;
      if endpoint != "" {
        httpClient.endpoint := Custom(endpoint);
      }
      client := httpClient;
      err := Ok(());
    }

    /** Submits every coercible field of the batch as one point, in one sink
        call bounded by the timeout; an empty batch never reaches the sink. */
    method Write(metrics: seq<Metric>) returns (err: Result<()>, ghost orders: seq<seq<string>>)
      requires |metrics| > 0 ==> client != null
      modifies client
      ensures client != null ==>
        && client.authToken == old(client.authToken) && client.timeout == old(client.timeout)
        && client.endpoint == old(client.endpoint)
      ensures |metrics| == 0 ==>
        err == Ok(()) && (client != null ==> unchanged(client))
      ensures |metrics| > 0 ==>
        && AreIterationOrders(metrics, orders)
        && client.submissions == old(client.submissions) + [Submission(timeout, Flatten(metrics, orders))]
        && |Flatten(metrics, orders)| == CoercibleFieldCount(metrics)
        && err == old(client.Reply())
    {
      if |metrics| == 0 {
        return Ok(()), [];
      }
      var points;
      points, orders := FlattenBatch(metrics);
      err := client.AddDatapoints(timeout, points);
    }

    method Close() returns (err: Result<()>)
      ensures err == Ok(())
    {
      err := Ok(());
    }
  }

  /** Connecting again keeps the timeout the first connect settled on. */
  lemma EffectiveTimeoutIdempotent(t: Duration)
    ensures EffectiveTimeout(EffectiveTimeout(t)) == EffectiveTimeout(t)
  {
  }

  /** The plugin's client test: connect fails without a token and succeeds
      with one, closing and an empty write succeed, and the three-metric batch
      reaches a basic sink as two points in one call. */
  method ClientScenario(tags1: map<string, string>)
    returns (noToken: Result<()>, connected: Result<()>, emptyWrite: Result<()>,
             batchWrite: Result<()>, submitted: seq<Submission>)
    ensures noToken == Err(NoTokenSet)
    ensures connected == Ok(()) && emptyWrite == Ok(()) && batchWrite == Ok(())
    ensures submitted == [Submission(DefaultTimeout,
      [ Point("test1", tags1, IntValue(1), Gauge, November10th2009),
        Point("test2.cpuusage", map[], IntValue(10), Gauge, November10th2009) ])]
  {
    var d := new SignalFx();
    noToken := d.Connect();
    d.token, d.endpoint, d.debug := "abc", "testing", true;
    connected := d.Connect();
    assert d.timeout == DefaultTimeout;
    assert d.client.endpoint == Custom("testing") && d.client.authToken == "abc";
    var closed := d.Close();
    ghost var orders;
    emptyWrite, orders := d.Write([]);
    assert d.client.submissions == [];
    var testSink := new Sink.BasicSink();
    d.client := testSink;
    batchWrite, orders := d.Write(ScenarioBatch(tags1));
    ScenarioGivesTwoPoints(tags1, orders);
    submitted := testSink.submissions;
  }

  /** A sink that fails a submission makes `Write` return that failure; an
      empty batch never reaches the sink and so cannot fail. */
  method FailingSinkScenario(batch: seq<Metric>, reason: string)
    returns (err: Result<()>, submitted: seq<Submission>)
    ensures |batch| == 0 ==> err == Ok(()) && submitted == []
    ensures |batch| > 0 ==>
      && err == Err(SinkFailure(reason))
      && |submitted| == 1 && submitted[0].timeout == DefaultTimeout
      && |submitted[0].points| == CoercibleFieldCount(batch)
  {
    var d := new SignalFx();
    d.token := "abc";
    var connected := d.Connect();
    d.client.answer := Err(SinkFailure(reason));
    ghost var orders;
    err, orders := d.Write(batch);
    submitted := d.client.submissions;
  }
}
