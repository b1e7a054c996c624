/** Model of scripts/collect_metrics.py: discovery of running EC2 instances
    across result pages, the trailing-window CPU average of each instance, the
    threshold recommendation, the best-effort price lookup and the loop that
    assembles one result row per instance.

    The AWS clients are parameters: `cloudwatch` answers a metric query,
    `pricing` answers a price query, and `round2` stands for Python's
    `round(x, 2)`. CPU utilization is an exact `real`; time is an integer
    count of seconds. */
module CollectMetrics {

  import Permutations

  datatype Option<T> = None | Some(value: T)

  // ---------------------------------------------------------------------
  // Instance discovery (get_instances)
  // ---------------------------------------------------------------------

  datatype Placement = Placement(availabilityZone: Option<string>)

  /** One entry of a reservation's `Instances` list. `InstanceType` and
      `Placement` may be absent; `InstanceId` is always present. */
  datatype Instance = Instance(instanceId: string, instanceType: Option<string>, placement: Option<Placement>)

  datatype Reservation = Reservation(instances: seq<Instance>)

  /** One page of the `describe_instances` paginator (already filtered to
      the `running` state by the service). */
  datatype Page = Page(reservations: seq<Reservation>)

  /** The instances of a list of reservations, reservation by reservation. */
  function FlattenReservations(rs: seq<Reservation>): seq<Instance>
  {
    if rs == [] then [] else FlattenReservations(rs[..|rs| - 1]) + rs[|rs| - 1].instances
  }

  /** The instances of all pages, in page, reservation, instance order. */
  function Flatten(pages: seq<Page>): seq<Instance>
  {
    if pages == [] then [] else Flatten(pages[..|pages| - 1]) + FlattenReservations(pages[|pages| - 1].reservations)
  }

  /** The reservations of all pages gathered into one list. */
  function AllReservations(pages: seq<Page>): seq<Reservation>
  {
    if pages == [] then [] else AllReservations(pages[..|pages| - 1]) + pages[|pages| - 1].reservations
  }

  /** The generator `get_instances`: three nested loops that emit every
      instance of every reservation of every page. */
  method GetInstances(pages: seq<Page>) returns (instances: seq<Instance>)
    ensures instances == Flatten(pages)
  {
    instances := [];
    var p := 0;
    while p < |pages|
      invariant 0 <= p <= |pages|
      invariant instances == Flatten(pages[..p])
    {
      var reservations := pages[p].reservations;
      var r := 0;
      while r < |reservations|
        invariant 0 <= r <= |reservations|
        invariant instances == Flatten(pages[..p]) + FlattenReservations(reservations[..r])
      {
        var batch := reservations[r].instances;
        var i := 0;
        while i < |batch|
          invariant 0 <= i <= |batch|
          invariant instances == Flatten(pages[..p]) + FlattenReservations(reservations[..r]) + batch[..i]
        {
          instances := instances + [batch[i]];
          i := i + 1;
        }
        assert batch[..i] == batch;
        assert reservations[..r + 1][..r] == reservations[..r];
        r := r + 1;
      }
      assert reservations[..r] == reservations;
      assert pages[..p + 1][..p] == pages[..p];
      p := p + 1;
    }
    assert pages[..p] == pages;
  }

  lemma {:induction false} FlattenReservationsConcat(a: seq<Reservation>, b: seq<Reservation>)
    ensures FlattenReservations(a + b) == FlattenReservations(a) + FlattenReservations(b)
  {
    if b == [] {
      assert a + b == a;
    } else {
      var n := |b| - 1;
      FlattenReservationsConcat(a, b[..n]);
      assert (a + b)[..|a + b| - 1] == a + b[..n];
    }
  }

  /** Discovering pages `a` and then pages `b` yields the instances of `a`
      followed by those of `b`. */
  lemma {:induction false} FlattenConcat(a: seq<Page>, b: seq<Page>)
    ensures Flatten(a + b) == Flatten(a) + Flatten(b)
  {
    if b == [] {
      assert a + b == a;
    } else {
      var n := |b| - 1;
      var ab := a + b;
      assert ab[..|ab| - 1] == a + b[..n];
      assert ab[|ab| - 1] == b[n];
      calc {
        Flatten(ab);
        Flatten(a + b[..n]) + FlattenReservations(b[n].reservations);
        { FlattenConcat(a, b[..n]); }
        Flatten(a) + Flatten(b[..n]) + FlattenReservations(b[n].reservations);
        Flatten(a) + Flatten(b);
      }
    }
  }

  lemma FlattenSingle(page: Page)
    ensures Flatten([page]) == FlattenReservations(page.reservations)
  {
  }

  lemma {:induction false} FlattenIsAllReservations(pages: seq<Page>)
    ensures Flatten(pages) == FlattenReservations(AllReservations(pages))
  {
    if pages != [] {
      var n := |pages| - 1;
      FlattenIsAllReservations(pages[..n]);
      FlattenReservationsConcat(AllReservations(pages[..n]), pages[n].reservations);
    }
  }

  /** N pages yield the same instances, in the same order, as a single page
      holding all their reservations one after the other. */
  lemma PagesAsOnePage(pages: seq<Page>)
    ensures Flatten(pages) == Flatten([Page(AllReservations(pages))])
  {
    FlattenSingle(Page(AllReservations(pages)));
    FlattenIsAllReservations(pages);
  }

  /** Some reservation of `rs` lists `x`. */
  predicate ListedIn(rs: seq<Reservation>, x: Instance)
  {
    exists r :: 0 <= r < |rs| && x in rs[r].instances
  }

  /** Some reservation of some page lists `x`. */
  predicate ListedOnSomePage(pages: seq<Page>, x: Instance)
  {
    exists p :: 0 <= p < |pages| && ListedIn(pages[p].reservations, x)
  }

  lemma {:induction false} InFlattenReservations(rs: seq<Reservation>, x: Instance)
    ensures x in FlattenReservations(rs) <==> ListedIn(rs, x)
  {
    if rs != [] {
      var n := |rs| - 1;
      var front := rs[..n];
      InFlattenReservations(front, x);
      assert FlattenReservations(rs) == FlattenReservations(front) + rs[n].instances;
      if ListedIn(front, x) {
        var r :| 0 <= r < n && x in front[r].instances;
        assert rs[r] == front[r];
      }
      if ListedIn(rs, x) {
        var r :| 0 <= r < |rs| && x in rs[r].instances;
        if r < n {
          assert front[r] == rs[r];
        }
      }
    }
  }

  /** An instance is discovered exactly when it appears in some reservation
      of some page: nothing is dropped and nothing is invented. */
  lemma {:induction false} InFlatten(pages: seq<Page>, x: Instance)
    ensures x in Flatten(pages) <==> ListedOnSomePage(pages, x)
  {
    if pages != [] {
      var n := |pages| - 1;
      var front := pages[..n];
      InFlatten(front, x);
      InFlattenReservations(pages[n].reservations, x);
      assert Flatten(pages) == Flatten(front) + FlattenReservations(pages[n].reservations);
      if ListedOnSomePage(front, x) {
        var p :| 0 <= p < n && ListedIn(front[p].reservations, x);
        assert pages[p] == front[p];
      }
      if ListedOnSomePage(pages, x) {
        var p :| 0 <= p < |pages| && ListedIn(pages[p].reservations, x);
        if p < n {
          assert front[p] == pages[p];
        }
      }
    }
  }

  // ---------------------------------------------------------------------
  // CPU average (avg_cpu)
  // ---------------------------------------------------------------------

  const SecondsPerDay: int := 86400
  /** The CloudWatch aggregation period: one hour. */
  const PeriodSeconds: int := 3600

  /** The arguments of `get_metric_statistics`. */
  datatype MetricQuery = MetricQuery(
    namespace: string,
    metricName: string,
    instanceId: string,
    startTime: int,
    endTime: int,
    period: int,
    statistic: string)

  /** One returned datapoint; only its `Average` field is read. */
  datatype Datapoint = Datapoint(average: real)

  /** The CloudWatch reply; `datapoints` is None when the key is absent. */
  datatype MetricResponse = MetricResponse(datapoints: Option<seq<Datapoint>>)

  /** The hourly average CPU query for one instance over the `days` days
      that end at `now`. */
  function CpuQuery(instanceId: string, now: int, days: int): (q: MetricQuery)
    ensures q.endTime == now && q.endTime - q.startTime == days * SecondsPerDay
    ensures q.instanceId == instanceId && q.period == PeriodSeconds
    ensures q.namespace == "AWS/EC2" && q.metricName == "CPUUtilization" && q.statistic == "Average"
  {
    MetricQuery("AWS/EC2", "CPUUtilization", instanceId, now - days * SecondsPerDay, now, PeriodSeconds, "Average")
  }

  /** For a non-negative window the query spans exactly `24 * days` whole
      one-hour periods ending at `now`. */
  lemma WindowIsWholeHours(instanceId: string, now: int, days: int)
    requires days >= 0
    ensures var q := CpuQuery(instanceId, now, days);
      q.startTime <= q.endTime &&
      (q.endTime - q.startTime) % q.period == 0 &&
      (q.endTime - q.startTime) / q.period == 24 * days
  {
  }

  /** The `Average` field of each returned datapoint, in reply order; a reply
      without `Datapoints` gives no points. */
  function Averages(resp: MetricResponse): (points: seq<real>)
    ensures resp.datapoints == None ==> points == []
    ensures resp.datapoints.Some? ==> |points| == |resp.datapoints.value|
    ensures resp.datapoints.Some? ==>
      forall i :: 0 <= i < |points| ==> points[i] == resp.datapoints.value[i].average
  {
    match resp.datapoints
    case None => []
    case Some(ds) => seq(|ds|, i requires 0 <= i < |ds| => ds[i].average)
  }

  /** Python's `sum`: the points added left to right, starting from 0. */
  function Sum(points: seq<real>): (total: real)
    ensures points == [] ==> total == 0.0
  {
    if points == [] then 0.0 else Sum(points[..|points| - 1]) + points[|points| - 1]
  }

  function Minimum(points: seq<real>): (m: real)
    requires points != []
    ensures m in points
    ensures forall i :: 0 <= i < |points| ==> m <= points[i]
  {
    if |points| == 1 then points[0]
    else
      var rest := Minimum(points[..|points| - 1]);
      if points[|points| - 1] < rest then points[|points| - 1] else rest
  }

  function Maximum(points: seq<real>): (m: real)
    requires points != []
    ensures m in points
    ensures forall i :: 0 <= i < |points| ==> points[i] <= m
  {
    if |points| == 1 then points[0]
    else
      var rest := Maximum(points[..|points| - 1]);
      if points[|points| - 1] > rest then points[|points| - 1] else rest
  }

  /** The unweighted mean of the points, 0.0 when there are none. */
  function Mean(points: seq<real>): (m: real)
    ensures points == [] ==> m == 0.0
    ensures points != [] ==> m * (|points| as real) == Sum(points)
  {
    if points == [] then 0.0 else Sum(points) / (|points| as real)
  }

  lemma {:induction false} SumAtLeast(points: seq<real>, lo: real)
    requires forall i :: 0 <= i < |points| ==> lo <= points[i]
    ensures (|points| as real) * lo <= Sum(points)
  {
    if points != [] {
      var n := |points| - 1;
      SumAtLeast(points[..n], lo);
      assert (|points| as real) * lo == (n as real) * lo + lo;
    }
  }

  lemma {:induction false} SumAtMost(points: seq<real>, hi: real)
    requires forall i :: 0 <= i < |points| ==> points[i] <= hi
    ensures Sum(points) <= (|points| as real) * hi
  {
    if points != [] {
      var n := |points| - 1;
      SumAtMost(points[..n], hi);
      assert (|points| as real) * hi == (n as real) * hi + hi;
    }
  }

  /** Dividing a total that lies between `n * lo` and `n * hi` by the
      positive count `n`. */
  lemma ScaledBetween(n: real, total: real, lo: real, hi: real)
    requires n > 0.0
    requires n * lo <= total <= n * hi
    ensures lo <= total / n <= hi
  {
  }

  /** When every point lies between `lo` and `hi`, so does their mean. */
  lemma MeanBetween(points: seq<real>, lo: real, hi: real)
    requires points != []
    requires forall i :: 0 <= i < |points| ==> lo <= points[i] <= hi
    ensures lo <= Mean(points) <= hi
  {
    SumAtLeast(points, lo);
    SumAtMost(points, hi);
    ScaledBetween(|points| as real, Sum(points), lo, hi);
  }

  /** A non-empty series averages to a value between its smallest and its
      largest point. */
  lemma MeanWithinRange(points: seq<real>)
    requires points != []
    ensures Minimum(points) <= Mean(points) <= Maximum(points)
  {
    MeanBetween(points, Minimum(points), Maximum(points));
  }

  /** The sum of two series put together is the sum of their sums. */
  lemma {:induction false} SumConcat(a: seq<real>, b: seq<real>)
    ensures Sum(a + b) == Sum(a) + Sum(b)
  {
    if b == [] {
      assert a + b == a;
    } else {
      var n := |b| - 1;
      SumConcat(a, b[..n]);
      assert (a + b)[..|a + b| - 1] == a + b[..n];
    }
  }

  /** Taking the point at position `k` out of the series lowers its sum by
      exactly that point. */
  lemma {:induction false} SumRemove(b: seq<real>, k: int)
    requires 0 <= k < |b|
    ensures Sum(b) == Sum(b[..k] + b[k + 1..]) + b[k]
  {
    var n := |b| - 1;
    if k == n {
      assert b[..k] + b[k + 1..] == b[..n];
    } else {
      var front := b[..n];
      SumRemove(front, k);
      var rest := front[..k] + front[k + 1..];
      assert b[..k] + b[k + 1..] == rest + [b[n]];
      assert (rest + [b[n]])[..|rest|] == rest;
    }
  }

  /** Python's `sum` of the points does not depend on their order. */
  lemma {:induction false} SumPermutation(a: seq<real>, b: seq<real>)
    requires multiset(a) == multiset(b)
    ensures Sum(a) == Sum(b)
  {
    if a == [] {
      assert |b| == |multiset(b)| == 0;
    } else {
      var n := |a| - 1;
      assert a[n] in multiset(b);
      var k :| 0 <= k < |b| && b[k] == a[n];
      Permutations.RemovedPermutation(a, b, k);
      SumPermutation(a[..n], b[..k] + b[k + 1..]);
      SumRemove(b, k);
    }
  }

  /** The mean does not depend on the order in which the points arrive. */
  lemma MeanPermutation(a: seq<real>, b: seq<real>)
    requires multiset(a) == multiset(b)
    ensures Mean(a) == Mean(b)
  {
    assert |a| == |multiset(a)| == |multiset(b)| == |b|;
    SumPermutation(a, b);
  }

  /** `avg_cpu`: query the trailing window and average the returned hourly
      averages: 0.0 when there are none, otherwise their sum divided by
      their number, which lies between the smallest and the largest. */
  function AvgCpu(cloudwatch: MetricQuery -> MetricResponse, instanceId: string, now: int, days: int): (avg: real)
    ensures var points := Averages(cloudwatch(CpuQuery(instanceId, now, days)));
      (points == [] ==> avg == 0.0) &&
      (points != [] ==> Minimum(points) <= avg <= Maximum(points))
    ensures var points := Averages(cloudwatch(CpuQuery(instanceId, now, days)));
      points != [] ==> avg == Sum(points) / (|points| as real)
  {
    var points := Averages(cloudwatch(CpuQuery(instanceId, now, days)));
    if points == [] then 0.0
    else
      MeanWithinRange(points);
      Mean(points)
  }

  // ---------------------------------------------------------------------
  // Price lookup (get_price)
  // ---------------------------------------------------------------------

  /** The arguments of `pricing.get_products`. */
  datatype PriceQuery = PriceQuery(serviceCode: string, instanceType: string, location: string, maxResults: int)

  /** The outcome of `get_products`: the call raised, or it replied with a
      `PriceList` that may be missing. */
  datatype PricingReply = Raised | Reply(priceList: Option<seq<string>>)

  const DefaultPriceLocation: string := "US East (N. Virginia)"

  /** `args.region or 'US East (N. Virginia)'`: an absent or empty region
      falls back to the default location. */
  function PriceLocation(region: Option<string>): (location: string)
    ensures region.Some? && region.value != "" ==> location == region.value
    ensures region == None || region == Some("") ==> location == DefaultPriceLocation
  {
    match region
    case None => DefaultPriceLocation
    case Some(r) => if r == "" then DefaultPriceLocation else r
  }

  /** `get_price`: every path, including a raised call, a missing
      `PriceList` and an empty one, returns None. */
  function GetPrice(pricing: PriceQuery -> PricingReply, instanceType: string, location: string): (price: Option<real>)
    ensures price == None
  {
    match pricing(PriceQuery("AmazonEC2", instanceType, location, 1))
    case Raised => None
    // A missing `PriceList` (KeyError), an empty one (IndexError from `[0]`)
    // and a usable one all end in None.
    case Reply(_) => None
  }

  // ---------------------------------------------------------------------
  // Recommendation (recommend)
  // ---------------------------------------------------------------------

  datatype Recommendation = Downsize | Upgrade | NoChange

  /** The tag written to the report. */
  function Label(rec: Recommendation): (tag: string)
    ensures tag == "downsize" <==> rec == Downsize
    ensures tag == "upgrade" <==> rec == Upgrade
    ensures tag == "no-change" <==> rec == NoChange
  {
    match rec
    case Downsize => "downsize"
    case Upgrade => "upgrade"
    case NoChange => "no-change"
  }

  /** `recommend`: below 10 downsize, above 80 upgrade, otherwise no change;
      the instance type is accepted and ignored. */
  function Recommend(instanceType: string, avgCpu: real): (rec: Recommendation)
    ensures rec == Downsize <==> avgCpu < 10.0
    ensures rec == Upgrade <==> avgCpu > 80.0
    ensures rec == NoChange <==> 10.0 <= avgCpu <= 80.0
  {
    if avgCpu < 10.0 then Downsize
    else if avgCpu > 80.0 then Upgrade
    else NoChange
  }

  function Rank(rec: Recommendation): int
  {
    match rec
    case Downsize => 0
    case NoChange => 1
    case Upgrade => 2
  }

  /** A higher average never gives a smaller recommendation. */
  lemma RecommendMonotone(t1: string, t2: string, x: real, y: real)
    requires x <= y
    ensures Rank(Recommend(t1, x)) <= Rank(Recommend(t2, y))
  {
  }

  /** The boundary values themselves fall in the no-change band, and the
      instance type never matters. */
  lemma RecommendBoundaries(t1: string, t2: string, x: real)
    ensures Recommend(t1, 10.0) == NoChange && Recommend(t1, 80.0) == NoChange
    ensures Recommend(t1, x) == Recommend(t2, x)
  {
  }

  // ---------------------------------------------------------------------
  // Row assembly (main)
  // ---------------------------------------------------------------------

  /** One record of the output table. */
  datatype Row = Row(
    instanceId: string,
    instanceType: string,
    az: string,
    avgCpu: real,
    recommendation: Recommendation,
    estimatedHourlyPrice: Option<real>)

  /** `inst.get('InstanceType', 'unknown')` */
  function TypeOrUnknown(inst: Instance): (t: string)
    ensures inst.instanceType == None ==> t == "unknown"
    ensures inst.instanceType.Some? ==> t == inst.instanceType.value
  {
    match inst.instanceType
    case None => "unknown"
    case Some(t) => t
  }

  /** `inst.get('Placement', {}).get('AvailabilityZone', '')` */
  function ZoneOrEmpty(inst: Instance): (z: string)
    ensures (inst.placement == None || inst.placement.value.availabilityZone == None) ==> z == ""
    ensures inst.placement.Some? && inst.placement.value.availabilityZone.Some? ==>
      z == inst.placement.value.availabilityZone.value
  {
    match inst.placement
    case None => ""
    case Some(Placement(None)) => ""
    case Some(Placement(Some(z))) => z
  }

  /** What the row built for `inst` holds: the identity fields with their
      defaults, the rounded average, the recommendation computed from that
      rounded value, and no price. */
  predicate Describes(row: Row, inst: Instance, cloudwatch: MetricQuery -> MetricResponse, round2: real -> real, now: int, days: int)
  {
    && row.instanceId == inst.instanceId
    && row.instanceType == TypeOrUnknown(inst)
    && row.az == ZoneOrEmpty(inst)
    && row.avgCpu == round2(AvgCpu(cloudwatch, inst.instanceId, now, days))
    && row.recommendation == Recommend(row.instanceType, row.avgCpu)
    && row.estimatedHourlyPrice == None
  }

  /** The loop of `main`: one row per discovered instance, in discovery
      order. `avg_cpu` reads the clock anew for every instance: `clock(k)`
      is the reading taken while the k-th instance is processed. */
  method CollectRows(
    pages: seq<Page>,
    cloudwatch: MetricQuery -> MetricResponse,
    pricing: PriceQuery -> PricingReply,
    round2: real -> real,
    clock: nat -> int,
    days: int,
    region: Option<string>)
    returns (rows: seq<Row>)
    ensures |rows| == |Flatten(pages)|
    ensures forall k :: 0 <= k < |rows| ==> Describes(rows[k], Flatten(pages)[k], cloudwatch, round2, clock(k), days)
  {
    var instances := GetInstances(pages);
    rows := [];
    var k := 0;
    while k < |instances|
      invariant 0 <= k <= |instances|
      invariant |rows| == k
      invariant forall j :: 0 <= j < k ==> Describes(rows[j], instances[j], cloudwatch, round2, clock(j), days)
    {
      var inst := instances[k];
      var itype := TypeOrUnknown(inst);
      var az := ZoneOrEmpty(inst);
      var avg := round2(AvgCpu(cloudwatch, inst.instanceId, clock(k), days));
      var rec := Recommend(itype, avg);
      var price := GetPrice(pricing, itype, PriceLocation(region));
      rows := rows + [Row(inst.instanceId, itype, az, avg, rec, price)];
      k := k + 1;
    }
  }
}
