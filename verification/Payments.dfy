/**
 Courier payments (backend/src/modules/compensation/payments.service.ts): the metrics of completed
 routes, and the fold of the active payment rules over them.

 `number` stands for the Number conversion of numeric strings.
 */
module Payments {
  import opened Common
  import opened Json
  import opened Money
  import opened StateMachines
  import Calendar
  import RuleConfig
  import RuleVersions

  // ---- Metrics ------------------------------------------------------------------------------------------------

  datatype StopRow = StopRow(order: Id, status: OrderStatus, sequence: int, zone: Option<string>, address: string)

  datatype CompletedRoute = CompletedRoute(id: Id, date: int, optimizationData: Js, points: seq<StopRow>)

  datatype DeliveredOrder = DeliveredOrder(
    route: Id, date: int, order: Id, sequence: int, zone: Option<string>, address: string)

  datatype RouteMetric = RouteMetric(
    route: Id, date: int, distanceMeters: real, distanceKm: real, deliveredOrdersCount: nat)

  datatype Metrics = Metrics(
    completedRoutesCount: nat, deliveredOrdersCount: nat, totalDistanceMeters: real, totalDistanceKm: real,
    deliveredOrders: seq<DeliveredOrder>, routes: seq<RouteMetric>)

  function ReadNumber(v: Js, number: string -> Option<real>): Option<real> {
    if v.Num? then Some(v.number) else if v.Str? then number(v.text) else None
  }

  function DistanceMeters(r: CompletedRoute, number: string -> Option<real>): real {
    var distance := ReadNumber(Field(r.optimizationData, "distanceMeters"), number);
    if distance.Some? then distance.value else 0.0
  }

  function Delivery(r: CompletedRoute, p: StopRow): DeliveredOrder {
    DeliveredOrder(r.id, r.date, p.order, p.sequence, p.zone, p.address)
  }

  /** The first `n` points, as far as delivered. */
  function Deliveries(r: CompletedRoute, n: nat): seq<DeliveredOrder>
    requires n <= |r.points|
  {
    if n == 0 then []
    else
      var rest := Deliveries(r, n - 1);
      if r.points[n - 1].status == Delivered then rest + [Delivery(r, r.points[n - 1])] else rest
  }

  function RouteMetricOf(r: CompletedRoute, number: string -> Option<real>): RouteMetric {
    var meters := DistanceMeters(r, number);
    RouteMetric(r.id, r.date, meters, RoundMetric(meters / 1000.0), |Deliveries(r, |r.points|)|)
  }

  function TotalMeters(routes: seq<CompletedRoute>, number: string -> Option<real>): real {
    if routes == [] then 0.0
    else TotalMeters(routes[..|routes| - 1], number) + DistanceMeters(routes[|routes| - 1], number)
  }

  function AllDeliveries(routes: seq<CompletedRoute>): seq<DeliveredOrder> {
    if routes == [] then []
    else
      var last := routes[|routes| - 1];
      AllDeliveries(routes[..|routes| - 1]) + Deliveries(last, |last.points|)
  }

  function RouteMetrics(routes: seq<CompletedRoute>, number: string -> Option<real>): (r: seq<RouteMetric>)
    ensures |r| == |routes|
  {
    seq(|routes|, i requires 0 <= i < |routes| => RouteMetricOf(routes[i], number))
  }

  function MetricsOf(routes: seq<CompletedRoute>, number: string -> Option<real>): Metrics {
    var meters := TotalMeters(routes, number);
    Metrics(|routes|, |AllDeliveries(routes)|, RoundMetric(meters), RoundMetric(meters / 1000.0),
            AllDeliveries(routes), RouteMetrics(routes, number))
  }

  method BuildPaymentMetrics(routes: seq<CompletedRoute>, number: string -> Option<real>) returns (metrics: Metrics)
    ensures metrics == MetricsOf(routes, number)
  {
    var deliveredOrders, routeMetrics, totalDistanceMeters := [], [], 0.0;
    for i := 0 to |routes|
      invariant deliveredOrders == AllDeliveries(routes[..i])
      invariant routeMetrics == RouteMetrics(routes[..i], number)
      invariant totalDistanceMeters == TotalMeters(routes[..i], number)
    {
      var route := routes[i];
      assert routes[..i + 1][..i] == routes[..i];
      var distanceMeters := DistanceMeters(route, number);
      totalDistanceMeters := totalDistanceMeters + distanceMeters;
      var routeDeliveredOrders := Deliveries(route, |route.points|);
      deliveredOrders := deliveredOrders + routeDeliveredOrders;
      var distanceKm := RoundMetric(distanceMeters / 1000.0);
      routeMetrics := routeMetrics
        + [RouteMetric(route.id, route.date, distanceMeters, distanceKm, |routeDeliveredOrders|)];
    }
    assert routes[..|routes|] == routes;
    metrics := Metrics(|routes|, |deliveredOrders|, RoundMetric(totalDistanceMeters),
                       RoundMetric(totalDistanceMeters / 1000.0), deliveredOrders, routeMetrics);
  }

  function SumKm(routes: seq<RouteMetric>): real {
    if routes == [] then 0.0 else SumKm(routes[..|routes| - 1]) + routes[|routes| - 1].distanceKm
  }

  function SumDelivered(routes: seq<RouteMetric>): nat {
    if routes == [] then 0 else SumDelivered(routes[..|routes| - 1]) + routes[|routes| - 1].deliveredOrdersCount
  }

  lemma {:induction false} RouteErrors(routes: seq<CompletedRoute>, number: string -> Option<real>)
    ensures
      Abs(TotalMeters(routes, number) / 1000.0 - SumKm(RouteMetrics(routes, number))) <= |routes| as real * 0.0005
    decreases |routes|
  {
    hide RoundMetric, DistanceMeters;
    if routes != [] {
      var front, last := routes[..|routes| - 1], routes[|routes| - 1];
      RouteErrors(front, number);
      MetricError(DistanceMeters(last, number) / 1000.0);
      assert RouteMetrics(routes, number)[..|routes| - 1] == RouteMetrics(front, number);
      assert |routes| as real == |front| as real + 1.0;
    }
  }

  /** The total distance is off from the sum of the route distances by at most half a metre a rounding. */
  lemma AggregationBound(routes: seq<CompletedRoute>, number: string -> Option<real>)
    ensures
      var metrics := MetricsOf(routes, number);
      Abs(metrics.totalDistanceKm - SumKm(metrics.routes)) <= (|routes| as real + 1.0) * 0.0005
  {
    hide RoundMetric, TotalMeters, SumKm, RouteMetrics;
    RouteErrors(routes, number);
    MetricError(TotalMeters(routes, number) / 1000.0);
  }

  lemma {:induction false} DeliveredCounts(routes: seq<CompletedRoute>, number: string -> Option<real>)
    ensures |AllDeliveries(routes)| == SumDelivered(RouteMetrics(routes, number))
    decreases |routes|
  {
    if routes != [] {
      var front := routes[..|routes| - 1];
      DeliveredCounts(front, number);
      assert RouteMetrics(routes, number)[..|routes| - 1] == RouteMetrics(front, number);
    }
  }

  /** The delivered order of a point, field by field. */
  ghost predicate IsOf(d: DeliveredOrder, r: CompletedRoute, p: StopRow) {
    && d.route == r.id && d.date == r.date && d.order == p.order && d.sequence == p.sequence && d.zone == p.zone
    && d.address == p.address
  }

  ghost predicate IsDelivery(d: DeliveredOrder, r: CompletedRoute, n: nat)
    requires n <= |r.points|
  {
    exists i :: 0 <= i < n && r.points[i].status == Delivered && IsOf(d, r, r.points[i])
  }

  lemma {:induction false} DeliveriesExactly(r: CompletedRoute, n: nat, d: DeliveredOrder)
    requires n <= |r.points|
    ensures d in Deliveries(r, n) <==> IsDelivery(d, r, n)
    decreases n
  {
    if n > 0 {
      DeliveriesExactly(r, n - 1, d);
    }
  }

  /** The delivered orders are exactly the delivered points of the routes, as many as the routes count. */
  lemma {:induction false} DeliveredOrdersExactly(routes: seq<CompletedRoute>, number: string -> Option<real>)
    ensures
      forall d :: d in AllDeliveries(routes) <==>
        exists i :: 0 <= i < |routes| && IsDelivery(d, routes[i], |routes[i].points|)
    ensures
      var metrics := MetricsOf(routes, number);
      metrics.deliveredOrdersCount == SumDelivered(metrics.routes)
    decreases |routes|
  {
    hide IsDelivery, Deliveries, RoundMetric;
    DeliveredCounts(routes, number);
    if routes != [] {
      var front, last := routes[..|routes| - 1], routes[|routes| - 1];
      DeliveredOrdersExactly(front, number);
      forall d {
        DeliveriesExactly(last, |last.points|, d);
      }
    }
  }

  /** They come in the order of the points: each delivered point after all those in front of it. */
  lemma {:induction false} DeliveriesInOrder(r: CompletedRoute, i: nat, n: nat)
    requires i < n <= |r.points|
    ensures Deliveries(r, i) <= Deliveries(r, n)
    ensures
      r.points[i].status == Delivered ==>
        |Deliveries(r, i)| < |Deliveries(r, n)| && IsOf(Deliveries(r, n)[|Deliveries(r, i)|], r, r.points[i])
    decreases n
  {
    if i < n - 1 {
      DeliveriesInOrder(r, i, n - 1);
    }
  }

  lemma {:induction false} DistanceNotNegative(routes: seq<CompletedRoute>, number: string -> Option<real>)
    requires forall r :: r in routes ==> DistanceMeters(r, number) >= 0.0
    ensures TotalMeters(routes, number) >= 0.0 && MetricsOf(routes, number).totalDistanceKm >= 0.0
    decreases |routes|
  {
    hide RoundMetric, DistanceMeters;
    MetricError(TotalMeters(routes, number) / 1000.0);
    if routes != [] {
      DistanceNotNegative(routes[..|routes| - 1], number);
    }
  }

  // ---- Components ---------------------------------------------------------------------------------------------

  datatype SupportedMetric = CompletedOrders | CompletedRoutes | DistanceKm

  datatype PaymentError = BadConfig(error: RuleConfig.Error) | UnsupportedMetric | UnsupportedPeriod | BadWindow

  datatype Component = Component(
    ruleId: Id, key: Id, version: int, ruleType: RuleConfig.RuleType, name: string, applied: bool, amount: real)

  /** What every rule of a payment is applied to. */
  datatype Basis = Basis(metrics: Metrics, periodStart: int, periodEnd: int, number: string -> Option<real>)

  function ReadMetric(v: Js): Option<SupportedMetric> {
    if v == Str("completed_orders") then Some(CompletedOrders)
    else if v == Str("completed_routes") then Some(CompletedRoutes)
    else if v == Str("distance_km") then Some(DistanceKm)
    else None
  }

  function MetricValue(metric: SupportedMetric, m: Metrics): real {
    match metric
    case CompletedOrders => m.deliveredOrdersCount as real
    case CompletedRoutes => m.completedRoutesCount as real
    case DistanceKm => m.totalDistanceKm
  }

  function ReadPeriod(v: Js): Option<Calendar.Period> {
    if v == Str("daily") then Some(Calendar.Daily)
    else if v == Str("weekly") then Some(Calendar.Weekly)
    else if v == Str("monthly") then Some(Calendar.Monthly)
    else None
  }

  function InZone(orders: seq<DeliveredOrder>, zone: Option<string>): nat {
    if orders == [] then 0
    else InZone(orders[..|orders| - 1], zone) + if orders[|orders| - 1].zone == zone then 1 else 0
  }

  function Product(rate: real, quantity: real): real {
    rate * quantity
  }

  function Times(rate: real, count: nat): real {
    Product(rate, count as real)
  }

  function Threshold(conditions: Js, b: Basis): real {
    var threshold := ReadNumber(Field(conditions, "threshold"), b.number);
    if threshold.Some? then threshold.value else 0.0
  }

  /** Whether a rule applies and its amount; the subtotal matters to a guarantee only. */
  function Price(ruleType: RuleConfig.RuleType, value: real, conditions: Js, b: Basis, subtotal: real):
    Result<(bool, real), PaymentError>
  {
    match ruleType
    case ZoneRate =>
      var matched := InZone(b.metrics.deliveredOrders, RuleConfig.ReadString(Field(conditions, "zoneId")));
      Ok((matched > 0, RoundMoney(Times(value, matched))))
    case PerKm => Ok((b.metrics.totalDistanceKm > 0.0, RoundMoney(Product(value, b.metrics.totalDistanceKm))))
    case PerOrder =>
      Ok((b.metrics.deliveredOrdersCount > 0, RoundMoney(Times(value, b.metrics.deliveredOrdersCount))))
    case MinimumGuarantee =>
      var period := ReadPeriod(Field(conditions, "period"));
      if period.None? then Err(UnsupportedPeriod)
      else
        var matches := Calendar.MatchesPeriod(period.value, b.periodStart, b.periodEnd);
        var amount := if matches && subtotal < value then RoundMoney(value - subtotal) else 0.0;
        Ok((amount > 0.0, amount))
    case Bonus =>
      var metric := ReadMetric(Field(conditions, "metric"));
      if metric.None? then Err(UnsupportedMetric)
      else
        var applied := MetricValue(metric.value, b.metrics) >= Threshold(conditions, b);
        Ok((applied, if applied then RoundMoney(value) else 0.0))
    case Penalty =>
      var metric := ReadMetric(Field(conditions, "metric"));
      if metric.None? then Err(UnsupportedMetric)
      else
        var applied := MetricValue(metric.value, b.metrics) < Threshold(conditions, b);
        Ok((applied, if applied then RoundMoney(-value) else 0.0))
  }

  // ---- Zones --------------------------------------------------------------------------------------------------

  function CountZones(orders: seq<DeliveredOrder>, zones: seq<Option<string>>): nat {
    if zones == [] then 0
    else CountZones(orders, zones[..|zones| - 1]) + InZone(orders, zones[|zones| - 1])
  }

  lemma {:induction false} CountZonesAppend(orders: seq<DeliveredOrder>, d: DeliveredOrder, zones: seq<Option<string>>)
    requires Distinct(zones)
    ensures CountZones(orders + [d], zones) == CountZones(orders, zones) + if d.zone in zones then 1 else 0
    decreases |zones|
  {
    assert (orders + [d])[..|orders|] == orders;
    if zones != [] {
      var front, last := zones[..|zones| - 1], zones[|zones| - 1];
      assert zones == front + [last];
      CountZonesAppend(orders, d, front);
    }
  }

  /** Every delivered order is counted in exactly one zone, the missing one included. */
  lemma {:induction false} ZonesPartition(orders: seq<DeliveredOrder>, zones: seq<Option<string>>)
    requires Distinct(zones) && forall d :: d in orders ==> d.zone in zones
    ensures CountZones(orders, zones) == |orders|
    decreases |orders|
  {
    if orders == [] {
      NothingInZones(zones);
    } else {
      var front, last := orders[..|orders| - 1], orders[|orders| - 1];
      assert orders == front + [last];
      ZonesPartition(front, zones);
      CountZonesAppend(front, last, zones);
    }
  }

  lemma {:induction false} NothingInZones(zones: seq<Option<string>>)
    ensures CountZones([], zones) == 0
    decreases |zones|
  {
    if zones != [] {
      NothingInZones(zones[..|zones| - 1]);
    }
  }

  /** The amounts of zone rates of one value, over the given zones. */
  function ZoneAmounts(value: real, orders: seq<DeliveredOrder>, zones: seq<Option<string>>): real {
    if zones == [] then 0.0
    else
      ZoneAmounts(value, orders, zones[..|zones| - 1])
      + RoundMoney(Times(value, InZone(orders, zones[|zones| - 1])))
  }

  lemma TimesAdd(rate: real, m: nat, n: nat)
    ensures Times(rate, m + n) == Times(rate, m) + Times(rate, n) && Times(rate, 0) == 0.0
  {
    var x, y := m as real, n as real;
    assert (m + n) as real == x + y;
    assert rate * (x + y) == rate * x + rate * y;
  }

  lemma {:induction false} ZoneAmountsError(value: real, orders: seq<DeliveredOrder>, zones: seq<Option<string>>)
    ensures
      Abs(ZoneAmounts(value, orders, zones) - Times(value, CountZones(orders, zones))) <= |zones| as real * 0.005
    decreases |zones|
  {
    hide RoundMoney, Times;
    if zones == [] {
      TimesAdd(value, 0, 0);
    } else {
      var front, last := zones[..|zones| - 1], zones[|zones| - 1];
      ZoneAmountsError(value, orders, front);
      TimesAdd(value, CountZones(orders, front), InZone(orders, last));
      MoneyError(Times(value, InZone(orders, last)));
      assert |zones| as real == |front| as real + 1.0;
    }
  }

  function RuleComponent(rule: RuleVersions.Row, b: Basis, subtotal: real): Result<Component, PaymentError> {
    match RuleConfig.Parse(rule.config)
    case Err(e) => Err(BadConfig(e))
    case Ok(config) =>
      match Price(rule.ruleType, config.value, config.conditions, b, subtotal)
      case Err(e) => Err(e)
      case Ok((applied, amount)) =>
        Ok(Component(rule.id, rule.key, rule.version, rule.ruleType, rule.name, applied, amount))
  }

  // ---- Breakdown ----------------------------------------------------------------------------------------------

  datatype Totals = Totals(components: seq<Component>, running: real, beforeGuarantee: real, topUp: real)

  function Add(t: Totals, c: Component): Totals {
    var running := RoundMoney(t.running + c.amount);
    Totals(
      t.components + [c],
      running,
      if c.ruleType.MinimumGuarantee? then t.beforeGuarantee else running,
      if c.ruleType.MinimumGuarantee? then RoundMoney(t.topUp + c.amount) else t.topUp)
  }

  function Fold(rules: seq<RuleVersions.Row>, b: Basis): Result<Totals, PaymentError> {
    if rules == [] then Ok(Totals([], 0.0, 0.0, 0.0))
    else
      match Fold(rules[..|rules| - 1], b)
      case Err(e) => Err(e)
      case Ok(t) =>
        match RuleComponent(rules[|rules| - 1], b, t.running)
        case Err(e) => Err(e)
        case Ok(c) => Ok(Add(t, c))
  }

  datatype Breakdown = Breakdown(
    metrics: Metrics, subtotalBeforeGuarantee: real, minimumGuaranteeTopUp: real, totalAmount: real,
    components: seq<Component>, applied: seq<Component>)

  predicate IsApplied(c: Component) {
    c.applied && c.amount != 0.0
  }

  function Where(components: seq<Component>, p: Component -> bool): seq<Component> {
    if components == [] then []
    else
      var rest := Where(components[..|components| - 1], p);
      var last := components[|components| - 1];
      if p(last) then rest + [last] else rest
  }

  function Summary(t: Totals, b: Basis): Breakdown {
    Breakdown(b.metrics, RoundMoney(t.beforeGuarantee), t.topUp, RoundMoney(Max(0.0, t.running)), t.components,
              Where(t.components, IsApplied))
  }

  function BreakdownOf(rules: seq<RuleVersions.Row>, b: Basis): Result<Breakdown, PaymentError> {
    match Fold(rules, b)
    case Err(e) => Err(e)
    case Ok(t) => Ok(Summary(t, b))
  }

  method BuildPaymentBreakdown(rules: seq<RuleVersions.Row>, b: Basis) returns (r: Result<Breakdown, PaymentError>)
    ensures r == BreakdownOf(rules, b)
  {
    hide RuleComponent, RoundMoney;
    var components, running, beforeGuarantee, topUp := [], 0.0, 0.0, 0.0;
    for i := 0 to |rules|
      invariant Fold(rules[..i], b) == Ok(Totals(components, running, beforeGuarantee, topUp))
    {
      var rule := rules[i];
      assert rules[..i + 1][..i] == rules[..i];
      var component := RuleComponent(rule, b, running);
      if component.Err? {
        FirstErrorStays(rules, i + 1, b);
        return Err(component.error);
      }
      ComponentOfRule(rule, b, running);
      components := components + [component.value];
      running := RoundMoney(running + component.value.amount);
      if rule.ruleType.MinimumGuarantee? {
        topUp := RoundMoney(topUp + component.value.amount);
      } else {
        beforeGuarantee := running;
      }
    }
    assert rules[..|rules|] == rules;
    r := Ok(Summary(Totals(components, running, beforeGuarantee, topUp), b));
  }

  lemma ComponentOfRule(rule: RuleVersions.Row, b: Basis, subtotal: real)
    ensures
      var c := RuleComponent(rule, b, subtotal);
      c.Ok? ==>
        && c.value.ruleId == rule.id && c.value.key == rule.key && c.value.version == rule.version
        && c.value.ruleType == rule.ruleType && c.value.name == rule.name
  {
    hide Price, RuleConfig.Parse;
  }

  lemma {:induction false} FirstErrorStays(rules: seq<RuleVersions.Row>, n: nat, b: Basis)
    requires n <= |rules| && Fold(rules[..n], b).Err?
    ensures Fold(rules, b) == Fold(rules[..n], b)
    decreases |rules|
  {
    hide RuleComponent, Add;
    if n == |rules| {
      assert rules[..n] == rules;
    } else {
      assert rules[..|rules| - 1][..n] == rules[..n];
      FirstErrorStays(rules[..|rules| - 1], n, b);
    }
  }

  // ---- Conservation -------------------------------------------------------------------------------------------

  function Sum(components: seq<Component>): real {
    if components == [] then 0.0 else Sum(components[..|components| - 1]) + components[|components| - 1].amount
  }

  predicate IsGuarantee(c: Component) {
    c.ruleType.MinimumGuarantee?
  }

  /** The components up to the last one that is no guarantee. */
  function UpToLastOther(components: seq<Component>): seq<Component> {
    if components == [] then []
    else if !IsGuarantee(components[|components| - 1]) then components
    else UpToLastOther(components[..|components| - 1])
  }

  lemma ComponentIsCents(rule: RuleVersions.Row, b: Basis, subtotal: real)
    ensures RuleComponent(rule, b, subtotal).Ok? ==> IsCents(RuleComponent(rule, b, subtotal).value.amount)
  {
    hide RoundMoney, IsCents, RuleConfig.Parse, Threshold, MetricValue, InZone, ReadMetric, ReadPeriod, Field,
      Calendar.MatchesPeriod;
    ZeroIsCents();
    forall x
      ensures IsCents(RoundMoney(x))
    {
      RoundedIsCents(x);
    }
  }

  /** What has been accumulated is what the components add up to, in whole cents. */
  ghost predicate AddsUp(t: Totals) {
    && t.running == Sum(t.components)
    && t.topUp == Sum(Where(t.components, IsGuarantee))
    && t.beforeGuarantee == Sum(UpToLastOther(t.components))
    && IsCents(t.running) && IsCents(t.topUp) && IsCents(t.beforeGuarantee)
  }

  lemma AddKeepsSums(t: Totals, c: Component)
    requires AddsUp(t) && IsCents(c.amount)
    ensures AddsUp(Add(t, c)) && Add(t, c).running == t.running + c.amount
  {
    hide RoundMoney, IsCents, Sum, Where, UpToLastOther;
    CentsAdd(t.running, c.amount);
    CentsAdd(t.topUp, c.amount);
    AppendComponent(t.components, c);
  }

  lemma {:induction false} FoldAddsUp(rules: seq<RuleVersions.Row>, b: Basis)
    requires Fold(rules, b).Ok?
    ensures AddsUp(Fold(rules, b).value) && |Fold(rules, b).value.components| == |rules|
    decreases |rules|
  {
    hide RuleComponent, AddsUp, IsCents;
    if rules == [] {
      NothingAddsUp();
    } else {
      var front, last := rules[..|rules| - 1], rules[|rules| - 1];
      FoldAddsUp(front, b);
      var t := Fold(front, b).value;
      ComponentIsCents(last, b, t.running);
      AddKeepsSums(t, RuleComponent(last, b, t.running).value);
    }
  }

  lemma NothingAddsUp()
    ensures AddsUp(Totals([], 0.0, 0.0, 0.0))
  {
  }

  lemma ZeroIsCents()
    ensures IsCents(0.0)
  {
  }

  lemma AppendComponent(components: seq<Component>, c: Component)
    ensures Sum(components + [c]) == Sum(components) + c.amount
    ensures
      forall p :: Where(components + [c], p) == if p(c) then Where(components, p) + [c] else Where(components, p)
    ensures
      Sum(Where(components + [c], IsGuarantee))
      == Sum(Where(components, IsGuarantee)) + if IsGuarantee(c) then c.amount else 0.0
    ensures UpToLastOther(components + [c]) == if IsGuarantee(c) then UpToLastOther(components) else components + [c]
  {
    var all := components + [c];
    assert all[..|all| - 1] == components;
    var guarantees := Where(components, IsGuarantee);
    assert (guarantees + [c])[..|guarantees|] == guarantees;
  }

  /**
   The total is what the components add up to, or zero; the top-up is what the guarantees add up to;
   the subtotal before guarantee is what the components up to the last other rule add up to, earlier
   top-ups included.
   */
  lemma MoneyIsConserved(rules: seq<RuleVersions.Row>, b: Basis)
    requires BreakdownOf(rules, b).Ok?
    ensures
      var r := BreakdownOf(rules, b).value;
      && r.totalAmount == Max(0.0, Sum(r.components))
      && r.minimumGuaranteeTopUp == Sum(Where(r.components, IsGuarantee))
      && r.subtotalBeforeGuarantee == Sum(UpToLastOther(r.components))
      && IsCents(r.totalAmount)
  {
    hide RoundMoney, IsCents, Fold, Sum, UpToLastOther;
    FoldAddsUp(rules, b);
    var t := Fold(rules, b).value;
    RoundFixedIff(t.beforeGuarantee);
    RoundFixedIff(Max(0.0, t.running));
    ZeroIsCents();
  }

  // ---- Guarantees ---------------------------------------------------------------------------------------------

  ghost predicate NotNegative(rule: RuleVersions.Row) {
    match RuleConfig.Parse(rule.config)
    case Ok(config) => config.value >= 0.0
    case Err(_) => true
  }

  /** The guaranteed value of a rule whose period is the period of the payment. */
  ghost predicate Guarantees(rule: RuleVersions.Row, b: Basis, value: real) {
    && rule.ruleType.MinimumGuarantee?
    && (match RuleConfig.Parse(rule.config)
        case Ok(config) =>
          && config.value == value
          && (match ReadPeriod(Field(config.conditions, "period"))
              case Some(period) => Calendar.MatchesPeriod(period, b.periodStart, b.periodEnd)
              case None => false)
        case Err(_) => false)
  }

  lemma GuaranteeAmount(rule: RuleVersions.Row, b: Basis, value: real, subtotal: real)
    requires Guarantees(rule, b, value)
    ensures
      var c := RuleComponent(rule, b, subtotal);
      c.Ok? && c.value.amount == if subtotal < value then RoundMoney(value - subtotal) else 0.0
    ensures NotNegative(rule) ==> value >= 0.0
  {
    hide RoundMoney, RuleConfig.Parse, Field, ReadPeriod, Calendar.MatchesPeriod;
  }

  /**
   A matching guarantee takes the subtotal r to max(r, guaranteed value in cents), exactly if the value
   is not a negative half cent above r; the checks of rule configurations exclude those.
   */
  lemma GuaranteeStep(rules: seq<RuleVersions.Row>, b: Basis, value: real)
    requires rules != [] && Guarantees(rules[|rules| - 1], b, value)
    requires Fold(rules[..|rules| - 1], b).Ok?
    ensures Fold(rules, b).Ok?
    ensures
      var before := Fold(rules[..|rules| - 1], b).value.running;
      Fold(rules, b).value.running == Max(before, RoundMoney(value))
      <==> value >= 0.0 || value <= before || !IsHalfCent(value)
  {
    hide RoundMoney, IsCents, RuleComponent, Guarantees, AddsUp, IsHalfCent;
    var front, last := rules[..|rules| - 1], rules[|rules| - 1];
    var t := Fold(front, b).value;
    FoldIsCents(front, b);
    GuaranteeAmount(last, b, value, t.running);
    TopUpReachesIff(t.running, value);
    FoldRunning(rules, b);
  }

  lemma FoldIsCents(rules: seq<RuleVersions.Row>, b: Basis)
    requires Fold(rules, b).Ok?
    ensures IsCents(Fold(rules, b).value.running)
  {
    hide Fold, IsCents, Sum, Where, UpToLastOther;
    FoldAddsUp(rules, b);
  }

  /** A guarantee whose period is another one changes nothing. */
  lemma OtherGuaranteeStep(rule: RuleVersions.Row, b: Basis, subtotal: real)
    requires rule.ruleType.MinimumGuarantee? && RuleComponent(rule, b, subtotal).Ok?
    requires !exists value :: Guarantees(rule, b, value)
    ensures RuleComponent(rule, b, subtotal).value.amount == 0.0
  {
    hide RoundMoney, RuleConfig.Parse, Field, ReadPeriod, Calendar.MatchesPeriod;
    var config := RuleConfig.Parse(rule.config).value;
    assert !Guarantees(rule, b, config.value);
  }

  predicate IsPenalty(c: Component) {
    c.ruleType.Penalty?
  }

  lemma ProductSign(x: real, y: real)
    requires x >= 0.0 && y >= 0.0
    ensures Product(x, y) >= 0.0 && (y == 0.0 ==> Product(x, y) == 0.0)
  {
  }

  lemma TimesSign(rate: real, count: nat)
    requires rate >= 0.0
    ensures Times(rate, count) >= 0.0 && (count == 0 ==> Times(rate, count) == 0.0)
  {
    ProductSign(rate, count as real);
  }

  lemma ComponentSign(rule: RuleVersions.Row, b: Basis, subtotal: real)
    requires NotNegative(rule) && b.metrics.totalDistanceKm >= 0.0 && RuleComponent(rule, b, subtotal).Ok?
    ensures
      var c := RuleComponent(rule, b, subtotal).value;
      if IsPenalty(c) then c.amount <= 0.0 else c.amount >= 0.0
  {
    hide RoundMoney, RuleConfig.Parse, Product, Times, Threshold, MetricValue, ReadMetric, ReadPeriod, Field,
      Calendar.MatchesPeriod;
    forall x
      ensures x >= 0.0 ==> RoundMoney(x) >= 0.0
      ensures x <= 0.0 ==> RoundMoney(x) <= 0.0
    {
      RoundSign(x);
    }
    var value := RuleConfig.Parse(rule.config).value.value;
    ProductSign(value, b.metrics.totalDistanceKm);
    forall count: nat {
      TimesSign(value, count);
    }
    assert RoundMoney(0.0) == 0.0;
  }

  /** One step of the fold adds the amount exactly. */
  lemma FoldRunning(rules: seq<RuleVersions.Row>, b: Basis)
    requires rules != [] && Fold(rules, b).Ok?
    ensures
      var before, t := Fold(rules[..|rules| - 1], b).value, Fold(rules, b).value;
      |t.components| == |rules| && t.running == before.running + t.components[|rules| - 1].amount
  {
    hide RoundMoney, IsCents, RuleComponent, AddsUp;
    var before := Fold(rules[..|rules| - 1], b).value;
    FoldAddsUp(rules[..|rules| - 1], b);
    FoldAddsUp(rules, b);
    ComponentIsCents(rules[|rules| - 1], b, before.running);
    AddKeepsSums(before, RuleComponent(rules[|rules| - 1], b, before.running).value);
  }

  /** After any of the rules the subtotal grows by the amounts of those behind. */
  lemma {:induction false} RunningGrows(rules: seq<RuleVersions.Row>, n: nat, b: Basis)
    requires n <= |rules| && Fold(rules, b).Ok?
    ensures Fold(rules[..n], b).Ok?
    ensures
      var t := Fold(rules, b).value;
      |t.components| == |rules| && t.running == Fold(rules[..n], b).value.running + Sum(t.components[n..])
    decreases |rules|
  {
    hide RoundMoney, RuleComponent, Sum;
    FoldAddsUp(rules, b);
    var t := Fold(rules, b).value;
    if n == |rules| {
      assert rules[..n] == rules && t.components[n..] == [];
      SumAppend([], []);
    } else {
      var front := rules[..|rules| - 1];
      RunningGrows(front, n, b);
      FoldRunning(rules, b);
      assert front[..n] == rules[..n];
      var rest, last := Fold(front, b).value.components[n..], t.components[|rules| - 1];
      assert t.components[n..] == rest + [last];
      SumAppend(rest, [last]);
    }
  }

  lemma SumAppend(components: seq<Component>, last: seq<Component>)
    requires |last| <= 1
    ensures Sum(components + last) == Sum(components) + if last == [] then 0.0 else last[0].amount
    ensures Sum([]) == 0.0
  {
    if last == [] {
      assert components + last == components;
    } else {
      assert (components + last)[..|components|] == components;
    }
  }

  /** Behind a matching guarantee the subtotal is max(r, guaranteed value) and what the later rules add to it. */
  lemma SubtotalBehindGuarantee(rules: seq<RuleVersions.Row>, i: nat, b: Basis, value: real)
    requires i < |rules| && Guarantees(rules[i], b, value) && value >= 0.0 && Fold(rules, b).Ok?
    ensures Fold(rules[..i], b).Ok?
    ensures
      var t := Fold(rules, b).value;
      && |t.components| == |rules|
      && t.running == Max(Fold(rules[..i], b).value.running, RoundMoney(value)) + Sum(t.components[i + 1..])
  {
    hide RoundMoney, Fold, Sum, Guarantees, IsHalfCent, Max;
    RunningGrows(rules, i, b);
    RunningGrows(rules, i + 1, b);
    assert rules[..i + 1][..i] == rules[..i];
    GuaranteeStep(rules[..i + 1], b, value);
  }

  /**
   Exactly when the total keeps what a matching guarantee promises: the value rounds to nothing, or what
   the subtotal in front of the guarantee had above it makes up for what the rules behind it take away.
   */
  lemma TotalKeepsGuaranteeIff(rules: seq<RuleVersions.Row>, i: nat, b: Basis, value: real)
    requires i < |rules| && Guarantees(rules[i], b, value) && BreakdownOf(rules, b).Ok?
    ensures Fold(rules[..i], b).Ok? && |BreakdownOf(rules, b).value.components| == |rules|
    ensures
      var r := BreakdownOf(rules, b).value;
      var above := Max(Fold(rules[..i], b).value.running - RoundMoney(value), 0.0);
      r.totalAmount >= RoundMoney(value) <==> RoundMoney(value) <= 0.0 || above + Sum(r.components[i + 1..]) >= 0.0
  {
    hide RoundMoney, IsCents, Fold, Guarantees, Sum, Where, UpToLastOther;
    RunningGrows(rules, i, b);
    MoneyIsConserved(rules, b);
    FoldSum(rules, b);
    if value >= 0.0 {
      SubtotalBehindGuarantee(rules, i, b, value);
    } else {
      RoundSign(value);
    }
  }

  /**
   So with values and distances that are not negative the total is at least the guaranteed value less
   the penalties that follow, and at least the value if there is none.
   */
  lemma TotalKeepsGuarantee(rules: seq<RuleVersions.Row>, i: nat, b: Basis, value: real)
    requires i < |rules| && Guarantees(rules[i], b, value) && BreakdownOf(rules, b).Ok?
    requires b.metrics.totalDistanceKm >= 0.0 && forall r :: r in rules ==> NotNegative(r)
    ensures
      var r := BreakdownOf(rules, b).value;
      && |r.components| == |rules|
      && r.totalAmount >= RoundMoney(value) + Sum(Where(r.components[i + 1..], IsPenalty))
      && ((forall j :: i < j < |rules| ==> !rules[j].ruleType.Penalty?) ==> r.totalAmount >= RoundMoney(value))
  {
    hide RoundMoney, IsCents, Fold, Guarantees, NotNegative, Sum, Where, RuleComponent;
    GuaranteeAmount(rules[i], b, value, 0.0);
    SubtotalBehindGuarantee(rules, i, b, value);
    MoneyIsConserved(rules, b);
    FoldSum(rules, b);
    ComponentsOfRules(rules, b);
    var components := Fold(rules, b).value.components;
    forall j | i < j < |rules|
      ensures IsPenalty(components[j]) <==> rules[j].ruleType.Penalty?
      ensures IsPenalty(components[j]) || components[j].amount >= 0.0
    {
      ComponentSign(rules[j], b, Fold(rules[..j], b).value.running);
    }
    PenaltiesAreLeast(components[i + 1..]);
    if forall j :: i < j < |rules| ==> !rules[j].ruleType.Penalty? {
      NoPenalties(components[i + 1..]);
    }
  }

  lemma {:induction false} PenaltiesAreLeast(components: seq<Component>)
    requires forall i :: 0 <= i < |components| ==> IsPenalty(components[i]) || components[i].amount >= 0.0
    ensures Sum(components) >= Sum(Where(components, IsPenalty))
    decreases |components|
  {
    if components != [] {
      var front, last := components[..|components| - 1], components[|components| - 1];
      PenaltiesAreLeast(front);
      var penalties := Where(front, IsPenalty);
      assert (penalties + [last])[..|penalties|] == penalties;
    }
  }

  lemma FoldSum(rules: seq<RuleVersions.Row>, b: Basis)
    requires Fold(rules, b).Ok?
    ensures Fold(rules, b).value.running == Sum(Fold(rules, b).value.components)
  {
    hide Fold, IsCents, Sum, Where, UpToLastOther;
    FoldAddsUp(rules, b);
  }

  lemma {:induction false} NoPenalties(components: seq<Component>)
    requires forall i :: 0 <= i < |components| ==> !IsPenalty(components[i])
    ensures Sum(Where(components, IsPenalty)) == 0.0
    decreases |components|
  {
    if components != [] {
      NoPenalties(components[..|components| - 1]);
    }
  }

  function ExampleRow(name: string, ruleType: RuleConfig.RuleType, value: real, conditions: Js): RuleVersions.Row {
    RuleVersions.Row(name, "company", name, name, ruleType, 1,
                     Obj([Entry("value", Num(value)), Entry("conditions", conditions)]), "user", None, true, None, None)
  }

  /**
   A penalty whose name sorts behind the guarantee takes the total below the guaranteed value; the
   reported subtotal before guarantee then includes the top-up.
   */
  lemma PenaltyAfterGuarantee(number: string -> Option<real>)
    ensures
      var guarantee := ExampleRow("a", RuleConfig.MinimumGuarantee, 100.0, Obj([Entry("period", Str("daily"))]));
      var penalty := ExampleRow("b", RuleConfig.Penalty, 10.0,
                                Obj([Entry("threshold", Num(1.0)), Entry("metric", Str("completed_orders"))]));
      var r := BreakdownOf([guarantee, penalty], Basis(Metrics(0, 0, 0.0, 0.0, [], []), 0, 0, number));
      r.Ok? && r.value.totalAmount == 90.0 && r.value.minimumGuaranteeTopUp == 100.0
      && r.value.subtotalBeforeGuarantee == 90.0
  {
    hide Calendar.MatchesPeriod, Field;
    var period := Obj([Entry("period", Str("daily"))]);
    var limit := Obj([Entry("threshold", Num(1.0)), Entry("metric", Str("completed_orders"))]);
    var guarantee, penalty := ExampleRow("a", RuleConfig.MinimumGuarantee, 100.0, period),
      ExampleRow("b", RuleConfig.Penalty, 10.0, limit);
    var b := Basis(Metrics(0, 0, 0.0, 0.0, [], []), 0, 0, number);
    RuleConfig.FieldsOfConfig(Num(100.0), period);
    RuleConfig.FieldsOfConfig(Num(10.0), limit);
    ExampleFields();
    Calendar.DailyIff(0, 0);
    assert RuleComponent(guarantee, b, 0.0).value.amount == 100.0;
    assert RuleComponent(penalty, b, 100.0).value.amount == -10.0;
    assert [guarantee, penalty][..1] == [guarantee];
    assert Fold([guarantee], b) == Ok(Add(Totals([], 0.0, 0.0, 0.0), RuleComponent(guarantee, b, 0.0).value));
  }

  lemma ExampleFields()
    ensures Field(Obj([Entry("period", Str("daily"))]), "period") == Str("daily")
    ensures
      var limit := Obj([Entry("threshold", Num(1.0)), Entry("metric", Str("completed_orders"))]);
      Field(limit, "threshold") == Num(1.0) && Field(limit, "metric") == Str("completed_orders")
  {
    var first, second := [Entry("threshold", Num(1.0))], Entry("metric", Str("completed_orders"));
    LookupAppend(first, second, "threshold");
    LookupAppend(first, second, "metric");
    assert first + [second] == [first[0], second];
    assert |"threshold"| != |"metric"|;
  }

  /** The components are those of the rules, one each and in their order. */
  lemma {:induction false} ComponentsOfRules(rules: seq<RuleVersions.Row>, b: Basis)
    requires Fold(rules, b).Ok?
    ensures
      var t := Fold(rules, b).value;
      && |t.components| == |rules|
      && (forall i :: 0 <= i < |rules| ==>
           && Fold(rules[..i], b).Ok?
           && RuleComponent(rules[i], b, Fold(rules[..i], b).value.running) == Ok(t.components[i])
           && t.components[i].ruleType == rules[i].ruleType && t.components[i].ruleId == rules[i].id)
    decreases |rules|
  {
    hide RuleComponent, RoundMoney;
    if rules != [] {
      var front, last := rules[..|rules| - 1], rules[|rules| - 1];
      ComponentsOfRules(front, b);
      ComponentOfRule(last, b, Fold(front, b).value.running);
      forall i | 0 <= i < |front|
        ensures rules[..i] == front[..i]
      {
      }
    }
  }

  lemma ProductZero(x: real, y: real)
    ensures y == 0.0 ==> Product(x, y) == 0.0
  {
  }

  /** A component that is not applied has no amount, unless it prices a negative distance. */
  lemma UnappliedIsZero(rule: RuleVersions.Row, b: Basis, subtotal: real)
    requires rule.ruleType.PerKm? ==> b.metrics.totalDistanceKm >= 0.0
    ensures
      var c := RuleComponent(rule, b, subtotal);
      c.Ok? && !c.value.applied ==> c.value.amount == 0.0
  {
    hide RoundMoney, RuleConfig.Parse, Product, Times, Threshold, MetricValue, InZone, ReadMetric, ReadPeriod, Field,
      Calendar.MatchesPeriod;
    RoundSign(0.0);
    if RuleConfig.Parse(rule.config).Ok? {
      var value := RuleConfig.Parse(rule.config).value.value;
      TimesAdd(value, 0, 0);
      ProductZero(value, b.metrics.totalDistanceKm);
    }
    forall x
      ensures x >= 0.0 ==> RoundMoney(x) >= 0.0
    {
      RoundSign(x);
    }
  }

  predicate IsPerKm(c: Component) {
    c.ruleType.PerKm?
  }

  /**
   The applied components account for the whole sum, but for rates per kilometre on a negative distance,
   which are added without being applied.
   */
  lemma AppliedAccountForAll(rules: seq<RuleVersions.Row>, b: Basis)
    requires BreakdownOf(rules, b).Ok?
    ensures
      var r := BreakdownOf(rules, b).value;
      Sum(r.components)
      == Sum(r.applied) + if b.metrics.totalDistanceKm < 0.0 then Sum(Where(r.components, IsPerKm)) else 0.0
  {
    hide RoundMoney, Fold, Sum, Where, RuleComponent;
    ComponentsOfRules(rules, b);
    var components := Fold(rules, b).value.components;
    var backwards := b.metrics.totalDistanceKm < 0.0;
    forall i | 0 <= i < |components|
      ensures if backwards && IsPerKm(components[i]) then !components[i].applied
              else components[i].applied || components[i].amount == 0.0
    {
      var subtotal := Fold(rules[..i], b).value.running;
      if backwards && rules[i].ruleType.PerKm? {
        PerKmBackwards(rules[i], b, subtotal);
      } else {
        UnappliedIsZero(rules[i], b, subtotal);
      }
    }
    SumOfApplied(components, backwards);
  }

  lemma PerKmBackwards(rule: RuleVersions.Row, b: Basis, subtotal: real)
    requires rule.ruleType.PerKm? && b.metrics.totalDistanceKm < 0.0
    ensures RuleComponent(rule, b, subtotal).Ok? ==> !RuleComponent(rule, b, subtotal).value.applied
  {
    hide RoundMoney, RuleConfig.Parse;
  }

  lemma {:induction false} SumOfApplied(components: seq<Component>, backwards: bool)
    requires
      forall i :: 0 <= i < |components| ==>
        if backwards && IsPerKm(components[i]) then !components[i].applied
        else components[i].applied || components[i].amount == 0.0
    ensures
      Sum(components)
      == Sum(Where(components, IsApplied)) + if backwards then Sum(Where(components, IsPerKm)) else 0.0
    decreases |components|
  {
    if components != [] {
      var front, last := components[..|components| - 1], components[|components| - 1];
      SumOfApplied(front, backwards);
      var applied, perKm := Where(front, IsApplied), Where(front, IsPerKm);
      assert (applied + [last])[..|applied|] == applied;
      assert (perKm + [last])[..|perKm|] == perKm;
    }
  }

  // ---- Which rules can be paid ----------------------------------------------------------------------------

  ghost predicate IsKnownMetric(v: Js) {
    v == Str("completed_orders") || v == Str("completed_routes") || v == Str("distance_km")
  }

  ghost predicate IsKnownPeriod(v: Js) {
    v == Str("daily") || v == Str("weekly") || v == Str("monthly")
  }

  lemma KnownIffRead(v: Js)
    ensures IsKnownMetric(v) <==> ReadMetric(v).Some?
    ensures IsKnownPeriod(v) <==> ReadPeriod(v).Some?
  {
  }

  /** A rule that the fold accepts. */
  ghost predicate Payable(rule: RuleVersions.Row) {
    match RuleConfig.Parse(rule.config)
    case Err(_) => false
    case Ok(config) =>
      match rule.ruleType
      case Bonus => IsKnownMetric(Field(config.conditions, "metric"))
      case Penalty => IsKnownMetric(Field(config.conditions, "metric"))
      case MinimumGuarantee => IsKnownPeriod(Field(config.conditions, "period"))
      case _ => true
  }

  lemma PayableIff(rule: RuleVersions.Row, b: Basis, subtotal: real)
    ensures RuleComponent(rule, b, subtotal).Ok? <==> Payable(rule)
  {
    hide RoundMoney, RuleConfig.Parse, Field, ReadMetric, ReadPeriod, Calendar.MatchesPeriod, Threshold, MetricValue,
      IsKnownMetric, IsKnownPeriod;
    var config := RuleConfig.Parse(rule.config);
    if config.Ok? {
      KnownIffRead(Field(config.value.conditions, "metric"));
      KnownIffRead(Field(config.value.conditions, "period"));
    }
  }

  /** A payment is computed exactly if every rule can be paid, whatever the metrics and the order. */
  lemma {:induction false} BreakdownSucceedsIff(rules: seq<RuleVersions.Row>, b: Basis)
    ensures BreakdownOf(rules, b).Ok? <==> forall r :: r in rules ==> Payable(r)
    decreases |rules|
  {
    hide RuleComponent, Payable;
    if rules != [] {
      var front, last := rules[..|rules| - 1], rules[|rules| - 1];
      assert rules == front + [last];
      BreakdownSucceedsIff(front, b);
      if Fold(front, b).Ok? {
        PayableIff(last, b, Fold(front, b).value.running);
      }
    }
  }

  /**
   A rule that passed the checks when it was written can be paid, exactly if it is no bonus or penalty
   on an unknown metric: the checks ask for some metric, not for a known one.
   */
  lemma BuiltRulePayableIff(rule: RuleVersions.Row, value: real, conditions: Js)
    requires RuleVersions.IsBuilt(rule.ruleType, rule.config, value, conditions)
    ensures
      Payable(rule) <==>
        (rule.ruleType.Bonus? || rule.ruleType.Penalty? ==> IsKnownMetric(Field(conditions, "metric")))
    ensures NotNegative(rule)
  {
    hide Field, Normalize, RuleConfig.Parse, RuleConfig.IsSpace;
    RuleConfig.RoundTrip(rule.ruleType, value, conditions);
    if conditions.Obj? {
      assert |"metric"| != |PROTOTYPE| && |"period"| != |PROTOTYPE|;
      FieldOfNormalized(conditions, "metric");
      FieldOfNormalized(conditions, "period");
      NormalizeText(Field(conditions, "metric"));
      NormalizeText(Field(conditions, "period"));
    } else {
      NoFields(RuleConfig.NormalizeConditions(conditions));
    }
  }

  /** Such a rule exists: it is accepted when it is written, and every payment that comes to it is refused. */
  lemma UnknownMetricIsNoticedLate(b: Basis)
    ensures
      var conditions := Obj([Entry("threshold", Num(1.0)), Entry("metric", Str("foo"))]);
      var rule := ExampleRow("a", RuleConfig.Bonus, 10.0, conditions);
      && RuleVersions.IsBuilt(rule.ruleType, rule.config, 10.0, conditions)
      && BreakdownOf([rule], b) == Err(UnsupportedMetric)
  {
    hide Field, Normalize;
    var first, second := Entry("threshold", Num(1.0)), Entry("metric", Str("foo"));
    var conditions := Obj([first, second]);
    var rule := ExampleRow("a", RuleConfig.Bonus, 10.0, conditions);
    assert |"threshold"| != |"metric"| && |"metric"| != |PROTOTYPE| && "threshold"[0] != PROTOTYPE[0];
    LookupAt(conditions.entries, 0);
    LookupAt(conditions.entries, 1);
    FieldIsLookup(conditions, "threshold");
    FieldIsLookup(conditions, "metric");
    assert IsJson(conditions);
    JsonIsFixed(conditions);
    assert !RuleConfig.IsSpace("foo"[0]);
    RuleConfig.FieldsOfConfig(Num(10.0), conditions);
    assert RuleConfig.ReadString(Str("foo")) == Some("foo");
    assert RuleConfig.Build(RuleConfig.Bonus, 10.0, conditions) == Ok(rule.config);
    UnknownMetric();
    assert RuleComponent(rule, b, 0.0) == Err(UnsupportedMetric);
    assert [rule][..0] == [];
    assert Fold([rule], b) == Err(UnsupportedMetric);
    assert RuleVersions.IsBuilt(rule.ruleType, rule.config, 10.0, conditions);
  }

  lemma UnknownMetric()
    ensures ReadMetric(Str("foo")) == None
  {
    assert |"foo"| != |"completed_orders"| && |"foo"| != |"completed_routes"| && |"foo"| != |"distance_km"|;
  }

  lemma FieldIsLookup(v: Js, key: string)
    requires v.Obj?
    ensures Field(v, key) == Lookup(v.entries, key)
  {
  }

  lemma NormalizeText(v: Js)
    ensures v.Str? ==> Normalize(v) == v
  {
  }

  lemma NoFields(v: Js)
    requires !v.Obj?
    ensures forall key :: Field(v, key) == Undefined
  {
  }

  // ---- Order --------------------------------------------------------------------------------------------------

  function Amount(rule: RuleVersions.Row, b: Basis): real {
    var c := RuleComponent(rule, b, 0.0);
    if c.Ok? then c.value.amount else 0.0
  }

  function Amounts(rules: seq<RuleVersions.Row>, b: Basis): real {
    if rules == [] then 0.0 else Amounts(rules[..|rules| - 1], b) + Amount(rules[|rules| - 1], b)
  }

  lemma SubtotalMattersToGuaranteesOnly(rule: RuleVersions.Row, b: Basis, subtotal: real)
    requires !rule.ruleType.MinimumGuarantee?
    ensures RuleComponent(rule, b, subtotal) == RuleComponent(rule, b, 0.0)
  {
    hide RoundMoney, RuleConfig.Parse, Field, ReadMetric, Threshold, MetricValue, InZone;
  }

  lemma {:induction false} SumIsAmounts(rules: seq<RuleVersions.Row>, b: Basis)
    requires Fold(rules, b).Ok? && forall r :: r in rules ==> !r.ruleType.MinimumGuarantee?
    ensures Sum(Fold(rules, b).value.components) == Amounts(rules, b)
    decreases |rules|
  {
    hide RuleComponent, RoundMoney;
    if rules != [] {
      var front, last := rules[..|rules| - 1], rules[|rules| - 1];
      SumIsAmounts(front, b);
      var t := Fold(front, b).value;
      SubtotalMattersToGuaranteesOnly(last, b, t.running);
      AppendComponent(t.components, RuleComponent(last, b, t.running).value);
    }
  }

  lemma {:induction false} LaterAmounts(rules: seq<RuleVersions.Row>, n: nat, b: Basis)
    requires n <= |rules| && Fold(rules, b).Ok?
    requires forall j :: n <= j < |rules| ==> !rules[j].ruleType.MinimumGuarantee?
    ensures |Fold(rules, b).value.components| == |rules|
    ensures Sum(Fold(rules, b).value.components[n..]) == Amounts(rules[n..], b)
    decreases |rules|
  {
    hide RuleComponent, RoundMoney, Sum;
    FoldAddsUp(rules, b);
    var t := Fold(rules, b).value;
    if n == |rules| {
      assert t.components[n..] == [] && rules[n..] == [];
      SumAppend([], []);
    } else {
      var front, last := rules[..|rules| - 1], rules[|rules| - 1];
      LaterAmounts(front, n, b);
      var before := Fold(front, b).value;
      SubtotalMattersToGuaranteesOnly(last, b, before.running);
      var rest, c := before.components[n..], t.components[|rules| - 1];
      assert t.components == before.components + [c] && t.components[n..] == rest + [c];
      SumAppend(rest, [c]);
      assert rules[n..][..|rules| - n - 1] == front[n..] && rules[n..][|rules| - n - 1] == last;
    }
  }

  /**
   With no guarantee behind it, when the total keeps what a guarantee promises can be told from the
   rules in front of it and the amounts of those behind it.
   */
  lemma LastGuaranteeIsKeptIff(rules: seq<RuleVersions.Row>, i: nat, b: Basis, value: real)
    requires i < |rules| && Guarantees(rules[i], b, value) && BreakdownOf(rules, b).Ok?
    requires forall j :: i < j < |rules| ==> !rules[j].ruleType.MinimumGuarantee?
    ensures Fold(rules[..i], b).Ok?
    ensures
      var above := Max(Fold(rules[..i], b).value.running - RoundMoney(value), 0.0);
      BreakdownOf(rules, b).value.totalAmount >= RoundMoney(value)
      <==> RoundMoney(value) <= 0.0 || above + Amounts(rules[i + 1..], b) >= 0.0
  {
    hide RoundMoney, Fold, Guarantees, Sum, Where, UpToLastOther, Amounts, Max;
    TotalKeepsGuaranteeIff(rules, i, b, value);
    LaterAmounts(rules, i + 1, b);
  }

  lemma {:induction false} AmountsWithout(rules: seq<RuleVersions.Row>, i: nat, b: Basis)
    requires i < |rules|
    ensures Amounts(rules, b) == Amounts(rules[..i] + rules[i + 1..], b) + Amount(rules[i], b)
    decreases |rules|
  {
    hide Amount;
    var rest := rules[..i] + rules[i + 1..];
    if i == |rules| - 1 {
      assert rest == rules[..i];
    } else {
      var front := rules[..|rules| - 1];
      AmountsWithout(front, i, b);
      var shorter := front[..i] + front[i + 1..];
      assert rest == shorter + [rules[|rules| - 1]];
      assert rest[..|rest| - 1] == shorter;
    }
  }

  lemma RemoveOne(rules: seq<RuleVersions.Row>, i: nat)
    requires i < |rules|
    ensures multiset(rules) == multiset(rules[..i] + rules[i + 1..]) + multiset{rules[i]}
  {
    assert rules == rules[..i] + [rules[i]] + rules[i + 1..];
  }

  lemma Cancel<T>(a: multiset<T>, b: multiset<T>, x: T)
    requires a + multiset{x} == b + multiset{x}
    ensures a == b
  {
    forall y
      ensures a[y] == b[y]
    {
      assert (a + multiset{x})[y] == (b + multiset{x})[y];
    }
  }

  lemma {:induction false} AmountsPermuted(rules: seq<RuleVersions.Row>, others: seq<RuleVersions.Row>, b: Basis)
    requires multiset(rules) == multiset(others)
    ensures Amounts(rules, b) == Amounts(others, b)
    decreases |rules|
  {
    hide Amount;
    if rules == [] {
      assert |multiset(others)| == 0;
    } else {
      var front, last := rules[..|rules| - 1], rules[|rules| - 1];
      assert rules == front + [last];
      assert last in multiset(others);
      var i :| 0 <= i < |others| && others[i] == last;
      var rest := others[..i] + others[i + 1..];
      RemoveOne(others, i);
      RemoveOne(rules, |rules| - 1);
      assert rules[..|rules| - 1] + rules[|rules|..] == front;
      Cancel(multiset(front), multiset(rest), last);
      AmountsWithout(others, i, b);
      AmountsPermuted(front, rest, b);
    }
  }

  /** Without guarantees the order of the rules does not matter to the total. */
  lemma OrderMattersToGuaranteesOnly(rules: seq<RuleVersions.Row>, others: seq<RuleVersions.Row>, b: Basis)
    requires multiset(rules) == multiset(others) && forall r :: r in rules ==> !r.ruleType.MinimumGuarantee?
    ensures BreakdownOf(rules, b).Ok? <==> BreakdownOf(others, b).Ok?
    ensures
      BreakdownOf(rules, b).Ok? ==>
        BreakdownOf(rules, b).value.totalAmount == BreakdownOf(others, b).value.totalAmount
  {
    hide RoundMoney, Fold, Sum, Amounts, Payable, UpToLastOther, Where;
    forall r
      ensures r in rules <==> r in others
    {
      assert r in rules <==> r in multiset(rules);
      assert r in others <==> r in multiset(others);
    }
    BreakdownSucceedsIff(rules, b);
    BreakdownSucceedsIff(others, b);
    if BreakdownOf(rules, b).Ok? {
      MoneyIsConserved(rules, b);
      MoneyIsConserved(others, b);
      SumIsAmounts(rules, b);
      SumIsAmounts(others, b);
      AmountsPermuted(rules, others, b);
    }
  }

  // ---- Zone rates and rates per order ------------------------------------------------------------------

  ghost predicate HasConfig(rule: RuleVersions.Row, ruleType: RuleConfig.RuleType, value: real) {
    rule.ruleType == ruleType && RuleConfig.Parse(rule.config).Ok? && RuleConfig.Parse(rule.config).value.value == value
  }

  ghost predicate IsZoneRate(rule: RuleVersions.Row, value: real, zone: Option<string>) {
    && HasConfig(rule, RuleConfig.ZoneRate, value)
    && RuleConfig.ReadString(Field(RuleConfig.Parse(rule.config).value.conditions, "zoneId")) == zone
  }

  lemma ZoneRateAmount(rule: RuleVersions.Row, b: Basis, value: real, zone: Option<string>)
    requires IsZoneRate(rule, value, zone)
    ensures Amount(rule, b) == RoundMoney(Times(value, InZone(b.metrics.deliveredOrders, zone))) && Payable(rule)
  {
    hide RoundMoney, RuleConfig.Parse, Field, Times, InZone, RuleConfig.ReadString;
  }

  lemma PerOrderAmount(rule: RuleVersions.Row, b: Basis, value: real)
    requires HasConfig(rule, RuleConfig.PerOrder, value)
    ensures Amount(rule, b) == RoundMoney(Times(value, b.metrics.deliveredOrdersCount)) && Payable(rule)
  {
    hide RoundMoney, RuleConfig.Parse, Field, Times;
  }

  lemma {:induction false} ZoneRateAmounts(rules: seq<RuleVersions.Row>, b: Basis, value: real,
                                           zones: seq<Option<string>>)
    requires |rules| == |zones| && forall i :: 0 <= i < |rules| ==> IsZoneRate(rules[i], value, zones[i])
    ensures Amounts(rules, b) == ZoneAmounts(value, b.metrics.deliveredOrders, zones)
    ensures forall r :: r in rules ==> Payable(r)
    decreases |rules|
  {
    hide RoundMoney, Amount, IsZoneRate, Payable, Times;
    if rules != [] {
      var last := |rules| - 1;
      ZoneRateAmounts(rules[..last], b, value, zones[..last]);
      ZoneRateAmount(rules[last], b, value, zones[last]);
    }
  }

  /** A breakdown without guarantees is the sum of the single amounts, or zero. */
  lemma TotalIsAmounts(rules: seq<RuleVersions.Row>, b: Basis)
    requires forall r :: r in rules ==> !r.ruleType.MinimumGuarantee? && Payable(r)
    ensures BreakdownOf(rules, b).Ok? && BreakdownOf(rules, b).value.totalAmount == Max(0.0, Amounts(rules, b))
  {
    hide RoundMoney, Fold, Sum, Amounts, Payable, UpToLastOther, Where;
    BreakdownSucceedsIff(rules, b);
    MoneyIsConserved(rules, b);
    SumIsAmounts(rules, b);
  }

  /**
   Zone rates of one value, one for each zone in which orders were delivered, pay what a rate per order
   of that value pays, up to half a cent a rounding.
   */
  lemma ZoneRatesMatchPerOrder(rules: seq<RuleVersions.Row>, zones: seq<Option<string>>, perOrder: RuleVersions.Row,
                               value: real, routes: seq<CompletedRoute>, b: Basis)
    requires |rules| == |zones| && forall i :: 0 <= i < |rules| ==> IsZoneRate(rules[i], value, zones[i])
    requires HasConfig(perOrder, RuleConfig.PerOrder, value)
    requires b.metrics == MetricsOf(routes, b.number)
    requires Distinct(zones) && forall d :: d in b.metrics.deliveredOrders ==> d.zone in zones
    ensures BreakdownOf(rules, b).Ok? && BreakdownOf([perOrder], b).Ok?
    ensures
      Abs(BreakdownOf(rules, b).value.totalAmount - BreakdownOf([perOrder], b).value.totalAmount)
      <= (|rules| as real + 1.0) * 0.005
  {
    hide RoundMoney, Times, Fold, Summary, Amount, Payable, RuleConfig.Parse, Field, RuleConfig.ReadString;
    var orders := b.metrics.deliveredOrders;
    forall i | 0 <= i < |rules|
      ensures rules[i].ruleType.ZoneRate?
    {
      assert IsZoneRate(rules[i], value, zones[i]);
    }
    ZoneRateAmounts(rules, b, value, zones);
    TotalIsAmounts(rules, b);
    PerOrderAmount(perOrder, b, value);
    TotalIsAmounts([perOrder], b);
    assert Amounts([perOrder], b) == Amount(perOrder, b);
    ZonesPartition(orders, zones);
    ZoneAmountsError(value, orders, zones);
    MoneyError(Times(value, |orders|));
  }

  // ---- The whole calculation --------------------------------------------------------------------------------

  predicate IsEffectiveNow(rule: RuleVersions.Row, now: int) {
    && (rule.effectiveFrom.Some? ==> rule.effectiveFrom.value <= now)
    && (rule.effectiveTo.Some? ==> now <= rule.effectiveTo.value)
  }

  predicate IsEffectiveForPeriod(rule: RuleVersions.Row, start: int, end: int) {
    && (rule.effectiveFrom.Some? ==> rule.effectiveFrom.value <= end)
    && (rule.effectiveTo.Some? ==> start <= rule.effectiveTo.value)
    && IsEffectiveNow(rule, end)
  }

  function ActiveRules(rules: seq<RuleVersions.Row>, start: int, end: int): (r: seq<RuleVersions.Row>)
    ensures forall rule :: rule in r <==> rule in rules && rule.active && IsEffectiveForPeriod(rule, start, end)
  {
    if rules == [] then []
    else
      var rest := ActiveRules(rules[..|rules| - 1], start, end);
      var last := rules[|rules| - 1];
      assert rules == rules[..|rules| - 1] + [last];
      if last.active && IsEffectiveForPeriod(last, start, end) then rest + [last] else rest
  }

  /** The part of `calculatePaymentInternal` between reading the tables and writing the payment. */
  function Calculate(listing: seq<RuleVersions.Row>, rank: string -> real, routes: seq<CompletedRoute>, start: int,
                     end: int, number: string -> Option<real>): Result<Breakdown, PaymentError> {
    if start > end then Err(BadWindow)
    else
      BreakdownOf(ActiveRules(RuleVersions.LatestRulesOnly(listing, rank), start, end),
                  Basis(MetricsOf(routes, number), start, end, number))
  }

  method CalculatePayment(listing: seq<RuleVersions.Row>, rank: string -> real, routes: seq<CompletedRoute>, start: int,
                          end: int, number: string -> Option<real>) returns (r: Result<Breakdown, PaymentError>)
    ensures r == Calculate(listing, rank, routes, start, end, number)
  {
    if start > end {
      return Err(BadWindow);
    }
    var latest := RuleVersions.CollectLatestRules(listing, rank);
    var metrics := BuildPaymentMetrics(routes, number);
    r := BuildPaymentBreakdown(ActiveRules(latest, start, end), Basis(metrics, start, end, number));
  }

  /** The last version of its key, active and in effect at the end of the period. */
  ghost predicate IsCurrent(rule: RuleVersions.Row, rows: seq<RuleVersions.Row>, company: Id, end: int) {
    && rule in rows && rule.company == company && rule.version == |RuleVersions.Versions(rows, company, rule.key)|
    && rule.active
    && (rule.effectiveFrom == None || rule.effectiveFrom.value <= end)
    && (rule.effectiveTo == None || end <= rule.effectiveTo.value)
  }

  ghost predicate MetricKnown(rule: RuleVersions.Row) {
    rule.ruleType.Bonus? || rule.ruleType.Penalty? ==>
      match RuleConfig.Parse(rule.config)
      case Ok(config) => IsKnownMetric(Field(config.conditions, "metric"))
      case Err(_) => false
  }

  lemma CurrentRules(rows: seq<RuleVersions.Row>, company: Id, listing: seq<RuleVersions.Row>, rank: string -> real,
                     start: int, end: int)
    requires RuleVersions.Inv(rows) && RuleVersions.IsListing(listing, rows, company) && start <= end
    ensures
      forall r :: r in ActiveRules(RuleVersions.LatestRulesOnly(listing, rank), start, end) <==>
        IsCurrent(r, rows, company, end)
  {
    hide RuleVersions.LatestRulesOnly, RuleVersions.Inv, RuleVersions.Versions;
    RuleVersions.LatestIsVersionK(rows, company, listing, rank);
  }

  lemma BuiltRowPayableIff(rows: seq<RuleVersions.Row>, rule: RuleVersions.Row)
    requires RuleVersions.Inv(rows) && rule in rows
    ensures (Payable(rule) <==> MetricKnown(rule)) && NotNegative(rule)
  {
    hide RuleVersions.IsBuilt, RuleConfig.Parse, ReadMetric, ReadPeriod, Field;
    var value, conditions :| RuleVersions.IsBuilt(rule.ruleType, rule.config, value, conditions);
    BuiltRulePayableIff(rule, value, conditions);
    RuleVersions.ParsedIsJs(rule.ruleType, rule.config, value, conditions);
  }

  /**
   Over any history of rule changes, and whatever the order of the rows read, a payment for an ordered
   period is computed exactly if every current bonus or penalty is on a known metric; it then has one
   component for each current rule and no other.
   */
  lemma CalculationUsesCurrentRules(rows: seq<RuleVersions.Row>, company: Id, listing: seq<RuleVersions.Row>,
                                    rank: string -> real, routes: seq<CompletedRoute>, start: int, end: int,
                                    number: string -> Option<real>)
    requires RuleVersions.Inv(rows) && RuleVersions.IsListing(listing, rows, company) && start <= end
    ensures
      var r := Calculate(listing, rank, routes, start, end, number);
      && (r.Ok? <==> forall rule :: IsCurrent(rule, rows, company, end) ==> MetricKnown(rule))
      && (r.Ok? ==>
           var rules := ActiveRules(RuleVersions.LatestRulesOnly(listing, rank), start, end);
           && RuleVersions.DistinctRuleKeys(rules)
           && (forall rule :: rule in rules <==> IsCurrent(rule, rows, company, end))
           && |r.value.components| == |rules|
           && (forall i :: 0 <= i < |rules| ==> r.value.components[i].ruleId == rules[i].id)
           && r.value.totalAmount == Max(0.0, Sum(r.value.components)))
  {
    hide RuleVersions.LatestRulesOnly, RuleVersions.Inv, Sum, UpToLastOther, Where, RoundMoney, MetricKnown, Payable,
      NotNegative, ActiveRules, Fold, MetricsOf;
    var rules := ActiveRules(RuleVersions.LatestRulesOnly(listing, rank), start, end);
    var b := Basis(MetricsOf(routes, number), start, end, number);
    CurrentRules(rows, company, listing, rank, start, end);
    BreakdownSucceedsIff(rules, b);
    forall rule | rule in rules
      ensures Payable(rule) <==> MetricKnown(rule)
    {
      BuiltRowPayableIff(rows, rule);
    }
    if BreakdownOf(rules, b).Ok? {
      MoneyIsConserved(rules, b);
      ComponentsOfRules(rules, b);
      RuleVersions.LatestIsMaximumPerKey(listing, rank);
      ActiveRulesDistinct(RuleVersions.LatestRulesOnly(listing, rank), start, end);
    }
  }

  lemma {:induction false} ActiveRulesDistinct(rules: seq<RuleVersions.Row>, start: int, end: int)
    requires RuleVersions.DistinctRuleKeys(rules)
    ensures RuleVersions.DistinctRuleKeys(ActiveRules(rules, start, end))
    ensures RuleVersions.Keys(ActiveRules(rules, start, end)) <= RuleVersions.Keys(rules)
    decreases |rules|
  {
    hide RuleVersions.Keys, RuleVersions.DistinctRuleKeys, IsEffectiveForPeriod;
    if rules == [] {
      RuleVersions.NoKeys();
    } else {
      var front, last := rules[..|rules| - 1], rules[|rules| - 1];
      assert rules == front + [last];
      RuleVersions.KeysSnoc(front, last);
      ActiveRulesDistinct(front, start, end);
      RuleVersions.KeysSnoc(ActiveRules(front, start, end), last);
    }
  }

  lemma {:induction false} ActiveRulesSorted(rules: seq<RuleVersions.Row>, rank: string -> real, start: int, end: int)
    requires RuleVersions.SortedByName(rules, rank)
    ensures RuleVersions.SortedByName(ActiveRules(rules, start, end), rank)
    decreases |rules|
  {
    hide IsEffectiveForPeriod;
    if rules != [] {
      var front, last := rules[..|rules| - 1], rules[|rules| - 1];
      ActiveRulesSorted(front, rank, start, end);
      var active := ActiveRules(front, start, end);
      forall i | 0 <= i < |active|
        ensures rank(active[i].name) <= rank(last.name)
      {
        assert active[i] in active && active[i] in front;
      }
    }
  }

  /**
   Over any history of rule changes and routes of no negative distance: a payment keeps the value of a
   current guarantee for its period, if every current penalty has a name in front of the guarantee's.
   */
  lemma CalculationKeepsGuarantee(rows: seq<RuleVersions.Row>, company: Id, listing: seq<RuleVersions.Row>,
                                  rank: string -> real, routes: seq<CompletedRoute>, start: int, end: int,
                                  number: string -> Option<real>, guarantee: RuleVersions.Row, value: real)
    requires RuleVersions.Inv(rows) && RuleVersions.IsListing(listing, rows, company) && start <= end
    requires forall r :: r in routes ==> DistanceMeters(r, number) >= 0.0
    requires IsCurrent(guarantee, rows, company, end)
    requires Guarantees(guarantee, Basis(MetricsOf(routes, number), start, end, number), value)
    requires
      forall r :: IsCurrent(r, rows, company, end) && r.ruleType.Penalty? ==> rank(r.name) < rank(guarantee.name)
    requires Calculate(listing, rank, routes, start, end, number).Ok?
    ensures Calculate(listing, rank, routes, start, end, number).value.totalAmount >= RoundMoney(value)
  {
    hide RoundMoney, RuleVersions.LatestRulesOnly, RuleVersions.Inv, RuleVersions.Keys, RuleVersions.IsMaximal,
      RuleVersions.DistinctRuleKeys, RuleVersions.Versions, ActiveRules, Fold, MetricsOf, Guarantees, NotNegative;
    var latest := RuleVersions.LatestRulesOnly(listing, rank);
    var rules := ActiveRules(latest, start, end);
    var b := Basis(MetricsOf(routes, number), start, end, number);
    CurrentRules(rows, company, listing, rank, start, end);
    RuleVersions.LatestIsMaximumPerKey(listing, rank);
    ActiveRulesSorted(latest, rank, start, end);
    DistanceNotNegative(routes, number);
    var i :| 0 <= i < |rules| && rules[i] == guarantee;
    forall r | r in rules
      ensures NotNegative(r)
    {
      BuiltRowPayableIff(rows, r);
    }
    forall j | i < j < |rules|
      ensures !rules[j].ruleType.Penalty?
    {
      assert rules[j] in rules;
    }
    TotalKeepsGuarantee(rules, i, b, value);
  }
}
