/**
 What each rule of a payment pays, and what the metrics say, in terms of the configurations and routes
 alone (backend/src/modules/compensation/payments.service.ts).
 */
module PaymentOutcomes {
  import opened Common
  import opened Json
  import opened Money
  import opened StateMachines
  import opened Payments
  import Calendar
  import RuleConfig
  import RuleVersions

  // ---- Metrics ------------------------------------------------------------------------------------------------

  /** A number, or a text that converts to one, under the key `distanceMeters` of the optimisation data; else 0. */
  ghost function Meters(r: CompletedRoute, number: string -> Option<real>): real {
    match Field(r.optimizationData, "distanceMeters")
    case Num(meters) => meters
    case Str(text) => (match number(text) case Some(meters) => meters case None => 0.0)
    case _ => 0.0
  }

  ghost function SumMeters(routes: seq<CompletedRoute>, number: string -> Option<real>): real {
    if routes == [] then 0.0 else SumMeters(routes[..|routes| - 1], number) + Meters(routes[|routes| - 1], number)
  }

  lemma {:induction false} MetersAddUp(routes: seq<CompletedRoute>, number: string -> Option<real>)
    ensures TotalMeters(routes, number) == SumMeters(routes, number)
    ensures forall r :: r in routes ==> DistanceMeters(r, number) == Meters(r, number)
    decreases |routes|
  {
    hide Field;
    if routes != [] {
      MetersAddUp(routes[..|routes| - 1], number);
    }
  }

  /** Which delivered points a route has. */
  ghost function DeliveredAt(r: CompletedRoute, n: nat): (at: set<nat>)
    requires n <= |r.points|
  {
    set i: nat | i < n && r.points[i].status == Delivered
  }

  lemma {:induction false} DeliveriesAreCounted(r: CompletedRoute, n: nat)
    requires n <= |r.points|
    ensures |Deliveries(r, n)| == |DeliveredAt(r, n)|
    decreases n
  {
    if n == 0 {
      assert DeliveredAt(r, 0) == {};
    } else {
      DeliveriesAreCounted(r, n - 1);
      var before := DeliveredAt(r, n - 1);
      assert DeliveredAt(r, n) == before + (if r.points[n - 1].status == Delivered then {n - 1} else {});
    }
  }

  /**
   The metrics count the routes and their delivered points, and add up their distances, to the metre and
   to half a metre in kilometres; each route has its own row.
   */
  lemma MetricsOutcome(routes: seq<CompletedRoute>, number: string -> Option<real>)
    ensures
      var m := MetricsOf(routes, number);
      && m.completedRoutesCount == |routes| == |m.routes|
      && m.deliveredOrdersCount == |m.deliveredOrders| == SumDelivered(m.routes)
      && Abs(m.totalDistanceMeters - SumMeters(routes, number)) <= 0.0005
      && Abs(m.totalDistanceKm - SumMeters(routes, number) / 1000.0) <= 0.0005
      && forall i :: 0 <= i < |routes| ==>
           var r, row := routes[i], m.routes[i];
           && row.route == r.id && row.date == r.date && row.distanceMeters == Meters(r, number)
           && Abs(row.distanceKm - Meters(r, number) / 1000.0) <= 0.0005
           && row.deliveredOrdersCount == |DeliveredAt(r, |r.points|)|
  {
    hide RoundMetric, TotalMeters, SumMeters, DistanceMeters, Meters, Deliveries, AllDeliveries, DeliveredAt;
    MetersAddUp(routes, number);
    MetricError(TotalMeters(routes, number));
    MetricError(TotalMeters(routes, number) / 1000.0);
    DeliveredOrdersExactly(routes, number);
    forall i | 0 <= i < |routes|
      ensures
        && Abs(RoundMetric(DistanceMeters(routes[i], number) / 1000.0) - Meters(routes[i], number) / 1000.0) <= 0.0005
        && |Deliveries(routes[i], |routes[i].points|)| == |DeliveredAt(routes[i], |routes[i].points|)|
    {
      MetricError(DistanceMeters(routes[i], number) / 1000.0);
      DeliveriesAreCounted(routes[i], |routes[i].points|);
    }
  }

  // ---- Components ---------------------------------------------------------------------------------------------

  /** Where among the delivered orders those of a zone are. */
  ghost function InZoneAt(orders: seq<DeliveredOrder>, zone: Option<string>): (at: set<nat>) {
    set i: nat | i < |orders| && orders[i].zone == zone
  }

  lemma {:induction false} ZoneIsCounted(orders: seq<DeliveredOrder>, zone: Option<string>)
    ensures InZone(orders, zone) == |InZoneAt(orders, zone)|
    decreases |orders|
  {
    if orders == [] {
      assert InZoneAt(orders, zone) == {};
    } else {
      var front, n := orders[..|orders| - 1], |orders| - 1;
      ZoneIsCounted(front, zone);
      assert InZoneAt(orders, zone) == InZoneAt(front, zone) + (if orders[n].zone == zone then {n} else {});
    }
  }

  /** The zone of the conditions: a text that is not blank. */
  ghost function ZoneOf(conditions: Js): Option<string> {
    if RuleConfig.IsText(Field(conditions, "zoneId")) then Some(Field(conditions, "zoneId").text) else None
  }

  /** The amount is `rate` for each of `quantity`, to the cent. */
  ghost predicate Pays(amount: real, rate: real, quantity: real) {
    IsCents(amount) && Abs(amount - rate * quantity) <= 0.005
  }

  /** What the metric named in the conditions stands at. */
  ghost predicate StandsAt(conditions: Js, m: Metrics, level: real) {
    var name := Field(conditions, "metric");
    || (name == Str("completed_orders") && level == m.deliveredOrdersCount as real)
    || (name == Str("completed_routes") && level == m.completedRoutesCount as real)
    || (name == Str("distance_km") && level == m.totalDistanceKm)
  }

  /** The threshold of the conditions: a number, or a text that converts to one; else 0. */
  ghost function Limit(conditions: Js, number: string -> Option<real>): real {
    match Field(conditions, "threshold")
    case Num(limit) => limit
    case Str(text) => (match number(text) case Some(limit) => limit case None => 0.0)
    case _ => 0.0
  }

  /** The payment's period is of the kind named in the conditions. */
  ghost predicate IsPeriod(conditions: Js, start: int, end: int) {
    var name := Field(conditions, "period");
    || (name == Str("daily") && Calendar.MatchesPeriod(Calendar.Daily, start, end))
    || (name == Str("weekly") && Calendar.MatchesPeriod(Calendar.Weekly, start, end))
    || (name == Str("monthly") && Calendar.MatchesPeriod(Calendar.Monthly, start, end))
  }

  /** What a component of a rule is, given the amounts in front of it. */
  ghost predicate IsComponent(c: Component, rule: RuleVersions.Row, b: Basis, subtotal: real)
    requires RuleConfig.Parse(rule.config).Ok?
  {
    var config, m := RuleConfig.Parse(rule.config).value, b.metrics;
    var value, conditions := config.value, config.conditions;
    && c.ruleId == rule.id && c.key == rule.key && c.version == rule.version && c.ruleType == rule.ruleType
    && c.name == rule.name
    && match rule.ruleType
       case ZoneRate =>
         var count := |InZoneAt(m.deliveredOrders, ZoneOf(conditions))|;
         c.applied == (count > 0) && Pays(c.amount, value, count as real)
       case PerKm => c.applied == (m.totalDistanceKm > 0.0) && Pays(c.amount, value, m.totalDistanceKm)
       case PerOrder =>
         c.applied == (m.deliveredOrdersCount > 0) && Pays(c.amount, value, m.deliveredOrdersCount as real)
       case Bonus =>
         exists level: real ::
           && StandsAt(conditions, m, level) && c.applied == (level >= Limit(conditions, b.number))
           && c.amount == if c.applied then RoundMoney(value) else 0.0
       case Penalty =>
         exists level: real ::
           && StandsAt(conditions, m, level) && c.applied == (level < Limit(conditions, b.number))
           && c.amount == if c.applied then -RoundMoney(value) else 0.0
       case MinimumGuarantee =>
         && c.applied == (c.amount > 0.0)
         && c.amount ==
              if IsPeriod(conditions, b.periodStart, b.periodEnd) && subtotal < value then RoundMoney(value - subtotal)
              else 0.0
  }

  lemma RatePays(rate: real, quantity: real)
    ensures Pays(RoundMoney(Product(rate, quantity)), rate, quantity)
  {
    hide RoundMoney, IsCents;
    var exact := Product(rate, quantity);
    RoundedIsCents(exact);
    MoneyError(exact);
  }

  lemma TimesPays(rate: real, count: nat)
    ensures Pays(RoundMoney(Times(rate, count)), rate, count as real)
  {
    hide RoundMoney, Pays, Product;
    RatePays(rate, count as real);
  }

  lemma ZoneIsRead(conditions: Js)
    ensures RuleConfig.ReadString(Field(conditions, "zoneId")) == ZoneOf(conditions)
  {
    hide Field, RuleConfig.IsSpace;
  }

  lemma LimitIsRead(conditions: Js, b: Basis)
    ensures Threshold(conditions, b) == Limit(conditions, b.number)
  {
    hide Field;
  }

  lemma MetricIsRead(conditions: Js, m: Metrics)
    requires ReadMetric(Field(conditions, "metric")).Some?
    ensures StandsAt(conditions, m, MetricValue(ReadMetric(Field(conditions, "metric")).value, m))
  {
    hide Field;
  }

  lemma PeriodIsRead(conditions: Js, start: int, end: int)
    requires ReadPeriod(Field(conditions, "period")).Some?
    ensures
      IsPeriod(conditions, start, end)
      <==> Calendar.MatchesPeriod(ReadPeriod(Field(conditions, "period")).value, start, end)
  {
    hide Field, Calendar.MatchesPeriod;
    assert |"daily"| == 5 && |"weekly"| == 6 && |"monthly"| == 7;
  }

  lemma ComponentOutcome(rule: RuleVersions.Row, b: Basis, subtotal: real)
    requires RuleComponent(rule, b, subtotal).Ok?
    ensures RuleConfig.Parse(rule.config).Ok?
    ensures IsComponent(RuleComponent(rule, b, subtotal).value, rule, b, subtotal)
  {
    hide RoundMoney, RuleConfig.Parse, Field, Product, Times, Threshold, Limit, StandsAt, MetricValue, ReadMetric,
      ReadPeriod, InZone, InZoneAt, ZoneOf, RuleConfig.ReadString, IsPeriod, Pays, Calendar.MatchesPeriod;
    var config, m := RuleConfig.Parse(rule.config).value, b.metrics;
    var conditions := config.conditions;
    RoundOdd(config.value);
    match rule.ruleType
    case ZoneRate =>
      ZoneIsRead(conditions);
      ZoneIsCounted(m.deliveredOrders, ZoneOf(conditions));
      TimesPays(config.value, |InZoneAt(m.deliveredOrders, ZoneOf(conditions))|);
    case PerKm => RatePays(config.value, m.totalDistanceKm);
    case PerOrder => TimesPays(config.value, m.deliveredOrdersCount);
    case Bonus =>
      LimitIsRead(conditions, b);
      MetricIsRead(conditions, m);
    case Penalty =>
      LimitIsRead(conditions, b);
      MetricIsRead(conditions, m);
    case MinimumGuarantee =>
      PeriodIsRead(conditions, b.periodStart, b.periodEnd);
  }

  /**
   What the components of a breakdown are: one for each rule, in order, each paying what its rule says,
   with the sum of those in front as the subtotal; those that apply with an amount are listed as applied.
   */
  lemma BreakdownOutcome(rules: seq<RuleVersions.Row>, b: Basis)
    requires BreakdownOf(rules, b).Ok?
    ensures
      var r := BreakdownOf(rules, b).value;
      && r.metrics == b.metrics && |r.components| == |rules|
      && (forall i :: 0 <= i < |rules| ==>
           && RuleConfig.Parse(rules[i].config).Ok?
           && IsComponent(r.components[i], rules[i], b, Sum(r.components[..i])))
      && (forall c :: c in r.applied <==> c in r.components && c.applied && c.amount != 0.0)
  {
    hide RuleComponent, IsComponent, RoundMoney, RuleConfig.Parse, Fold, Sum, Where;
    ComponentsOfRules(rules, b);
    var components := Fold(rules, b).value.components;
    forall i | 0 <= i < |rules|
      ensures RuleConfig.Parse(rules[i].config).Ok?
      ensures IsComponent(components[i], rules[i], b, Sum(components[..i]))
    {
      var before := Fold(rules[..i], b).value;
      ComponentOutcome(rules[i], b, before.running);
      FoldSum(rules[..i], b);
      PrefixComponents(rules, i, b);
    }
    WhereMembers(components, IsApplied);
  }

  lemma {:induction false} PrefixComponents(rules: seq<RuleVersions.Row>, n: nat, b: Basis)
    requires n <= |rules| && Fold(rules, b).Ok?
    ensures Fold(rules[..n], b).Ok? && |Fold(rules, b).value.components| == |rules|
    ensures Fold(rules[..n], b).value.components == Fold(rules, b).value.components[..n]
    decreases |rules|
  {
    hide RuleComponent, RoundMoney;
    FoldAddsUp(rules, b);
    if n == |rules| {
      assert rules[..n] == rules;
    } else {
      assert rules[..|rules| - 1][..n] == rules[..n];
      PrefixComponents(rules[..|rules| - 1], n, b);
    }
  }

  lemma {:induction false} WhereMembers(components: seq<Component>, p: Component -> bool)
    ensures forall c :: c in Where(components, p) <==> c in components && p(c)
    decreases |components|
  {
    if components != [] {
      var front, last := components[..|components| - 1], components[|components| - 1];
      assert components == front + [last];
      WhereMembers(front, p);
    }
  }

  /**
   The whole calculation: an unordered period is refused; else the components are those of the current
   rules on the metrics of the routes.
   */
  lemma CalculationOutcome(listing: seq<RuleVersions.Row>, rank: string -> real, routes: seq<CompletedRoute>,
                           start: int, end: int, number: string -> Option<real>)
    ensures
      var r := Calculate(listing, rank, routes, start, end, number);
      var rules := ActiveRules(RuleVersions.LatestRulesOnly(listing, rank), start, end);
      var b := Basis(MetricsOf(routes, number), start, end, number);
      && (start > end ==> r == Err(BadWindow))
      && (start <= end && r.Ok? ==>
           && r.value.metrics == b.metrics && |r.value.components| == |rules|
           && forall i :: 0 <= i < |rules| ==>
                && RuleConfig.Parse(rules[i].config).Ok?
                && IsComponent(r.value.components[i], rules[i], b, Sum(r.value.components[..i])))
      && (start <= end && r.Err? ==> r.error == UnsupportedMetric || r.error == UnsupportedPeriod || r.error.BadConfig?)
  {
    hide IsComponent, RuleVersions.LatestRulesOnly, ActiveRules, MetricsOf, RuleConfig.Parse, Sum, Fold, Summary;
    if start <= end {
      var rules := ActiveRules(RuleVersions.LatestRulesOnly(listing, rank), start, end);
      var b := Basis(MetricsOf(routes, number), start, end, number);
      if BreakdownOf(rules, b).Ok? {
        BreakdownOutcome(rules, b);
      } else {
        FoldErrors(rules, b);
      }
    }
  }

  lemma {:induction false} FoldErrors(rules: seq<RuleVersions.Row>, b: Basis)
    ensures Fold(rules, b).Err? ==> Fold(rules, b).error != BadWindow
    decreases |rules|
  {
    hide RoundMoney, RuleConfig.Parse, Field, ReadMetric, ReadPeriod, Threshold, MetricValue, InZone,
      Calendar.MatchesPeriod;
    if rules != [] {
      FoldErrors(rules[..|rules| - 1], b);
    }
  }
}
