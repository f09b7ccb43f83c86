/**
 The dispatch ledger: orders, routes, route points and status history, as written by the routing
 service (backend/src/modules/routing/routing.service.ts) and the orders service
 (backend/src/modules/orders/orders.service.ts).  Each service call is one atomic step.
 */
module Dispatch {
  import opened Common
  import opened StateMachines

  datatype Coordinates = Coordinates(latitude: real, longitude: real)

  datatype Order = Order(
    company: Id, status: OrderStatus, location: Option<Coordinates>, courier: Option<Id>, assignedBy: Option<Id>)

  datatype Route = Route(
    company: Id, courier: Option<Id>, status: RouteStatus, version: nat, returnToStart: bool, deleted: bool)

  datatype Point = Point(company: Id, route: Id, order: Id, sequence: nat)

  datatype HistoryRow = HistoryRow(company: Id, order: Id, from: OrderStatus, to: OrderStatus, changedBy: Id)

  datatype Courier = Courier(company: Id, location: Option<Coordinates>)

  datatype Ledger = Ledger(
    orders: map<Id, Order>, routes: map<Id, Route>, points: seq<Point>, history: seq<HistoryRow>,
    couriers: map<Id, Courier>)

  datatype Error =
    | DuplicateOrders | OrdersMissing | TerminalOrder | AlreadyRouted | GeocodeFailed | CourierMissing
    | TooFewPoints | ReturnNeedsCourier | ProviderFailed | IncompleteSequence | UnknownOrder | UniqueViolation
    | RouteMissing | NotEditable | BadTransition | PlanOutsideEditing | OrderMissing

  /** The order-status-changed event. */
  datatype Change = Change(order: Id, from: OrderStatus, to: OrderStatus, courier: Option<Id>)

  datatype Outcome = Done(events: seq<Change>) | Failed(error: Error)

  /** The routing provider: geocodes by order, and the order ids of `orderedPoints` (None for the courier). */
  datatype Provider = Provider(geocodes: map<Id, Coordinates>, orderedPoints: Option<seq<Option<Id>>>)

  // ---- resolveRoutePlan -----------------------------------------------------------------------------

  predicate HasDuplicate(ids: seq<Id>) {
    exists i, j :: 0 <= i < j < |ids| && ids[i] == ids[j]
  }

  predicate IsLive(routes: map<Id, Route>, id: Id) {
    id in routes && !routes[id].deleted && IsActive(routes[id].status)
  }

  /** A point of one of the orders in an active route of the company, other than `exclude`. */
  predicate Conflicts(p: Point, l: Ledger, company: Id, ids: seq<Id>, exclude: Option<Id>) {
    p.company == company && p.order in ids && Some(p.route) != exclude && IsLive(l.routes, p.route)
  }

  /** The checks in front of geocoding. */
  function OrdersError(l: Ledger, company: Id, ids: seq<Id>, exclude: Option<Id>): Option<Error> {
    if HasDuplicate(ids) then Some(DuplicateOrders)
    else if exists id :: id in ids && (id !in l.orders || l.orders[id].company != company) then Some(OrdersMissing)
    else if exists id :: id in ids && IsTerminal(l.orders[id].status) then Some(TerminalOrder)
    else if exists p :: p in l.points && Conflicts(p, l, company, ids, exclude) then Some(AlreadyRouted)
    else None
  }

  /** resolveOrderCoordinates: the orders it leaves behind, and whether every address was found. */
  function Locate(orders: map<Id, Order>, ids: seq<Id>, geocodes: map<Id, Coordinates>): (map<Id, Order>, bool) {
    if ids == [] then (orders, true)
    else if ids[0] !in orders then (orders, false)
    else if orders[ids[0]].location.Some? then Locate(orders, ids[1..], geocodes)
    else if ids[0] !in geocodes then (orders, false)
    else
      Locate(orders[ids[0] := orders[ids[0]].(location := Some(geocodes[ids[0]]))], ids[1..], geocodes)
  }

  predicate CourierKnown(l: Ledger, company: Id, courier: Option<Id>) {
    courier.Some? ==> courier.value in l.couriers && l.couriers[courier.value].company == company
  }

  /** The checks behind geocoding: courier lookup and buildProviderPoints. */
  function PointsError(l: Ledger, company: Id, ids: seq<Id>, courier: Option<Id>, returnToStart: bool): Option<Error> {
    if !CourierKnown(l, company, courier) then Some(CourierMissing)
    else
      var located := courier.Some? && l.couriers[courier.value].location.Some?;
      if |ids| + (if located then 1 else 0) < 2 then Some(TooFewPoints)
      else if returnToStart && !located then Some(ReturnNeedsCourier)
      else None
  }

  /** resolveRoutePlan and the provider call: the ledger they leave, and the error or the order ids returned. */
  function Plan(l: Ledger, company: Id, ids: seq<Id>, courier: Option<Id>, returnToStart: bool, exclude: Option<Id>,
                provider: Provider): (Ledger, Result<seq<Id>, Error>) {
    var refused := OrdersError(l, company, ids, exclude);
    if refused.Some? then (l, Err(refused.value))
    else
      var (orders, found) := Locate(l.orders, ids, provider.geocodes);
      var m := l.(orders := orders);
      var unusable := PointsError(m, company, ids, courier, returnToStart);
      if !found then (m, Err(GeocodeFailed))
      else if unusable.Some? then (m, Err(unusable.value))
      else if provider.orderedPoints == None then (m, Err(ProviderFailed))
      else (m, PointOrders(ids, provider.orderedPoints.value))
  }

  /** The order ids of the provider's points; the courier point has none. */
  function OrderIds(orderedPoints: seq<Option<Id>>): seq<Id> {
    if orderedPoints == [] then []
    else (if orderedPoints[0].Some? then [orderedPoints[0].value] else []) + OrderIds(orderedPoints[1..])
  }

  /** The checks of buildRoutePointCreateData, and the (route, order) constraint of the database. */
  function PointOrders(ids: seq<Id>, orderedPoints: seq<Option<Id>>): Result<seq<Id>, Error> {
    var ordered := OrderIds(orderedPoints);
    if |ordered| != |ids| then Err(IncompleteSequence)
    else if exists id :: id in ordered && id !in ids then Err(UnknownOrder)
    else if HasDuplicate(ordered) then Err(UniqueViolation)
    else Ok(ordered)
  }

  function NewPoints(company: Id, route: Id, ordered: seq<Id>): seq<Point> {
    seq(|ordered|, i requires 0 <= i < |ordered| => Point(company, route, ordered[i], i + 1))
  }

  // ---- syncRouteOrdersWithCourier ---------------------------------------------------------------------

  /** What the loop writes: order rows, history rows and the events it will emit. */
  datatype Book = Book(orders: map<Id, Order>, history: seq<HistoryRow>, events: seq<Change>)

  function AssignOne(b: Book, company: Id, actor: Id, courier: Id, id: Id): Book {
    if id !in b.orders || IsTerminal(b.orders[id].status) then b
    else
      var order := b.orders[id].(courier := Some(courier), assignedBy := Some(actor));
      var from := order.status;
      if from != Assigned && CanTransition(from, Assigned) then
        Book(b.orders[id := order.(status := Assigned)],
             b.history + [HistoryRow(company, id, from, Assigned, actor)],
             b.events + [Change(id, from, Assigned, Some(courier))])
      else b.(orders := b.orders[id := order])
  }

  function AssignAll(b: Book, company: Id, actor: Id, courier: Id, ids: seq<Id>): Book {
    if ids == [] then b
    else AssignOne(AssignAll(b, company, actor, courier, ids[..|ids| - 1]), company, actor, courier, ids[|ids| - 1])
  }

  function Assign(l: Ledger, company: Id, actor: Id, courier: Option<Id>, ids: seq<Id>): (Ledger, Outcome) {
    match courier
    case None => (l, Done([]))
    case Some(c) =>
      var b := AssignAll(Book(l.orders, l.history, []), company, actor, c, ids);
      (l.(orders := b.orders, history := b.history), Done(b.events))
  }

  // ---- The calls ------------------------------------------------------------------------------------------

  datatype Call =
    | CreateOrder(company: Id, actor: Id, id: Id, location: Option<Coordinates>, courier: Option<Id>)
    | SetOrderCourier(company: Id, actor: Id, id: Id, courier: Option<Id>)
    | Transition(company: Id, actor: Id, id: Id, to: OrderStatus)
    | SetCourier(id: Id, profile: Courier)
    | BuildRoute(
        company: Id, actor: Id, id: Id, ids: seq<Id>, courier: Option<Id>, returnToStart: bool, provider: Provider)
    | UpdateRoute(company: Id, actor: Id, id: Id, change: RouteChange, provider: Provider)
    | DeleteRoute(company: Id, id: Id)

  /** The fields of an update that matter here; `other`: date, mode, waypoint order or locale is given. */
  datatype RouteChange = RouteChange(
    ids: Option<seq<Id>>, courier: Option<Option<Id>>, status: Option<RouteStatus>, returnToStart: Option<bool>,
    other: bool)

  function Build(l: Ledger, company: Id, actor: Id, id: Id, ids: seq<Id>, courier: Option<Id>, returnToStart: bool,
                 provider: Provider): (Ledger, Outcome) {
    var (m, planned) := Plan(l, company, ids, courier, returnToStart, None, provider);
    match planned
    case Err(error) => (m, Failed(error))
    case Ok(ordered) =>
      if id in m.routes then (m, Failed(UniqueViolation))
      else
        Assign(m.(routes := m.routes[id := Route(company, courier, Draft, 1, returnToStart, false)],
                  points := m.points + NewPoints(company, id, ordered)),
               company, actor, courier, ids)
  }

  function PointsOf(points: seq<Point>, route: Id): seq<Point> {
    if points == [] then []
    else if points[0].route == route then [points[0]] + PointsOf(points[1..], route)
    else PointsOf(points[1..], route)
  }

  function PointsExcept(points: seq<Point>, route: Id): seq<Point> {
    if points == [] then []
    else if points[0].route != route then [points[0]] + PointsExcept(points[1..], route)
    else PointsExcept(points[1..], route)
  }

  function OrdersOf(points: seq<Point>): seq<Id> {
    seq(|points|, i requires 0 <= i < |points| => points[i].order)
  }

  predicate ChangesPlan(c: RouteChange, current: Route) {
    || c.ids.Some? || c.returnToStart.Some? || c.other
    || (c.courier.Some? && c.courier.value != current.courier)
  }

  function UpdateError(c: RouteChange, current: Route): Option<Error> {
    var target := if c.status.Some? then c.status.value else current.status;
    if ChangesPlan(c, current) && !IsEditable(current.status) then Some(NotEditable)
    else if c.status.Some? && target != current.status && !CanTransitionRoute(current.status, target) then
      Some(BadTransition)
    else if ChangesPlan(c, current) && !IsEditable(target) then Some(PlanOutsideEditing)
    else None
  }

  predicate Visible(l: Ledger, company: Id, route: Id) {
    route in l.routes && l.routes[route].company == company && !l.routes[route].deleted
  }

  /** The route row after an update. */
  function Updated(c: RouteChange, current: Route): Route {
    var plan := ChangesPlan(c, current);
    current.(
      status := if c.status.Some? then c.status.value else current.status,
      courier := if plan && c.courier.Some? then c.courier.value else current.courier,
      returnToStart := if plan && c.returnToStart.Some? then c.returnToStart.value else current.returnToStart,
      version := if plan then current.version + 1 else current.version)
  }

  function Update(l: Ledger, company: Id, actor: Id, id: Id, c: RouteChange, provider: Provider): (Ledger, Outcome) {
    if !Visible(l, company, id) then (l, Failed(RouteMissing))
    else
      var current := l.routes[id];
      var refused := UpdateError(c, current);
      if refused.Some? then (l, Failed(refused.value))
      else
        var next := Updated(c, current);
        if !ChangesPlan(c, current) then (l.(routes := l.routes[id := next]), Done([]))
        else
          var ids := if c.ids.Some? then c.ids.value else OrdersOf(PointsOf(l.points, id));
          var (m, planned) := Plan(l, company, ids, next.courier, next.returnToStart, Some(id), provider);
          match planned
          case Err(error) => (m, Failed(error))
          case Ok(ordered) =>
            Assign(m.(routes := m.routes[id := next],
                      points := PointsExcept(m.points, id) + NewPoints(company, id, ordered)),
                   company, actor, next.courier, ids)
  }

  function Delete(l: Ledger, company: Id, id: Id): (Ledger, Outcome) {
    if !Visible(l, company, id) then (l, Failed(RouteMissing))
    else if !IsEditable(l.routes[id].status) then (l, Failed(NotEditable))
    else if !CanTransitionRoute(l.routes[id].status, RouteCancelled) then (l, Failed(BadTransition))
    else (l.(routes := l.routes[id := l.routes[id].(status := RouteCancelled, deleted := true)]), Done([]))
  }

  predicate OwnsOrder(l: Ledger, company: Id, id: Id) {
    id in l.orders && l.orders[id].company == company
  }

  function ChangeStatus(l: Ledger, company: Id, actor: Id, id: Id, to: OrderStatus): (Ledger, Outcome) {
    if !OwnsOrder(l, company, id) then (l, Failed(OrderMissing))
    else if !CanTransition(l.orders[id].status, to) then (l, Failed(BadTransition))
    else
      var order := l.orders[id];
      (l.(orders := l.orders[id := order.(status := to)],
          history := l.history + [HistoryRow(company, id, order.status, to, actor)]),
       Done([Change(id, order.status, to, order.courier)]))
  }

  function Create(l: Ledger, company: Id, actor: Id, id: Id, location: Option<Coordinates>, courier: Option<Id>)
    : (Ledger, Outcome)
  {
    if !CourierKnown(l, company, courier) then (l, Failed(CourierMissing))
    else if id in l.orders then (l, Failed(UniqueViolation))
    else
      var assignedBy := if courier.Some? then Some(actor) else None;
      (l.(orders := l.orders[id := Order(company, New, location, courier, assignedBy)]), Done([]))
  }

  function ChangeCourier(l: Ledger, company: Id, actor: Id, id: Id, courier: Option<Id>): (Ledger, Outcome) {
    if !OwnsOrder(l, company, id) then (l, Failed(OrderMissing))
    else if !CourierKnown(l, company, courier) then (l, Failed(CourierMissing))
    else
      var order := l.orders[id];
      var assignedBy :=
        if courier == order.courier then order.assignedBy else if courier.Some? then Some(actor) else None;
      (l.(orders := l.orders[id := order.(courier := courier, assignedBy := assignedBy)]), Done([]))
  }

  function Perform(l: Ledger, c: Call): (Ledger, Outcome) {
    match c
    case CreateOrder(company, actor, id, location, courier) => Create(l, company, actor, id, location, courier)
    case SetOrderCourier(company, actor, id, courier) => ChangeCourier(l, company, actor, id, courier)
    case Transition(company, actor, id, to) => ChangeStatus(l, company, actor, id, to)
    case SetCourier(id, profile) => (l.(couriers := l.couriers[id := profile]), Done([]))
    case BuildRoute(company, actor, id, ids, courier, returnToStart, provider) =>
      Build(l, company, actor, id, ids, courier, returnToStart, provider)
    case UpdateRoute(company, actor, id, change, provider) => Update(l, company, actor, id, change, provider)
    case DeleteRoute(company, id) => Delete(l, company, id)
  }

  const EMPTY: Ledger := Ledger(map[], map[], [], [], map[])

  function Run(l: Ledger, calls: seq<Call>): Ledger {
    if calls == [] then l else Perform(Run(l, calls[..|calls| - 1]), calls[|calls| - 1]).0
  }

  // ---- Point creation is a permutation of the planned orders ----------------------------------------------

  lemma NoDuplicate(ids: seq<Id>)
    ensures HasDuplicate(ids) <==> !Distinct(ids)
  {
  }

  lemma {:induction false} DistinctCounts(s: seq<Id>)
    requires Distinct(s)
    ensures forall x :: multiset(s)[x] == if x in s then 1 else 0
  {
    if s != [] {
      assert s == [s[0]] + s[1..];
      DistinctCounts(s[1..]);
      assert s[0] !in s[1..];
    }
  }

  lemma {:induction false} CountsDistinct(s: seq<Id>)
    requires forall x :: multiset(s)[x] <= 1
    ensures Distinct(s)
  {
    if s != [] {
      assert s == [s[0]] + s[1..];
      assert multiset(s) == multiset{s[0]} + multiset(s[1..]);
      assert multiset(s)[s[0]] <= 1;
      assert s[0] !in s[1..];
      forall x ensures multiset(s[1..])[x] <= 1 {
        assert multiset(s)[x] <= 1;
      }
      CountsDistinct(s[1..]);
    }
  }

  /** Pigeonhole: as many distinct ids as planned orders, all of them planned, are all the planned orders. */
  lemma DistinctAmong(ordered: seq<Id>, ids: seq<Id>)
    requires Distinct(ordered) && Distinct(ids) && |ordered| == |ids|
    requires forall id :: id in ordered ==> id in ids
    ensures multiset(ordered) == multiset(ids)
  {
    DistinctCardinality(ordered);
    DistinctCardinality(ids);
    SubsetSize(Elements(ordered), Elements(ids));
    DistinctCounts(ordered);
    DistinctCounts(ids);
    assert forall id :: id in ids ==> id in Elements(ordered);
  }

  /**
   For distinct orders, whatever the provider answers, the points that are created name exactly the
   planned orders, each once, in the provider's order, numbered 1..n; and they are created exactly if
   the answer is such an arrangement of the planned orders.
   */
  lemma PointsAreAPermutation(company: Id, route: Id, ids: seq<Id>, orderedPoints: seq<Option<Id>>)
    requires Distinct(ids)
    ensures
      var result := PointOrders(ids, orderedPoints);
      && (result.Ok? <==> multiset(OrderIds(orderedPoints)) == multiset(ids))
      && (result.Ok? ==>
            var points := NewPoints(company, route, result.value);
            && OrdersOf(points) == OrderIds(orderedPoints)
            && Distinct(OrdersOf(points))
            && forall i :: 0 <= i < |points| ==> points[i].sequence == i + 1 && points[i].route == route)
  {
    var ordered := OrderIds(orderedPoints);
    NoDuplicate(ordered);
    if PointOrders(ids, orderedPoints).Ok? {
      DistinctAmong(ordered, ids);
    } else if multiset(ordered) == multiset(ids) {
      assert |ordered| == |multiset(ordered)| == |multiset(ids)| == |ids|;
      forall id | id in ordered
        ensures id in ids
      {
        assert id in multiset(ordered);
      }
      DistinctCounts(ids);
      CountsDistinct(ordered);
    }
  }

  // ---- Exclusivity ------------------------------------------------------------------------------------------

  /** How many points of active, not deleted routes name this order. */
  function LiveCount(points: seq<Point>, routes: map<Id, Route>, order: Id): nat {
    if points == [] then 0
    else
      LiveCount(points[1..], routes, order) +
      (if points[0].order == order && IsLive(routes, points[0].route) then 1 else 0)
  }

  lemma {:induction false} LiveCountConcat(a: seq<Point>, b: seq<Point>, routes: map<Id, Route>, order: Id)
    ensures LiveCount(a + b, routes, order) == LiveCount(a, routes, order) + LiveCount(b, routes, order)
  {
    if a == [] {
      assert a + b == b;
    } else {
      LiveCountConcat(a[1..], b, routes, order);
      assert (a + b)[1..] == a[1..] + b;
    }
  }

  /** Points whose routes are live after a change were live before it. */
  lemma {:induction false} LiveCountFrame(points: seq<Point>, before: map<Id, Route>, after: map<Id, Route>, order: Id)
    requires forall p :: p in points && IsLive(after, p.route) ==> IsLive(before, p.route)
    ensures LiveCount(points, after, order) <= LiveCount(points, before, order)
  {
    if points != [] {
      assert points[0] in points;
      LiveCountFrame(points[1..], before, after, order);
    }
  }

  lemma {:induction false} LiveCountZero(points: seq<Point>, routes: map<Id, Route>, order: Id)
    requires forall p :: p in points && p.order == order ==> !IsLive(routes, p.route)
    ensures LiveCount(points, routes, order) == 0
  {
    if points != [] {
      assert points[0] in points;
      LiveCountZero(points[1..], routes, order);
    }
  }

  lemma {:induction false} LiveCountExcept(points: seq<Point>, routes: map<Id, Route>, route: Id, order: Id)
    ensures LiveCount(PointsExcept(points, route), routes, order) <= LiveCount(points, routes, order)
  {
    if points != [] {
      LiveCountExcept(points[1..], routes, route, order);
      if points[0].route != route {
        assert ([points[0]] + PointsExcept(points[1..], route))[1..] == PointsExcept(points[1..], route);
      }
    }
  }

  lemma {:induction false} LiveCountNew(points: seq<Point>, routes: map<Id, Route>, order: Id)
    requires forall i, j :: 0 <= i < j < |points| ==> points[i].order != points[j].order
    ensures LiveCount(points, routes, order) <= 1
  {
    if points != [] {
      if points[0].order == order {
        LiveCountZero(points[1..], routes, order);
      } else {
        LiveCountNew(points[1..], routes, order);
      }
    }
  }

  lemma {:induction false} ExceptMembers(points: seq<Point>, route: Id, p: Point)
    ensures p in PointsExcept(points, route) <==> p in points && p.route != route
  {
    if points != [] {
      ExceptMembers(points[1..], route, p);
      assert points == [points[0]] + points[1..];
    }
  }

  // ---- Points of one route ------------------------------------------------------------------------------------

  lemma PointsOfCons(points: seq<Point>, route: Id)
    ensures points == [] ==> PointsOf(points, route) == []
    ensures
      points != [] ==>
        PointsOf(points, route)
        == (if points[0].route == route then [points[0]] else []) + PointsOf(points[1..], route)
  {
  }

  lemma {:induction false} PointsOfConcat(a: seq<Point>, b: seq<Point>, route: Id)
    ensures PointsOf(a + b, route) == PointsOf(a, route) + PointsOf(b, route)
  {
    hide PointsOf;
    if a == [] {
      assert a + b == b;
      PointsOfCons([], route);
    } else {
      PointsOfConcat(a[1..], b, route);
      PointsOfCons(a, route);
      PointsOfCons(a + b, route);
      assert (a + b)[0] == a[0] && (a + b)[1..] == a[1..] + b;
    }
  }

  lemma {:induction false} PointsOfUniform(points: seq<Point>, route: Id, other: Id)
    requires forall p :: p in points ==> p.route == route
    ensures PointsOf(points, other) == if other == route then points else []
  {
    if points != [] {
      assert points[0] in points;
      PointsOfUniform(points[1..], route, other);
    }
  }

  lemma {:induction false} PointsOfExcept(points: seq<Point>, route: Id, other: Id)
    ensures PointsOf(PointsExcept(points, route), other) == if other == route then [] else PointsOf(points, other)
  {
    if points != [] {
      PointsOfExcept(points[1..], route, other);
      if points[0].route != route {
        assert ([points[0]] + PointsExcept(points[1..], route))[1..] == PointsExcept(points[1..], route);
      }
    }
  }

  lemma {:induction false} PointsOfMembers(points: seq<Point>, route: Id)
    ensures forall p :: p in PointsOf(points, route) ==> p in points && p.route == route
  {
    if points != [] {
      PointsOfMembers(points[1..], route);
    }
  }

  // ---- The route invariant ------------------------------------------------------------------------------------

  ghost predicate Numbered(points: seq<Point>) {
    && (forall i :: 0 <= i < |points| ==> points[i].sequence == i + 1)
    && (forall i, j :: 0 <= i < j < |points| ==> points[i].order != points[j].order)
  }

  ghost predicate Linked(p: Point, l: Ledger) {
    && p.route in l.routes && l.routes[p.route].company == p.company
    && p.order in l.orders && l.orders[p.order].company == p.company
  }

  ghost predicate RouteInv(l: Ledger) {
    && (forall p :: p in l.points ==> Linked(p, l))
    && (forall o :: LiveCount(l.points, l.routes, o) <= 1)
    && (forall r :: r in l.routes ==> Numbered(PointsOf(l.points, r)))
  }

  /** Orders are neither removed nor moved to another company. */
  ghost predicate SameOrders(a: map<Id, Order>, b: map<Id, Order>) {
    forall id :: id in a ==> id in b && b[id].company == a[id].company
  }

  lemma RouteInvFrame(l: Ledger, m: Ledger)
    requires RouteInv(l) && m.routes == l.routes && m.points == l.points && SameOrders(l.orders, m.orders)
    ensures RouteInv(m)
  {
    forall p | p in m.points
      ensures Linked(p, m)
    {
      assert Linked(p, l);
    }
  }

  /** New points for route `id`, which replace its old ones if it had any. */
  lemma SetPoints(l: Ledger, id: Id, route: Route, ordered: seq<Id>)
    requires RouteInv(l) && Distinct(ordered)
    requires id in l.routes ==> l.routes[id].company == route.company
    requires forall o :: o in ordered ==> o in l.orders && l.orders[o].company == route.company
    requires forall p :: p in l.points && p.order in ordered && p.route != id ==> !IsLive(l.routes, p.route)
    ensures RouteInv(l.(routes := l.routes[id := route],
                        points := PointsExcept(l.points, id) + NewPoints(route.company, id, ordered)))
  {
    hide PointsOf, PointsExcept, LiveCount;
    var kept, added := PointsExcept(l.points, id), NewPoints(route.company, id, ordered);
    var m := l.(routes := l.routes[id := route], points := kept + added);
    forall p ensures p in kept <==> p in l.points && p.route != id {
      ExceptMembers(l.points, id, p);
    }
    forall p | p in m.points
      ensures Linked(p, m)
    {
      if p in kept {
        assert Linked(p, l);
      }
    }
    forall o ensures LiveCount(m.points, m.routes, o) <= 1 {
      LiveCountConcat(kept, added, m.routes, o);
      if o in ordered {
        LiveCountZero(kept, m.routes, o);
        LiveCountNew(added, m.routes, o);
      } else {
        LiveCountZero(added, m.routes, o);
        LiveCountFrame(kept, l.routes, m.routes, o);
        LiveCountExcept(l.points, l.routes, id, o);
      }
    }
    forall r | r in m.routes
      ensures Numbered(PointsOf(m.points, r))
    {
      PointsOfConcat(kept, added, r);
      PointsOfExcept(l.points, id, r);
      PointsOfUniform(added, id, r);
    }
  }

  lemma {:induction false} ExceptAbsent(points: seq<Point>, route: Id)
    requires forall p :: p in points ==> p.route != route
    ensures PointsExcept(points, route) == points
  {
    if points != [] {
      assert points[0] in points;
      ExceptAbsent(points[1..], route);
    }
  }

  /** A status change keeps the points; it never brings a route back. */
  lemma SetRoute(l: Ledger, id: Id, route: Route)
    requires RouteInv(l) && id in l.routes && l.routes[id].company == route.company
    requires !route.deleted && IsActive(route.status) ==> IsLive(l.routes, id)
    ensures RouteInv(l.(routes := l.routes[id := route]))
  {
    var m := l.(routes := l.routes[id := route]);
    forall p | p in m.points
      ensures Linked(p, m)
    {
      assert Linked(p, l);
    }
    forall o ensures LiveCount(m.points, m.routes, o) <= 1 {
      LiveCountFrame(l.points, l.routes, m.routes, o);
    }
  }

  // ---- The history invariant ----------------------------------------------------------------------------------

  function RowsOf(history: seq<HistoryRow>, order: Id): seq<HistoryRow> {
    if history == [] then []
    else
      var last := history[|history| - 1];
      RowsOf(history[..|history| - 1], order) + (if last.order == order then [last] else [])
  }

  /** The rows lead from `new` to `status` without a gap, by allowed transitions only. */
  predicate IsChain(rows: seq<HistoryRow>, status: OrderStatus) {
    if rows == [] then status == New
    else
      var last := rows[|rows| - 1];
      last.to == status && CanTransition(last.from, last.to) && IsChain(rows[..|rows| - 1], last.from)
  }

  lemma {:induction false} ChainLength(rows: seq<HistoryRow>, status: OrderStatus)
    requires IsChain(rows, status)
    ensures |rows| == Stage(status)
  {
    if rows != [] {
      ChainLength(rows[..|rows| - 1], rows[|rows| - 1].from);
    }
  }

  lemma RowsOfAppend(history: seq<HistoryRow>, row: HistoryRow, order: Id)
    ensures RowsOf(history + [row], order) ==
            if row.order == order then RowsOf(history, order) + [row] else RowsOf(history, order)
  {
    assert (history + [row])[..|history|] == history;
  }

  ghost predicate BookInv(orders: map<Id, Order>, history: seq<HistoryRow>) {
    && (forall h :: h in history ==> h.order in orders && orders[h.order].company == h.company)
    && (forall o :: o in orders ==> IsChain(RowsOf(history, o), orders[o].status))
  }

  lemma ChainExtends(rows: seq<HistoryRow>, row: HistoryRow)
    requires IsChain(rows, row.from) && CanTransition(row.from, row.to)
    ensures IsChain(rows + [row], row.to)
  {
    assert (rows + [row])[..|rows|] == rows;
  }

  /** One order moves by an allowed transition and one row records it. */
  lemma RecordKeepsBook(orders: map<Id, Order>, history: seq<HistoryRow>, id: Id, order: Order, changedBy: Id)
    requires BookInv(orders, history) && id in orders
    requires order.company == orders[id].company && CanTransition(orders[id].status, order.status)
    ensures
      var row := HistoryRow(order.company, id, orders[id].status, order.status, changedBy);
      BookInv(orders[id := order], history + [row])
  {
    hide RowsOf, IsChain, CanTransition;
    var row := HistoryRow(order.company, id, orders[id].status, order.status, changedBy);
    forall o | o in orders
      ensures IsChain(RowsOf(history + [row], o), orders[id := order][o].status)
    {
      RowsOfAppend(history, row, o);
      if o == id {
        ChainExtends(RowsOf(history, o), row);
      }
    }
  }

  /** Only locations are written, and only where there was none. */
  ghost predicate LocatedOnly(a: map<Id, Order>, b: map<Id, Order>) {
    && a.Keys == b.Keys
    && forall id :: id in a ==>
         b[id] == a[id].(location := b[id].location) && (a[id].location.Some? ==> b[id].location == a[id].location)
  }

  lemma {:induction false} LocateWrites(orders: map<Id, Order>, ids: seq<Id>, geocodes: map<Id, Coordinates>)
    ensures
      var (after, found) := Locate(orders, ids, geocodes);
      && LocatedOnly(orders, after)
      && (found ==> forall id :: id in ids ==> id in after && after[id].location.Some?)
    decreases |ids|
  {
    if ids != [] && ids[0] in orders {
      if orders[ids[0]].location.Some? {
        LocateWrites(orders, ids[1..], geocodes);
      } else if ids[0] in geocodes {
        LocateWrites(orders[ids[0] := orders[ids[0]].(location := Some(geocodes[ids[0]]))], ids[1..], geocodes);
      }
    }
  }

  /** A plan, made or refused, leaves all but locations alone; a plan that is made has passed every check. */
  lemma PlanPromises(l: Ledger, company: Id, ids: seq<Id>, courier: Option<Id>, returnToStart: bool,
                     exclude: Option<Id>, provider: Provider)
    ensures
      var (m, planned) := Plan(l, company, ids, courier, returnToStart, exclude, provider);
      && m == l.(orders := m.orders)
      && LocatedOnly(l.orders, m.orders)
      && (planned.Ok? ==>
            && provider.orderedPoints.Some?
            && Distinct(ids)
            && (forall id :: id in ids ==>
                  id in l.orders && l.orders[id].company == company && !IsTerminal(l.orders[id].status))
            && (forall p :: p in l.points ==> !Conflicts(p, l, company, ids, exclude))
            && multiset(planned.value) == multiset(ids)
            && Distinct(planned.value)
            && (forall id :: id in planned.value <==> id in ids)
            && planned.value == OrderIds(provider.orderedPoints.value))
  {
    LocateWrites(l.orders, ids, provider.geocodes);
    NoDuplicate(ids);
    if Plan(l, company, ids, courier, returnToStart, exclude, provider).1.Ok? {
      PointsAreAPermutation(company, "", ids, provider.orderedPoints.value);
      var ordered := OrderIds(provider.orderedPoints.value);
      NoDuplicate(ordered);
      forall id ensures id in ordered <==> id in ids {
        assert id in ordered <==> id in multiset(ordered);
        assert id in ids <==> id in multiset(ids);
      }
    }
  }

  // ---- What the assignment loop does -----------------------------------------------------------------------------

  function ConfirmedOf(orders: map<Id, Order>, ids: seq<Id>): seq<Id> {
    if ids == [] then []
    else
      var last := ids[|ids| - 1];
      ConfirmedOf(orders, ids[..|ids| - 1])
      + (if last in orders && orders[last].status == Confirmed then [last] else [])
  }

  function AssignedOrder(order: Order, actor: Id, courier: Id): Order {
    order.(courier := Some(courier), assignedBy := Some(actor),
           status := if order.status == Confirmed then Assigned else order.status)
  }

  lemma AssignOneEffect(b: Book, company: Id, actor: Id, courier: Id, id: Id)
    requires id in b.orders && !IsTerminal(b.orders[id].status)
    ensures
      var order := AssignedOrder(b.orders[id], actor, courier);
      AssignOne(b, company, actor, courier, id) ==
        if b.orders[id].status == Confirmed then
          Book(b.orders[id := order],
               b.history + [HistoryRow(company, id, Confirmed, Assigned, actor)],
               b.events + [Change(id, Confirmed, Assigned, Some(courier))])
        else b.(orders := b.orders[id := order])
  {
  }

  /**
   Every order of the list gets the courier; exactly the confirmed ones advance, to assigned, with one
   history row and one event each, in list order; no other order changes.
   */
  lemma {:induction false} AssignmentEffect(b: Book, company: Id, actor: Id, courier: Id, ids: seq<Id>)
    requires Distinct(ids)
    requires forall id :: id in ids ==> id in b.orders && !IsTerminal(b.orders[id].status)
    ensures
      var c := AssignAll(b, company, actor, courier, ids);
      var advanced := ConfirmedOf(b.orders, ids);
      && c.orders.Keys == b.orders.Keys
      && (forall o :: o in b.orders ==>
            c.orders[o] == if o in ids then AssignedOrder(b.orders[o], actor, courier) else b.orders[o])
      && c.history == b.history +
           seq(|advanced|, i requires 0 <= i < |advanced| =>
             HistoryRow(company, advanced[i], Confirmed, Assigned, actor))
      && c.events == b.events +
           seq(|advanced|, i requires 0 <= i < |advanced| => Change(advanced[i], Confirmed, Assigned, Some(courier)))
    decreases |ids|
  {
    hide AssignOne;
    if ids != [] {
      var front, last := ids[..|ids| - 1], ids[|ids| - 1];
      assert ids == front + [last];
      assert last in ids && last !in front;
      AssignmentEffect(b, company, actor, courier, front);
      AssignOneEffect(AssignAll(b, company, actor, courier, front), company, actor, courier, last);
    }
  }

  lemma AssignOneSkips(b: Book, company: Id, actor: Id, courier: Id, id: Id)
    ensures id !in b.orders || IsTerminal(b.orders[id].status) ==> AssignOne(b, company, actor, courier, id) == b
  {
  }

  lemma AssignOneKeepsBook(b: Book, company: Id, actor: Id, courier: Id, id: Id)
    requires BookInv(b.orders, b.history)
    requires id in b.orders ==> b.orders[id].company == company
    ensures
      var c := AssignOne(b, company, actor, courier, id);
      BookInv(c.orders, c.history) && SameOrders(b.orders, c.orders)
  {
    hide AssignOne;
    AssignOneSkips(b, company, actor, courier, id);
    if id in b.orders && !IsTerminal(b.orders[id].status) {
      AssignOneEffect(b, company, actor, courier, id);
    }
    if id in b.orders && b.orders[id].status == Confirmed {
      RecordKeepsBook(b.orders, b.history, id, AssignedOrder(b.orders[id], actor, courier), actor);
    }
  }

  lemma {:induction false} AssignAllKeepsBook(b: Book, company: Id, actor: Id, courier: Id, ids: seq<Id>)
    requires BookInv(b.orders, b.history)
    requires forall id :: id in ids ==> id in b.orders && b.orders[id].company == company
    ensures
      var c := AssignAll(b, company, actor, courier, ids);
      BookInv(c.orders, c.history) && SameOrders(b.orders, c.orders)
    decreases |ids|
  {
    if ids != [] {
      AssignAllKeepsBook(b, company, actor, courier, ids[..|ids| - 1]);
      assert ids[|ids| - 1] in ids;
      AssignOneKeepsBook(
        AssignAll(b, company, actor, courier, ids[..|ids| - 1]), company, actor, courier, ids[|ids| - 1]);
    }
  }

  // ---- Every call keeps the ledger in order ------------------------------------------------------------------------

  ghost predicate Inv(l: Ledger) {
    RouteInv(l) && BookInv(l.orders, l.history)
  }

  lemma AssignKeepsInv(l: Ledger, company: Id, actor: Id, courier: Option<Id>, ids: seq<Id>)
    requires Inv(l)
    requires forall id :: id in ids ==> id in l.orders && l.orders[id].company == company
    ensures Inv(Assign(l, company, actor, courier, ids).0)
  {
    if courier.Some? {
      AssignAllKeepsBook(Book(l.orders, l.history, []), company, actor, courier.value, ids);
    }
    RouteInvFrame(l, Assign(l, company, actor, courier, ids).0);
  }

  lemma LocatedKeepsInv(l: Ledger, m: Ledger)
    requires Inv(l) && m == l.(orders := m.orders) && LocatedOnly(l.orders, m.orders)
    ensures Inv(m)
  {
    RouteInvFrame(l, m);
  }

  /** The transaction of a build or an update: the route row, its points, the assignment. */
  lemma CommitKeepsInv(l: Ledger, id: Id, route: Route, actor: Id, ids: seq<Id>, ordered: seq<Id>)
    requires Inv(l) && Distinct(ordered)
    requires id in l.routes ==> l.routes[id].company == route.company
    requires forall o :: o in ordered <==> o in ids
    requires forall o :: o in ids ==> o in l.orders && l.orders[o].company == route.company
    requires forall p :: p in l.points ==> !Conflicts(p, l, route.company, ids, Some(id))
    ensures
      var m := l.(routes := l.routes[id := route],
                  points := PointsExcept(l.points, id) + NewPoints(route.company, id, ordered));
      Inv(Assign(m, route.company, actor, route.courier, ids).0)
  {
    var m := l.(routes := l.routes[id := route],
                points := PointsExcept(l.points, id) + NewPoints(route.company, id, ordered));
    forall p | p in l.points && p.order in ordered && p.route != id
      ensures !IsLive(l.routes, p.route)
    {
      assert Linked(p, l) && !Conflicts(p, l, route.company, ids, Some(id));
    }
    SetPoints(l, id, route, ordered);
    AssignKeepsInv(m, route.company, actor, route.courier, ids);
  }

  lemma BuildKeepsInv(l: Ledger, company: Id, actor: Id, id: Id, ids: seq<Id>, courier: Option<Id>, returnToStart: bool,
                      provider: Provider)
    requires Inv(l)
    ensures Inv(Build(l, company, actor, id, ids, courier, returnToStart, provider).0)
  {
    hide Plan, AssignAll;
    PlanPromises(l, company, ids, courier, returnToStart, None, provider);
    var (m, planned) := Plan(l, company, ids, courier, returnToStart, None, provider);
    LocatedKeepsInv(l, m);
    if planned.Ok? && id !in m.routes {
      assert forall p :: p in m.points ==> Linked(p, m);
      ExceptAbsent(m.points, id);
      forall p | p in m.points
        ensures !Conflicts(p, m, company, ids, Some(id))
      {
        assert !Conflicts(p, l, company, ids, None);
      }
      CommitKeepsInv(m, id, Route(company, courier, Draft, 1, returnToStart, false), actor, ids, planned.value);
    }
  }

  lemma UpdateKeepsInv(l: Ledger, company: Id, actor: Id, id: Id, c: RouteChange, provider: Provider)
    requires Inv(l)
    ensures Inv(Update(l, company, actor, id, c, provider).0)
  {
    hide Plan, AssignAll;
    if Visible(l, company, id) && UpdateError(c, l.routes[id]) == None {
      var current := l.routes[id];
      var next := Updated(c, current);
      if !ChangesPlan(c, current) {
        SetRoute(l, id, next);
      } else {
        var ids := if c.ids.Some? then c.ids.value else OrdersOf(PointsOf(l.points, id));
        PlanPromises(l, company, ids, next.courier, next.returnToStart, Some(id), provider);
        var (m, planned) := Plan(l, company, ids, next.courier, next.returnToStart, Some(id), provider);
        LocatedKeepsInv(l, m);
        if planned.Ok? {
          forall p | p in m.points
            ensures !Conflicts(p, m, company, ids, Some(id))
          {
            assert !Conflicts(p, l, company, ids, Some(id));
          }
          CommitKeepsInv(m, id, next, actor, ids, planned.value);
        }
      }
    }
  }

  /** An order row that changes neither company nor status. */
  lemma SetOrderKeepsInv(l: Ledger, id: Id, order: Order)
    requires Inv(l) && id in l.orders
    requires order.company == l.orders[id].company && order.status == l.orders[id].status
    ensures Inv(l.(orders := l.orders[id := order]))
  {
    hide RouteInv, RowsOf, IsChain;
    RouteInvFrame(l, l.(orders := l.orders[id := order]));
  }

  lemma {:induction false} RowsOfAbsent(history: seq<HistoryRow>, order: Id)
    requires forall h :: h in history ==> h.order != order
    ensures RowsOf(history, order) == []
  {
    if history != [] {
      assert history[|history| - 1] in history;
      RowsOfAbsent(history[..|history| - 1], order);
    }
  }

  lemma NewOrderKeepsInv(l: Ledger, id: Id, order: Order)
    requires Inv(l) && id !in l.orders && order.status == New
    ensures Inv(l.(orders := l.orders[id := order]))
  {
    RowsOfAbsent(l.history, id);
    RouteInvFrame(l, l.(orders := l.orders[id := order]));
  }

  lemma PerformKeepsInv(l: Ledger, c: Call)
    requires Inv(l)
    ensures Inv(Perform(l, c).0)
  {
    match c
    case CreateOrder(company, actor, id, location, courier) =>
      if CourierKnown(l, company, courier) && id !in l.orders {
        NewOrderKeepsInv(l, id, Perform(l, c).0.orders[id]);
      }
    case SetOrderCourier(company, actor, id, courier) =>
      if Perform(l, c).1.Done? {
        SetOrderKeepsInv(l, id, Perform(l, c).0.orders[id]);
      }
    case Transition(company, actor, id, to) =>
      if Perform(l, c).1.Done? {
        RecordKeepsBook(l.orders, l.history, id, l.orders[id].(status := to), actor);
        RouteInvFrame(l, Perform(l, c).0);
      }
    case SetCourier(id, profile) =>
      RouteInvFrame(l, Perform(l, c).0);
    case BuildRoute(company, actor, id, ids, courier, returnToStart, provider) =>
      BuildKeepsInv(l, company, actor, id, ids, courier, returnToStart, provider);
    case UpdateRoute(company, actor, id, change, provider) =>
      UpdateKeepsInv(l, company, actor, id, change, provider);
    case DeleteRoute(company, id) =>
      if Perform(l, c).1.Done? {
        SetRoute(l, id, Perform(l, c).0.routes[id]);
      }
  }

  lemma {:induction false} RunKeepsInv(l: Ledger, calls: seq<Call>)
    requires Inv(l)
    ensures Inv(Run(l, calls))
    decreases |calls|
  {
    hide Perform, Inv;
    if calls != [] {
      RunKeepsInv(l, calls[..|calls| - 1]);
      PerformKeepsInv(Run(l, calls[..|calls| - 1]), calls[|calls| - 1]);
    }
  }

  lemma NothingDispatched()
    ensures Inv(EMPTY)
  {
  }

  // ---- What holds after any calls -----------------------------------------------------------------------------------

  /** An order is in at most one point over all active, not deleted routes of all companies. */
  lemma OrdersAreExclusive(calls: seq<Call>, order: Id)
    ensures LiveCount(Run(EMPTY, calls).points, Run(EMPTY, calls).routes, order) <= 1
  {
    hide Run;
    RunKeepsInv(EMPTY, calls);
  }

  /** The points of a route name distinct orders of the route's company, numbered from 1 without gaps. */
  lemma RoutesAreNumbered(calls: seq<Call>, route: Id)
    requires route in Run(EMPTY, calls).routes
    ensures
      var l := Run(EMPTY, calls);
      && Numbered(PointsOf(l.points, route))
      && forall p :: p in PointsOf(l.points, route) ==>
           p.order in l.orders && l.orders[p.order].company == l.routes[route].company
  {
    hide Run;
    RunKeepsInv(EMPTY, calls);
    PointsOfMembers(Run(EMPTY, calls).points, route);
    assert forall p :: p in Run(EMPTY, calls).points ==> Linked(p, Run(EMPTY, calls));
  }

  /**
   Whichever service wrote them, the history rows of an order lead from `new` to its status without a
   gap, by allowed transitions; there are exactly as many as its status is far, so at most five.
   */
  lemma HistoryIsAChain(calls: seq<Call>, order: Id)
    requires order in Run(EMPTY, calls).orders
    ensures
      var l := Run(EMPTY, calls);
      && IsChain(RowsOf(l.history, order), l.orders[order].status)
      && |RowsOf(l.history, order)| == Stage(l.orders[order].status) <= 5
  {
    hide Run, RouteInv, RowsOf, IsChain, CanTransition;
    NothingDispatched();
    RunKeepsInv(EMPTY, calls);
    ChainLength(RowsOf(Run(EMPTY, calls).history, order), Run(EMPTY, calls).orders[order].status);
  }

  /** A call that fails leaves every row as it was, but for locations that were missing. */
  lemma FailureWritesOnlyLocations(l: Ledger, c: Call)
    requires Perform(l, c).1.Failed?
    ensures
      var m := Perform(l, c).0;
      m == l.(orders := m.orders) && LocatedOnly(l.orders, m.orders)
  {
    hide Plan, AssignAll;
    match c
    case BuildRoute(company, actor, id, ids, courier, returnToStart, provider) =>
      PlanPromises(l, company, ids, courier, returnToStart, None, provider);
    case UpdateRoute(company, actor, id, change, provider) =>
      if Visible(l, company, id) {
        var next := Updated(change, l.routes[id]);
        var ids := if change.ids.Some? then change.ids.value else OrdersOf(PointsOf(l.points, id));
        PlanPromises(l, company, ids, next.courier, next.returnToStart, Some(id), provider);
      }
    case _ =>
  }

  lemma ReplacedPoints(points: seq<Point>, route: Id, added: seq<Point>, other: Id)
    requires forall p :: p in added ==> p.route == route
    ensures
      PointsOf(PointsExcept(points, route) + added, other)
      == if other == route then added else PointsOf(points, other)
  {
    PointsOfConcat(PointsExcept(points, route), added, other);
    PointsOfExcept(points, route, other);
    PointsOfUniform(added, route, other);
  }

  /**
   A route that is built: the fresh draft has exactly the requested orders as its points, in the
   provider's order; all other routes keep their rows and points.
   */
  lemma BuiltRoute(l: Ledger, company: Id, actor: Id, id: Id, ids: seq<Id>, courier: Option<Id>, returnToStart: bool,
                   provider: Provider)
    requires Inv(l)
    requires Build(l, company, actor, id, ids, courier, returnToStart, provider).1.Done?
    ensures
      var m := Build(l, company, actor, id, ids, courier, returnToStart, provider).0;
      && id !in l.routes
      && m.routes == l.routes[id := Route(company, courier, Draft, 1, returnToStart, false)]
      && OrdersOf(PointsOf(m.points, id)) == OrderIds(provider.orderedPoints.value)
      && multiset(OrdersOf(PointsOf(m.points, id))) == multiset(ids)
      && forall r :: r != id ==> PointsOf(m.points, r) == PointsOf(l.points, r)
  {
    hide Plan, AssignAll, PointsOf, PointsExcept;
    PlanPromises(l, company, ids, courier, returnToStart, None, provider);
    var added := NewPoints(company, id, OrderIds(provider.orderedPoints.value));
    assert forall p :: p in l.points ==> Linked(p, l);
    ExceptAbsent(l.points, id);
    assert OrdersOf(added) == OrderIds(provider.orderedPoints.value);
    forall r ensures PointsOf(l.points + added, r) == if r == id then added else PointsOf(l.points, r) {
      ReplacedPoints(l.points, id, added, r);
    }
  }

  /** What the transaction of a changed plan writes to routes and points. */
  lemma UpdatedRows(l: Ledger, company: Id, actor: Id, id: Id, c: RouteChange, provider: Provider)
    requires Update(l, company, actor, id, c, provider).1.Done? && ChangesPlan(c, l.routes[id])
    ensures
      var m := Update(l, company, actor, id, c, provider).0;
      && provider.orderedPoints.Some?
      && var ordered := OrderIds(provider.orderedPoints.value);
      && m.routes == l.routes[id := Updated(c, l.routes[id])]
      && m.points == PointsExcept(l.points, id) + NewPoints(company, id, ordered)
      && multiset(ordered) == multiset(if c.ids.Some? then c.ids.value else OrdersOf(PointsOf(l.points, id)))
  {
    hide Plan, AssignAll;
    var next := Updated(c, l.routes[id]);
    var ids := if c.ids.Some? then c.ids.value else OrdersOf(PointsOf(l.points, id));
    PlanPromises(l, company, ids, next.courier, next.returnToStart, Some(id), provider);
  }

  /** What makes an update a change of the plan. */
  ghost predicate TouchesPlan(c: RouteChange, current: Route) {
    || c.ids != None || c.returnToStart != None || c.other
    || (c.courier.Some? && c.courier.value != current.courier)
  }

  /**
   A route that is updated has the status asked for, which is the old one or an allowed next one.  A
   changed plan replaces its points by exactly the wanted orders (its own, if none are given), takes over
   courier and return as far as they are given, and raises the version by one; otherwise all these stay.
   Other routes keep their rows and points.
   */
  lemma UpdatedRoute(l: Ledger, company: Id, actor: Id, id: Id, c: RouteChange, provider: Provider)
    requires Update(l, company, actor, id, c, provider).1.Done?
    ensures
      var m := Update(l, company, actor, id, c, provider).0;
      && Visible(l, company, id) && id in m.routes
      && var was, now := l.routes[id], m.routes[id];
      && m.routes == l.routes[id := now] && now.company == was.company && !now.deleted
      && now.status == Or(c.status, was.status)
      && (now.status == was.status || CanTransitionRoute(was.status, now.status))
      && (forall r :: r != id ==> PointsOf(m.points, r) == PointsOf(l.points, r))
      && (if TouchesPlan(c, was) then
            && IsEditable(was.status) && IsEditable(now.status)
            && now.version == was.version + 1
            && now.courier == Or(c.courier, was.courier) && now.returnToStart == Or(c.returnToStart, was.returnToStart)
            && provider.orderedPoints.Some?
            && OrdersOf(PointsOf(m.points, id)) == OrderIds(provider.orderedPoints.value)
            && multiset(OrdersOf(PointsOf(m.points, id))) ==
                 multiset(if c.ids.Some? then c.ids.value else OrdersOf(PointsOf(l.points, id)))
          else m.points == l.points && now == was.(status := now.status))
  {
    hide Plan, AssignAll, PointsOf, PointsExcept;
    if ChangesPlan(c, l.routes[id]) {
      UpdatedRows(l, company, actor, id, c, provider);
      var ordered := OrderIds(provider.orderedPoints.value);
      assert OrdersOf(NewPoints(company, id, ordered)) == ordered;
      forall r ensures
          PointsOf(PointsExcept(l.points, id) + NewPoints(company, id, ordered), r) ==
            if r == id then NewPoints(company, id, ordered) else PointsOf(l.points, r)
      {
        ReplacedPoints(l.points, id, NewPoints(company, id, ordered), r);
      }
    }
  }

  /** An order already in an active route cannot be built into another one; a built one is in exactly one. */
  lemma BuildTakesFreeOrders(l: Ledger, company: Id, actor: Id, id: Id, ids: seq<Id>, courier: Option<Id>,
                             returnToStart: bool, provider: Provider, order: Id)
    requires Inv(l) && order in ids
    requires Build(l, company, actor, id, ids, courier, returnToStart, provider).1.Done?
    ensures
      var m := Build(l, company, actor, id, ids, courier, returnToStart, provider).0;
      LiveCount(l.points, l.routes, order) == 0 && LiveCount(m.points, m.routes, order) == 1
  {
    hide Plan, AssignAll, LiveCount, PointsOf, Linked, Locate, OrderIds, HasDuplicate;
    BuildNeedsFreeOrders(l, company, ids, courier, returnToStart, provider, order);
    BuildKeepsInv(l, company, actor, id, ids, courier, returnToStart, provider);
    PlanPromises(l, company, ids, courier, returnToStart, None, provider);
    var m := Build(l, company, actor, id, ids, courier, returnToStart, provider).0;
    var ordered := OrderIds(provider.orderedPoints.value);
    var k :| 0 <= k < |ordered| && ordered[k] == order;
    assert m.points[|l.points| + k] == Point(company, id, order, k + 1);
    LiveCountPositive(m.points, m.routes, |l.points| + k);
  }

  lemma BuildNeedsFreeOrders(l: Ledger, company: Id, ids: seq<Id>, courier: Option<Id>, returnToStart: bool,
                             provider: Provider, order: Id)
    requires Inv(l) && order in ids
    requires Plan(l, company, ids, courier, returnToStart, None, provider).1.Ok?
    ensures LiveCount(l.points, l.routes, order) == 0
  {
    hide Plan;
    PlanPromises(l, company, ids, courier, returnToStart, None, provider);
    forall p | p in l.points && p.order == order
      ensures !IsLive(l.routes, p.route)
    {
      assert Linked(p, l) && !Conflicts(p, l, company, ids, None);
    }
    LiveCountZero(l.points, l.routes, order);
  }

  lemma {:induction false} LiveCountPositive(points: seq<Point>, routes: map<Id, Route>, k: nat)
    requires k < |points| && IsLive(routes, points[k].route)
    ensures LiveCount(points, routes, points[k].order) >= 1
  {
    if k > 0 {
      LiveCountPositive(points[1..], routes, k - 1);
    }
  }

  /** Deleting a route frees its orders. */
  lemma DeleteFreesOrders(l: Ledger, company: Id, id: Id, p: Point)
    requires Inv(l) && Delete(l, company, id).1.Done?
    requires p in l.points && p.route == id
    ensures
      var m := Delete(l, company, id).0;
      LiveCount(l.points, l.routes, p.order) == 1 && LiveCount(m.points, m.routes, p.order) == 0
  {
    var m := Delete(l, company, id).0;
    var k :| 0 <= k < |l.points| && l.points[k] == p;
    LiveCountPositive(l.points, l.routes, k);
    forall q | q in l.points && q.order == p.order
      ensures !IsLive(m.routes, q.route)
    {
      if q.route != id && IsLive(l.routes, q.route) {
        var i :| 0 <= i < |l.points| && l.points[i] == q;
        LiveCountTwo(l.points, l.routes, if i < k then i else k, if i < k then k else i);
      }
    }
    LiveCountZero(m.points, m.routes, p.order);
  }

  lemma LiveCountTwo(points: seq<Point>, routes: map<Id, Route>, i: nat, k: nat)
    requires i < k < |points| && points[i].order == points[k].order
    requires IsLive(routes, points[i].route) && IsLive(routes, points[k].route)
    ensures LiveCount(points, routes, points[k].order) >= 2
  {
    LiveCountConcat(points[..k], points[k..], routes, points[k].order);
    assert points == points[..k] + points[k..];
    LiveCountPositive(points[..k], routes, i);
    LiveCountPositive(points[k..], routes, 0);
  }

  /** No call makes an inactive route active. */
  lemma UpdateKeepsInactive(l: Ledger, company: Id, actor: Id, id: Id, c: RouteChange, provider: Provider, route: Id)
    requires route in l.routes && !IsLive(l.routes, route)
    ensures
      var m := Update(l, company, actor, id, c, provider).0;
      route in m.routes && !IsLive(m.routes, route)
  {
    hide Plan, AssignAll;
    if Visible(l, company, id) {
      InactiveIsFinal(l.routes[id].status);
      var next := Updated(c, l.routes[id]);
      var ids := if c.ids.Some? then c.ids.value else OrdersOf(PointsOf(l.points, id));
      PlanPromises(l, company, ids, next.courier, next.returnToStart, Some(id), provider);
    }
  }

  lemma BuildKeepsInactive(l: Ledger, company: Id, actor: Id, id: Id, ids: seq<Id>, courier: Option<Id>,
                           returnToStart: bool, provider: Provider, route: Id)
    requires route in l.routes && !IsLive(l.routes, route)
    ensures
      var m := Build(l, company, actor, id, ids, courier, returnToStart, provider).0;
      route in m.routes && !IsLive(m.routes, route)
  {
    hide Plan, AssignAll;
    PlanPromises(l, company, ids, courier, returnToStart, None, provider);
  }

  lemma PerformKeepsInactive(l: Ledger, c: Call, route: Id)
    requires route in l.routes && !IsLive(l.routes, route)
    ensures route in Perform(l, c).0.routes && !IsLive(Perform(l, c).0.routes, route)
  {
    match c
    case BuildRoute(company, actor, id, ids, courier, returnToStart, provider) =>
      BuildKeepsInactive(l, company, actor, id, ids, courier, returnToStart, provider, route);
    case UpdateRoute(company, actor, id, change, provider) =>
      UpdateKeepsInactive(l, company, actor, id, change, provider, route);
    case _ =>
  }

  /** A route that was once completed, cancelled or deleted is never active again. */
  lemma {:induction false} InactiveForGood(l: Ledger, calls: seq<Call>, route: Id)
    requires route in l.routes && !IsLive(l.routes, route)
    ensures route in Run(l, calls).routes && !IsLive(Run(l, calls).routes, route)
    decreases |calls|
  {
    if calls != [] {
      InactiveForGood(l, calls[..|calls| - 1], route);
      PerformKeepsInactive(Run(l, calls[..|calls| - 1]), calls[|calls| - 1], route);
    }
  }

  // ---- Events and history -------------------------------------------------------------------------------------

  function EventsOf(outcome: Outcome): seq<Change> {
    if outcome.Done? then outcome.events else []
  }

  /** The status-change events that the calls emit, in order. */
  function Emitted(l: Ledger, calls: seq<Call>): seq<Change> {
    if calls == [] then []
    else
      var front := calls[..|calls| - 1];
      Emitted(l, front) + EventsOf(Perform(Run(l, front), calls[|calls| - 1]).1)
  }

  /** Each event announces the change that the row at its place records, and no row is left over. */
  ghost predicate Announce(events: seq<Change>, rows: seq<HistoryRow>) {
    && |events| == |rows|
    && forall i :: 0 <= i < |rows| ==>
         events[i].order == rows[i].order && events[i].from == rows[i].from && events[i].to == rows[i].to
  }

  /** `rows` goes on from `before`, and the events announce what is new. */
  ghost predicate AnnounceNew(events: seq<Change>, before: seq<HistoryRow>, rows: seq<HistoryRow>) {
    before <= rows && Announce(events, rows[|before|..])
  }

  lemma AnnounceConcat(a: seq<Change>, b: seq<Change>, first: seq<HistoryRow>, middle: seq<HistoryRow>,
                       last: seq<HistoryRow>)
    requires AnnounceNew(a, first, middle) && AnnounceNew(b, middle, last)
    ensures AnnounceNew(a + b, first, last)
  {
    assert last[|first|..] == middle[|first|..] + last[|middle|..];
  }

  /** An event names the status and the courier that the order has after the call. */
  ghost predicate Current(events: seq<Change>, orders: map<Id, Order>) {
    forall e :: e in events ==>
      e.order in orders && orders[e.order].status == e.to && orders[e.order].courier == e.courier
  }

  lemma {:induction false} AssignAllAnnounces(b: Book, company: Id, actor: Id, courier: Id, ids: seq<Id>)
    requires b.events == []
    ensures
      var c := AssignAll(b, company, actor, courier, ids);
      && AnnounceNew(c.events, b.history, c.history)
      && Current(c.events, c.orders)
      && (forall e :: e in c.events ==> e.to == Assigned && e.courier == Some(courier))
    decreases |ids|
  {
    hide AnnounceNew, Stage;
    if ids == [] {
      NothingNew(b.history);
    } else {
      var front, last := ids[..|ids| - 1], ids[|ids| - 1];
      AssignAllAnnounces(b, company, actor, courier, front);
      AssignOneAnnounces(AssignAll(b, company, actor, courier, front), b.history, company, actor, courier, last);
    }
  }

  lemma NothingNew(rows: seq<HistoryRow>)
    ensures AnnounceNew([], rows, rows)
  {
  }

  lemma AssignOneAnnounces(b: Book, before: seq<HistoryRow>, company: Id, actor: Id, courier: Id, id: Id)
    requires AnnounceNew(b.events, before, b.history) && Current(b.events, b.orders)
    requires forall e :: e in b.events ==> e.to == Assigned && e.courier == Some(courier)
    ensures
      var c := AssignOne(b, company, actor, courier, id);
      && AnnounceNew(c.events, before, c.history)
      && Current(c.events, c.orders)
      && (forall e :: e in c.events ==> e.to == Assigned && e.courier == Some(courier))
  {
    var c := AssignOne(b, company, actor, courier, id);
    if c.history != b.history {
      var row, event := c.history[|b.history|], c.events[|b.events|];
      assert c.history[|b.history|..] == [row] && c.events == b.events + [event];
      assert AnnounceNew([event], b.history, c.history);
      AnnounceConcat(b.events, [event], before, b.history, c.history);
    }
  }

  lemma AssignAnnounces(l: Ledger, company: Id, actor: Id, courier: Option<Id>, ids: seq<Id>)
    ensures
      var (m, outcome) := Assign(l, company, actor, courier, ids);
      outcome.Done? && AnnounceNew(outcome.events, l.history, m.history) && Current(outcome.events, m.orders)
  {
    hide AnnounceNew, Current, AssignAll;
    NothingNew(l.history);
    assert Current([], l.orders) by {
      NoneCurrent(l.orders);
    }
    if courier.Some? {
      AssignAllAnnounces(Book(l.orders, l.history, []), company, actor, courier.value, ids);
    }
  }

  lemma NoneCurrent(orders: map<Id, Order>)
    ensures Current([], orders)
  {
  }

  /** One call emits exactly one event for each history row it writes, in order; one that fails neither. */
  lemma CallAnnounces(l: Ledger, c: Call)
    ensures
      var (m, outcome) := Perform(l, c);
      AnnounceNew(EventsOf(outcome), l.history, m.history) && Current(EventsOf(outcome), m.orders)
  {
    hide AnnounceNew, Current, Assign, Plan, UpdateError, ChangesPlan, Updated, PointsOf, PointsExcept;
    var m := Perform(l, c).0;
    NothingNew(l.history);
    NoneCurrent(m.orders);
    match c
    case Transition(company, actor, id, to) =>
      TransitionAnnounces(l, company, actor, id, to);
    case BuildRoute(company, actor, id, ids, courier, returnToStart, provider) =>
      PlanPromises(l, company, ids, courier, returnToStart, None, provider);
      var (planned, ordered) := Plan(l, company, ids, courier, returnToStart, None, provider);
      if ordered.Ok? {
        AssignAnnounces(
          planned.(routes := planned.routes[id := Route(company, courier, Draft, 1, returnToStart, false)],
                   points := planned.points + NewPoints(company, id, ordered.value)),
          company, actor, courier, ids);
      }
    case UpdateRoute(company, actor, id, change, provider) =>
      UpdateAnnounces(l, company, actor, id, change, provider);
    case _ =>
  }

  lemma TransitionAnnounces(l: Ledger, company: Id, actor: Id, id: Id, to: OrderStatus)
    ensures
      var (m, outcome) := ChangeStatus(l, company, actor, id, to);
      AnnounceNew(EventsOf(outcome), l.history, m.history) && Current(EventsOf(outcome), m.orders)
  {
    var (m, outcome) := ChangeStatus(l, company, actor, id, to);
    if outcome.Done? {
      assert m.history[|l.history|..] == [m.history[|l.history|]];
    }
  }

  lemma UpdateAnnounces(l: Ledger, company: Id, actor: Id, id: Id, c: RouteChange, provider: Provider)
    ensures
      var (m, outcome) := Update(l, company, actor, id, c, provider);
      AnnounceNew(EventsOf(outcome), l.history, m.history) && Current(EventsOf(outcome), m.orders)
  {
    hide AnnounceNew, Current, Assign, Plan, UpdateError, ChangesPlan, Updated, PointsOf, PointsExcept;
    NothingNew(l.history);
    NoneCurrent(Update(l, company, actor, id, c, provider).0.orders);
    if Visible(l, company, id) && ChangesPlan(c, l.routes[id]) {
      var next := Updated(c, l.routes[id]);
      var ids := if c.ids.Some? then c.ids.value else OrdersOf(PointsOf(l.points, id));
      PlanPromises(l, company, ids, next.courier, next.returnToStart, Some(id), provider);
      var (planned, ordered) := Plan(l, company, ids, next.courier, next.returnToStart, Some(id), provider);
      if ordered.Ok? {
        AssignAnnounces(
          planned.(routes := planned.routes[id := next],
                   points := PointsExcept(planned.points, id) + NewPoints(company, id, ordered.value)),
          company, actor, next.courier, ids);
      }
    }
  }

  /**
   Over any calls the status-change events that were emitted are, in order, exactly the history rows
   that were written, whichever service wrote them.
   */
  lemma {:induction false} EventsAreTheHistory(l: Ledger, calls: seq<Call>)
    ensures AnnounceNew(Emitted(l, calls), l.history, Run(l, calls).history)
    decreases |calls|
  {
    hide Perform, AnnounceNew;
    if calls == [] {
      NothingNew(l.history);
    } else {
      var front, last := calls[..|calls| - 1], calls[|calls| - 1];
      EventsAreTheHistory(l, front);
      CallAnnounces(Run(l, front), last);
      AnnounceConcat(Emitted(l, front), EventsOf(Perform(Run(l, front), last).1), l.history, Run(l, front).history,
                     Run(l, calls).history);
    }
  }

  // ---- The services -------------------------------------------------------------------------------------------

  class DispatchServices {
    var orders: map<Id, Order>
    var routes: map<Id, Route>
    var points: seq<Point>
    var history: seq<HistoryRow>
    var couriers: map<Id, Courier>

    ghost function State(): Ledger
      reads this
    {
      Ledger(orders, routes, points, history, couriers)
    }

    constructor ()
      ensures State() == EMPTY
    {
      orders, routes, points, history, couriers := map[], map[], [], [], map[];
    }

    method ResolveOrderCoordinates(ids: seq<Id>, geocodes: map<Id, Coordinates>) returns (found: bool)
      modifies this`orders
      ensures (orders, found) == Locate(old(orders), ids, geocodes)
    {
      for i := 0 to |ids|
        invariant Locate(orders, ids[i..], geocodes) == Locate(old(orders), ids, geocodes)
      {
        assert ids[i..][1..] == ids[i + 1..];
        if ids[i] !in orders {
          return false;
        }
        if orders[ids[i]].location.Some? {
          continue;
        }
        if ids[i] !in geocodes {
          return false;
        }
        orders := orders[ids[i] := orders[ids[i]].(location := Some(geocodes[ids[i]]))];
      }
      return true;
    }

    method ResolveRoutePlan(company: Id, ids: seq<Id>, courier: Option<Id>, returnToStart: bool, exclude: Option<Id>,
                            provider: Provider) returns (planned: Result<seq<Id>, Error>)
      modifies this`orders
      ensures (State(), planned) == Plan(old(State()), company, ids, courier, returnToStart, exclude, provider)
    {
      hide HasDuplicate, Conflicts, PointOrders, Locate, IsTerminal;
      if HasDuplicate(ids) {
        return Err(DuplicateOrders);
      }
      if exists id :: id in ids && (id !in orders || orders[id].company != company) {
        return Err(OrdersMissing);
      }
      if exists id :: id in ids && IsTerminal(orders[id].status) {
        return Err(TerminalOrder);
      }
      var l := Ledger(orders, routes, points, history, couriers);
      if exists p :: p in points && Conflicts(p, l, company, ids, exclude) {
        return Err(AlreadyRouted);
      }
      var found := ResolveOrderCoordinates(ids, provider.geocodes);
      if !found {
        return Err(GeocodeFailed);
      }
      var unusable := PointsError(l, company, ids, courier, returnToStart);
      if unusable.Some? {
        return Err(unusable.value);
      }
      if provider.orderedPoints == None {
        return Err(ProviderFailed);
      }
      return PointOrders(ids, provider.orderedPoints.value);
    }

    method SyncRouteOrdersWithCourier(company: Id, actor: Id, courier: Option<Id>, ids: seq<Id>)
      returns (events: seq<Change>)
      modifies this`orders, this`history
      ensures (State(), Done(events)) == Assign(old(State()), company, actor, courier, ids)
    {
      events := [];
      if courier == None {
        return;
      }
      for i := 0 to |ids|
        invariant Book(orders, history, events) ==
                  AssignAll(Book(old(orders), old(history), []), company, actor, courier.value, ids[..i])
      {
        assert ids[..i + 1][..i] == ids[..i];
        var id := ids[i];
        if id !in orders || IsTerminal(orders[id].status) {
          continue;
        }
        var from := orders[id].status;
        var advance := from != Assigned && CanTransition(from, Assigned);
        orders := orders[id := orders[id].(courier := courier, assignedBy := Some(actor),
                                           status := if advance then Assigned else from)];
        if advance {
          history := history + [HistoryRow(company, id, from, Assigned, actor)];
          events := events + [Change(id, from, Assigned, courier)];
        }
      }
      assert ids[..|ids|] == ids;
    }

    method BuildRoute(company: Id, actor: Id, id: Id, ids: seq<Id>, courier: Option<Id>, returnToStart: bool,
                      provider: Provider) returns (outcome: Outcome)
      requires Inv(State())
      modifies this
      ensures (State(), outcome) == Build(old(State()), company, actor, id, ids, courier, returnToStart, provider)
      ensures Inv(State())
    {
      BuildKeepsInv(State(), company, actor, id, ids, courier, returnToStart, provider);
      var planned := ResolveRoutePlan(company, ids, courier, returnToStart, None, provider);
      if planned.Err? {
        return Failed(planned.error);
      }
      if id in routes {
        return Failed(UniqueViolation);
      }
      routes := routes[id := Route(company, courier, Draft, 1, returnToStart, false)];
      points := points + NewPoints(company, id, planned.value);
      var events := SyncRouteOrdersWithCourier(company, actor, courier, ids);
      return Done(events);
    }

    method UpdateRoute(company: Id, actor: Id, id: Id, c: RouteChange, provider: Provider) returns (outcome: Outcome)
      requires Inv(State())
      modifies this
      ensures (State(), outcome) == Update(old(State()), company, actor, id, c, provider)
      ensures Inv(State())
    {
      UpdateKeepsInv(State(), company, actor, id, c, provider);
      if id !in routes || routes[id].company != company || routes[id].deleted {
        return Failed(RouteMissing);
      }
      var current := routes[id];
      var refused := UpdateError(c, current);
      if refused.Some? {
        return Failed(refused.value);
      }
      var next := Updated(c, current);
      if !ChangesPlan(c, current) {
        routes := routes[id := next];
        return Done([]);
      }
      var ids := if c.ids.Some? then c.ids.value else OrdersOf(PointsOf(points, id));
      var planned := ResolveRoutePlan(company, ids, next.courier, next.returnToStart, Some(id), provider);
      if planned.Err? {
        return Failed(planned.error);
      }
      routes := routes[id := next];
      points := PointsExcept(points, id);
      points := points + NewPoints(company, id, planned.value);
      var events := SyncRouteOrdersWithCourier(company, actor, next.courier, ids);
      return Done(events);
    }

    method DeleteRoute(company: Id, id: Id) returns (outcome: Outcome)
      requires Inv(State())
      modifies this`routes
      ensures (State(), outcome) == Delete(old(State()), company, id)
      ensures Inv(State())
    {
      PerformKeepsInv(State(), Call.DeleteRoute(company, id));
      if id !in routes || routes[id].company != company || routes[id].deleted {
        return Failed(RouteMissing);
      }
      if !IsEditable(routes[id].status) {
        return Failed(NotEditable);
      }
      if !CanTransitionRoute(routes[id].status, RouteCancelled) {
        return Failed(BadTransition);
      }
      routes := routes[id := routes[id].(status := RouteCancelled, deleted := true)];
      return Done([]);
    }

    method TransitionOrderStatus(company: Id, actor: Id, id: Id, to: OrderStatus) returns (outcome: Outcome)
      requires Inv(State())
      modifies this`orders, this`history
      ensures (State(), outcome) == ChangeStatus(old(State()), company, actor, id, to)
      ensures Inv(State())
    {
      hide Inv;
      PerformKeepsInv(State(), Transition(company, actor, id, to));
      if id !in orders || orders[id].company != company {
        return Failed(OrderMissing);
      }
      var order := orders[id];
      if !CanTransition(order.status, to) {
        return Failed(BadTransition);
      }
      orders := orders[id := order.(status := to)];
      history := history + [HistoryRow(company, id, order.status, to, actor)];
      return Done([Change(id, order.status, to, order.courier)]);
    }
  }
}
