/**
 What the calls of the dispatch ledger write, and when they are refused, field by field
 (backend/src/modules/routing/routing.service.ts, backend/src/modules/orders/orders.service.ts).
 */
module DispatchOutcomes {
  import opened Common
  import opened StateMachines
  import opened Dispatch

  // ---- Locating the orders -------------------------------------------------------------------------------------

  /** Exactly the listed orders without a location have got the one of their address, if it is known. */
  ghost predicate LocatedBy(before: map<Id, Order>, after: map<Id, Order>, ids: seq<Id>,
                            geocodes: map<Id, Coordinates>)
  {
    && after.Keys == before.Keys
    && forall o :: o in before ==>
         after[o] ==
           if o in ids && before[o].location == None && o in geocodes then before[o].(location := Some(geocodes[o]))
           else before[o]
  }

  ghost predicate CanBeLocated(orders: map<Id, Order>, id: Id, geocodes: map<Id, Coordinates>) {
    id in orders && (orders[id].location != None || id in geocodes)
  }

  /** The orders are located in list order, up to the first one whose address is not found. */
  lemma {:induction false} LocateInOrder(orders: map<Id, Order>, ids: seq<Id>, geocodes: map<Id, Coordinates>)
    returns (n: nat)
    ensures n <= |ids|
    ensures
      var (after, found) := Locate(orders, ids, geocodes);
      && LocatedBy(orders, after, ids[..n], geocodes)
      && (found <==> n == |ids|)
      && (forall i :: 0 <= i < n ==> CanBeLocated(orders, ids[i], geocodes))
      && (n < |ids| ==> !CanBeLocated(orders, ids[n], geocodes))
    decreases |ids|
  {
    n := 0;
    if ids != [] && CanBeLocated(orders, ids[0], geocodes) {
      var next :=
        if orders[ids[0]].location.Some? then orders
        else orders[ids[0] := orders[ids[0]].(location := Some(geocodes[ids[0]]))];
      var k := LocateInOrder(next, ids[1..], geocodes);
      n := k + 1;
      assert ids[..n] == [ids[0]] + ids[1..][..k];
      forall i | 0 <= i < n
        ensures CanBeLocated(orders, ids[i], geocodes)
      {
        if i > 0 {
          assert ids[i] == ids[1..][i - 1];
        }
      }
    }
  }

  // ---- Planning ------------------------------------------------------------------------------------------------

  ghost predicate AllOwned(l: Ledger, company: Id, ids: seq<Id>) {
    forall id :: id in ids ==> id in l.orders && l.orders[id].company == company
  }

  ghost predicate NoneEnded(l: Ledger, ids: seq<Id>) {
    forall id :: id in ids && id in l.orders ==>
      l.orders[id].status !in {Delivered, Undelivered, Returned, Cancelled}
  }

  /** None of the orders has a point in another route that is not deleted and draft, planned or in progress. */
  ghost predicate NoneRouted(l: Ledger, company: Id, ids: seq<Id>, exclude: Option<Id>) {
    forall p :: p in l.points && p.company == company && p.order in ids && Some(p.route) != exclude ==>
      && (p.route in l.routes && !l.routes[p.route].deleted ==>
           l.routes[p.route].status !in {Draft, Planned, InProgress})
  }

  ghost predicate AllLocatable(l: Ledger, ids: seq<Id>, geocodes: map<Id, Coordinates>) {
    forall id :: id in ids ==> CanBeLocated(l.orders, id, geocodes)
  }

  ghost predicate CourierIsKnown(l: Ledger, company: Id, courier: Option<Id>) {
    courier.Some? ==> courier.value in l.couriers && l.couriers[courier.value].company == company
  }

  ghost predicate CourierIsLocated(l: Ledger, courier: Option<Id>) {
    courier.Some? && courier.value in l.couriers && l.couriers[courier.value].location != None
  }

  /** The first check that refuses a plan. */
  ghost function FirstRefusal(l: Ledger, company: Id, ids: seq<Id>, courier: Option<Id>, returnToStart: bool,
                              exclude: Option<Id>, provider: Provider): Option<Error> {
    if !Distinct(ids) then Some(DuplicateOrders)
    else if !AllOwned(l, company, ids) then Some(OrdersMissing)
    else if !NoneEnded(l, ids) then Some(TerminalOrder)
    else if !NoneRouted(l, company, ids, exclude) then Some(AlreadyRouted)
    else if !AllLocatable(l, ids, provider.geocodes) then Some(GeocodeFailed)
    else if !CourierIsKnown(l, company, courier) then Some(CourierMissing)
    else if |ids| == 0 || (|ids| == 1 && !CourierIsLocated(l, courier)) then Some(TooFewPoints)
    else if returnToStart && !CourierIsLocated(l, courier) then Some(ReturnNeedsCourier)
    else if provider.orderedPoints == None then Some(ProviderFailed)
    else
      var ordered := OrderIds(provider.orderedPoints.value);
      if |ordered| != |ids| then Some(IncompleteSequence)
      else if exists id :: id in ordered && id !in ids then Some(UnknownOrder)
      else if !Distinct(ordered) then Some(UniqueViolation)
      else None
  }

  lemma OrdersRefused(l: Ledger, company: Id, ids: seq<Id>, exclude: Option<Id>)
    ensures
      OrdersError(l, company, ids, exclude) ==
        if !Distinct(ids) then Some(DuplicateOrders)
        else if !AllOwned(l, company, ids) then Some(OrdersMissing)
        else if !NoneEnded(l, ids) then Some(TerminalOrder)
        else if !NoneRouted(l, company, ids, exclude) then Some(AlreadyRouted)
        else None
  {
    hide HasDuplicate, Distinct;
    NoDuplicate(ids);
  }

  /** A plan is made or refused by exactly these checks, in this order, and writes nothing but locations. */
  lemma PlanOutcome(l: Ledger, company: Id, ids: seq<Id>, courier: Option<Id>, returnToStart: bool,
                    exclude: Option<Id>, provider: Provider)
    ensures
      var (m, planned) := Plan(l, company, ids, courier, returnToStart, exclude, provider);
      var refusal := FirstRefusal(l, company, ids, courier, returnToStart, exclude, provider);
      && m == l.(orders := m.orders)
      && (match refusal
          case None => planned == Ok(OrderIds(provider.orderedPoints.value))
          case Some(error) => planned == Err(error))
      && (refusal == None ==> LocatedBy(l.orders, m.orders, ids, provider.geocodes))
  {
    hide OrdersError, Locate, OrderIds, Distinct, HasDuplicate, AllOwned, NoneEnded, NoneRouted, LocatedBy,
      CanBeLocated;
    OrdersRefused(l, company, ids, exclude);
    var n := LocateInOrder(l.orders, ids, provider.geocodes);
    assert ids[..|ids|] == ids;
    if provider.orderedPoints.Some? {
      NoDuplicate(OrderIds(provider.orderedPoints.value));
    }
  }

  /** The order ids of the provider's points are those of the points that have one, in their order. */
  lemma {:induction false} OrderIdsAt(points: seq<Option<Id>>, i: nat)
    requires i < |points|
    ensures
      OrderIds(points)
      == OrderIds(points[..i]) + (if points[i].Some? then [points[i].value] else []) + OrderIds(points[i + 1..])
    decreases |points|
  {
    if i > 0 {
      assert points[1..][..i - 1] == points[..i][1..] && points[1..][i - 1] == points[i];
      assert points[1..][i..] == points[i + 1..];
      OrderIdsAt(points[1..], i - 1);
    }
  }

  // ---- Assigning the courier -------------------------------------------------------------------------------------

  /** A confirmed order of the list comes behind those in front of it, and nothing else does. */
  lemma {:induction false} ConfirmedInOrder(orders: map<Id, Order>, ids: seq<Id>, i: nat)
    requires i < |ids|
    ensures ConfirmedOf(orders, ids[..i]) <= ConfirmedOf(orders, ids)
    ensures
      ids[i] in orders && orders[ids[i]].status == Confirmed ==>
        var k := |ConfirmedOf(orders, ids[..i])|;
        k < |ConfirmedOf(orders, ids)| && ConfirmedOf(orders, ids)[k] == ids[i]
    ensures forall o :: o in ConfirmedOf(orders, ids) ==> o in ids && o in orders && orders[o].status == Confirmed
    decreases |ids|
  {
    var front := ids[..|ids| - 1];
    if i < |front| {
      assert front[..i] == ids[..i];
      ConfirmedInOrder(orders, front, i);
    } else if front != [] {
      ConfirmedInOrder(orders, front, 0);
    }
    assert ids == front + [ids[|ids| - 1]];
  }

  /**
   The rows of the orders after a plan was carried out: locations found, and with a courier, each planned
   order has it and a confirmed one is assigned.
   */
  ghost predicate PlanWrites(l: Ledger, m: Ledger, actor: Id, courier: Option<Id>, ids: seq<Id>,
                             geocodes: map<Id, Coordinates>) {
    && m.orders.Keys == l.orders.Keys && m.couriers == l.couriers
    && forall o :: o in l.orders ==>
         var was, now := l.orders[o], m.orders[o];
         && now.company == was.company
         && now.location ==
              (if o in ids && was.location == None && o in geocodes then Some(geocodes[o]) else was.location)
         && (if courier.Some? && o in ids then
               && now.courier == courier && now.assignedBy == Some(actor)
               && now.status == if was.status == Confirmed then Assigned else was.status
             else now.courier == was.courier && now.assignedBy == was.assignedBy && now.status == was.status)
  }

  /** The history after a plan was carried out: one row for each confirmed order, in list order. */
  ghost predicate PlanRecords(l: Ledger, m: Ledger, company: Id, actor: Id, courier: Option<Id>, ids: seq<Id>) {
    var advanced := if courier.Some? then ConfirmedOf(l.orders, ids) else [];
    m.history == l.history
      + seq(|advanced|, i requires 0 <= i < |advanced| => HistoryRow(company, advanced[i], Confirmed, Assigned, actor))
  }

  lemma {:induction false} ConfirmedOfLocated(before: map<Id, Order>, after: map<Id, Order>, all: seq<Id>,
                                              ids: seq<Id>, geocodes: map<Id, Coordinates>)
    requires LocatedBy(before, after, all, geocodes)
    ensures ConfirmedOf(after, ids) == ConfirmedOf(before, ids)
    decreases |ids|
  {
    if ids != [] {
      ConfirmedOfLocated(before, after, all, ids[..|ids| - 1], geocodes);
    }
  }

  lemma AssignWrites(l: Ledger, p: Ledger, company: Id, actor: Id, courier: Option<Id>, ids: seq<Id>,
                     geocodes: map<Id, Coordinates>)
    requires LocatedBy(l.orders, p.orders, ids, geocodes) && p.history == l.history && p.couriers == l.couriers
    requires Distinct(ids) && AllOwned(l, company, ids) && NoneEnded(l, ids)
    ensures
      var (m, outcome) := Assign(p, company, actor, courier, ids);
      && outcome.Done? && m.routes == p.routes && m.points == p.points
      && PlanWrites(l, m, actor, courier, ids, geocodes) && PlanRecords(l, m, company, actor, courier, ids)
  {
    hide AssignAll, ConfirmedOf, Distinct;
    if courier.Some? {
      AssignmentEffect(Book(p.orders, p.history, []), company, actor, courier.value, ids);
      ConfirmedOfLocated(l.orders, p.orders, ids, ids, geocodes);
    }
  }

  /**
   A build that no check refuses, with a new id, writes the route, its points in the provider's order, the
   orders and the history as planned; any other build fails with the first refusal.
   */
  lemma BuildOutcome(l: Ledger, company: Id, actor: Id, id: Id, ids: seq<Id>, courier: Option<Id>,
                     returnToStart: bool, provider: Provider)
    ensures
      var (m, outcome) := Build(l, company, actor, id, ids, courier, returnToStart, provider);
      match FirstRefusal(l, company, ids, courier, returnToStart, None, provider)
      case Some(error) => outcome == Failed(error)
      case None =>
        if id in l.routes then outcome == Failed(UniqueViolation)
        else
          var ordered := OrderIds(provider.orderedPoints.value);
          && outcome.Done?
          && m.routes == l.routes[id := Route(company, courier, Draft, 1, returnToStart, false)]
          && |m.points| == |l.points| + |ordered| && m.points[..|l.points|] == l.points
          && (forall i :: 0 <= i < |ordered| ==>
               m.points[|l.points| + i] == Point(company, id, ordered[i], i + 1))
          && PlanWrites(l, m, actor, courier, ids, provider.geocodes)
          && PlanRecords(l, m, company, actor, courier, ids)
  {
    hide Plan, Assign, OrderIds, Distinct, AllOwned, NoneEnded, NoneRouted, AllLocatable, PlanWrites, PlanRecords,
      LocatedBy, CourierIsKnown, CourierIsLocated;
    PlanOutcome(l, company, ids, courier, returnToStart, None, provider);
    var (p, planned) := Plan(l, company, ids, courier, returnToStart, None, provider);
    if planned.Ok? && id !in l.routes {
      var q := p.(routes := p.routes[id := Route(company, courier, Draft, 1, returnToStart, false)],
                  points := p.points + NewPoints(company, id, planned.value));
      AssignWrites(l, q, company, actor, courier, ids, provider.geocodes);
    }
  }

  /** The first check that refuses an update, before any planning. */
  ghost function UpdateRefusal(l: Ledger, company: Id, id: Id, c: RouteChange): Option<Error> {
    if id !in l.routes || l.routes[id].company != company || l.routes[id].deleted then Some(RouteMissing)
    else
      var was := l.routes[id];
      var target := Or(c.status, was.status);
      if TouchesPlan(c, was) && was.status !in {Draft, Planned} then Some(NotEditable)
      else if target != was.status && !CanTransitionRoute(was.status, target) then Some(BadTransition)
      else if TouchesPlan(c, was) && target !in {Draft, Planned} then Some(PlanOutsideEditing)
      else None
  }

  /**
   An update fails with the first check that refuses it, its own or the plan's; otherwise it writes the
   orders and the history as planned, or not at all if the plan stays.  What it writes to the route and
   its points is in `UpdatedRoute`.
   */
  lemma UpdateOutcome(l: Ledger, company: Id, actor: Id, id: Id, c: RouteChange, provider: Provider)
    ensures
      var (m, outcome) := Update(l, company, actor, id, c, provider);
      match UpdateRefusal(l, company, id, c)
      case Some(error) => m == l && outcome == Failed(error)
      case None =>
        var was := l.routes[id];
        if !TouchesPlan(c, was) then
          outcome == Done([]) && m == l.(routes := m.routes)
        else
          var ids := if c.ids.Some? then c.ids.value else OrdersOf(PointsOf(l.points, id));
          var courier, back := Or(c.courier, was.courier), Or(c.returnToStart, was.returnToStart);
          match FirstRefusal(l, company, ids, courier, back, Some(id), provider)
          case Some(error) => outcome == Failed(error)
          case None =>
            && outcome.Done? && PlanWrites(l, m, actor, courier, ids, provider.geocodes)
            && PlanRecords(l, m, company, actor, courier, ids)
  {
    hide Plan, Assign, OrderIds, Distinct, AllOwned, NoneEnded, NoneRouted, AllLocatable, PlanWrites, PlanRecords,
      LocatedBy, CourierIsKnown, CourierIsLocated, PointsOf, PointsExcept, OrdersOf, NewPoints, CanTransitionRoute;
    if UpdateRefusal(l, company, id, c) == None && TouchesPlan(c, l.routes[id]) {
      var next := Updated(c, l.routes[id]);
      var ids := if c.ids.Some? then c.ids.value else OrdersOf(PointsOf(l.points, id));
      PlanOutcome(l, company, ids, next.courier, next.returnToStart, Some(id), provider);
      var (p, planned) := Plan(l, company, ids, next.courier, next.returnToStart, Some(id), provider);
      if planned.Ok? {
        var q := p.(routes := p.routes[id := next],
                    points := PointsExcept(p.points, id) + NewPoints(company, id, planned.value));
        AssignWrites(l, q, company, actor, next.courier, ids, provider.geocodes);
      }
    }
  }

  /** A delete marks exactly an editable route of the company as cancelled and deleted, and writes nothing else. */
  lemma DeleteOutcome(l: Ledger, company: Id, id: Id)
    ensures
      var (m, outcome) := Delete(l, company, id);
      if id !in l.routes || l.routes[id].company != company || l.routes[id].deleted then
        m == l && outcome == Failed(RouteMissing)
      else if l.routes[id].status !in {Draft, Planned} then m == l && outcome == Failed(NotEditable)
      else
        && outcome == Done([])
        && m == l.(routes := l.routes[id := l.routes[id].(status := RouteCancelled, deleted := true)])
  {
  }

  /** A status change writes status, row and event together, exactly if the status is one of the next stage. */
  lemma TransitionOutcome(l: Ledger, company: Id, actor: Id, id: Id, to: OrderStatus)
    ensures
      var (m, outcome) := ChangeStatus(l, company, actor, id, to);
      if id !in l.orders || l.orders[id].company != company then m == l && outcome == Failed(OrderMissing)
      else if Stage(to) != Stage(l.orders[id].status) + 1 then m == l && outcome == Failed(BadTransition)
      else
        var was := l.orders[id];
        && m == l.(orders := l.orders[id := was.(status := to)],
                   history := l.history + [HistoryRow(company, id, was.status, to, actor)])
        && outcome == Done([Change(id, was.status, to, was.courier)])
  {
    hide CanTransition, Stage;
    if id in l.orders {
      TransitionIff(l.orders[id].status, to);
    }
  }

  /** Creating an order, or giving it another courier, writes that row alone; an unknown courier is refused. */
  lemma OrderOutcome(l: Ledger, company: Id, actor: Id, id: Id, location: Option<Coordinates>, courier: Option<Id>)
    ensures
      var (m, outcome) := Create(l, company, actor, id, location, courier);
      if !CourierIsKnown(l, company, courier) then m == l && outcome == Failed(CourierMissing)
      else if id in l.orders then m == l && outcome == Failed(UniqueViolation)
      else
        var assigner := if courier.Some? then Some(actor) else None;
        outcome == Done([]) && m == l.(orders := l.orders[id := Order(company, New, location, courier, assigner)])
    ensures
      var (m, outcome) := ChangeCourier(l, company, actor, id, courier);
      if id !in l.orders || l.orders[id].company != company then m == l && outcome == Failed(OrderMissing)
      else if !CourierIsKnown(l, company, courier) then m == l && outcome == Failed(CourierMissing)
      else
        var was := l.orders[id];
        && outcome == Done([]) && m.orders.Keys == l.orders.Keys
        && m == l.(orders := l.orders[id := m.orders[id]])
        && m.orders[id] == was.(courier := courier, assignedBy := m.orders[id].assignedBy)
        && m.orders[id].assignedBy ==
             if courier == was.courier then was.assignedBy else if courier == None then None else Some(actor)
  {
  }
}
