/** The two transition tables (orders/order-state-machine.ts, routing/route-state-machine.ts). */
module StateMachines {
  datatype OrderStatus =
    | New | Confirmed | Assigned | HandedOver | InTransit
    | Delivered | Undelivered | Returned | Cancelled

  function OrderTransitions(from: OrderStatus): set<OrderStatus> {
    match from
    case New => {Confirmed}
    case Confirmed => {Assigned}
    case Assigned => {HandedOver}
    case HandedOver => {InTransit}
    case InTransit => {Delivered, Undelivered, Returned, Cancelled}
    case _ => {}
  }

  predicate CanTransition(from: OrderStatus, to: OrderStatus) {
    to in OrderTransitions(from)
  }

  predicate IsTerminal(s: OrderStatus) {
    s == Delivered || s == Undelivered || s == Returned || s == Cancelled
  }

  /** How far along its life an order is. */
  function Stage(s: OrderStatus): nat {
    match s
    case New => 0
    case Confirmed => 1
    case Assigned => 2
    case HandedOver => 3
    case InTransit => 4
    case _ => 5
  }

  /** An order moves exactly one stage at a time, to any status of the next stage. */
  lemma TransitionIff(from: OrderStatus, to: OrderStatus)
    ensures CanTransition(from, to) <==> Stage(to) == Stage(from) + 1
  {
  }

  datatype RouteStatus = Draft | Planned | InProgress | Completed | RouteCancelled

  function RouteTransitions(from: RouteStatus): set<RouteStatus> {
    match from
    case Draft => {Planned, RouteCancelled}
    case Planned => {InProgress, RouteCancelled}
    case InProgress => {Completed, RouteCancelled}
    case _ => {}
  }

  predicate CanTransitionRoute(from: RouteStatus, to: RouteStatus) {
    to in RouteTransitions(from)
  }

  predicate IsActive(s: RouteStatus) {
    s == Draft || s == Planned || s == InProgress
  }

  predicate IsEditable(s: RouteStatus) {
    s == Draft || s == Planned
  }

  /** The four terminal statuses are exactly those without a way out. */
  lemma TerminalHasNoWayOut(s: OrderStatus)
    ensures IsTerminal(s) <==> forall t :: !CanTransition(s, t)
  {
    if !IsTerminal(s) {
      var t :| t in OrderTransitions(s);
      assert CanTransition(s, t);
    }
  }

  /** An inactive route status has no way out, so no route becomes active again. */
  lemma InactiveIsFinal(s: RouteStatus)
    ensures !IsActive(s) <==> forall t :: !CanTransitionRoute(s, t)
  {
    if IsActive(s) {
      assert CanTransitionRoute(s, RouteCancelled);
    }
  }

  /** An active route is cancelled, or moves on from draft over planned and in progress to completed. */
  lemma RouteTransitionIff(from: RouteStatus, to: RouteStatus)
    ensures
      CanTransitionRoute(from, to) <==>
        || ((from == Draft || from == Planned || from == InProgress) && to == RouteCancelled)
        || (from == Draft && to == Planned) || (from == Planned && to == InProgress)
        || (from == InProgress && to == Completed)
  {
  }
}
