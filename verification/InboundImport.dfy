/**
 Inbound order import (backend/src/modules/integrations/integrations.service.ts, with order creation
 from backend/src/modules/orders/orders.service.ts).

 Every database call is one step, so requests interleave at each await.  The only guarantees taken
 from the database are its unique constraints: (company, external_id) and (company, order_number) on
 orders, (company, external_id) on the id map, and (company, idempotency_key) on inbound events.
 */
module InboundImport {
  import opened Common

  datatype Order = Order(company: Id, externalId: Option<string>, orderNumber: Option<string>)

  datatype Key = Key(company: Id, text: string)

  datatype Response = Response(order: Id, externalId: string, created: bool)

  datatype EventStatus = Processing | Succeeded | Failed

  datatype EventRow = EventRow(status: EventStatus, response: Option<Response>)

  datatype Tables = Tables(orders: map<Id, Order>, idMap: map<Key, Id>, events: map<Key, EventRow>)

  datatype Request = Request(
    company: Id, key: string, externalId: string, orderNumber: Option<string>, windowOk: bool)

  datatype Error =
    | KeyAlreadyFailed | KeyInProgress       // refused by the idempotency key
    | BadTimeWindow | ExternalIdTaken | OrderNumberTaken | NoExternalId
    | MappedToMissing | MappedToDifferent | OrderVanished
    | UniqueViolation                        // raised by the database, not a ConflictException

  /** The order object a step holds: its id and the external id it was read with. */
  datatype Found = Found(id: Id, externalId: Option<string>)

  /** The next database call of a request, or how it ended. */
  datatype Pc =
    | InsertEvent
    | LoadCached
    | FindMap
    | GetMapped(id: Id)
    | CheckExternalId
    | CheckOrderNumber
    | InsertOrder
    | EnsureFind(order: Found, created: bool)
    | EnsureInsert(order: Found, created: bool)
    | MarkSucceeded(order: Found, created: bool)
    | MarkFailed(error: Error)
    | RecoverFind(error: Error)
    | RecoverMapFind(id: Id)
    | RecoverMapInsert(id: Id)
    | RecoverGet(id: Id)
    | RecoverMark(order: Found)
    | Replied(response: Response)   // success, cached or uuid
    | Refused(error: Error)         // by the idempotency key, before the body
    | Rejected(error: Error)        // the event was marked failed
    | Escaped(error: Error)         // thrown inside the catch block: the event stays as it was

  predicate Over(pc: Pc) {
    pc.Replied? || pc.Refused? || pc.Rejected? || pc.Escaped?
  }

  // ---- One step -----------------------------------------------------------------------------------

  predicate Holds(o: Order, company: Id, externalId: string) {
    o.company == company && o.externalId == Some(externalId)
  }

  predicate HasExternalId(orders: map<Id, Order>, company: Id, externalId: string) {
    exists id :: id in orders && Holds(orders[id], company, externalId)
  }

  predicate HasNumber(orders: map<Id, Order>, company: Id, number: string) {
    exists id :: id in orders && orders[id].company == company && orders[id].orderNumber == Some(number)
  }

  /** The unique constraints of the orders table. */
  predicate Insertable(orders: map<Id, Order>, o: Order) {
    && (o.externalId.Some? ==> !HasExternalId(orders, o.company, o.externalId.value))
    && (o.orderNumber.Some? ==> !HasNumber(orders, o.company, o.orderNumber.value))
  }

  /** Where the catch block goes: recovery is for a ConflictException whose message names externalId. */
  function Catch(error: Error): Pc {
    if error == ExternalIdTaken || error == NoExternalId then RecoverFind(error) else MarkFailed(error)
  }

  function RequestKey(r: Request): Key {
    Key(r.company, r.key)
  }

  function MapKey(r: Request): Key {
    Key(r.company, r.externalId)
  }

  function NewOrder(r: Request): Order {
    Order(r.company, Some(r.externalId), r.orderNumber)
  }

  /** ensureUniqueOrderKeys skips the keys that are empty. */
  predicate TakesExternalId(orders: map<Id, Order>, r: Request) {
    r.externalId != "" && HasExternalId(orders, r.company, r.externalId)
  }

  predicate TakesNumber(orders: map<Id, Order>, r: Request) {
    r.orderNumber.Some? && r.orderNumber != Some("") && HasNumber(orders, r.company, r.orderNumber.value)
  }

  /** mapIntegrationOrderResponse: an order without external id cannot be answered with. */
  function Answer(o: Found, created: bool): Pc {
    if o.externalId == None || o.externalId == Some("") then Catch(NoExternalId) else MarkSucceeded(o, created)
  }

  function Succeed(t: Tables, r: Request, o: Found, created: bool): (Tables, Pc) {
    var response := Response(o.id, if o.externalId.Some? then o.externalId.value else "", created);
    (t.(events := t.events[RequestKey(r) := EventRow(Succeeded, Some(response))]), Replied(response))
  }

  /** How a replay ends that finds this event row. */
  function ReplayEnd(row: EventRow): Pc {
    match row
    case EventRow(Succeeded, Some(response)) => Replied(response)
    case EventRow(Failed, _) => Refused(KeyAlreadyFailed)
    case _ => Refused(KeyInProgress)
  }

  /** loadCachedInboundResponse. */
  function Cached(events: map<Key, EventRow>, key: Key): Pc {
    if key !in events then Refused(KeyInProgress) else ReplayEnd(events[key])
  }

  ghost function FindOrder(orders: map<Id, Order>, company: Id, externalId: string): (r: Option<Id>)
    ensures r.Some? <==> HasExternalId(orders, company, externalId)
    ensures r.Some? ==> r.value in orders && Holds(orders[r.value], company, externalId)
  {
    if HasExternalId(orders, company, externalId) then
      var id :| id in orders && Holds(orders[id], company, externalId);
      Some(id)
    else None
  }

  /** One database call of request `r` and the code up to the next one; `uuid` is the id a new order would get. */
  ghost function Step(t: Tables, r: Request, pc: Pc, uuid: Id): (Tables, Pc) {
    var mapped := MapKey(r) in t.idMap;
    match pc
    case InsertEvent =>
      if RequestKey(r) in t.events then (t, LoadCached)
      else (t.(events := t.events[RequestKey(r) := EventRow(Processing, None)]), FindMap)
    case LoadCached => (t, Cached(t.events, RequestKey(r)))
    case FindMap =>
      (t, if mapped then GetMapped(t.idMap[MapKey(r)])
          else if r.windowOk then CheckExternalId
          else Catch(BadTimeWindow))
    case GetMapped(id) =>
      (t, if id in t.orders && t.orders[id].company == r.company
          then EnsureFind(Found(id, t.orders[id].externalId), false)
          else Catch(MappedToMissing))
    case CheckExternalId =>
      (t, if TakesExternalId(t.orders, r) then Catch(ExternalIdTaken) else CheckOrderNumber)
    case CheckOrderNumber =>
      (t, if TakesNumber(t.orders, r) then Catch(OrderNumberTaken) else InsertOrder)
    case InsertOrder =>
      if Insertable(t.orders, NewOrder(r))
      then (t.(orders := t.orders[uuid := NewOrder(r)]), EnsureFind(Found(uuid, Some(r.externalId)), true))
      else (t, Catch(UniqueViolation))
    case EnsureFind(o, created) =>
      (t, if !mapped then EnsureInsert(o, created)
          else if t.idMap[MapKey(r)] == o.id then Answer(o, created)
          else Catch(MappedToDifferent))
    case EnsureInsert(o, created) =>
      if mapped then (t, Catch(UniqueViolation))
      else (t.(idMap := t.idMap[MapKey(r) := o.id]), Answer(o, created))
    case MarkSucceeded(o, created) => Succeed(t, r, o, created)
    case MarkFailed(error) =>
      (t.(events := t.events[RequestKey(r) := EventRow(Failed, None)]), Rejected(error))
    case RecoverFind(error) =>
      (t, match FindOrder(t.orders, r.company, r.externalId)
          case None => MarkFailed(error)
          case Some(id) => RecoverMapFind(id))
    case RecoverMapFind(id) =>
      (t, if !mapped then RecoverMapInsert(id)
          else if t.idMap[MapKey(r)] == id then RecoverGet(id)
          else Escaped(MappedToDifferent))
    case RecoverMapInsert(id) =>
      if mapped then (t, Escaped(UniqueViolation))
      else (t.(idMap := t.idMap[MapKey(r) := id]), RecoverGet(id))
    case RecoverGet(id) =>
      (t, if id !in t.orders || t.orders[id].company != r.company then Escaped(OrderVanished)
          else if t.orders[id].externalId == None || t.orders[id].externalId == Some("") then Escaped(NoExternalId)
          else RecoverMark(Found(id, t.orders[id].externalId)))
    case RecoverMark(o) => Succeed(t, r, o, false)
    case _ => (t, pc)
  }

  // ---- Any number of requests, and other writers of orders -------------------------------------------

  /** `owner`: this request inserted the event of its idempotency key. */
  datatype Process = Process(request: Request, pc: Pc, owner: bool)

  datatype World = World(tables: Tables, processes: seq<Process>)

  datatype Action =
    | Arrive(request: Request)
    | Advance(i: nat, uuid: Id)
    | CreateOrder(id: Id, order: Order)               // createOrder called from elsewhere
    | Renumber(id: Id, orderNumber: Option<string>)   // updateOrder, external id unchanged

  ghost predicate Enabled(w: World, a: Action) {
    match a
    case Arrive(_) => true
    case Advance(i, uuid) => i < |w.processes| && !Over(w.processes[i].pc) && uuid !in w.tables.orders
    case CreateOrder(id, order) => id !in w.tables.orders && Insertable(w.tables.orders, order)
    case Renumber(id, orderNumber) =>
      && id in w.tables.orders
      && (orderNumber.Some? ==> !HasNumber(w.tables.orders, w.tables.orders[id].company, orderNumber.value))
  }

  ghost function Move(t: Tables, p: Process, uuid: Id): (Tables, Process) {
    var next := Step(t, p.request, p.pc, uuid);
    (next.0, p.(pc := next.1, owner := p.owner || (p.pc == InsertEvent && next.1 == FindMap)))
  }

  ghost function Apply(w: World, a: Action): World
    requires Enabled(w, a)
  {
    match a
    case Arrive(request) => w.(processes := w.processes + [Process(request, InsertEvent, false)])
    case Advance(i, uuid) =>
      var next := Move(w.tables, w.processes[i], uuid);
      World(next.0, w.processes[i := next.1])
    case CreateOrder(id, order) => w.(tables := w.tables.(orders := w.tables.orders[id := order]))
    case Renumber(id, orderNumber) =>
      w.(tables := w.tables.(orders := w.tables.orders[id := w.tables.orders[id].(orderNumber := orderNumber)]))
  }

  const EMPTY: World := World(Tables(map[], map[], map[]), [])

  ghost predicate IsRun(w: World, actions: seq<Action>)
    decreases |actions|
  {
    actions != [] ==> Enabled(w, actions[0]) && IsRun(Apply(w, actions[0]), actions[1..])
  }

  ghost function After(w: World, actions: seq<Action>): World
    requires IsRun(w, actions)
    decreases |actions|
  {
    if actions == [] then w else After(Apply(w, actions[0]), actions[1..])
  }

  // ---- The invariant ----------------------------------------------------------------------------------

  ghost predicate OneOrderEach(orders: map<Id, Order>) {
    forall a, b | a in orders && b in orders && orders[a].externalId.Some? ::
      orders[a].company == orders[b].company && orders[a].externalId == orders[b].externalId ==> a == b
  }

  ghost predicate Named(t: Tables, company: Id, externalId: string, id: Id) {
    id in t.orders && Holds(t.orders[id], company, externalId)
  }

  ghost predicate Mapped(t: Tables, key: Key, id: Id) {
    key in t.idMap && t.idMap[key] == id
  }

  ghost predicate TablesInv(t: Tables) {
    && OneOrderEach(t.orders)
    && (forall k :: k in t.idMap ==> Named(t, k.company, k.text, t.idMap[k]))
    && (forall k :: k in t.events && t.events[k].status == Succeeded ==>
          && t.events[k].response.Some?
          && t.events[k].response.value.externalId != ""
          && Mapped(t, Key(k.company, t.events[k].response.value.externalId), t.events[k].response.value.order))
  }

  /** Between the insertion of the event and the end of the request. */
  predicate Working(pc: Pc) {
    !Over(pc) && pc != InsertEvent && pc != LoadCached
  }

  ghost predicate EventInv(t: Tables, p: Process) {
    var key := RequestKey(p.request);
    && (p.pc != InsertEvent ==> key in t.events)
    && (p.owner ==> p.pc != InsertEvent && p.pc != LoadCached && !p.pc.Refused?)
    && (Working(p.pc) || p.pc.Escaped? ==> p.owner && t.events[key] == EventRow(Processing, None))
    && (p.pc.Rejected? ==> p.owner && t.events[key] == EventRow(Failed, None))
    && (p.pc.Replied? ==> t.events[key] == EventRow(Succeeded, Some(p.pc.response)))
  }

  ghost predicate PcInv(t: Tables, r: Request, pc: Pc) {
    match pc
    case GetMapped(id) => Named(t, r.company, r.externalId, id)
    case EnsureFind(o, _) => Named(t, r.company, r.externalId, o.id) && o.externalId == Some(r.externalId)
    case EnsureInsert(o, _) => Named(t, r.company, r.externalId, o.id) && o.externalId == Some(r.externalId)
    case MarkSucceeded(o, _) => r.externalId != "" && Mapped(t, MapKey(r), o.id) && o.externalId == Some(r.externalId)
    case MarkFailed(e) => e == BadTimeWindow || e == OrderNumberTaken || e == UniqueViolation
    case RecoverFind(e) =>
      && (e == ExternalIdTaken || e == NoExternalId)
      && HasExternalId(t.orders, r.company, r.externalId)
      && (r.externalId == "" ==> MapKey(r) in t.idMap)
    case RecoverMapFind(id) =>
      && Named(t, r.company, r.externalId, id)
      && (r.externalId == "" ==> MapKey(r) in t.idMap)
    case RecoverMapInsert(id) => Named(t, r.company, r.externalId, id) && r.externalId != ""
    case RecoverGet(id) => Mapped(t, MapKey(r), id)
    case RecoverMark(o) => r.externalId != "" && Mapped(t, MapKey(r), o.id) && o.externalId == Some(r.externalId)
    case Refused(e) => e == KeyAlreadyFailed || e == KeyInProgress
    case Rejected(e) => e == BadTimeWindow || e == OrderNumberTaken || e == UniqueViolation
    case Escaped(e) => if r.externalId == "" then e == NoExternalId else e == UniqueViolation && MapKey(r) in t.idMap
    case _ => true
  }

  ghost predicate ProcessInv(t: Tables, p: Process) {
    EventInv(t, p) && PcInv(t, p.request, p.pc)
  }

  ghost predicate Inv(w: World) {
    && TablesInv(w.tables)
    && (forall i :: 0 <= i < |w.processes| ==> ProcessInv(w.tables, w.processes[i]))
    && (forall i, j :: 0 <= i < j < |w.processes| && w.processes[i].owner && w.processes[j].owner ==>
          RequestKey(w.processes[i].request) != RequestKey(w.processes[j].request))
  }

  /** Rows are only added; an event row changes only from processing, and only the one named `except`. */
  ghost predicate Grows(t: Tables, u: Tables, except: Option<Key>) {
    && (forall id :: id in t.orders ==>
          && id in u.orders && u.orders[id].company == t.orders[id].company
          && u.orders[id].externalId == t.orders[id].externalId)
    && (forall k :: k in t.idMap ==> k in u.idMap && u.idMap[k] == t.idMap[k])
    && (forall k :: k in t.events ==> k in u.events)
    && (forall k :: k in t.events && (Some(k) != except || t.events[k].status != Processing) ==>
          u.events[k] == t.events[k])
  }

  lemma ProcessFrame(t: Tables, u: Tables, p: Process, except: Option<Key>)
    requires ProcessInv(t, p) && Grows(t, u, except)
    requires p.owner ==> Some(RequestKey(p.request)) != except
    ensures ProcessInv(u, p)
  {
    if HasExternalId(t.orders, p.request.company, p.request.externalId) {
      var id :| id in t.orders && Holds(t.orders[id], p.request.company, p.request.externalId);
      assert id in u.orders && Holds(u.orders[id], p.request.company, p.request.externalId);
    }
  }

  lemma StepGrows(t: Tables, r: Request, pc: Pc, uuid: Id)
    requires uuid !in t.orders && !Over(pc)
    requires Working(pc) ==> RequestKey(r) in t.events && t.events[RequestKey(r)].status == Processing
    ensures Grows(t, Step(t, r, pc, uuid).0, Some(RequestKey(r)))
  {
  }

  lemma InsertKeepsOneEach(orders: map<Id, Order>, o: Order, id: Id)
    requires OneOrderEach(orders) && Insertable(orders, o) && id !in orders
    ensures OneOrderEach(orders[id := o])
  {
    if o.externalId.Some? {
      assert forall a :: a in orders ==> !Holds(orders[a], o.company, o.externalId.value);
    }
  }

  /** The event row of a successful answer is in order. */
  lemma SucceedKeepsTables(t: Tables, r: Request, o: Found, created: bool)
    requires TablesInv(t) && r.externalId != "" && Mapped(t, MapKey(r), o.id) && o.externalId == Some(r.externalId)
    ensures TablesInv(Succeed(t, r, o, created).0)
  {
  }

  lemma InsertKeepsTables(t: Tables, o: Order, id: Id)
    requires TablesInv(t) && Insertable(t.orders, o) && id !in t.orders
    ensures TablesInv(t.(orders := t.orders[id := o]))
  {
    InsertKeepsOneEach(t.orders, o, id);
  }

  lemma OtherStepsKeepTables(t: Tables, p: Process, uuid: Id)
    requires TablesInv(t) && ProcessInv(t, p)
    requires p.pc != InsertOrder && !p.pc.MarkSucceeded? && !p.pc.RecoverMark?
    ensures TablesInv(Step(t, p.request, p.pc, uuid).0)
  {
    hide EventInv, FindOrder, HasExternalId, HasNumber, OneOrderEach, Cached, Answer, Catch;
  }

  lemma StepKeepsTables(t: Tables, p: Process, uuid: Id)
    requires TablesInv(t) && ProcessInv(t, p) && uuid !in t.orders
    ensures TablesInv(Step(t, p.request, p.pc, uuid).0)
  {
    if p.pc == InsertOrder {
      if Insertable(t.orders, NewOrder(p.request)) {
        InsertKeepsTables(t, NewOrder(p.request), uuid);
      }
    } else if p.pc.MarkSucceeded? {
      SucceedKeepsTables(t, p.request, p.pc.order, p.pc.created);
    } else if p.pc.RecoverMark? {
      SucceedKeepsTables(t, p.request, p.pc.order, false);
    } else {
      OtherStepsKeepTables(t, p, uuid);
    }
  }

  lemma MoveKeepsEvent(t: Tables, p: Process, uuid: Id)
    requires EventInv(t, p) && !Over(p.pc)
    requires forall k :: k in t.events && t.events[k].status == Succeeded ==> t.events[k].response.Some?
    requires p.pc.MarkSucceeded? || p.pc.RecoverMark? ==> p.pc.order.externalId.Some?
    ensures EventInv(Move(t, p, uuid).0, Move(t, p, uuid).1)
  {
  }

  predicate InRecovery(pc: Pc) {
    pc.RecoverFind? || pc.RecoverMapFind? || pc.RecoverMapInsert? || pc.RecoverGet? || pc.RecoverMark?
  }

  lemma BodyKeepsPc(t: Tables, r: Request, pc: Pc, uuid: Id)
    requires TablesInv(t) && PcInv(t, r, pc) && uuid !in t.orders && !Over(pc) && !InRecovery(pc)
    ensures PcInv(Step(t, r, pc, uuid).0, r, Step(t, r, pc, uuid).1)
  {
    if pc.EnsureFind? || pc.EnsureInsert? {
      assert Holds(t.orders[pc.order.id], r.company, r.externalId);
    } else if pc == InsertOrder {
      assert Holds(NewOrder(r), r.company, r.externalId);
    }
  }

  lemma RecoveryKeepsPc(t: Tables, r: Request, pc: Pc, uuid: Id)
    requires TablesInv(t) && PcInv(t, r, pc) && InRecovery(pc)
    ensures PcInv(Step(t, r, pc, uuid).0, r, Step(t, r, pc, uuid).1)
  {
    hide FindOrder, HasNumber, Cached, Answer;
  }

  lemma MoveKeepsProcess(t: Tables, p: Process, uuid: Id)
    requires TablesInv(t) && ProcessInv(t, p) && uuid !in t.orders && !Over(p.pc)
    ensures ProcessInv(Move(t, p, uuid).0, Move(t, p, uuid).1)
  {
    MoveKeepsEvent(t, p, uuid);
    if InRecovery(p.pc) {
      RecoveryKeepsPc(t, p.request, p.pc, uuid);
    } else {
      BodyKeepsPc(t, p.request, p.pc, uuid);
    }
  }

  lemma AdvanceKeepsInv(w: World, i: nat, uuid: Id)
    requires Inv(w) && Enabled(w, Advance(i, uuid))
    ensures Inv(Apply(w, Advance(i, uuid)))
  {
    var t, p := w.tables, w.processes[i];
    var next := Move(t, p, uuid);
    var except := if p.owner then Some(RequestKey(p.request)) else None;
    StepKeepsTables(t, p, uuid);
    MoveKeepsProcess(t, p, uuid);
    StepGrows(t, p.request, p.pc, uuid);
    assert Grows(t, next.0, except);
    forall j | 0 <= j < |w.processes| && j != i
      ensures ProcessInv(next.0, w.processes[j])
    {
      ProcessFrame(t, next.0, w.processes[j], except);
    }
  }

  /** A new row or a changed order number: what elsewhere-written orders do to the invariant. */
  lemma OrdersChangeKeepsInv(w: World, orders: map<Id, Order>)
    requires Inv(w) && OneOrderEach(orders)
    requires Grows(w.tables, w.tables.(orders := orders), None)
    ensures Inv(w.(tables := w.tables.(orders := orders)))
  {
    forall j | 0 <= j < |w.processes|
      ensures ProcessInv(w.tables.(orders := orders), w.processes[j])
    {
      ProcessFrame(w.tables, w.tables.(orders := orders), w.processes[j], None);
    }
  }

  lemma ApplyKeepsInv(w: World, a: Action)
    requires Inv(w) && Enabled(w, a)
    ensures Inv(Apply(w, a))
  {
    match a
    case Arrive(_) =>
    case Advance(i, uuid) => AdvanceKeepsInv(w, i, uuid);
    case CreateOrder(id, order) =>
      var orders := w.tables.orders[id := order];
      InsertKeepsOneEach(w.tables.orders, order, id);
      OrdersChangeKeepsInv(w, orders);
    case Renumber(id, orderNumber) =>
      OrdersChangeKeepsInv(w, Apply(w, a).tables.orders);
  }

  lemma {:induction false} RunKeepsInv(w: World, actions: seq<Action>)
    requires Inv(w) && IsRun(w, actions)
    ensures Inv(After(w, actions))
    decreases |actions|
  {
    if actions != [] {
      ApplyKeepsInv(w, actions[0]);
      RunKeepsInv(Apply(w, actions[0]), actions[1..]);
    }
  }

  lemma NoActions(w: World)
    ensures IsRun(w, []) && After(w, []) == w
  {
  }

  lemma Extend(w: World, a: Action, rest: seq<Action>)
    requires Enabled(w, a) && IsRun(Apply(w, a), rest)
    ensures IsRun(w, [a] + rest) && After(w, [a] + rest) == After(Apply(w, a), rest)
  {
    assert ([a] + rest)[1..] == rest;
  }

  lemma {:induction false} Concat(w: World, a: seq<Action>, b: seq<Action>)
    requires IsRun(w, a) && IsRun(After(w, a), b)
    ensures IsRun(w, a + b) && After(w, a + b) == After(After(w, a), b)
    decreases |a|
  {
    if a == [] {
      assert a + b == b;
    } else {
      Concat(Apply(w, a[0]), a[1..], b);
      assert (a + b)[1..] == a[1..] + b;
    }
  }

  lemma AdvanceIsStep(w: World, i: nat, uuid: Id)
    requires i < |w.processes| && !Over(w.processes[i].pc) && uuid !in w.tables.orders
    ensures Enabled(w, Advance(i, uuid))
    ensures
      var (t, p) := Move(w.tables, w.processes[i], uuid);
      Apply(w, Advance(i, uuid)) == World(t, w.processes[i := p])
  {
    hide Move;
  }

  // ---- What holds of every interleaving ---------------------------------------------------------------

  /**
   Each (company, external id) has at most one order, and every successful answer that carries it
   names that order.
   */
  lemma OneOrderPerExternalId(actions: seq<Action>)
    requires IsRun(EMPTY, actions)
    ensures
      var w := After(EMPTY, actions);
      && OneOrderEach(w.tables.orders)
      && (forall i :: 0 <= i < |w.processes| && w.processes[i].pc.Replied? ==>
            var p := w.processes[i];
            Named(w.tables, p.request.company, p.pc.response.externalId, p.pc.response.order))
      && (forall i, j | 0 <= i < |w.processes| && 0 <= j < |w.processes|
            && w.processes[i].pc.Replied? && w.processes[j].pc.Replied?
            && w.processes[i].request.company == w.processes[j].request.company
            && w.processes[i].pc.response.externalId == w.processes[j].pc.response.externalId ::
            w.processes[i].pc.response.order == w.processes[j].pc.response.order)
  {
    RunKeepsInv(EMPTY, actions);
  }

  /** No request ever meets a map row that names another order, or an order that is missing. */
  lemma NoMappingConflict(actions: seq<Action>, i: nat)
    requires IsRun(EMPTY, actions) && i < |After(EMPTY, actions).processes|
    ensures
      var pc := After(EMPTY, actions).processes[i].pc;
      pc.MarkFailed? || pc.Rejected? || pc.Escaped? || pc.RecoverFind? ==>
        pc.error != MappedToDifferent && pc.error != MappedToMissing && (pc.Escaped? ==> pc.error != OrderVanished)
  {
    RunKeepsInv(EMPTY, actions);
    var w := After(EMPTY, actions);
    assert ProcessInv(w.tables, w.processes[i]);
  }

  /** At most one request executes the body for a key, and all its successful answers are the same. */
  lemma OneExecutionPerKey(actions: seq<Action>, i: nat, j: nat)
    requires IsRun(EMPTY, actions)
    requires i < |After(EMPTY, actions).processes| && j < |After(EMPTY, actions).processes|
    requires i != j
    requires
      var processes := After(EMPTY, actions).processes;
      RequestKey(processes[i].request) == RequestKey(processes[j].request)
    ensures
      var p, q := After(EMPTY, actions).processes[i], After(EMPTY, actions).processes[j];
      && !(p.owner && q.owner)
      && (Working(p.pc) ==> p.owner && !Working(q.pc))
      && (p.pc.Replied? && q.pc.Replied? ==> p.pc.response == q.pc.response)
      && !(p.pc.Replied? && (q.pc.Rejected? || q.pc.Escaped? || Working(q.pc)))
  {
    RunKeepsInv(EMPTY, actions);
    var w := After(EMPTY, actions);
    assert ProcessInv(w.tables, w.processes[i]) && ProcessInv(w.tables, w.processes[j]);
  }

  /** The answer to a repeated key: what is stored after success, a refusal after failure or before the end. */
  ghost predicate AnswersRepeat(pc: Pc, row: EventRow) {
    match row.status
    case Succeeded => row.response.Some? && pc == Replied(row.response.value)
    case Failed => pc == Refused(KeyAlreadyFailed)
    case Processing => pc == Refused(KeyInProgress)
  }

  /** A step of a request that does not own its event leaves orders, map and events as they are. */
  lemma ReplayStep(w: World, i: nat, uuid: Id)
    requires Inv(w) && Enabled(w, Advance(i, uuid)) && !Apply(w, Advance(i, uuid)).processes[i].owner
    ensures
      var p, v := w.processes[i], Apply(w, Advance(i, uuid));
      && v.tables == w.tables && RequestKey(p.request) in w.tables.events && v.processes[i].request == p.request
      && (if p.pc == InsertEvent then v.processes[i].pc == LoadCached
          else AnswersRepeat(v.processes[i].pc, w.tables.events[RequestKey(p.request)]))
  {
    assert ProcessInv(w.tables, w.processes[i]);
  }

  /** Nobody gives up an event or takes up a request again that is over. */
  lemma {:induction false} ProcessesStay(w: World, actions: seq<Action>, i: nat)
    requires IsRun(w, actions) && i < |w.processes|
    ensures i < |After(w, actions).processes|
    ensures
      var p, q := w.processes[i], After(w, actions).processes[i];
      q.request == p.request && (p.owner ==> q.owner) && (Over(p.pc) ==> q == p)
    decreases |actions|
  {
    if actions != [] {
      ProcessesStay(Apply(w, actions[0]), actions[1..], i);
    }
  }

  /** No step of the request changes a table in the run. */
  ghost predicate LeavesTables(w: World, actions: seq<Action>, i: nat)
    requires IsRun(w, actions)
    decreases |actions|
  {
    actions != [] ==>
      var v := Apply(w, actions[0]);
      && (actions[0].Advance? && actions[0].i == i ==> v.tables == w.tables)
      && LeavesTables(v, actions[1..], i)
  }

  lemma {:induction false} ReplayLeavesTables(w: World, actions: seq<Action>, i: nat)
    requires Inv(w) && IsRun(w, actions)
    requires i < |After(w, actions).processes| && !After(w, actions).processes[i].owner
    ensures LeavesTables(w, actions, i)
    decreases |actions|
  {
    hide Inv, Apply, Enabled;
    if actions != [] {
      var a, v := actions[0], Apply(w, actions[0]);
      ApplyKeepsInv(w, a);
      ReplayLeavesTables(v, actions[1..], i);
      if a.Advance? && a.i == i {
        AdvancedInRange(w, a);
        ProcessesStay(v, actions[1..], i);
        ReplayStep(w, i, a.uuid);
      }
    }
  }

  lemma AdvancedInRange(w: World, a: Action)
    requires Enabled(w, a) && a.Advance?
    ensures a.i < |w.processes| == |Apply(w, a).processes| && !Over(w.processes[a.i].pc)
  {
  }

  ghost predicate Ends(w: World, i: nat) {
    i < |w.processes| && Over(w.processes[i].pc)
  }

  /** The request takes its last step at `k`, which ends it, and answers with the event row as it is then. */
  ghost predicate AnsweredAt(w: World, actions: seq<Action>, i: nat, k: nat)
    requires IsRun(w, actions)
  {
    && k < |actions| && actions[k].Advance? && actions[k].i == i
    && IsRun(w, actions[..k])
    && var before := After(w, actions[..k]);
    && i < |before.processes| && i < |After(w, actions).processes|
    && Enabled(before, actions[k]) && Ends(Apply(before, actions[k]), i)
    && RequestKey(before.processes[i].request) in before.tables.events
    && AnswersRepeat(
         After(w, actions).processes[i].pc, before.tables.events[RequestKey(before.processes[i].request)])
  }

  lemma {:induction false} ReplayAnswer(w: World, actions: seq<Action>, i: nat) returns (k: nat)
    requires Inv(w) && IsRun(w, actions) && (i < |w.processes| ==> !Over(w.processes[i].pc))
    requires i < |After(w, actions).processes|
    requires !After(w, actions).processes[i].owner && Over(After(w, actions).processes[i].pc)
    ensures AnsweredAt(w, actions, i, k)
    decreases |actions|
  {
    hide Inv, Apply, Enabled;
    var a, v, rest := actions[0], Apply(w, actions[0]), actions[1..];
    ApplyKeepsInv(w, a);
    if i < |v.processes| && Over(v.processes[i].pc) {
      k := 0;
      NoActions(w);
      ProcessesStay(v, rest, i);
      OnlyOwnStepEnds(w, a, i);
      ReplayStep(w, i, a.uuid);
      assert actions[..0] == [];
    } else {
      var l := ReplayAnswer(v, rest, i);
      k := l + 1;
      assert actions[..k] == [a] + rest[..l];
      Extend(w, a, rest[..l]);
    }
  }

  lemma OnlyOwnStepEnds(w: World, a: Action, i: nat)
    requires Enabled(w, a) && (i < |w.processes| ==> !Over(w.processes[i].pc))
    requires i < |Apply(w, a).processes| && Over(Apply(w, a).processes[i].pc)
    ensures a.Advance? && a.i == i && i < |w.processes|
  {
  }

  /**
   In every run a request that has ended without ever owning its event has changed no table; it answers
   with what is stored exactly if the event had succeeded when it looked, and refuses otherwise.
   */
  lemma ReplayChangesNothing(actions: seq<Action>, i: nat)
    requires IsRun(EMPTY, actions) && i < |After(EMPTY, actions).processes|
    requires !After(EMPTY, actions).processes[i].owner && Over(After(EMPTY, actions).processes[i].pc)
    ensures LeavesTables(EMPTY, actions, i)
    ensures exists k :: AnsweredAt(EMPTY, actions, i, k)
  {
    ReplayLeavesTables(EMPTY, actions, i);
    var k := ReplayAnswer(EMPTY, actions, i);
  }

  /**
   A request that comes after its event was finished never owns it and, once over, holds the stored
   answer exactly if the event succeeded, else the refusal; whatever happens in between.
   */
  lemma {:induction false} ReplayOfFinished(w: World, actions: seq<Action>, i: nat)
    requires Inv(w) && IsRun(w, actions) && i < |w.processes| && !w.processes[i].owner
    requires RequestKey(w.processes[i].request) in w.tables.events
    requires
      var row := w.tables.events[RequestKey(w.processes[i].request)];
      && row.status != Processing
      && (w.processes[i].pc == InsertEvent || w.processes[i].pc == LoadCached || AnswersRepeat(w.processes[i].pc, row))
    ensures i < |After(w, actions).processes|
    ensures
      var p := After(w, actions).processes[i];
      !p.owner && (Over(p.pc) ==> AnswersRepeat(p.pc, w.tables.events[RequestKey(w.processes[i].request)]))
    decreases |actions|
  {
    if actions != [] {
      var a, v := actions[0], Apply(w, actions[0]);
      ApplyKeepsInv(w, a);
      FinishedEventIsFinal(w, [a], RequestKey(w.processes[i].request));
      NoActions(v);
      Extend(w, a, []);
      assert [a] + [] == [a];
      ReplayMove(w, a, i);
      ReplayOfFinished(v, actions[1..], i);
    }
  }

  lemma ReplayMove(w: World, a: Action, i: nat)
    requires Inv(w) && Enabled(w, a) && i < |w.processes| && !w.processes[i].owner
    requires RequestKey(w.processes[i].request) in w.tables.events
    requires
      var row := w.tables.events[RequestKey(w.processes[i].request)];
      w.processes[i].pc == InsertEvent || w.processes[i].pc == LoadCached || AnswersRepeat(w.processes[i].pc, row)
    ensures
      var v, row := Apply(w, a), w.tables.events[RequestKey(w.processes[i].request)];
      && i < |v.processes| && !v.processes[i].owner && v.processes[i].request == w.processes[i].request
      && (v.processes[i].pc == InsertEvent || v.processes[i].pc == LoadCached || AnswersRepeat(v.processes[i].pc, row))
  {
    assert ProcessInv(w.tables, w.processes[i]);
  }

  /**
   An insert that loses a race changes no table.  A lost event makes the request a replay; a lost order or
   map row fails it without recovery, since the database's error is no conflict of the service; and a map
   row lost in recovery throws out of the catch block.
   */
  lemma LostRace(w: World, i: nat, uuid: Id)
    requires Inv(w) && Enabled(w, Advance(i, uuid))
    ensures
      var p, t, v := w.processes[i], w.tables, Apply(w, Advance(i, uuid));
      var r, mapped := p.request, Key(p.request.company, p.request.externalId) in t.idMap;
      match p.pc
      case InsertEvent =>
        Key(r.company, r.key) in t.events ==> v.tables == t && v.processes[i].pc == LoadCached
      case InsertOrder =>
        (exists o :: o in t.orders && t.orders[o].company == r.company
          && (t.orders[o].externalId == Some(r.externalId)
              || (r.orderNumber.Some? && t.orders[o].orderNumber == r.orderNumber)))
        ==> v.tables == t && v.processes[i].pc == MarkFailed(UniqueViolation)
      case EnsureInsert(_, _) => mapped ==> v.tables == t && v.processes[i].pc == MarkFailed(UniqueViolation)
      case RecoverMapInsert(_) => mapped ==> v.tables == t && v.processes[i].pc == Escaped(UniqueViolation)
      case MarkFailed(error) =>
        && v.tables == t.(events := t.events[Key(r.company, r.key) := EventRow(Failed, None)])
        && v.processes[i].pc == Rejected(error)
      case _ => true
  {
    hide FindOrder, TablesInv, ProcessInv;
    var p, t := w.processes[i], w.tables;
    if p.pc == InsertOrder {
      forall o
        | o in t.orders && t.orders[o].company == p.request.company
          && t.orders[o].externalId == Some(p.request.externalId)
        ensures HasExternalId(t.orders, p.request.company, p.request.externalId)
      {
        assert Holds(t.orders[o], p.request.company, p.request.externalId);
      }
    }
  }

  /** An event that succeeded or failed keeps its row for ever. */
  lemma {:induction false} FinishedEventIsFinal(w: World, actions: seq<Action>, key: Key)
    requires Inv(w) && IsRun(w, actions)
    requires key in w.tables.events && w.tables.events[key].status != Processing
    ensures key in After(w, actions).tables.events && After(w, actions).tables.events[key] == w.tables.events[key]
    decreases |actions|
  {
    if actions != [] {
      ApplyKeepsInv(w, actions[0]);
      if actions[0].Advance? {
        var p := w.processes[actions[0].i];
        assert ProcessInv(w.tables, p);
        StepGrows(w.tables, p.request, p.pc, actions[0].uuid);
      }
      FinishedEventIsFinal(Apply(w, actions[0]), actions[1..], key);
    }
  }

  /**
   A request that has ended leaves its event in `processing` exactly if an error left the catch
   block, and that happens only for an empty external id or when another request mapped the same
   external id between the two map queries of the recovery.
   */
  lemma StrandedIff(actions: seq<Action>, i: nat)
    requires IsRun(EMPTY, actions) && i < |After(EMPTY, actions).processes|
    ensures
      var w := After(EMPTY, actions);
      var p := w.processes[i];
      p.owner && Over(p.pc) ==>
        && RequestKey(p.request) in w.tables.events
        && (w.tables.events[RequestKey(p.request)].status == Processing <==> p.pc.Escaped?)
        && (p.pc.Escaped? ==> if p.request.externalId == "" then p.pc.error == NoExternalId
                              else p.pc.error == UniqueViolation && MapKey(p.request) in w.tables.idMap)
  {
    RunKeepsInv(EMPTY, actions);
    var w := After(EMPTY, actions);
    assert ProcessInv(w.tables, w.processes[i]);
  }

  // ---- Termination --------------------------------------------------------------------------------------

  /** An upper bound on the database calls a request still makes. */
  function Rank(pc: Pc): nat {
    match pc
    case InsertEvent => 12
    case FindMap => 11
    case CheckExternalId => 10
    case CheckOrderNumber => 9
    case InsertOrder => 8
    case GetMapped(_) => 8
    case EnsureFind(_, _) => 7
    case EnsureInsert(_, _) => 6
    case RecoverFind(_) => 5
    case RecoverMapFind(_) => 4
    case RecoverMapInsert(_) => 3
    case RecoverGet(_) => 2
    case RecoverMark(_) => 1
    case MarkSucceeded(_, _) => 1
    case MarkFailed(_) => 1
    case LoadCached => 1
    case _ => 0
  }

  lemma StepLowersRank(t: Tables, r: Request, pc: Pc, uuid: Id)
    requires !Over(pc)
    ensures Rank(Step(t, r, pc, uuid).1) < Rank(pc)
  {
  }

  function Ranks(ps: seq<Process>): nat {
    if ps == [] then 0 else Ranks(ps[..|ps| - 1]) + Rank(ps[|ps| - 1].pc)
  }

  lemma {:induction false} RanksUpdate(ps: seq<Process>, i: nat, p: Process)
    requires i < |ps|
    ensures Ranks(ps[i := p]) == Ranks(ps) - Rank(ps[i].pc) + Rank(p.pc)
  {
    var last := |ps| - 1;
    if i == last {
      assert ps[i := p][..last] == ps[..last];
    } else {
      RanksUpdate(ps[..last], i, p);
      assert ps[i := p][..last] == ps[..last][i := p];
    }
  }

  function Calls(actions: seq<Action>): nat {
    if actions == [] then 0 else Calls(actions[1..]) + (if actions[0].Advance? then 1 else 0)
  }

  lemma {:induction false} CallsArePaid(w: World, actions: seq<Action>)
    requires IsRun(w, actions)
    ensures |After(w, actions).processes| >= |w.processes|
    ensures Calls(actions) + Ranks(After(w, actions).processes) <=
            Ranks(w.processes) + 12 * (|After(w, actions).processes| - |w.processes|)
    decreases |actions|
  {
    if actions != [] {
      var v := Apply(w, actions[0]);
      match actions[0] {
        case Arrive(_) =>
          assert v.processes[..|v.processes| - 1] == w.processes;
        case Advance(i, uuid) =>
          StepLowersRank(w.tables, w.processes[i].request, w.processes[i].pc, uuid);
          RanksUpdate(w.processes, i, v.processes[i]);
        case _ =>
      }
      CallsArePaid(v, actions[1..]);
    }
  }

  /** However requests interleave, n of them make at most 12 n database calls. */
  lemma ImportsEnd(actions: seq<Action>)
    requires IsRun(EMPTY, actions)
    ensures Calls(actions) <= 12 * |After(EMPTY, actions).processes|
  {
    CallsArePaid(EMPTY, actions);
  }

  // ---- One request alone ------------------------------------------------------------------------------------

  /** The request runs to its end with nobody in between. */
  ghost function Solo(t: Tables, r: Request, pc: Pc, uuid: Id): (Tables, Pc)
    decreases Rank(pc)
  {
    if Over(pc) then (t, pc)
    else
      StepLowersRank(t, r, pc, uuid);
      var next := Step(t, r, pc, uuid);
      Solo(next.0, r, next.1, uuid)
  }

  lemma SoloLast(t: Tables, r: Request, pc: Pc, uuid: Id)
    requires !Over(pc) && Over(Step(t, r, pc, uuid).1)
    ensures Solo(t, r, pc, uuid) == Step(t, r, pc, uuid)
  {
  }

  /** The order a lone import answers with. */
  ghost function ExpectedOrder(t: Tables, r: Request, uuid: Id): Id {
    match FindOrder(t.orders, r.company, r.externalId)
    case Some(id) => id
    case None => uuid
  }

  predicate NumberFree(t: Tables, r: Request) {
    r.orderNumber.Some? ==> !HasNumber(t.orders, r.company, r.orderNumber.value)
  }

  /** Why a lone import is rejected, if it is. */
  function LoneError(r: Request): Error {
    if !r.windowOk then BadTimeWindow else if r.orderNumber == Some("") then UniqueViolation else OrderNumberTaken
  }

  ghost function WithReply(t: Tables, r: Request, id: Id, created: bool): Tables {
    t.(idMap := t.idMap[MapKey(r) := id],
       events := t.events[RequestKey(r) := EventRow(Succeeded, Some(Response(id, r.externalId, created)))])
  }

  /** From ensureExternalIdMap on, with no row for another order. */
  lemma SoloEnsure(t: Tables, r: Request, id: Id, created: bool, uuid: Id)
    requires r.externalId != ""
    requires MapKey(r) in t.idMap ==> t.idMap[MapKey(r)] == id
    ensures Solo(t, r, EnsureFind(Found(id, Some(r.externalId)), created), uuid) ==
            (WithReply(t, r, id, created), Replied(Response(id, r.externalId, created)))
  {
    var o := Found(id, Some(r.externalId));
    if MapKey(r) in t.idMap {
      assert t.idMap[MapKey(r) := id] == t.idMap;
      assert Solo(t, r, EnsureFind(o, created), uuid) == Solo(t, r, MarkSucceeded(o, created), uuid);
      SoloLast(t, r, MarkSucceeded(o, created), uuid);
    } else {
      var u := t.(idMap := t.idMap[MapKey(r) := id]);
      assert Solo(t, r, EnsureFind(o, created), uuid) == Solo(t, r, EnsureInsert(o, created), uuid);
      assert Solo(t, r, EnsureInsert(o, created), uuid) == Solo(u, r, MarkSucceeded(o, created), uuid);
      SoloLast(u, r, MarkSucceeded(o, created), uuid);
    }
  }

  lemma SoloRecoverGet(t: Tables, r: Request, id: Id, uuid: Id)
    requires Named(t, r.company, r.externalId, id)
    ensures Solo(t, r, RecoverGet(id), uuid) ==
            if r.externalId == "" then (t, Escaped(NoExternalId))
            else Succeed(t, r, Found(id, Some(r.externalId)), false)
  {
    if r.externalId == "" {
      SoloLast(t, r, RecoverGet(id), uuid);
    } else {
      assert Solo(t, r, RecoverGet(id), uuid) == Solo(t, r, RecoverMark(Found(id, Some(r.externalId))), uuid);
      SoloLast(t, r, RecoverMark(Found(id, Some(r.externalId))), uuid);
    }
  }

  lemma SoloRecoverMap(t: Tables, r: Request, id: Id, uuid: Id)
    ensures Solo(t, r, RecoverMapFind(id), uuid) ==
            if MapKey(r) !in t.idMap then Solo(t.(idMap := t.idMap[MapKey(r) := id]), r, RecoverGet(id), uuid)
            else if t.idMap[MapKey(r)] == id then Solo(t, r, RecoverGet(id), uuid)
            else (t, Escaped(MappedToDifferent))
  {
    if MapKey(r) !in t.idMap {
      assert Solo(t, r, RecoverMapFind(id), uuid) == Solo(t, r, RecoverMapInsert(id), uuid);
    }
  }

  lemma SoloRecoverNone(t: Tables, r: Request, error: Error, uuid: Id)
    requires !HasExternalId(t.orders, r.company, r.externalId)
    ensures Solo(t, r, RecoverFind(error), uuid) ==
            (t.(events := t.events[RequestKey(r) := EventRow(Failed, None)]), Rejected(error))
  {
    assert Solo(t, r, RecoverFind(error), uuid) == Solo(t, r, MarkFailed(error), uuid);
    SoloLast(t, r, MarkFailed(error), uuid);
  }

  lemma SoloRecoverFind(t: Tables, r: Request, error: Error, id: Id, uuid: Id)
    requires OneOrderEach(t.orders) && Named(t, r.company, r.externalId, id)
    ensures Solo(t, r, RecoverFind(error), uuid) == Solo(t, r, RecoverMapFind(id), uuid)
  {
    assert FindOrder(t.orders, r.company, r.externalId) == Some(id);
  }

  /** Recovery from a taken external id that is not mapped yet. */
  lemma SoloRecover(t: Tables, r: Request, uuid: Id)
    requires TablesInv(t) && r.externalId != ""
    requires HasExternalId(t.orders, r.company, r.externalId) && MapKey(r) !in t.idMap
    ensures
      var id := ExpectedOrder(t, r, uuid);
      Solo(t, r, RecoverFind(ExternalIdTaken), uuid) ==
        (WithReply(t, r, id, false), Replied(Response(id, r.externalId, false)))
  {
    var id := ExpectedOrder(t, r, uuid);
    SoloRecoverFind(t, r, ExternalIdTaken, id, uuid);
    SoloRecoverMap(t, r, id, uuid);
    SoloRecoverGet(t.(idMap := t.idMap[MapKey(r) := id]), r, id, uuid);
  }

  lemma SoloFailed(t: Tables, r: Request, error: Error, uuid: Id)
    requires Catch(error) == MarkFailed(error)
    ensures
      Solo(t, r, Catch(error), uuid)
      == (t.(events := t.events[RequestKey(r) := EventRow(Failed, None)]), Rejected(error))
  {
    SoloLast(t, r, MarkFailed(error), uuid);
  }

  /** createOrder, run together, from the map query on. */
  lemma SoloInsert(t: Tables, r: Request, uuid: Id)
    requires MapKey(r) !in t.idMap
    ensures
      Solo(t, r, FindMap, uuid) ==
        match CreationError(t.orders, r)
        case Some(error) => Solo(t, r, Catch(error), uuid)
        case None =>
          Solo(t.(orders := t.orders[uuid := NewOrder(r)]), r, EnsureFind(Found(uuid, Some(r.externalId)), true), uuid)
  {
    if r.windowOk {
      assert Solo(t, r, FindMap, uuid) == Solo(t, r, CheckExternalId, uuid);
      if !TakesExternalId(t.orders, r) {
        assert Solo(t, r, CheckExternalId, uuid) == Solo(t, r, CheckOrderNumber, uuid);
        if !TakesNumber(t.orders, r) {
          assert Solo(t, r, CheckOrderNumber, uuid) == Solo(t, r, InsertOrder, uuid);
        }
      }
    }
  }

  /** Why createOrder, run without interruption, refuses a request. */
  function CreationError(orders: map<Id, Order>, r: Request): Option<Error> {
    if !r.windowOk then Some(BadTimeWindow)
    else if TakesExternalId(orders, r) then Some(ExternalIdTaken)
    else if TakesNumber(orders, r) then Some(OrderNumberTaken)
    else if !Insertable(orders, NewOrder(r)) then Some(UniqueViolation)
    else None
  }

  /** A lone import from the first map query on. */
  lemma SoloBody(t: Tables, r: Request, uuid: Id)
    requires TablesInv(t) && r.externalId != "" && uuid !in t.orders
    ensures
      var known := HasExternalId(t.orders, r.company, r.externalId);
      var id := ExpectedOrder(t, r, uuid);
      var result := Solo(t, r, FindMap, uuid);
      if MapKey(r) in t.idMap || (r.windowOk && (known || NumberFree(t, r)))
      then result == (WithReply(if known then t else t.(orders := t.orders[uuid := NewOrder(r)]), r, id, !known),
                      Replied(Response(id, r.externalId, !known)))
      else result == (t.(events := t.events[RequestKey(r) := EventRow(Failed, None)]), Rejected(LoneError(r)))
  {
    var id := ExpectedOrder(t, r, uuid);
    if MapKey(r) in t.idMap {
      assert Named(t, r.company, r.externalId, t.idMap[MapKey(r)]);
      assert Solo(t, r, FindMap, uuid) == Solo(t, r, GetMapped(id), uuid);
      assert Solo(t, r, GetMapped(id), uuid) == Solo(t, r, EnsureFind(Found(id, Some(r.externalId)), false), uuid);
      SoloEnsure(t, r, id, false, uuid);
    } else {
      SoloInsert(t, r, uuid);
      match CreationError(t.orders, r)
      case None =>
        SoloEnsure(t.(orders := t.orders[uuid := NewOrder(r)]), r, uuid, true, uuid);
      case Some(error) =>
        if error == ExternalIdTaken {
          SoloRecover(t, r, uuid);
        } else {
          SoloFailed(t, r, error, uuid);
        }
    }
  }

  lemma SoloOutcome(t: Tables, r: Request, uuid: Id)
    requires TablesInv(t) && r.externalId != ""
    requires RequestKey(r) !in t.events && uuid !in t.orders
    ensures
      var known := HasExternalId(t.orders, r.company, r.externalId);
      var id := ExpectedOrder(t, r, uuid);
      var result := Solo(t, r, InsertEvent, uuid);
      if MapKey(r) in t.idMap || (r.windowOk && (known || NumberFree(t, r)))
      then result == (WithReply(if known then t else t.(orders := t.orders[uuid := NewOrder(r)]), r, id, !known),
                      Replied(Response(id, r.externalId, !known)))
      else result == (t.(events := t.events[RequestKey(r) := EventRow(Failed, None)]), Rejected(LoneError(r)))
  {
    var u := t.(events := t.events[RequestKey(r) := EventRow(Processing, None)]);
    assert Solo(t, r, InsertEvent, uuid) == Solo(u, r, FindMap, uuid);
    SoloBody(u, r, uuid);
    OverwriteTwice(
      t.events, RequestKey(r), EventRow(Processing, None), Solo(u, r, FindMap, uuid).0.events[RequestKey(r)]);
  }

  lemma OverwriteTwice<K, V>(m: map<K, V>, k: K, first: V, second: V)
    ensures m[k := first][k := second] == m[k := second]
  {
  }

  /** An order of the company carries the external id, and another one the order number. */
  ghost predicate IdTaken(t: Tables, r: Request) {
    exists o :: o in t.orders && t.orders[o].company == r.company && t.orders[o].externalId == Some(r.externalId)
  }

  ghost predicate NumberTaken(t: Tables, r: Request) {
    && r.orderNumber.Some?
    && exists o :: o in t.orders && t.orders[o].company == r.company && t.orders[o].orderNumber == r.orderNumber
  }

  /**
   What an import does that nobody interrupts.  A repeated key changes nothing.  A new one succeeds
   exactly if its external id is mapped, or the time window is in order and either an order with that
   external id exists or the order number is free; the answer then names that order, a new one only if
   there was none, the id map leads to it and the event holds the answer.  Otherwise only the event row
   is written, as failed, and the error says which check refused.
   */
  lemma ImportOutcome(t: Tables, r: Request, uuid: Id)
    requires TablesInv(t) && r.externalId != "" && uuid !in t.orders
    ensures
      var key, mapKey := Key(r.company, r.key), Key(r.company, r.externalId);
      var (after, end) := Solo(t, r, InsertEvent, uuid);
      if key in t.events then after == t && AnswersRepeat(end, t.events[key])
      else if mapKey in t.idMap || (r.windowOk && (IdTaken(t, r) || !NumberTaken(t, r))) then
        && end.Replied? && end.response.externalId == r.externalId && end.response.created == !IdTaken(t, r)
        && (var id := end.response.order;
            && (if IdTaken(t, r) then
                  && id in t.orders && t.orders[id].company == r.company
                  && t.orders[id].externalId == Some(r.externalId) && after.orders == t.orders
                else
                  && id == uuid
                  && after.orders == t.orders[uuid := Order(r.company, Some(r.externalId), r.orderNumber)])
            && after.idMap == t.idMap[mapKey := id])
        && after.events == t.events[key := EventRow(Succeeded, Some(end.response))]
      else
        && after == t.(events := t.events[key := EventRow(Failed, None)])
        && end == Rejected(if !r.windowOk then BadTimeWindow
                           else if r.orderNumber == Some("") then UniqueViolation
                           else OrderNumberTaken)
  {
    hide TablesInv, Solo;
    TakenIffHas(t, r);
    if RequestKey(r) in t.events {
      SoloRepeat(t, r, uuid);
    } else {
      SoloOutcome(t, r, uuid);
    }
  }

  lemma TakenIffHas(t: Tables, r: Request)
    ensures IdTaken(t, r) <==> HasExternalId(t.orders, r.company, r.externalId)
    ensures NumberTaken(t, r) <==> !NumberFree(t, r)
  {
    if HasExternalId(t.orders, r.company, r.externalId) {
      var o :| o in t.orders && Holds(t.orders[o], r.company, r.externalId);
      assert t.orders[o].company == r.company;
    }
    if IdTaken(t, r) {
      var o :|
        o in t.orders && t.orders[o].company == r.company && t.orders[o].externalId == Some(r.externalId);
      assert Holds(t.orders[o], r.company, r.externalId);
    }
  }

  lemma SoloRepeat(t: Tables, r: Request, uuid: Id)
    requires TablesInv(t) && RequestKey(r) in t.events
    ensures
      var (after, end) := Solo(t, r, InsertEvent, uuid);
      after == t && AnswersRepeat(end, t.events[RequestKey(r)])
  {
    assert Solo(t, r, InsertEvent, uuid) == Solo(t, r, LoadCached, uuid);
    SoloLast(t, r, LoadCached, uuid);
  }

  // ---- The service ------------------------------------------------------------------------------------------

  /** `importOrder` and its helpers, one request at a time; `r.company` stands for the resolved integration. */
  class ImportTables {
    var orders: map<Id, Order>
    var idMap: map<Key, Id>
    var events: map<Key, EventRow>

    ghost function State(): Tables
      reads this
    {
      Tables(orders, idMap, events)
    }

    /** None: the caller owns a new event; otherwise the answer to the repeated key. */
    method CreateInboundEventOrGetCached(r: Request) returns (cached: Option<Pc>)
      modifies this`events
      ensures
        var key := Key(r.company, r.key);
        if key !in old(events) then events == old(events)[key := EventRow(Processing, None)] && cached == None
        else
          && events == old(events)
          && cached == match events[key]
                       case EventRow(Succeeded, Some(response)) => Some(Replied(response))
                       case EventRow(Failed, _) => Some(Refused(KeyAlreadyFailed))
                       case _ => Some(Refused(KeyInProgress))
    {
      if RequestKey(r) in events {
        cached := Some(Cached(events, RequestKey(r)));
      } else {
        events := events[RequestKey(r) := EventRow(Processing, None)];
        cached := None;
      }
    }

    method ResolveExistingMappedOrder(r: Request) returns (result: Result<Option<Found>, Error>)
      ensures
        result == if MapKey(r) !in idMap then Ok(None)
                  else
                    var id := idMap[MapKey(r)];
                    if id in orders && orders[id].company == r.company then Ok(Some(Found(id, orders[id].externalId)))
                    else Err(MappedToMissing)
    {
      if MapKey(r) !in idMap {
        return Ok(None);
      }
      var id := idMap[MapKey(r)];
      if id !in orders || orders[id].company != r.company {
        return Err(MappedToMissing);
      }
      return Ok(Some(Found(id, orders[id].externalId)));
    }

    /** createOrder of the orders service, with ensureUniqueOrderKeys in front of the insert. */
    method CreateOrder(r: Request, uuid: Id) returns (result: Result<Found, Error>)
      modifies this`orders
      ensures
        match CreationError(old(orders), r)
        case None => orders == old(orders)[uuid := NewOrder(r)] && result == Ok(Found(uuid, Some(r.externalId)))
        case Some(error) => orders == old(orders) && result == Err(error)
    {
      if !r.windowOk {
        return Err(BadTimeWindow);
      }
      if TakesExternalId(orders, r) {
        return Err(ExternalIdTaken);
      }
      if TakesNumber(orders, r) {
        return Err(OrderNumberTaken);
      }
      if !Insertable(orders, NewOrder(r)) {
        return Err(UniqueViolation);
      }
      orders := orders[uuid := NewOrder(r)];
      return Ok(Found(uuid, Some(r.externalId)));
    }

    method EnsureExternalIdMap(r: Request, internalId: Id) returns (error: Option<Error>)
      modifies this`idMap
      ensures MapKey(r) !in old(idMap) ==> error == None && idMap == old(idMap)[MapKey(r) := internalId]
      ensures MapKey(r) in old(idMap) ==>
                idMap == old(idMap) && error == if idMap[MapKey(r)] == internalId then None else Some(MappedToDifferent)
    {
      if MapKey(r) in idMap {
        return if idMap[MapKey(r)] == internalId then None else Some(MappedToDifferent);
      }
      idMap := idMap[MapKey(r) := internalId];
      return None;
    }

    method MarkEventSucceeded(r: Request, o: Found, created: bool) returns (outcome: Pc)
      modifies this`events
      ensures (State(), outcome) == Succeed(old(State()), r, o, created)
    {
      var response := Response(o.id, if o.externalId.Some? then o.externalId.value else "", created);
      events := events[RequestKey(r) := EventRow(Succeeded, Some(response))];
      outcome := Replied(response);
    }

    method MarkEventFailed(r: Request, error: Error) returns (outcome: Pc)
      modifies this`events
      ensures events == old(events)[RequestKey(r) := EventRow(Failed, None)] && outcome == Rejected(error)
    {
      events := events[RequestKey(r) := EventRow(Failed, None)];
      outcome := Rejected(error);
    }

    /** tryRecoverExistingOrder with an order found, and the answer to it. */
    method RecoverExistingOrder(r: Request, id: Id, ghost uuid: Id) returns (outcome: Pc)
      requires Named(State(), r.company, r.externalId, id)
      modifies this
      ensures (State(), outcome) == Solo(old(State()), r, RecoverMapFind(id), uuid)
    {
      SoloRecoverMap(State(), r, id, uuid);
      var conflict := EnsureExternalIdMap(r, id);
      if conflict.Some? {
        return Escaped(conflict.value);
      }
      SoloRecoverGet(State(), r, id, uuid);
      if orders[id].externalId == Some("") {
        return Escaped(NoExternalId);
      }
      outcome := MarkEventSucceeded(r, Found(id, orders[id].externalId), false);
    }

    /** The catch block. */
    method HandleError(r: Request, error: Error, ghost uuid: Id) returns (outcome: Pc)
      requires OneOrderEach(orders)
      modifies this
      ensures (State(), outcome) == Solo(old(State()), r, Catch(error), uuid)
    {
      if error != ExternalIdTaken && error != NoExternalId {
        SoloFailed(State(), r, error, uuid);
        outcome := MarkEventFailed(r, error);
      } else if HasExternalId(orders, r.company, r.externalId) {
        var id :| id in orders && Holds(orders[id], r.company, r.externalId);
        SoloRecoverFind(State(), r, error, id, uuid);
        outcome := RecoverExistingOrder(r, id, uuid);
      } else {
        SoloRecoverNone(State(), r, error, uuid);
        outcome := MarkEventFailed(r, error);
      }
    }

    /** The end of the try block: map row, response, event. */
    method FinishOrder(r: Request, o: Found, created: bool, ghost uuid: Id) returns (outcome: Pc)
      requires OneOrderEach(orders)
      modifies this
      ensures (State(), outcome) == Solo(old(State()), r, EnsureFind(o, created), uuid)
    {
      var conflict := EnsureExternalIdMap(r, o.id);
      if conflict.Some? {
        outcome := HandleError(r, conflict.value, uuid);
        return;
      }
      assert Solo(old(State()), r, EnsureFind(o, created), uuid) == Solo(State(), r, Answer(o, created), uuid) by {
        if MapKey(r) !in old(idMap) {
          assert Solo(old(State()), r, EnsureFind(o, created), uuid)
              == Solo(old(State()), r, EnsureInsert(o, created), uuid);
        }
      }
      if o.externalId == None || o.externalId == Some("") {
        outcome := HandleError(r, NoExternalId, uuid);
      } else {
        SoloLast(State(), r, MarkSucceeded(o, created), uuid);
        outcome := MarkEventSucceeded(r, o, created);
      }
    }

    /** The try block, from the map query on. */
    method ProcessOrder(r: Request, uuid: Id) returns (outcome: Pc)
      requires OneOrderEach(orders) && uuid !in orders
      modifies this
      ensures (State(), outcome) == Solo(old(State()), r, FindMap, uuid)
    {
      hide FindOrder, HasNumber, Cached;
      var existing := ResolveExistingMappedOrder(r);
      if existing.Ok? && existing.value == None {
        SoloInsert(State(), r, uuid);
        if CreationError(orders, r) == None {
          InsertKeepsOneEach(orders, NewOrder(r), uuid);
        }
        var inserted := CreateOrder(r, uuid);
        if inserted.Ok? {
          outcome := FinishOrder(r, inserted.value, true, uuid);
        } else {
          outcome := HandleError(r, inserted.error, uuid);
        }
        return;
      }
      assert Solo(State(), r, FindMap, uuid) == Solo(State(), r, GetMapped(idMap[MapKey(r)]), uuid);
      if existing.Err? {
        outcome := HandleError(r, existing.error, uuid);
      } else {
        outcome := FinishOrder(r, existing.value.value, false, uuid);
      }
    }

    /** A whole import without interruption does exactly what the steps above do one after another. */
    method ImportOrder(r: Request, uuid: Id) returns (outcome: Pc)
      requires OneOrderEach(orders) && uuid !in orders
      modifies this
      ensures (State(), outcome) == Solo(old(State()), r, InsertEvent, uuid)
    {
      var cached := CreateInboundEventOrGetCached(r);
      if cached.Some? {
        assert Solo(State(), r, InsertEvent, uuid) == Solo(State(), r, LoadCached, uuid);
        SoloLast(State(), r, LoadCached, uuid);
        return cached.value;
      }
      assert Solo(old(State()), r, InsertEvent, uuid) == Solo(State(), r, FindMap, uuid);
      outcome := ProcessOrder(r, uuid);
    }
  }
}
