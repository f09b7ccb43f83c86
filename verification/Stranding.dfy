/**
 Imports whose event stays `processing`
 (backend/src/modules/integrations/integrations.service.ts, the catch block of `importOrder` with
 `tryRecoverExistingOrder`): which step lets an error out of the catch block, and for which requests
 that can come about.
 */
module Stranding {
  import opened Common
  import opened InboundImport

  predicate IsMapped(t: Tables, r: Request) {
    MapKey(r) in t.idMap
  }

  /**
   One step lets an error out of the catch block exactly if recovery inserts a map row that another
   request has inserted since, or reads back an order without external id.
   */
  lemma EscapesIff(w: World, i: nat, uuid: Id)
    requires Inv(w) && Enabled(w, Advance(i, uuid))
    ensures
      var p := w.processes[i];
      Apply(w, Advance(i, uuid)).processes[i].pc.Escaped? <==>
        || (p.pc.RecoverMapInsert? && IsMapped(w.tables, p.request))
        || (p.pc.RecoverGet? && p.request.externalId == "")
  {
    hide FindOrder, HasNumber, Insertable;
    assert ProcessInv(w.tables, w.processes[i]);
  }

  /** Where a request stands that can still come to the insertion of a map row in recovery, or has escaped. */
  predicate Strandable(t: Tables, p: Process) {
    match p.pc
    case InsertEvent => RequestKey(p.request) !in t.events && !IsMapped(t, p.request) && p.request.windowOk
    case FindMap => !IsMapped(t, p.request) && p.request.windowOk
    case CheckExternalId => !IsMapped(t, p.request)
    case RecoverFind(_) => !IsMapped(t, p.request)
    case RecoverMapFind(_) => !IsMapped(t, p.request)
    case RecoverMapInsert(_) => true
    case Escaped(_) => true
    case _ => false
  }

  // ---- Nothing else strands a request -------------------------------------------------------------------

  lemma OwnStepStaysSafe(w: World, i: nat, uuid: Id)
    requires Inv(w) && Enabled(w, Advance(i, uuid)) && w.processes[i].request.externalId != ""
    requires !Strandable(w.tables, w.processes[i])
    ensures
      var v := Apply(w, Advance(i, uuid));
      v.processes[i].request == w.processes[i].request && !Strandable(v.tables, v.processes[i])
  {
    hide FindOrder, HasNumber, Insertable;
    var p := w.processes[i];
    assert ProcessInv(w.tables, p);
    EscapesIff(w, i, uuid);
    if p.pc == CheckExternalId {
      var id := w.tables.idMap[MapKey(p.request)];
      assert Named(w.tables, p.request.company, p.request.externalId, id);
    }
  }

  lemma OtherStepStaysSafe(w: World, a: Action, i: nat)
    requires Inv(w) && Enabled(w, a) && i < |w.processes| && (a.Advance? ==> a.i != i)
    requires !Strandable(w.tables, w.processes[i])
    ensures
      var v := Apply(w, a);
      i < |v.processes| && v.processes[i] == w.processes[i] && !Strandable(v.tables, v.processes[i])
  {
    if a.Advance? {
      var p := w.processes[a.i];
      assert ProcessInv(w.tables, p);
      StepGrows(w.tables, p.request, p.pc, a.uuid);
    }
  }

  lemma {:induction false} StaysSafe(w: World, actions: seq<Action>, i: nat)
    requires Inv(w) && IsRun(w, actions) && i < |w.processes| && w.processes[i].request.externalId != ""
    requires !Strandable(w.tables, w.processes[i])
    ensures i < |After(w, actions).processes| && !After(w, actions).processes[i].pc.Escaped?
    decreases |actions|
  {
    hide Inv, Apply, Enabled;
    if actions != [] {
      var a := actions[0];
      ApplyKeepsInv(w, a);
      if a.Advance? && a.i == i {
        assert i < |Apply(w, a).processes| by {
          SameProcesses(w, a);
        }
        OwnStepStaysSafe(w, i, a.uuid);
      } else {
        OtherStepStaysSafe(w, a, i);
      }
      StaysSafe(Apply(w, a), actions[1..], i);
    }
  }

  lemma SameProcesses(w: World, a: Action)
    requires Enabled(w, a) && a.Advance?
    ensures |Apply(w, a).processes| == |w.processes|
  {
  }

  // ---- What can strand a request -----------------------------------------------------------------------------

  lemma StepOnTheWay(w: World, i: nat, id: Id, uuid: Id)
    requires Inv(w) && i < |w.processes| && uuid !in w.tables.orders
    requires Strandable(w.tables, w.processes[i]) && !w.processes[i].pc.Escaped? && !w.processes[i].pc.RecoverMapInsert?
    requires
      var r := w.processes[i].request;
      r.externalId != "" && Named(w.tables, r.company, r.externalId, id)
    ensures
      var (t, p) := Move(w.tables, w.processes[i], uuid);
      && t.orders == w.tables.orders && t.idMap == w.tables.idMap && p.request == w.processes[i].request
      && Strandable(t, p) && !p.pc.Escaped?
      && Rank(p.pc) < Rank(w.processes[i].pc)
  {
    hide Cached, HasNumber, OneOrderEach, Insertable;
    assert ProcessInv(w.tables, w.processes[i]);
  }

  /** Process `i` alone, up to the insertion of the map row for the existing order `id`. */
  lemma {:induction false} ToMapInsert(w: World, i: nat, id: Id) returns (actions: seq<Action>)
    requires Inv(w) && i < |w.processes|
    requires Strandable(w.tables, w.processes[i]) && !w.processes[i].pc.Escaped?
    requires
      var r := w.processes[i].request;
      r.externalId != "" && Named(w.tables, r.company, r.externalId, id)
    ensures IsRun(w, actions)
    ensures
      var x := After(w, actions);
      && x.tables.orders == w.tables.orders && x.tables.idMap == w.tables.idMap
      && x.processes == w.processes[i := Process(w.processes[i].request, RecoverMapInsert(id), true)]
    decreases Rank(w.processes[i].pc)
  {
    hide Inv, Strandable, IsRun, After, Apply, Enabled, Move;
    var p := w.processes[i];
    if p.pc.RecoverMapInsert? {
      actions := [];
      NoActions(w);
      InsertsTheOrder(w, i, id);
    } else {
      var uuid := FreshText(w.tables.orders.Keys);
      var act := Advance(i, uuid);
      StrandableIsNotOver(w.tables, p);
      AdvanceIsStep(w, i, uuid);
      StepOnTheWay(w, i, id, uuid);
      ApplyKeepsInv(w, act);
      var rest := ToMapInsert(Apply(w, act), i, id);
      Extend(w, act, rest);
      actions := [act] + rest;
    }
  }

  lemma StrandableIsNotOver(t: Tables, p: Process)
    requires Strandable(t, p) && !p.pc.Escaped?
    ensures !Over(p.pc)
  {
  }

  lemma InsertsTheOrder(w: World, i: nat, id: Id)
    requires Inv(w) && i < |w.processes| && w.processes[i].pc.RecoverMapInsert?
    requires Named(w.tables, w.processes[i].request.company, w.processes[i].request.externalId, id)
    ensures w.processes[i] == Process(w.processes[i].request, RecoverMapInsert(id), true)
  {
    assert ProcessInv(w.tables, w.processes[i]);
  }

  /** An order with the external id of a request, created elsewhere if there is none yet. */
  lemma WithOrder(w: World, r: Request) returns (actions: seq<Action>, id: Id)
    ensures IsRun(w, actions)
    ensures
      var v := After(w, actions);
      && v.processes == w.processes && v.tables.idMap == w.tables.idMap && v.tables.events == w.tables.events
      && Named(v.tables, r.company, r.externalId, id)
  {
    if HasExternalId(w.tables.orders, r.company, r.externalId) {
      actions := [];
      id :| id in w.tables.orders && Holds(w.tables.orders[id], r.company, r.externalId);
    } else {
      id := FreshText(w.tables.orders.Keys);
      var create := CreateOrder(id, Order(r.company, Some(r.externalId), None));
      assert Enabled(w, create);
      NoActions(Apply(w, create));
      Extend(w, create, []);
      actions := [create] + [];
    }
  }

  /** A later request for the same external id that gets ahead and inserts the map row. */
  lemma Overtake(w: World, i: nat, id: Id) returns (actions: seq<Action>)
    requires Inv(w) && i < |w.processes| && w.processes[i].request.externalId != ""
    requires Named(w.tables, w.processes[i].request.company, w.processes[i].request.externalId, id)
    requires !IsMapped(w.tables, w.processes[i].request)
    ensures IsRun(w, actions)
    ensures
      var x := After(w, actions);
      i < |x.processes| && x.processes[i] == w.processes[i] && IsMapped(x.tables, w.processes[i].request)
  {
    var r := w.processes[i].request;
    var key := FreshText(set k | k in w.tables.events :: k.text);
    var late := Request(r.company, key, r.externalId, None, true);
    var arrive := Arrive(late);
    var j := |w.processes|;
    assert RequestKey(late) !in w.tables.events;
    var v := Apply(w, arrive);
    ApplyKeepsInv(w, arrive);
    assert v.processes[j] == Process(late, InsertEvent, false);
    var up := ToMapInsert(v, j, id);
    var x := After(v, up);
    var uuid := FreshText(x.tables.orders.Keys);
    var insert := Advance(j, uuid);
    AdvanceIsStep(x, j, uuid);
    NoActions(Apply(x, insert));
    Extend(x, insert, []);
    Concat(v, up, [insert] + []);
    Extend(w, arrive, up + ([insert] + []));
    actions := [arrive] + (up + ([insert] + []));
  }

  ghost predicate Strands(w: World, actions: seq<Action>, i: nat) {
    IsRun(w, actions) && i < |After(w, actions).processes| && After(w, actions).processes[i].pc.Escaped?
  }

  lemma StrandingRun(w: World, i: nat) returns (actions: seq<Action>)
    requires Inv(w) && i < |w.processes| && w.processes[i].request.externalId != ""
    requires Strandable(w.tables, w.processes[i])
    ensures Strands(w, actions, i)
  {
    hide Inv, IsRun, After, Apply, Enabled, Move;
    var p := w.processes[i];
    if p.pc.Escaped? {
      actions := [];
      NoActions(w);
    } else {
      var order, id := WithOrder(w, p.request);
      var v := After(w, order);
      RunKeepsInv(w, order);
      var up := ToMapInsert(v, i, id);
      var x := After(v, up);
      RunKeepsInv(v, up);
      Concat(w, order, up);
      var rest := Escape(x, i, id);
      Concat(w, order + up, rest);
      actions := order + up + rest;
    }
  }

  /** Between the two map queries of the recovery, any request can be overtaken. */
  lemma Escape(w: World, i: nat, id: Id) returns (actions: seq<Action>)
    requires Inv(w) && i < |w.processes| && w.processes[i].request.externalId != ""
    requires w.processes[i].pc == RecoverMapInsert(id)
    requires Named(w.tables, w.processes[i].request.company, w.processes[i].request.externalId, id)
    ensures Strands(w, actions, i)
  {
    hide Inv, IsRun, After, Apply, Enabled, Move;
    var ahead := [];
    NoActions(w);
    if !IsMapped(w.tables, w.processes[i].request) {
      ahead := Overtake(w, i, id);
    }
    var x := After(w, ahead);
    RunKeepsInv(w, ahead);
    var uuid := FreshText(x.tables.orders.Keys);
    var act := Advance(i, uuid);
    AdvanceIsStep(x, i, uuid);
    EscapesIff(x, i, uuid);
    NoActions(Apply(x, act));
    Extend(x, act, []);
    Concat(w, ahead, [act] + []);
    actions := ahead + ([act] + []);
  }

  /**
   For an external id that is not empty: some continuation leaves the request's event in `processing`
   exactly if the request stands at such a place.
   */
  lemma CanStrandIff(w: World, i: nat)
    requires Inv(w) && i < |w.processes| && w.processes[i].request.externalId != ""
    ensures (exists actions :: Strands(w, actions, i)) <==> Strandable(w.tables, w.processes[i])
  {
    hide Inv, Strandable;
    if Strandable(w.tables, w.processes[i]) {
      var actions := StrandingRun(w, i);
      assert Strands(w, actions, i);
    } else {
      forall actions | IsRun(w, actions)
        ensures !Strands(w, actions, i)
      {
        StaysSafe(w, actions, i);
      }
    }
  }

  /**
   Before the call: an import can be stranded exactly if its idempotency key is new, its time window is
   in order and its external id is not mapped yet.
   */
  lemma NewImportCanStrandIff(w: World, r: Request)
    requires Inv(w) && r.externalId != ""
    ensures
      var v := Apply(w, Arrive(r));
      (exists actions :: Strands(v, actions, |w.processes|)) <==>
        RequestKey(r) !in w.tables.events && r.windowOk && !IsMapped(w.tables, r)
  {
    hide Inv;
    ApplyKeepsInv(w, Arrive(r));
    CanStrandIff(Apply(w, Arrive(r)), |w.processes|);
  }

  /** On an empty database: an import whose event stays `processing` though the call is over. */
  lemma StrandedExample() returns (actions: seq<Action>)
    ensures IsRun(EMPTY, actions)
    ensures
      var w := After(EMPTY, actions);
      && 0 < |w.processes| && Over(w.processes[0].pc)
      && w.processes[0].request == Request("c", "k", "x", None, true)
      && Key("c", "k") in w.tables.events && w.tables.events[Key("c", "k")].status == Processing
  {
    var r := Request("c", "k", "x", None, true);
    var start := Apply(EMPTY, Arrive(r));
    ApplyKeepsInv(EMPTY, Arrive(r));
    assert |"x"| == 1;
    var rest := StrandingRun(start, 0);
    RunKeepsInv(start, rest);
    RequestStays(start, rest, 0);
    assert ProcessInv(After(start, rest).tables, After(start, rest).processes[0]);
    Extend(EMPTY, Arrive(r), rest);
    actions := [Arrive(r)] + rest;
  }

  lemma {:induction false} RequestStays(w: World, actions: seq<Action>, i: nat)
    requires IsRun(w, actions) && i < |w.processes|
    ensures i < |After(w, actions).processes| && After(w, actions).processes[i].request == w.processes[i].request
    decreases |actions|
  {
    if actions != [] {
      RequestStays(Apply(w, actions[0]), actions[1..], i);
    }
  }
}
