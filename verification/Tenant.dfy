/**
 Tenant isolation of database calls (backend/src/prisma/tenant-prisma.helper.ts).
 */
module Tenant {
  import opened Common
  import opened Json

  datatype Action =
    | FindUnique | FindUniqueOrThrow | FindFirst | FindFirstOrThrow | FindMany | Count | Aggregate | GroupBy
    | Update | UpdateMany | Delete | DeleteMany | Upsert | Create | CreateMany | CreateManyAndReturn
    | Other(name: string)

  const TENANT_SCOPED_MODELS := {
    "User", "Courier", "Dispatcher", "Zone", "Order", "OrderStatusHistory", "Route", "RoutePoint",
    "PaymentRuleVersion", "Payment", "PaymentRecalculation", "AuditLog", "Integration", "IntegrationEvent",
    "CompanyFeature"}

  predicate IsCreate(action: Action) {
    action.Create? || action.CreateMany? || action.CreateManyAndReturn?
  }

  predicate IsUpdate(action: Action) {
    action.Update? || action.UpdateMany? || action.Upsert?
  }

  /** READ_ACTIONS: every listed action with a `where`. */
  predicate HasWhere(action: Action) {
    !IsCreate(action) && !action.Other?
  }

  datatype TenantError = MissingTenantContext | TenantWriteViolation

  datatype Request = Request(action: Action, args: Js, bypass: bool, company: Option<Id>, model: Option<string>)

  const OWNER := "company_id"

  // ---- Objects ------------------------------------------------------------------------------------------------

  predicate HasKey(entries: seq<Entry>, key: string) {
    exists i :: 0 <= i < |entries| && entries[i].key == key
  }

  function Replace(entries: seq<Entry>, key: string, value: Js): seq<Entry> {
    if entries == [] then []
    else
      var last := entries[|entries| - 1];
      Replace(entries[..|entries| - 1], key, value) + [if last.key == key then Entry(key, value) else last]
  }

  /** `{ ...entries, [key]: value }`, and assignment to a field. */
  function Put(entries: seq<Entry>, key: string, value: Js): seq<Entry> {
    if HasKey(entries, key) then Replace(entries, key, value) else entries + [Entry(key, value)]
  }

  /** The own entries of a value; a date has none. */
  function Entries(v: Js): seq<Entry> {
    if v.Obj? then v.entries else []
  }

  // ---- applyTenantIsolation -----------------------------------------------------------------------------------

  function MergeWhere(whereArg: Js, company: Id): Js {
    Obj(Put(Entries(whereArg), OWNER, Str(company)))
  }

  /** A company other than the active one is named. */
  predicate NamesOther(data: Js, company: Id) {
    Field(data, OWNER) != Undefined && Field(data, OWNER) != Str(company)
  }

  function InjectCreate(data: Js, company: Id): (r: Result<Js, TenantError>)
    ensures r.Err? ==> r.error == TenantWriteViolation
    decreases data, 1, 0
  {
    if data.Arr? then
      match InjectItems(data, |data.items|, company)
      case Err(e) => Err(e)
      case Ok(items) => Ok(Arr(items))
    else if !IsPlainObject(data) then Ok(data)
    else if NamesOther(data, company) then Err(TenantWriteViolation)
    else Ok(Obj(Put(Entries(data), OWNER, Str(company))))
  }

  function InjectItems(data: Js, n: nat, company: Id): (r: Result<seq<Js>, TenantError>)
    requires data.Arr? && n <= |data.items|
    ensures match r case Ok(items) => |items| == n case Err(error) => error == TenantWriteViolation
    decreases data, 0, n
  {
    if n == 0 then Ok([])
    else
      match InjectItems(data, n - 1, company)
      case Err(e) => Err(e)
      case Ok(items) =>
        match InjectCreate(data.items[n - 1], company)
        case Err(e) => Err(e)
        case Ok(item) => Ok(items + [item])
  }

  function ValidateUpdate(data: Js, company: Id): Result<Js, TenantError> {
    if IsPlainObject(data) && NamesOther(data, company) then Err(TenantWriteViolation) else Ok(data)
  }

  predicate IsScoped(model: Option<string>) {
    model.Some? && model.value in TENANT_SCOPED_MODELS
  }

  function PutResult(entries: seq<Entry>, key: string, value: Result<Js, TenantError>):
    Result<seq<Entry>, TenantError>
  {
    match value
    case Err(e) => Err(e)
    case Ok(v) => Ok(Put(entries, key, v))
  }

  function Rewrite(action: Action, args: seq<Entry>, company: Id): Result<seq<Entry>, TenantError> {
    var read := if HasWhere(action) then Put(args, "where", MergeWhere(Lookup(args, "where"), company)) else args;
    if IsCreate(action) then PutResult(read, "data", InjectCreate(Lookup(read, "data"), company))
    else if action.Upsert? then
      match PutResult(read, "create", InjectCreate(Lookup(read, "create"), company))
      case Err(e) => Err(e)
      case Ok(created) => PutResult(created, "update", ValidateUpdate(Lookup(created, "update"), company))
    else if IsUpdate(action) then PutResult(read, "data", ValidateUpdate(Lookup(read, "data"), company))
    else Ok(read)
  }

  /** The arguments a call goes to the database with. */
  function Isolate(q: Request): Result<Js, TenantError> {
    if !IsScoped(q.model) || q.bypass then Ok(q.args)
    else if q.company == None || q.company == Some("") then Err(MissingTenantContext)
    else
      match Rewrite(q.action, Entries(q.args), q.company.value)
      case Err(e) => Err(e)
      case Ok(args) => Ok(Obj(args))
  }

  /** The source's form: a copy of the arguments whose fields are assigned one after another. */
  method ApplyTenantIsolation(q: Request) returns (r: Result<Js, TenantError>)
    ensures r == Isolate(q)
  {
    if !IsScoped(q.model) || q.bypass {
      return Ok(q.args);
    }
    if q.company.None? || q.company.value == "" {
      return Err(MissingTenantContext);
    }
    var company := q.company.value;
    var nextArgs := Entries(q.args);
    if HasWhere(q.action) {
      nextArgs := Put(nextArgs, "where", MergeWhere(Lookup(nextArgs, "where"), company));
    }
    if IsCreate(q.action) {
      var data := InjectCreate(Lookup(nextArgs, "data"), company);
      if data.Err? {
        return Err(data.error);
      }
      nextArgs := Put(nextArgs, "data", data.value);
    }
    if q.action.Upsert? {
      var create := InjectCreate(Lookup(nextArgs, "create"), company);
      if create.Err? {
        return Err(create.error);
      }
      nextArgs := Put(nextArgs, "create", create.value);
      var update := ValidateUpdate(Lookup(nextArgs, "update"), company);
      if update.Err? {
        return Err(update.error);
      }
      nextArgs := Put(nextArgs, "update", update.value);
    } else if IsUpdate(q.action) {
      var data := ValidateUpdate(Lookup(nextArgs, "data"), company);
      if data.Err? {
        return Err(data.error);
      }
      nextArgs := Put(nextArgs, "data", data.value);
    }
    r := Ok(Obj(nextArgs));
  }

  // ---- Rewriting twice ----------------------------------------------------------------------------------------

  lemma {:induction false} ReplaceFacts(entries: seq<Entry>, key: string, value: Js)
    ensures |Replace(entries, key, value)| == |entries|
    ensures
      forall i :: 0 <= i < |entries| ==>
        Replace(entries, key, value)[i] == if entries[i].key == key then Entry(key, value) else entries[i]
    decreases |entries|
  {
    if entries != [] {
      ReplaceFacts(entries[..|entries| - 1], key, value);
    }
  }

  lemma {:induction false} LookupReplace(entries: seq<Entry>, key: string, value: Js, k: string)
    ensures
      Lookup(Replace(entries, key, value), k)
      == if k != key then Lookup(entries, k) else if HasKey(entries, key) then value else Undefined
    decreases |entries|
  {
    if entries != [] {
      var front, last := entries[..|entries| - 1], entries[|entries| - 1];
      assert entries == front + [last];
      LookupReplace(front, key, value, k);
      var next := if last.key == key then Entry(key, value) else last;
      LookupAppend(Replace(front, key, value), next, k);
      assert HasKey(entries, key) <==> HasKey(front, key) || last.key == key by {
        assert HasKey(front, key) ==> exists i :: 0 <= i < |front| && entries[i].key == key;
      }
    }
  }

  lemma LookupPut(entries: seq<Entry>, key: string, value: Js, k: string)
    ensures Lookup(Put(entries, key, value), k) == if k == key then value else Lookup(entries, k)
    ensures HasKey(Put(entries, key, value), key)
  {
    hide Lookup, Replace;
    if HasKey(entries, key) {
      LookupReplace(entries, key, value, k);
      ReplaceFacts(entries, key, value);
      var i :| 0 <= i < |entries| && entries[i].key == key;
      assert Replace(entries, key, value)[i].key == key;
    } else {
      LookupAppend(entries, Entry(key, value), k);
      assert (entries + [Entry(key, value)])[|entries|].key == key;
    }
  }

  /** The key occurs, and has the value wherever it does. */
  predicate Holds(entries: seq<Entry>, key: string, value: Js) {
    HasKey(entries, key) && forall i :: 0 <= i < |entries| && entries[i].key == key ==> entries[i].value == value
  }

  lemma {:induction false} LookupHeld(entries: seq<Entry>, key: string, value: Js)
    requires Holds(entries, key, value)
    ensures Lookup(entries, key) == value
    decreases |entries|
  {
    var front, last := entries[..|entries| - 1], entries[|entries| - 1];
    if last.key != key {
      var i :| 0 <= i < |entries| && entries[i].key == key;
      assert front[i].key == key;
      LookupHeld(front, key, value);
    }
  }

  lemma PutHolds(entries: seq<Entry>, key: string, value: Js)
    ensures Holds(Put(entries, key, value), key, value)
  {
    hide Replace;
    ReplaceFacts(entries, key, value);
    LookupPut(entries, key, value, key);
  }

  lemma PutKeepsHeld(entries: seq<Entry>, key: string, value: Js, k: string, v: Js)
    requires Holds(entries, k, v) && k != key
    ensures Holds(Put(entries, key, value), k, v)
  {
    hide Replace;
    ReplaceFacts(entries, key, value);
    var i :| 0 <= i < |entries| && entries[i].key == k;
    assert Put(entries, key, value)[i] == entries[i];
  }

  lemma PutHeld(entries: seq<Entry>, key: string, value: Js)
    requires Holds(entries, key, value)
    ensures Put(entries, key, value) == entries
  {
    hide Replace;
    ReplaceFacts(entries, key, value);
    assert Replace(entries, key, value) == entries;
  }

  lemma MergeWhereAgain(whereArg: Js, company: Id)
    ensures MergeWhere(MergeWhere(whereArg, company), company) == MergeWhere(whereArg, company)
  {
    hide Put, Holds;
    PutHolds(Entries(whereArg), OWNER, Str(company));
    PutHeld(Put(Entries(whereArg), OWNER, Str(company)), OWNER, Str(company));
  }

  lemma {:induction false} InjectAgain(data: Js, company: Id)
    requires InjectCreate(data, company).Ok?
    ensures InjectCreate(InjectCreate(data, company).value, company) == InjectCreate(data, company)
    decreases data, 1, 0
  {
    hide Put, Holds;
    if data.Arr? {
      var items := InjectItems(data, |data.items|, company).value;
      assert items[..|items|] == items;
      InjectItemsAgain(data, |data.items|, company, Arr(items));
    } else if IsPlainObject(data) {
      PutHolds(Entries(data), OWNER, Str(company));
      PutHeld(Put(Entries(data), OWNER, Str(company)), OWNER, Str(company));
      LookupHeld(Put(Entries(data), OWNER, Str(company)), OWNER, Str(company));
    }
  }

  lemma {:induction false} InjectItemsAgain(data: Js, n: nat, company: Id, injected: Js)
    requires data.Arr? && injected.Arr? && n <= |injected.items| == |data.items|
    requires InjectItems(data, n, company) == Ok(injected.items[..n])
    ensures InjectItems(injected, n, company) == Ok(injected.items[..n])
    decreases data, 0, n
  {
    hide InjectCreate;
    if n > 0 {
      var items := InjectItems(data, n - 1, company).value;
      assert injected.items[..n][..n - 1] == injected.items[..n - 1];
      assert items == injected.items[..n - 1];
      InjectItemsAgain(data, n - 1, company, injected);
      InjectAgain(data.items[n - 1], company);
      assert injected.items[..n] == injected.items[..n - 1] + [injected.items[n - 1]];
    }
  }

  /** Rewriting a call twice is rewriting it once. */
  lemma IsolateIdempotent(q: Request)
    requires Isolate(q).Ok?
    ensures Isolate(q.(args := Isolate(q).value)) == Isolate(q)
  {
    hide Put, Holds, Lookup, InjectCreate, MergeWhere, ValidateUpdate;
    if IsScoped(q.model) && !q.bypass {
      RewriteAgain(q.action, Entries(q.args), q.company.value);
    }
  }

  lemma RewriteAgain(action: Action, args: seq<Entry>, company: Id)
    requires Rewrite(action, args, company).Ok?
    ensures Rewrite(action, Rewrite(action, args, company).value, company) == Rewrite(action, args, company)
  {
    hide Put, Holds, Lookup, InjectCreate, MergeWhere, ValidateUpdate, HasWhere;
    var out := Rewrite(action, args, company).value;
    var scope := MergeWhere(Lookup(args, "where"), company);
    var read := if HasWhere(action) then Put(args, "where", scope) else args;
    KeysDiffer();
    if HasWhere(action) {
      PutHolds(args, "where", scope);
      MergeWhereAgain(Lookup(args, "where"), company);
    }
    if IsCreate(action) {
      NoWhere(action);
      var data := InjectCreate(Lookup(read, "data"), company).value;
      PutHolds(read, "data", data);
      InjectAgain(Lookup(read, "data"), company);
      LookupHeld(out, "data", data);
      PutHeld(out, "data", data);
    } else if action.Upsert? {
      UpsertAgain(args, company);
    } else if IsUpdate(action) {
      var data := Lookup(read, "data");
      ValidateAgain(data, company);
      PutHolds(read, "data", data);
      LookupHeld(out, "data", data);
      PutHeld(out, "data", data);
      if HasWhere(action) {
        PutKeepsHeld(read, "data", data, "where", scope);
        LookupHeld(out, "where", scope);
        PutHeld(out, "where", scope);
      }
    } else if HasWhere(action) {
      LookupHeld(out, "where", scope);
      PutHeld(out, "where", scope);
    }
  }

  lemma UpsertAgain(args: seq<Entry>, company: Id)
    requires Rewrite(Upsert, args, company).Ok?
    ensures Rewrite(Upsert, Rewrite(Upsert, args, company).value, company) == Rewrite(Upsert, args, company)
  {
    hide Put, Holds, Lookup, InjectCreate, MergeWhere, ValidateUpdate;
    var out := Rewrite(Upsert, args, company).value;
    var scope := MergeWhere(Lookup(args, "where"), company);
    KeysDiffer();
    PutHolds(args, "where", scope);
    MergeWhereAgain(Lookup(args, "where"), company);
    var read := Put(args, "where", scope);
    var create := InjectCreate(Lookup(read, "create"), company).value;
    InjectAgain(Lookup(read, "create"), company);
    PutHolds(read, "create", create);
    PutKeepsHeld(read, "create", create, "where", scope);
    var created := Put(read, "create", create);
    var update := Lookup(created, "update");
    ValidateAgain(update, company);
    PutHolds(created, "update", update);
    PutKeepsHeld(created, "update", update, "where", scope);
    PutKeepsHeld(created, "update", update, "create", create);
    LookupHeld(out, "where", scope);
    PutHeld(out, "where", scope);
    LookupHeld(out, "create", create);
    PutHeld(out, "create", create);
    LookupHeld(out, "update", update);
    PutHeld(out, "update", update);
  }

  lemma KeysDiffer()
    ensures "where" != "data" && "where" != "create" && "where" != "update" && "create" != "update"
  {
    assert |"where"| == 5 && |"data"| == 4 && |"create"| == 6 && |"update"| == 6;
    assert "create"[0] == 'c' && "update"[0] == 'u';
  }

  lemma NoWhere(action: Action)
    requires IsCreate(action)
    ensures !HasWhere(action) && !action.Upsert?
  {
  }

  lemma ValidateAgain(data: Js, company: Id)
    ensures ValidateUpdate(data, company).Ok? ==> ValidateUpdate(data, company).value == data
  {
  }

  /** Somewhere in the data of a create another company is named. */
  ghost predicate Mentions(data: Js, company: Id) {
    if data.Arr? then exists i :: 0 <= i < |data.items| && Mentions(data.items[i], company)
    else NamesOther(data, company)
  }

  lemma {:induction false} InjectRefusesIff(data: Js, company: Id)
    ensures InjectCreate(data, company).Err? <==> Mentions(data, company)
    decreases data, 1, 0
  {
    if data.Arr? {
      InjectItemsRefuseIff(data, |data.items|, company);
    }
  }

  lemma {:induction false} InjectItemsRefuseIff(data: Js, n: nat, company: Id)
    requires data.Arr? && n <= |data.items|
    ensures InjectItems(data, n, company).Err? <==> exists i :: 0 <= i < n && Mentions(data.items[i], company)
    decreases data, 0, n
  {
    hide InjectCreate;
    if n > 0 {
      InjectItemsRefuseIff(data, n - 1, company);
      InjectRefusesIff(data.items[n - 1], company);
    }
  }

  /** A write is refused, rather than redirected, exactly if its data name another company. */
  lemma WriteRefusedIff(q: Request, company: Id)
    requires IsScoped(q.model) && !q.bypass && q.company == Some(company) && company != ""
    ensures
      var args := Entries(q.args);
      Isolate(q) == Err(TenantWriteViolation) <==>
        || (IsCreate(q.action) && Mentions(Lookup(args, "data"), company))
        || (q.action.Upsert? &&
             (Mentions(Lookup(args, "create"), company) || NamesOther(Lookup(args, "update"), company)))
        || ((q.action.Update? || q.action.UpdateMany?) && NamesOther(Lookup(args, "data"), company))
  {
    hide Put, Lookup, InjectCreate, Mentions, MergeWhere;
    var args := Entries(q.args);
    var scope := MergeWhere(Lookup(args, "where"), company);
    KeysDiffer();
    forall entries, key, value, k
      ensures Lookup(Put(entries, key, value), k) == if k == key then value else Lookup(entries, k)
    {
      LookupPut(entries, key, value, k);
    }
    InjectRefusesIff(Lookup(args, "data"), company);
    InjectRefusesIff(Lookup(args, "create"), company);
  }

  // ---- What the rewriting keeps -------------------------------------------------------------------------------

  /** Outside the scoped models, and with the bypass, arguments pass as they are; otherwise a company is needed. */
  lemma ContextIsNeededIff(q: Request)
    ensures
      var model := Or(q.model, "");
      var scoped := model in [
        "User", "Courier", "Dispatcher", "Zone", "Order", "OrderStatusHistory", "Route", "RoutePoint",
        "PaymentRuleVersion", "Payment", "PaymentRecalculation", "AuditLog", "Integration", "IntegrationEvent",
        "CompanyFeature"];
      && (!scoped || q.bypass ==> Isolate(q) == Ok(q.args))
      && (Isolate(q) == Err(MissingTenantContext) <==> scoped && !q.bypass && Or(q.company, "") == "")
  {
    hide Rewrite;
    assert q.model == None ==> !IsScoped(q.model);
    assert |""| == 0;
    if q.company.Some? {
      RewriteError(q.action, Entries(q.args), q.company.value);
    }
  }

  lemma RewriteError(action: Action, args: seq<Entry>, company: Id)
    ensures Rewrite(action, args, company).Err? ==> Rewrite(action, args, company).error == TenantWriteViolation
  {
    hide Put, Lookup, MergeWhere;
  }

  /** The `where` of a call is the caller's, entry by entry, but for the owner, which is the company. */
  lemma MergeKeepsFilter(whereArg: Js, company: Id, key: string)
    ensures Field(MergeWhere(whereArg, company), key) == if key == OWNER then Str(company) else Field(whereArg, key)
  {
    hide Put, Lookup;
    LookupPut(Entries(whereArg), OWNER, Str(company), key);
    assert Lookup([], key) == Undefined by {
      LookupAbsent([], key);
    }
  }

  /** Created data are the caller's, item by item and entry by entry, but for the owner, which is the company. */
  lemma {:induction false} InjectKeepsData(data: Js, company: Id)
    requires InjectCreate(data, company).Ok?
    ensures
      var out := InjectCreate(data, company).value;
      match data
      case Arr(items) =>
        && out.Arr? && |out.items| == |items|
        && (forall i :: 0 <= i < |items| ==> InjectCreate(items[i], company) == Ok(out.items[i]))
      case Obj(_) =>
        && out.Obj?
        && (forall key :: Field(out, key) == if key == OWNER then Str(company) else Field(data, key))
      case Date(_) => out == Obj([Entry(OWNER, Str(company))])
      case _ => out == data
  {
    hide Put, Lookup;
    match data
    case Arr(items) =>
      forall i | 0 <= i < |items|
        ensures InjectCreate(items[i], company) == Ok(InjectItems(data, |items|, company).value[i])
      {
        InjectedItemAt(data, |items|, company, i);
      }
    case Obj(entries) =>
      forall key
        ensures
          Lookup(Put(entries, OWNER, Str(company)), key)
          == if key == OWNER then Str(company) else Lookup(entries, key)
      {
        LookupPut(entries, OWNER, Str(company), key);
      }
    case Date(_) => PutFirst(OWNER, Str(company));
    case _ =>
  }

  lemma PutFirst(key: string, value: Js)
    ensures Put([], key, value) == [Entry(key, value)]
  {
    assert !HasKey([], key);
  }

  lemma {:induction false} InjectedItemAt(data: Js, n: nat, company: Id, i: nat)
    requires data.Arr? && i < n <= |data.items| && InjectItems(data, n, company).Ok?
    ensures InjectCreate(data.items[i], company) == Ok(InjectItems(data, n, company).value[i])
    decreases n
  {
    hide InjectCreate;
    if i < n - 1 {
      InjectedItemAt(data, n - 1, company, i);
    }
  }

  /**
   Which arguments a rewritten call has: the caller's, but for `where` of actions that have one and the
   data of creates and upserts; update data pass as they are.
   */
  lemma RewriteKeepsArgs(action: Action, args: seq<Entry>, company: Id, key: string)
    requires Rewrite(action, args, company).Ok?
    ensures
      var out := Rewrite(action, args, company).value;
      if key == "where" && HasWhere(action) then
        Lookup(out, key) == MergeWhere(Lookup(args, key), company)
      else if (key == "data" && IsCreate(action)) || (key == "create" && action.Upsert?) then
        Ok(Lookup(out, key)) == InjectCreate(Lookup(args, key), company)
      else Lookup(out, key) == Lookup(args, key)
  {
    hide Put, Lookup, InjectCreate, ValidateUpdate, MergeWhere;
    KeysDiffer();
    forall entries, k, value, other
      ensures Lookup(Put(entries, k, value), other) == if other == k then value else Lookup(entries, other)
    {
      LookupPut(entries, k, value, other);
    }
    ValidateAgain(Lookup(args, "data"), company);
    ValidateAgain(Lookup(args, "update"), company);
  }
}
