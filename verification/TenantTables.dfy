/**
 What rewritten database calls do to the tables: which rows a call reaches, and what one company can
 notice of another.
 */
module TenantTables {
  import opened Common
  import opened Json
  import opened Tenant

  // ---- The database -------------------------------------------------------------------------------------------

  datatype Row = Row(model: string, company: Id, fields: map<string, Js>)

  /**
   What the database makes of single arguments: whether a row passes a filter, what assigning an entry
   does to a row, and which rows a unique key forbids together.
   */
  datatype Engine = Engine(
    passes: (Entry, Row) -> bool, assign: (Row, Entry) -> Row, clash: (Row, Row) -> bool)

  datatype Answer = Found(rows: seq<Row>) | NotFound | Invalid | UniqueViolation | Rejected(error: TenantError)

  /** A `where` object is the conjunction of its entries. */
  predicate Matches(e: Engine, model: string, filters: seq<Entry>, r: Row) {
    r.model == model
    && forall i :: 0 <= i < |filters| ==>
      if filters[i].key == OWNER && filters[i].value.Str? then r.company == filters[i].value.text
      else e.passes(filters[i], r)
  }

  function Selected(rows: seq<Row>, p: Row -> bool): seq<Row> {
    if rows == [] then []
    else if p(rows[0]) then [rows[0]] + Selected(rows[1..], p)
    else Selected(rows[1..], p)
  }

  function UpdateAll(rows: seq<Row>, p: Row -> bool, f: Row -> Row): seq<Row> {
    if rows == [] then [] else [if p(rows[0]) then f(rows[0]) else rows[0]] + UpdateAll(rows[1..], p, f)
  }

  function UpdateFirst(rows: seq<Row>, p: Row -> bool, f: Row -> Row): seq<Row> {
    if rows == [] then []
    else if p(rows[0]) then [f(rows[0])] + rows[1..]
    else [rows[0]] + UpdateFirst(rows[1..], p, f)
  }

  function DeleteAll(rows: seq<Row>, p: Row -> bool): seq<Row> {
    if rows == [] then []
    else if p(rows[0]) then DeleteAll(rows[1..], p)
    else [rows[0]] + DeleteAll(rows[1..], p)
  }

  function DeleteFirst(rows: seq<Row>, p: Row -> bool): seq<Row> {
    if rows == [] then []
    else if p(rows[0]) then rows[1..]
    else [rows[0]] + DeleteFirst(rows[1..], p)
  }

  /** A row with the entries assigned; an undefined entry is no entry. */
  function Assigned(e: Engine, r: Row, entries: seq<Entry>): Row {
    if entries == [] then r
    else
      var before := Assigned(e, r, entries[..|entries| - 1]);
      var last := entries[|entries| - 1];
      if last.value == Undefined then before
      else if last.key == OWNER && last.value.Str? then before.(company := last.value.text)
      else e.assign(before, last)
  }

  function NewRow(e: Engine, model: string, entries: seq<Entry>): Row {
    Assigned(e, Row(model, "", map[]), entries)
  }

  /** The rows of a create; anything but an object or an array of objects is invalid. */
  function NewRows(e: Engine, model: string, data: Js): Option<seq<Row>> {
    if data.Obj? && Field(data, OWNER).Str? then Some([NewRow(e, model, data.entries)])
    else if
      && data.Arr?
      && forall i :: 0 <= i < |data.items| ==> data.items[i].Obj? && Field(data.items[i], OWNER).Str?
    then
      Some(seq(|data.items|, i requires 0 <= i < |data.items| && data.items[i].Obj? =>
        NewRow(e, model, data.items[i].entries)))
    else None
  }

  predicate ClashFree(e: Engine, rows: seq<Row>) {
    rows == [] || ((forall r :: r in rows[1..] ==> !e.clash(rows[0], r)) && ClashFree(e, rows[1..]))
  }

  /**
   A call before the unique keys are looked at: it is answered without writing, or would leave `next`,
   having found `found` and written the rows `touched`.
   */
  datatype Attempt = Settled(answer: Answer) | Write(next: seq<Row>, found: seq<Row>, touched: seq<Row>)

  function Insert(rows: seq<Row>, news: Option<seq<Row>>): Attempt {
    if news.None? then Settled(Invalid) else Write(rows + news.value, news.value, news.value)
  }

  function Written(rows: seq<Row>, action: Action, p: Row -> bool, f: Row -> Row): seq<Row> {
    if action.UpdateMany? then UpdateAll(rows, p, f)
    else if action.DeleteMany? then DeleteAll(rows, p)
    else if action.Delete? then DeleteFirst(rows, p)
    else UpdateFirst(rows, p, f)
  }

  function Touched(found: seq<Row>, action: Action, f: Row -> Row): (r: seq<Row>)
    ensures forall x :: x in r ==> exists y :: y in found && x == f(y)
  {
    if action.UpdateMany? then seq(|found|, i requires 0 <= i < |found| => f(found[i]))
    else if IsUpdate(action) && found != [] then [f(found[0])]
    else []
  }

  /**
   A listed action with selection `p`, assignment `f` and rows to create.  A read answers with a
   function of the rows found, for which the rows themselves stand; a single update or delete acts on
   the first row found.
   */
  function Try(rows: seq<Row>, action: Action, p: Row -> bool, f: Row -> Row, valid: bool, news: Option<seq<Row>>):
    Attempt
  {
    var found := Selected(rows, p);
    if IsCreate(action) then Insert(rows, news)
    else if IsUpdate(action) && !valid then Settled(Invalid)
    else if action.Upsert? && found == [] then Insert(rows, news)
    else if (action.Update? || action.Delete?) && found == [] then Settled(NotFound)
    else if IsUpdate(action) || action.Delete? || action.DeleteMany? then
      Write(Written(rows, action, p, f), found, Touched(found, action, f))
    else Settled(Found(found))
  }

  function Selection(e: Engine, model: string, args: seq<Entry>): Row -> bool {
    var filters := Entries(Lookup(args, "where"));
    (r: Row) => Matches(e, model, filters, r)
  }

  function UpdateData(action: Action, args: seq<Entry>): Js {
    Lookup(args, if action.Upsert? then "update" else "data")
  }

  function CreateData(action: Action, args: seq<Entry>): Js {
    Lookup(args, if action.Upsert? then "create" else "data")
  }

  function Assignment(e: Engine, data: Js): Row -> Row {
    (r: Row) => Assigned(e, r, Entries(data))
  }

  function TryArgs(e: Engine, rows: seq<Row>, model: string, action: Action, args: seq<Entry>): Attempt {
    var data := UpdateData(action, args);
    Try(rows, action, Selection(e, model, args), Assignment(e, data), data.Obj?,
        NewRows(e, model, CreateData(action, args)))
  }

  /** A call is rewritten before it reaches the database. */
  function TryCall(e: Engine, rows: seq<Row>, q: Request): Attempt {
    match Isolate(q)
    case Err(error) => Settled(Rejected(error))
    case Ok(args) => TryArgs(e, rows, Or(q.model, ""), q.action, Entries(args))
  }

  /** A write takes effect unless a unique key forbids it. */
  function Perform(e: Engine, rows: seq<Row>, q: Request): (seq<Row>, Answer) {
    match TryCall(e, rows, q)
    case Settled(answer) => (rows, answer)
    case Write(next, found, _) => if ClashFree(e, next) then (next, Found(found)) else (rows, UniqueViolation)
  }

  // ---- One company's view -------------------------------------------------------------------------------------

  function View(rows: seq<Row>, company: Id): seq<Row> {
    if rows == [] then []
    else if rows[0].company == company then [rows[0]] + View(rows[1..], company)
    else View(rows[1..], company)
  }

  /** The selection finds rows of the company only. */
  ghost predicate Within(p: Row -> bool, company: Id) {
    forall r :: p(r) ==> r.company == company
  }

  ghost predicate OwnedBy(rows: seq<Row>, company: Id) {
    forall r :: r in rows ==> r.company == company
  }

  /** Only rows of the company differ, and none of them went to another company or came from one. */
  ghost predicate SameForOthers(rows: seq<Row>, next: seq<Row>, company: Id) {
    forall d :: d != company ==> View(next, d) == View(rows, d)
  }

  lemma ViewCons(head: Row, tail: seq<Row>, company: Id)
    ensures
      View([head] + tail, company) ==
        if head.company == company then [head] + View(tail, company) else View(tail, company)
  {
    assert ([head] + tail)[1..] == tail;
  }

  lemma {:induction false} ViewMembers(rows: seq<Row>, company: Id)
    ensures forall r :: r in View(rows, company) <==> r in rows && r.company == company
    decreases |rows|
  {
    if rows != [] {
      ViewMembers(rows[1..], company);
      assert rows == [rows[0]] + rows[1..];
    }
  }

  lemma {:induction false} ViewConcat(rows: seq<Row>, news: seq<Row>, company: Id)
    ensures View(rows + news, company) == View(rows, company) + View(news, company)
    decreases |rows|
  {
    if rows == [] {
      assert rows + news == news;
    } else {
      assert (rows + news)[1..] == rows[1..] + news;
      ViewConcat(rows[1..], news, company);
    }
  }

  lemma {:induction false} ViewOfOwn(rows: seq<Row>, owner: Id, company: Id)
    requires forall r :: r in rows ==> r.company == owner
    ensures View(rows, company) == if company == owner then rows else []
    decreases |rows|
  {
    if rows != [] {
      ViewOfOwn(rows[1..], owner, company);
    }
  }

  lemma {:induction false} SelectedView(rows: seq<Row>, p: Row -> bool, company: Id)
    requires Within(p, company)
    ensures Selected(rows, p) == Selected(View(rows, company), p)
    ensures forall r :: r in Selected(rows, p) ==> r in rows && p(r)
    decreases |rows|
  {
    if rows != [] {
      SelectedView(rows[1..], p, company);
      assert rows == [rows[0]] + rows[1..];
      SelectedCons(rows[0], View(rows[1..], company), p);
    }
  }

  lemma SelectedCons(head: Row, tail: seq<Row>, p: Row -> bool)
    ensures Selected([head] + tail, p) == if p(head) then [head] + Selected(tail, p) else Selected(tail, p)
  {
    assert ([head] + tail)[1..] == tail;
  }

  lemma {:induction false} SelectedMembers(rows: seq<Row>, p: Row -> bool)
    ensures forall r :: r in Selected(rows, p) <==> r in rows && p(r)
    decreases |rows|
  {
    if rows != [] {
      SelectedMembers(rows[1..], p);
      assert rows == [rows[0]] + rows[1..];
    }
  }

  lemma {:induction false} UpdateAllView(rows: seq<Row>, p: Row -> bool, f: Row -> Row, company: Id, d: Id)
    requires Within(p, company) && forall r :: r in rows && p(r) ==> f(r).company == company
    ensures View(UpdateAll(rows, p, f), d) == if d == company then UpdateAll(View(rows, d), p, f) else View(rows, d)
    decreases |rows|
  {
    if rows != [] {
      UpdateAllView(rows[1..], p, f, company, d);
      ViewCons(if p(rows[0]) then f(rows[0]) else rows[0], UpdateAll(rows[1..], p, f), d);
      assert ([rows[0]] + View(rows[1..], d))[1..] == View(rows[1..], d);
    }
  }

  /** An updated row that goes to another company makes that company's view longer. */
  lemma {:induction false} UpdateAllGrows(rows: seq<Row>, p: Row -> bool, f: Row -> Row, company: Id, d: Id)
    requires Within(p, company) && d != company
    ensures |View(UpdateAll(rows, p, f), d)| >= |View(rows, d)|
    ensures (exists r :: r in rows && p(r) && f(r).company == d) ==> |View(UpdateAll(rows, p, f), d)| > |View(rows, d)|
    decreases |rows|
  {
    if rows != [] {
      UpdateAllGrows(rows[1..], p, f, company, d);
      ViewCons(if p(rows[0]) then f(rows[0]) else rows[0], UpdateAll(rows[1..], p, f), d);
      assert rows == [rows[0]] + rows[1..];
    }
  }

  lemma {:induction false} UpdateFirstView(rows: seq<Row>, p: Row -> bool, f: Row -> Row, company: Id, d: Id)
    requires Within(p, company)
    requires Selected(rows, p) != [] ==> f(Selected(rows, p)[0]).company == company
    ensures View(UpdateFirst(rows, p, f), d) == if d == company then UpdateFirst(View(rows, d), p, f) else View(rows, d)
    decreases |rows|
  {
    if rows != [] {
      assert ([rows[0]] + View(rows[1..], d))[1..] == View(rows[1..], d);
      if p(rows[0]) {
        ViewCons(f(rows[0]), rows[1..], d);
      } else {
        UpdateFirstView(rows[1..], p, f, company, d);
        ViewCons(rows[0], UpdateFirst(rows[1..], p, f), d);
      }
    }
  }

  lemma {:induction false} UpdateFirstGrows(rows: seq<Row>, p: Row -> bool, f: Row -> Row, company: Id, d: Id)
    requires Within(p, company) && d != company && Selected(rows, p) != [] && f(Selected(rows, p)[0]).company == d
    ensures |View(UpdateFirst(rows, p, f), d)| > |View(rows, d)|
    decreases |rows|
  {
    if p(rows[0]) {
      ViewCons(f(rows[0]), rows[1..], d);
    } else {
      UpdateFirstGrows(rows[1..], p, f, company, d);
      ViewCons(rows[0], UpdateFirst(rows[1..], p, f), d);
    }
  }

  lemma {:induction false} DeleteAllView(rows: seq<Row>, p: Row -> bool, company: Id, d: Id)
    requires Within(p, company)
    ensures View(DeleteAll(rows, p), d) == if d == company then DeleteAll(View(rows, d), p) else View(rows, d)
    decreases |rows|
  {
    if rows != [] {
      DeleteAllView(rows[1..], p, company, d);
      ViewCons(rows[0], DeleteAll(rows[1..], p), d);
      assert ([rows[0]] + View(rows[1..], d))[1..] == View(rows[1..], d);
    }
  }

  lemma {:induction false} DeleteFirstView(rows: seq<Row>, p: Row -> bool, company: Id, d: Id)
    requires Within(p, company)
    ensures View(DeleteFirst(rows, p), d) == if d == company then DeleteFirst(View(rows, d), p) else View(rows, d)
    decreases |rows|
  {
    if rows != [] {
      DeleteFirstView(rows[1..], p, company, d);
      ViewCons(rows[0], DeleteFirst(rows[1..], p), d);
      assert ([rows[0]] + View(rows[1..], d))[1..] == View(rows[1..], d);
    }
  }

  // ---- Confinement --------------------------------------------------------------------------------------------

  lemma AppendView(rows: seq<Row>, news: seq<Row>, company: Id)
    requires OwnedBy(news, company)
    ensures SameForOthers(rows, rows + news, company) && View(rows + news, company) == View(rows, company) + news
  {
    hide View;
    forall d
      ensures View(rows + news, d) == View(rows, d) + if d == company then news else []
    {
      ViewConcat(rows, news, d);
      ViewOfOwn(news, company, d);
    }
  }

  /** New rows of another company make that company's view longer. */
  lemma AppendGrows(rows: seq<Row>, news: seq<Row>, r: Row)
    requires r in news
    ensures |View(rows + news, r.company)| > |View(rows, r.company)|
  {
    hide View;
    ViewConcat(rows, news, r.company);
    ViewMembers(news, r.company);
    assert r in View(news, r.company);
  }

  lemma WrittenView(rows: seq<Row>, action: Action, p: Row -> bool, f: Row -> Row, company: Id, d: Id)
    requires Within(p, company) && OwnedBy(Touched(Selected(rows, p), action, f), company)
    requires IsUpdate(action) || action.Delete? || action.DeleteMany?
    ensures
      View(Written(rows, action, p, f), d)
      == if d == company then Written(View(rows, d), action, p, f) else View(rows, d)
  {
    hide View, UpdateAll, UpdateFirst, DeleteAll, DeleteFirst, Within, Selected;
    var found := Selected(rows, p);
    if action.UpdateMany? {
      SelectedMembers(rows, p);
      forall r | r in rows && p(r)
        ensures f(r).company == company
      {
        var i :| 0 <= i < |found| && found[i] == r;
        assert Touched(found, action, f)[i] == f(r);
      }
      UpdateAllView(rows, p, f, company, d);
    } else if action.DeleteMany? {
      DeleteAllView(rows, p, company, d);
    } else if action.Delete? {
      DeleteFirstView(rows, p, company, d);
    } else {
      assert found != [] ==> Touched(found, action, f)[0] == f(found[0]);
      UpdateFirstView(rows, p, f, company, d);
    }
  }

  lemma WrittenSame(rows: seq<Row>, action: Action, p: Row -> bool, f: Row -> Row, company: Id)
    requires Within(p, company) && OwnedBy(Touched(Selected(rows, p), action, f), company)
    requires IsUpdate(action) || action.Delete? || action.DeleteMany?
    ensures SameForOthers(rows, Written(rows, action, p, f), company)
  {
    hide View, Written, Within, Touched, OwnedBy, Selected;
    forall d
      ensures d != company ==> View(Written(rows, action, p, f), d) == View(rows, d)
    {
      WrittenView(rows, action, p, f, company, d);
    }
  }

  lemma WrittenGrows(rows: seq<Row>, action: Action, p: Row -> bool, f: Row -> Row, company: Id, r: Row)
    requires Within(p, company) && r in Touched(Selected(rows, p), action, f) && r.company != company
    requires IsUpdate(action) || action.Delete? || action.DeleteMany?
    ensures |View(Written(rows, action, p, f), r.company)| > |View(rows, r.company)|
  {
    hide View, UpdateAll, UpdateFirst, DeleteAll, DeleteFirst, Within, Selected;
    SelectedMembers(rows, p);
    if action.UpdateMany? {
      UpdateAllGrows(rows, p, f, company, r.company);
    } else {
      UpdateFirstGrows(rows, p, f, company, r.company);
    }
  }

  lemma SelectedOwned(rows: seq<Row>, p: Row -> bool, company: Id)
    requires Within(p, company)
    ensures OwnedBy(Selected(rows, p), company) && Selected(rows, p) == Selected(View(rows, company), p)
  {
    SelectedView(rows, p, company);
  }

  /**
   An attempted write leaves the rows of other companies alone, exactly if all rows it writes belong to
   the company.
   */
  lemma WriteConfinedIff(rows: seq<Row>, action: Action, p: Row -> bool, f: Row -> Row, valid: bool,
                         news: Option<seq<Row>>, company: Id)
    requires !action.Other? && (HasWhere(action) ==> Within(p, company))
    requires Try(rows, action, p, f, valid, news).Write?
    ensures
      var attempt := Try(rows, action, p, f, valid, news);
      && (SameForOthers(rows, attempt.next, company) <==> OwnedBy(attempt.touched, company))
      && (OwnedBy(attempt.touched, company) ==> OwnedBy(attempt.found, company))
  {
    hide View, Written, Within, Selected, Touched;
    var attempt := Try(rows, action, p, f, valid, news);
    if IsCreate(action) || (action.Upsert? && Selected(rows, p) == []) {
      if OwnedBy(news.value, company) {
        AppendView(rows, news.value, company);
      } else {
        var r :| r in news.value && r.company != company;
        AppendGrows(rows, news.value, r);
      }
    } else {
      WritesHaveWhere(action);
      SelectedOwned(rows, p, company);
      if OwnedBy(attempt.touched, company) {
        WrittenSame(rows, action, p, f, company);
      } else {
        var r :| r in attempt.touched && r.company != company;
        WrittenGrows(rows, action, p, f, company, r);
      }
    }
  }

  lemma WritesHaveWhere(action: Action)
    requires !IsCreate(action) && !action.Other?
    ensures HasWhere(action)
  {
  }

  /** The same attempt on the company's rows alone finds and writes the same rows. */
  lemma TryOnView(rows: seq<Row>, action: Action, p: Row -> bool, f: Row -> Row, valid: bool, news: Option<seq<Row>>,
                  company: Id)
    requires !action.Other? && (HasWhere(action) ==> Within(p, company))
    ensures
      var attempt, own := Try(rows, action, p, f, valid, news), Try(View(rows, company), action, p, f, valid, news);
      match attempt
      case Settled(answer) => own == attempt && (answer.Found? ==> OwnedBy(answer.rows, company))
      case Write(next, found, touched) =>
        && own.Write? && own.found == found && own.touched == touched
        && (OwnedBy(touched, company) ==> own.next == View(next, company))
  {
    hide View, Written, Within, Selected, Touched;
    var attempt := Try(rows, action, p, f, valid, news);
    if HasWhere(action) {
      SelectedOwned(rows, p, company);
    }
    if attempt.Write? && OwnedBy(attempt.touched, company) {
      if IsCreate(action) || (action.Upsert? && Selected(rows, p) == []) {
        AppendView(rows, news.value, company);
      } else {
        WritesHaveWhere(action);
        WrittenView(rows, action, p, f, company, company);
      }
    }
  }

  // ---- What the rewritten arguments say -----------------------------------------------------------------------

  lemma ScopeIsWithin(e: Engine, model: string, args: seq<Entry>, company: Id)
    requires Holds(Entries(Lookup(args, "where")), OWNER, Str(company))
    ensures Within(Selection(e, model, args), company)
  {
    var filters := Entries(Lookup(args, "where"));
    var i :| 0 <= i < |filters| && filters[i].key == OWNER;
    assert filters[i].value == Str(company);
  }

  lemma ScopeHolds(whereArg: Js, company: Id)
    ensures Holds(Entries(MergeWhere(whereArg, company)), OWNER, Str(company))
  {
    hide Put, Holds;
    PutHolds(Entries(whereArg), OWNER, Str(company));
  }

  /** A listed action on a scoped model, without the bypass. */
  ghost predicate IsIsolated(q: Request) {
    IsScoped(q.model) && !q.bypass && !q.action.Other?
  }

  lemma RewrittenWhere(action: Action, args: seq<Entry>, company: Id)
    requires HasWhere(action) && Rewrite(action, args, company).Ok?
    ensures Holds(Entries(Lookup(Rewrite(action, args, company).value, "where")), OWNER, Str(company))
  {
    hide Put, Lookup, Holds, InjectCreate, ValidateUpdate, MergeWhere;
    KeysDiffer();
    ScopeHolds(Lookup(args, "where"), company);
    forall entries, key, value, k
      ensures Lookup(Put(entries, key, value), k) == if k == key then value else Lookup(entries, k)
    {
      LookupPut(entries, key, value, k);
    }
  }

  lemma IsolatedScope(e: Engine, q: Request, company: Id)
    requires IsIsolated(q) && q.company == Some(company) && Isolate(q).Ok? && HasWhere(q.action)
    ensures Within(Selection(e, Or(q.model, ""), Entries(Isolate(q).value)), company)
  {
    hide Rewrite, Lookup, Holds, Within, Selection;
    RewrittenWhere(q.action, Entries(q.args), company);
    ScopeIsWithin(e, Or(q.model, ""), Entries(Isolate(q).value), company);
  }

  // ---- What a call reaches ------------------------------------------------------------------------------------

  /** A row of the model and the company that passes the caller's own filter, whatever that says of the owner. */
  ghost predicate IsWanted(e: Engine, q: Request, company: Id, r: Row) {
    var filters := Entries(Field(q.args, "where"));
    && Some(r.model) == q.model && r.company == company
    && forall i :: 0 <= i < |filters| && filters[i].key != OWNER ==> e.passes(filters[i], r)
  }

  lemma MatchesPut(e: Engine, model: string, filters: seq<Entry>, company: Id, r: Row)
    ensures
      Matches(e, model, Put(filters, OWNER, Str(company)), r) <==>
        && r.model == model && r.company == company
        && forall i :: 0 <= i < |filters| && filters[i].key != OWNER ==> e.passes(filters[i], r)
  {
    hide Replace;
    var all := Put(filters, OWNER, Str(company));
    ReplaceFacts(filters, OWNER, Str(company));
    PutHolds(filters, OWNER, Str(company));
    var k :| 0 <= k < |all| && all[k].key == OWNER;
    if Matches(e, model, all, r) {
      assert r.company == company;
      forall i | 0 <= i < |filters| && filters[i].key != OWNER
        ensures e.passes(filters[i], r)
      {
        assert all[i] == filters[i];
      }
    }
  }

  /** A rewritten call selects exactly the rows of its company that the caller's filter selects. */
  lemma SelectionIff(e: Engine, q: Request, company: Id, r: Row)
    requires IsIsolated(q) && q.company == Some(company) && HasWhere(q.action) && Isolate(q).Ok?
    ensures Selection(e, Or(q.model, ""), Entries(Isolate(q).value))(r) <==> IsWanted(e, q, company, r)
  {
    hide Rewrite, Lookup, Put, Matches;
    RewriteKeepsArgs(q.action, Entries(q.args), company, "where");
    FieldOfArgs(q.args, "where");
    MatchesPut(e, Or(q.model, ""), Entries(Field(q.args, "where")), company, r);
  }

  lemma FieldOfArgs(args: Js, key: string)
    ensures Lookup(Entries(args), key) == Field(args, key)
  {
    LookupAbsent([], key);
  }

  lemma {:induction false} SelectedOrder(rows: seq<Row>, p: Row -> bool, i: nat)
    requires i < |rows|
    ensures
      Selected(rows, p)
      == Selected(rows[..i], p) + (if p(rows[i]) then [rows[i]] else []) + Selected(rows[i + 1..], p)
    decreases |rows|
  {
    if i > 0 {
      assert rows[1..][..i - 1] == rows[..i][1..] && rows[1..][i - 1] == rows[i] && rows[1..][i..] == rows[i + 1..];
      SelectedOrder(rows[1..], p, i - 1);
    }
  }

  lemma {:induction false} DeletedMembers(rows: seq<Row>, p: Row -> bool)
    ensures forall r :: r in DeleteAll(rows, p) <==> r in rows && !p(r)
    decreases |rows|
  {
    if rows != [] {
      DeletedMembers(rows[1..], p);
      assert rows == [rows[0]] + rows[1..];
    }
  }

  lemma {:induction false} DeletedClashFree(e: Engine, rows: seq<Row>, p: Row -> bool)
    requires ClashFree(e, rows)
    ensures ClashFree(e, DeleteAll(rows, p)) && ClashFree(e, DeleteFirst(rows, p))
    decreases |rows|
  {
    if rows != [] {
      DeletedClashFree(e, rows[1..], p);
      DeletedMembers(rows[1..], p);
      DeletedFirstMembers(rows[1..], p);
      assert ([rows[0]] + DeleteAll(rows[1..], p))[1..] == DeleteAll(rows[1..], p);
      assert ([rows[0]] + DeleteFirst(rows[1..], p))[1..] == DeleteFirst(rows[1..], p);
    }
  }

  lemma {:induction false} DeletedFirstMembers(rows: seq<Row>, p: Row -> bool)
    ensures forall r :: r in DeleteFirst(rows, p) ==> r in rows
    decreases |rows|
  {
    if rows != [] {
      DeletedFirstMembers(rows[1..], p);
      assert rows == [rows[0]] + rows[1..];
    }
  }

  lemma {:induction false} UpdatedAt(rows: seq<Row>, p: Row -> bool, f: Row -> Row)
    ensures |UpdateAll(rows, p, f)| == |rows|
    ensures forall i :: 0 <= i < |rows| ==> UpdateAll(rows, p, f)[i] == if p(rows[i]) then f(rows[i]) else rows[i]
    decreases |rows|
  {
    if rows != [] {
      UpdatedAt(rows[1..], p, f);
    }
  }

  /** The caller's data of an update, under the key the action reads them from. */
  function GivenData(q: Request): Js {
    Field(q.args, if q.action.Upsert? then "update" else "data")
  }

  ghost predicate IsFirstWanted(e: Engine, rows: seq<Row>, q: Request, company: Id, i: nat) {
    && i < |rows| && IsWanted(e, q, company, rows[i])
    && forall j :: 0 <= j < i ==> !IsWanted(e, q, company, rows[j])
  }

  /** The wanted rows in their order; a read answers with a function of them. */
  ghost predicate AreTheWanted(e: Engine, rows: seq<Row>, q: Request, company: Id, found: seq<Row>) {
    && (forall r :: r in found <==> r in rows && IsWanted(e, q, company, r))
    && exists p: Row -> bool :: (forall r :: p(r) <==> IsWanted(e, q, company, r)) && found == Selected(rows, p)
  }

  lemma {:induction false} FirstOf(rows: seq<Row>, p: Row -> bool, f: Row -> Row) returns (i: nat)
    requires exists r :: r in rows && p(r)
    ensures i < |rows| && p(rows[i]) && forall j :: 0 <= j < i ==> !p(rows[j])
    ensures UpdateFirst(rows, p, f) == rows[i := f(rows[i])] && DeleteFirst(rows, p) == rows[..i] + rows[i + 1..]
    decreases |rows|
  {
    assert rows == [rows[0]] + rows[1..];
    if p(rows[0]) {
      i := 0;
    } else {
      var k := FirstOf(rows[1..], p, f);
      i := k + 1;
      assert rows[..i] == [rows[0]] + rows[1..][..k] && rows[i + 1..] == rows[1..][k + 1..];
    }
  }

  /** The caller's data are assigned to exactly the wanted rows. */
  ghost predicate UpdatesTheWanted(e: Engine, rows: seq<Row>, q: Request, company: Id, next: seq<Row>) {
    && |next| == |rows|
    && forall i :: 0 <= i < |rows| ==>
         next[i] ==
           if IsWanted(e, q, company, rows[i]) then Assigned(e, rows[i], Entries(GivenData(q))) else rows[i]
  }

  ghost predicate UpdatesTheFirst(e: Engine, rows: seq<Row>, q: Request, company: Id, next: seq<Row>) {
    exists i: nat ::
      && IsFirstWanted(e, rows, q, company, i)
      && next == rows[i := Assigned(e, rows[i], Entries(GivenData(q)))]
  }

  ghost predicate DeletesTheWanted(e: Engine, rows: seq<Row>, q: Request, company: Id, next: seq<Row>) {
    && (forall r :: r in next <==> r in rows && !IsWanted(e, q, company, r))
    && exists p: Row -> bool :: (forall r :: p(r) <==> !IsWanted(e, q, company, r)) && next == Selected(rows, p)
  }

  ghost predicate DeletesTheFirst(e: Engine, rows: seq<Row>, q: Request, company: Id, next: seq<Row>) {
    exists i: nat :: IsFirstWanted(e, rows, q, company, i) && next == rows[..i] + rows[i + 1..]
  }

  ghost predicate NoneWanted(e: Engine, rows: seq<Row>, q: Request, company: Id) {
    forall r :: r in rows ==> !IsWanted(e, q, company, r)
  }

  /** The selection and the assignment of a call, as its arguments ask for them. */
  ghost predicate FitsCall(e: Engine, q: Request, company: Id, p: Row -> bool, f: Row -> Row) {
    && (forall r :: p(r) <==> IsWanted(e, q, company, r))
    && (forall r :: f(r) == Assigned(e, r, Entries(GivenData(q))))
  }

  lemma FoundAreTheWanted(e: Engine, rows: seq<Row>, q: Request, company: Id, p: Row -> bool, f: Row -> Row)
    requires FitsCall(e, q, company, p, f)
    ensures AreTheWanted(e, rows, q, company, Selected(rows, p))
    ensures Selected(rows, p) == [] <==> NoneWanted(e, rows, q, company)
    ensures UpdatesTheWanted(e, rows, q, company, UpdateAll(rows, p, f))
    ensures DeletesTheWanted(e, rows, q, company, DeleteAll(rows, p))
  {
    hide Selected, UpdateAll, DeleteAll, IsWanted, Assigned;
    SelectedMembers(rows, p);
    UpdatedAt(rows, p, f);
    var others := (r: Row) => !p(r);
    DeletedIsSelected(rows, p, others);
    DeletedMembers(rows, p);
    if Selected(rows, p) != [] {
      assert Selected(rows, p)[0] in Selected(rows, p);
    }
  }

  lemma {:induction false} DeletedIsSelected(rows: seq<Row>, p: Row -> bool, others: Row -> bool)
    requires forall r :: others(r) <==> !p(r)
    ensures DeleteAll(rows, p) == Selected(rows, others)
    decreases |rows|
  {
    if rows != [] {
      DeletedIsSelected(rows[1..], p, others);
    }
  }

  lemma FirstIsTheFirstWanted(e: Engine, rows: seq<Row>, q: Request, company: Id, p: Row -> bool, f: Row -> Row)
    requires FitsCall(e, q, company, p, f) && !NoneWanted(e, rows, q, company)
    ensures UpdatesTheFirst(e, rows, q, company, UpdateFirst(rows, p, f))
    ensures DeletesTheFirst(e, rows, q, company, DeleteFirst(rows, p))
  {
    hide UpdateFirst, DeleteFirst, IsWanted, Assigned;
    var i := FirstOf(rows, p, f);
    assert IsFirstWanted(e, rows, q, company, i);
  }

  lemma CallFits(e: Engine, q: Request, company: Id)
    requires IsIsolated(q) && q.company == Some(company) && HasWhere(q.action) && Isolate(q).Ok?
    ensures
      var args := Entries(Isolate(q).value);
      && UpdateData(q.action, args) == GivenData(q)
      && FitsCall(e, q, company, Selection(e, Or(q.model, ""), args), Assignment(e, GivenData(q)))
  {
    hide Rewrite, Lookup, Selection, IsWanted, Assigned, Field;
    var args := Entries(Isolate(q).value);
    forall r
      ensures Selection(e, Or(q.model, ""), args)(r) <==> IsWanted(e, q, company, r)
    {
      SelectionIff(e, q, company, r);
    }
    var key := if q.action.Upsert? then "update" else "data";
    KeysDiffer();
    RewriteKeepsArgs(q.action, Entries(q.args), company, key);
    FieldOfArgs(q.args, key);
  }

  /**
   What a call reaches, in terms of the caller's arguments alone: a read answers with exactly the wanted
   rows, deleteMany removes exactly them, updateMany assigns the caller's data to exactly them, and a
   single update or delete acts on the first of them; an update has no effect if a unique key forbids it.
   */
  lemma CallReachesTheWanted(e: Engine, rows: seq<Row>, q: Request, company: Id)
    requires IsIsolated(q) && q.company == Some(company) && HasWhere(q.action) && Isolate(q).Ok? && ClashFree(e, rows)
    ensures
      var (next, answer) := Perform(e, rows, q);
      var none, refused := NoneWanted(e, rows, q, company), next == rows && answer == UniqueViolation;
      if IsUpdate(q.action) && !GivenData(q).Obj? then next == rows && answer == Invalid
      else if (q.action.Update? || q.action.Delete?) && none then next == rows && answer == NotFound
      else
        match q.action
        case DeleteMany => answer.Found? && DeletesTheWanted(e, rows, q, company, next)
        case Delete => answer.Found? && DeletesTheFirst(e, rows, q, company, next)
        case UpdateMany => refused || UpdatesTheWanted(e, rows, q, company, next)
        case Update => refused || UpdatesTheFirst(e, rows, q, company, next)
        case Upsert => none || refused || UpdatesTheFirst(e, rows, q, company, next)
        case _ => next == rows && answer.Found? && AreTheWanted(e, rows, q, company, answer.rows)
  {
    hide Rewrite, Lookup, ClashFree, Selection, Assignment, UpdateAll, UpdateFirst, DeleteAll, DeleteFirst, Selected,
      NewRows, Field, AreTheWanted, UpdatesTheWanted, UpdatesTheFirst, DeletesTheWanted, DeletesTheFirst, NoneWanted,
      FitsCall, GivenData;
    var args := Entries(Isolate(q).value);
    var p, f := Selection(e, Or(q.model, ""), args), Assignment(e, GivenData(q));
    CallFits(e, q, company);
    FoundAreTheWanted(e, rows, q, company, p, f);
    DeletedClashFree(e, rows, p);
    if !NoneWanted(e, rows, q, company) {
      FirstIsTheFirstWanted(e, rows, q, company, p, f);
    }
  }

  /** A create, or an upsert that finds nothing, creates the caller's data, unless a unique key forbids it. */
  lemma CallCreates(e: Engine, rows: seq<Row>, q: Request, company: Id)
    requires IsIsolated(q) && q.company == Some(company) && Isolate(q).Ok?
    requires IsCreate(q.action) || (q.action.Upsert? && NoneWanted(e, rows, q, company))
    ensures
      var (next, answer) := Perform(e, rows, q);
      var given := Field(q.args, if q.action.Upsert? then "create" else "data");
      && InjectCreate(given, company).Ok?
      && if q.action.Upsert? && !GivenData(q).Obj? then next == rows && answer == Invalid
      else
        match NewRows(e, Or(q.model, ""), InjectCreate(given, company).value)
        case None => next == rows && answer == Invalid
        case Some(news) =>
          || (next == rows && answer == UniqueViolation)
          || (next == rows + news && answer == Found(news))
  {
    hide Rewrite, Lookup, ClashFree, Selection, Assignment, Selected, NewRows, Field, InjectCreate, FitsCall,
      NoneWanted, IsWanted;
    var args := Entries(Isolate(q).value);
    var p, f := Selection(e, Or(q.model, ""), args), Assignment(e, GivenData(q));
    var key := if q.action.Upsert? then "create" else "data";
    KeysDiffer();
    RewriteKeepsArgs(q.action, Entries(q.args), company, key);
    FieldOfArgs(q.args, key);
    if q.action.Upsert? {
      CallFits(e, q, company);
      FoundAreTheWanted(e, rows, q, company, p, f);
    }
  }

  // ---- One call -----------------------------------------------------------------------------------------------

  /** Every row that the call would write belongs to the company. */
  ghost predicate StaysHome(e: Engine, rows: seq<Row>, q: Request, company: Id) {
    match TryCall(e, rows, q)
    case Settled(_) => true
    case Write(_, _, touched) => OwnedBy(touched, company)
  }

  /**
   Whatever the arguments and the table, an isolated call leaves the rows of all other companies alone
   and moves no row to another one, exactly if it is refused by a unique key or every row it writes
   belongs to its company.  What it answers with is its own then; what it reads or deletes always is.
   */
  lemma CallIsConfinedIff(e: Engine, rows: seq<Row>, q: Request, company: Id)
    requires IsIsolated(q) && q.company == Some(company)
    ensures
      var (next, answer) := Perform(e, rows, q);
      && (SameForOthers(rows, next, company) <==> answer.UniqueViolation? || StaysHome(e, rows, q, company))
      && (StaysHome(e, rows, q, company) && answer.Found? ==> OwnedBy(answer.rows, company))
      && (!IsCreate(q.action) && !IsUpdate(q.action) ==> StaysHome(e, rows, q, company))
  {
    hide View, OwnedBy, Try, Rewrite, NewRows, Selection, Assignment, ClashFree;
    if Isolate(q).Ok? {
      var args := Entries(Isolate(q).value);
      var p, data := Selection(e, Or(q.model, ""), args), UpdateData(q.action, args);
      var news := NewRows(e, Or(q.model, ""), CreateData(q.action, args));
      if HasWhere(q.action) {
        IsolatedScope(e, q, company);
      }
      TryOnView(rows, q.action, p, Assignment(e, data), data.Obj?, news, company);
      if TryCall(e, rows, q).Write? {
        WriteConfinedIff(rows, q.action, p, Assignment(e, data), data.Obj?, news, company);
      }
      if !IsCreate(q.action) && !IsUpdate(q.action) {
        ReadsTouchNothing(rows, q.action, p, Assignment(e, data), data.Obj?, news, company);
      }
    }
  }

  lemma ReadsTouchNothing(rows: seq<Row>, action: Action, p: Row -> bool, f: Row -> Row, valid: bool,
                          news: Option<seq<Row>>, company: Id)
    requires !IsCreate(action) && !IsUpdate(action)
    ensures
      match Try(rows, action, p, f, valid, news)
      case Settled(_) => true
      case Write(_, _, touched) => OwnedBy(touched, company)
  {
    hide Selected, Written;
  }

  // ---- Which data move a row ----------------------------------------------------------------------------------

  /** An entry that leaves the owner of every row as it is. */
  ghost predicate KeepsOwner(e: Engine, entry: Entry) {
    entry.value == Undefined || (entry.key != OWNER && forall r :: e.assign(r, entry).company == r.company)
  }

  /** An entry that gives every row the owner `d`: the key of the owner, or a relation to it. */
  ghost predicate GivesOwner(e: Engine, entry: Entry, d: Id) {
    if entry.key == OWNER then entry.value == Str(d)
    else entry.value != Undefined && forall r :: e.assign(r, entry).company == d
  }

  /** Data as the database accepts them: at most one entry sets the owner. */
  ghost predicate SetsOwnerOnce(e: Engine, entries: seq<Entry>) {
    && (forall i :: 0 <= i < |entries| ==> KeepsOwner(e, entries[i]) || exists d :: GivesOwner(e, entries[i], d))
    && (forall i, j :: 0 <= i < j < |entries| ==> KeepsOwner(e, entries[i]) || KeepsOwner(e, entries[j]))
  }

  /** No entry sets another owner. */
  ghost predicate SetsNoOther(e: Engine, entries: seq<Entry>, company: Id) {
    forall i :: 0 <= i < |entries| ==> KeepsOwner(e, entries[i]) || GivesOwner(e, entries[i], company)
  }

  lemma {:induction false} AssignedStays(e: Engine, r: Row, entries: seq<Entry>, company: Id)
    requires SetsNoOther(e, entries, company)
    requires r.company == company || exists i :: 0 <= i < |entries| && !KeepsOwner(e, entries[i])
    ensures Assigned(e, r, entries).company == company
    decreases |entries|
  {
    if entries != [] {
      var front, last := entries[..|entries| - 1], entries[|entries| - 1];
      if KeepsOwner(e, last) {
        if r.company != company {
          var i :| 0 <= i < |entries| && !KeepsOwner(e, entries[i]);
          assert front[i] == entries[i];
        }
        AssignedStays(e, r, front, company);
      } else {
        assert GivesOwner(e, last, company);
      }
    }
  }

  /** The one entry that sets another owner does so wherever it stands. */
  lemma {:induction false} AssignedMoves(e: Engine, r: Row, entries: seq<Entry>, k: nat, d: Id)
    requires SetsOwnerOnce(e, entries) && k < |entries| && GivesOwner(e, entries[k], d) && !KeepsOwner(e, entries[k])
    ensures Assigned(e, r, entries).company == d
    decreases |entries|
  {
    var front, last := entries[..|entries| - 1], entries[|entries| - 1];
    if k < |entries| - 1 {
      AssignedMoves(e, r, front, k, d);
      assert KeepsOwner(e, last);
    }
  }

  /** The owner of a row survives data exactly if no entry sets another one. */
  lemma OwnerSurvivesIff(e: Engine, r: Row, entries: seq<Entry>, company: Id)
    requires r.company == company && SetsOwnerOnce(e, entries)
    ensures Assigned(e, r, entries).company == company <==> SetsNoOther(e, entries, company)
  {
    hide KeepsOwner, GivesOwner;
    if SetsNoOther(e, entries, company) {
      AssignedStays(e, r, entries, company);
    } else {
      var k :| 0 <= k < |entries| && !KeepsOwner(e, entries[k]) && !GivesOwner(e, entries[k], company);
      var d :| GivesOwner(e, entries[k], d);
      AssignedMoves(e, r, entries, k, d);
    }
  }

  /**
   An update or upsert that finds a row, with update data that set the owner at most once, writes rows
   of its company only, exactly if no entry sets another owner.  The rewriting keeps the owner's key to
   the company; a relation can still set another.
   */
  lemma UpdateStaysHomeIff(e: Engine, rows: seq<Row>, q: Request, company: Id)
    requires IsIsolated(q) && q.company == Some(company) && IsUpdate(q.action) && Isolate(q).Ok?
    requires
      var args := Entries(Isolate(q).value);
      UpdateData(q.action, args).Obj? && SetsOwnerOnce(e, UpdateData(q.action, args).entries)
    ensures
      var args := Entries(Isolate(q).value);
      var found := Selected(rows, Selection(e, Or(q.model, ""), args));
      found != [] ==> (StaysHome(e, rows, q, company) <==> SetsNoOther(e, UpdateData(q.action, args).entries, company))
  {
    hide View, Rewrite, Lookup, Selected, Selection, NewRows, SetsOwnerOnce, SetsNoOther, Assigned;
    var args := Entries(Isolate(q).value);
    var p, data := Selection(e, Or(q.model, ""), args), UpdateData(q.action, args);
    var found := Selected(rows, p);
    UpdatesHaveWhere(q.action);
    IsolatedScope(e, q, company);
    SelectedOwned(rows, p, company);
    if found != [] {
      forall r | r in found
        ensures Assigned(e, r, data.entries).company == company <==> SetsNoOther(e, data.entries, company)
      {
        OwnerSurvivesIff(e, r, data.entries, company);
      }
      var f := Assignment(e, data);
      assert Touched(found, q.action, f)[0] == f(found[0]);
    }
  }

  lemma UpdatesHaveWhere(action: Action)
    requires IsUpdate(action)
    ensures HasWhere(action) && !IsCreate(action)
  {
  }

  /** Data of plain fields: every entry but the owner's key leaves the owner alone. */
  ghost predicate FieldEntries(e: Engine, entries: seq<Entry>) {
    forall i :: 0 <= i < |entries| && entries[i].key != OWNER ==> KeepsOwner(e, entries[i])
  }

  ghost predicate FieldData(e: Engine, data: Js) {
    && (data.Obj? ==> FieldEntries(e, data.entries) && DistinctKeys(data.entries))
    && (data.Arr? ==>
         forall i :: 0 <= i < |data.items| && data.items[i].Obj? ==> FieldEntries(e, data.items[i].entries))
  }

  lemma PutFields(e: Engine, entries: seq<Entry>, company: Id)
    requires FieldEntries(e, entries)
    ensures
      var all := Put(entries, OWNER, Str(company));
      SetsNoOther(e, all, company) && exists i :: 0 <= i < |all| && !KeepsOwner(e, all[i])
  {
    hide Replace;
    var all := Put(entries, OWNER, Str(company));
    ReplaceFacts(entries, OWNER, Str(company));
    PutHolds(entries, OWNER, Str(company));
    var i :| 0 <= i < |all| && all[i].key == OWNER;
    assert !KeepsOwner(e, all[i]);
  }

  lemma InjectedRow(e: Engine, model: string, data: Js, company: Id)
    requires InjectCreate(data, company).Ok? && InjectCreate(data, company).value.Obj?
    requires data.Obj? ==> FieldEntries(e, data.entries)
    ensures NewRow(e, model, InjectCreate(data, company).value.entries).company == company
  {
    hide Put, FieldEntries, SetsNoOther, KeepsOwner;
    assert FieldEntries(e, Entries(data)) by {
      NoEntries(e);
    }
    PutFields(e, Entries(data), company);
    AssignedStays(e, Row(model, "", map[]), Put(Entries(data), OWNER, Str(company)), company);
  }

  lemma NoEntries(e: Engine)
    ensures FieldEntries(e, [])
  {
  }

  /** Whatever plain fields a create names, the rows it makes belong to the active company. */
  lemma NewRowsAreOwned(e: Engine, model: string, data: Js, company: Id)
    requires InjectCreate(data, company).Ok? && FieldData(e, data)
    ensures
      var news := NewRows(e, model, InjectCreate(data, company).value);
      news.Some? ==> OwnedBy(news.value, company)
  {
    hide NewRow, NamesOther, FieldEntries, Put;
    var injected := InjectCreate(data, company).value;
    if injected.Obj? {
      InjectedRow(e, model, data, company);
    } else if injected.Arr? {
      forall i | 0 <= i < |injected.items| && injected.items[i].Obj?
        ensures NewRow(e, model, injected.items[i].entries).company == company
      {
        InjectedItemAt(data, |data.items|, company, i);
        InjectedRow(e, model, data.items[i], company);
      }
    }
  }

  lemma ValidatedFields(e: Engine, data: Js, company: Id)
    requires ValidateUpdate(data, company).Ok? && data.Obj? && FieldData(e, data)
    ensures SetsNoOther(e, data.entries, company)
  {
    forall i | 0 <= i < |data.entries|
      ensures KeepsOwner(e, data.entries[i]) || GivesOwner(e, data.entries[i], company)
    {
      LookupAt(data.entries, i);
    }
  }

  /** What a rewritten call hands on of its update and create data. */
  lemma RewrittenData(action: Action, args: seq<Entry>, company: Id)
    requires !action.Other? && Rewrite(action, args, company).Ok?
    ensures
      var out := Rewrite(action, args, company).value;
      && (IsUpdate(action) ==>
           UpdateData(action, out) == UpdateData(action, args) && ValidateUpdate(UpdateData(action, args), company).Ok?)
      && (IsCreate(action) || action.Upsert? ==>
           InjectCreate(CreateData(action, args), company) == Ok(CreateData(action, out)))
  {
    hide Put, Lookup, InjectCreate, ValidateUpdate, MergeWhere;
    KeysDiffer();
    forall entries, key, value, k
      ensures Lookup(Put(entries, key, value), k) == if k == key then value else Lookup(entries, k)
    {
      LookupPut(entries, key, value, k);
    }
    ValidateAgain(UpdateData(action, args), company);
  }

  /** Calls whose data are plain fields always stay home. */
  lemma FieldCallsStayHome(e: Engine, rows: seq<Row>, q: Request, company: Id)
    requires IsIsolated(q) && q.company == Some(company)
    requires
      var args := Entries(q.args);
      FieldData(e, UpdateData(q.action, args)) && FieldData(e, CreateData(q.action, args))
    ensures StaysHome(e, rows, q, company)
    ensures SameForOthers(rows, Perform(e, rows, q).0, company)
  {
    hide View, Rewrite, Lookup, Selected, Selection, NewRows, Assigned, FieldData, InjectCreate, ValidateUpdate,
      UpdateData, CreateData, Perform, SameForOthers;
    CallIsConfinedIff(e, rows, q, company);
    if Isolate(q).Ok? {
      var args := Entries(Isolate(q).value);
      var p, data := Selection(e, Or(q.model, ""), args), UpdateData(q.action, args);
      RewrittenData(q.action, Entries(q.args), company);
      if IsCreate(q.action) || q.action.Upsert? {
        NewRowsAreOwned(e, Or(q.model, ""), CreateData(q.action, Entries(q.args)), company);
      }
      if IsUpdate(q.action) && data.Obj? {
        UpdatesHaveWhere(q.action);
        IsolatedScope(e, q, company);
        SelectedOwned(rows, p, company);
        ValidatedFields(e, data, company);
        forall r: Row | r.company == company
          ensures Assigned(e, r, data.entries).company == company
        {
          AssignedStays(e, r, data.entries, company);
        }
      }
    }
  }

  // ---- Every listed action ------------------------------------------------------------------------------------

  ghost predicate AllSetOwnerOnce(e: Engine, data: Js) {
    && (data.Obj? ==> SetsOwnerOnce(e, data.entries))
    && (data.Arr? ==>
         forall i :: 0 <= i < |data.items| && data.items[i].Obj? ==> SetsOwnerOnce(e, data.items[i].entries))
  }

  /** The rewritten data, those to update and those to create, are such as the database accepts. */
  ghost predicate IsAccepted(e: Engine, q: Request) {
    match Isolate(q)
    case Err(_) => true
    case Ok(v) =>
      var args := Entries(v);
      && (IsUpdate(q.action) ==> AllSetOwnerOnce(e, UpdateData(q.action, args)))
      && (IsCreate(q.action) || q.action.Upsert? ==> AllSetOwnerOnce(e, CreateData(q.action, args)))
  }

  /** The call updates a row it finds with data in which an entry sets another owner. */
  ghost predicate MovesARow(e: Engine, rows: seq<Row>, q: Request, company: Id) {
    match Isolate(q)
    case Err(_) => false
    case Ok(v) =>
      var args := Entries(v);
      var data := UpdateData(q.action, args);
      && IsUpdate(q.action) && data.Obj? && Selected(rows, Selection(e, Or(q.model, ""), args)) != []
      && !SetsNoOther(e, data.entries, company)
  }

  /** Injected data name the company as the owner, so no other entry can set one. */
  lemma InjectedOnce(e: Engine, model: string, data: Js, company: Id)
    requires InjectCreate(data, company).Ok? && InjectCreate(data, company).value.Obj?
    requires SetsOwnerOnce(e, InjectCreate(data, company).value.entries)
    ensures NewRow(e, model, InjectCreate(data, company).value.entries).company == company
  {
    hide Put;
    var all := InjectCreate(data, company).value.entries;
    PutHolds(Entries(data), OWNER, Str(company));
    var k :| 0 <= k < |all| && all[k].key == OWNER;
    assert !KeepsOwner(e, all[k]) && GivesOwner(e, all[k], company);
    AssignedMoves(e, Row(model, "", map[]), all, k, company);
  }

  lemma NewRowsOfAccepted(e: Engine, model: string, data: Js, company: Id)
    requires InjectCreate(data, company).Ok? && AllSetOwnerOnce(e, InjectCreate(data, company).value)
    ensures
      var news := NewRows(e, model, InjectCreate(data, company).value);
      news.Some? ==> OwnedBy(news.value, company)
  {
    hide NewRow, NamesOther, SetsOwnerOnce, Put;
    var injected := InjectCreate(data, company).value;
    if injected.Obj? {
      InjectedOnce(e, model, data, company);
    } else if injected.Arr? {
      forall i | 0 <= i < |injected.items| && injected.items[i].Obj?
        ensures NewRow(e, model, injected.items[i].entries).company == company
      {
        InjectedItemAt(data, |data.items|, company, i);
        InjectedOnce(e, model, data.items[i], company);
      }
    }
  }

  /**
   Exactly when a call whose data the database accepts writes rows of its own company only, for every
   listed action: if it does not update a row with data that set another owner.
   */
  lemma CallStaysHomeIff(e: Engine, rows: seq<Row>, q: Request, company: Id)
    requires IsIsolated(q) && q.company == Some(company) && IsAccepted(e, q)
    ensures StaysHome(e, rows, q, company) <==> !MovesARow(e, rows, q, company)
  {
    hide View, Rewrite, Lookup, Selected, Selection, NewRows, Assigned, SetsOwnerOnce, SetsNoOther, InjectCreate,
      ValidateUpdate, UpdateData, CreateData, Perform;
    if Isolate(q).Ok? {
      var args := Entries(Isolate(q).value);
      if IsUpdate(q.action) && UpdateData(q.action, args).Obj? {
        UpdateStaysHomeIff(e, rows, q, company);
      }
      RewrittenData(q.action, Entries(q.args), company);
      if IsCreate(q.action) || q.action.Upsert? {
        NewRowsOfAccepted(e, Or(q.model, ""), CreateData(q.action, Entries(q.args)), company);
      }
    }
  }

  /** A database that knows one relation, `company`, whose `connect` sets the owner. */
  function RelationEngine(): Engine {
    Engine(
      (_, _) => true,
      (r: Row, entry: Entry) =>
        var id := Field(Field(entry.value, "connect"), "id");
        if entry.key == "company" && id.Str? then r.(company := id.text)
        else r.(fields := r.fields[entry.key := entry.value]),
      (_, _) => false)
  }

  function Connect(id: Id): seq<Entry> {
    [Entry("company", Obj([Entry("connect", Obj([Entry("id", Str(id))]))]))]
  }

  /** Connecting the `company` relation names no `company_id`: it is accepted, and the row changes owner. */
  lemma CompanyRelationMoves(r: Row, other: Id)
    requires r.model == "Order" && r.company != "" && other != r.company
    ensures
      var q := Request(Update, Obj([Entry("data", Obj(Connect(other)))]), false, Some(r.company), Some("Order"));
      && IsIsolated(q) && !StaysHome(RelationEngine(), [r], q, r.company)
      && Perform(RelationEngine(), [r], q) == ([r.(company := other)], Found([r]))
  {
    hide Put, Lookup, Matches;
    var e, data := RelationEngine(), Obj(Connect(other));
    var q := Request(Update, Obj([Entry("data", data)]), false, Some(r.company), Some("Order"));
    ConnectFields(other);
    KeysDiffer();
    forall entries, key, value, k
      ensures Lookup(Put(entries, key, value), k) == if k == key then value else Lookup(entries, k)
    {
      LookupPut(entries, key, value, k);
    }
    var scope := MergeWhere(Lookup([Entry("data", data)], "where"), r.company);
    assert Lookup([Entry("data", data)], "data") == data && Lookup([Entry("data", data)], "where") == Undefined by {
      LookupAppend([], Entry("data", data), "data");
      LookupAppend([], Entry("data", data), "where");
      LookupAbsent([], "where");
      assert [] + [Entry("data", data)] == [Entry("data", data)];
    }
    var args := Entries(Isolate(q).value);
    assert Lookup(args, "data") == data && Lookup(args, "where") == scope;
    ScopeMatches(e, r);
    assert Connect(other)[..0] == [];
    assert Assigned(e, r, data.entries) == r.(company := other);
    var p, f := Selection(e, "Order", args), Assignment(e, data);
    assert Selected([r], p) == [r];
    assert UpdateFirst([r], p, f) == [r.(company := other)];
    assert TryCall(e, [r], q) == Write([r.(company := other)], [r], [r.(company := other)]);
    assert ClashFree(e, [r.(company := other)]);
  }

  lemma ConnectFields(id: Id)
    ensures
      var v := Connect(id)[0].value;
      Field(Field(v, "connect"), "id") == Str(id)
    ensures Field(Obj(Connect(id)), OWNER) == Undefined
  {
    assert |"company"| != |OWNER|;
    LookupAbsent(Connect(id), OWNER);
  }

  lemma ScopeMatches(e: Engine, r: Row)
    ensures Matches(e, r.model, Entries(MergeWhere(Undefined, r.company)), r)
  {
    assert Entries(MergeWhere(Undefined, r.company)) == [Entry(OWNER, Str(r.company))];
  }

  // ---- Unique keys --------------------------------------------------------------------------------------------

  /** A unique key forbids two rows together, in whichever order. */
  ghost predicate IsSymmetric(e: Engine) {
    forall r, s :: e.clash(r, s) <==> e.clash(s, r)
  }

  lemma {:induction false} ViewClashFree(e: Engine, rows: seq<Row>, d: Id)
    requires ClashFree(e, rows)
    ensures ClashFree(e, View(rows, d))
    decreases |rows|
  {
    if rows != [] {
      ViewClashFree(e, rows[1..], d);
      ViewMembers(rows[1..], d);
      assert ([rows[0]] + View(rows[1..], d))[1..] == View(rows[1..], d);
    }
  }

  lemma {:induction false} ClashFreeMembers(e: Engine, rows: seq<Row>, r: Row, s: Row)
    requires IsSymmetric(e) && ClashFree(e, rows) && r in rows && s in rows && r != s
    ensures !e.clash(r, s)
    decreases |rows|
  {
    assert rows == [rows[0]] + rows[1..];
    if r in rows[1..] && s in rows[1..] {
      ClashFreeMembers(e, rows[1..], r, s);
    }
  }

  lemma {:induction false} ClashFreeFromViews(e: Engine, rows: seq<Row>)
    requires IsSymmetric(e) && forall d :: ClashFree(e, View(rows, d))
    requires forall r, s :: r in rows && s in rows && r.company != s.company ==> !e.clash(r, s)
    ensures ClashFree(e, rows)
    decreases |rows|
  {
    if rows != [] {
      var head, tail := rows[0], rows[1..];
      assert rows == [head] + tail;
      forall d
        ensures ClashFree(e, View(tail, d))
      {
        assert ClashFree(e, View(rows, d));
        assert ([head] + View(tail, d))[1..] == View(tail, d);
      }
      ClashFreeFromViews(e, tail);
      ViewMembers(tail, head.company);
      assert ClashFree(e, View(rows, head.company));
      assert ([head] + View(tail, head.company))[1..] == View(tail, head.company);
    }
  }

  /** One of these rows of the company clashes with a row of another company. */
  ghost predicate ClashesAbroad(e: Engine, own: seq<Row>, rows: seq<Row>, company: Id) {
    exists r, s :: r in own && s in rows && s.company != company && e.clash(r, s)
  }

  /** Rows of other companies stay and stay clash-free, so a write fails at home or abroad. */
  lemma WriteClashesIff(e: Engine, rows: seq<Row>, next: seq<Row>, company: Id)
    requires IsSymmetric(e) && ClashFree(e, rows) && SameForOthers(rows, next, company)
    ensures
      ClashFree(e, next) <==> ClashFree(e, View(next, company)) && !ClashesAbroad(e, View(next, company), rows, company)
  {
    hide View, ClashFree;
    OthersMembers(rows, next, company);
    ViewMembers(next, company);
    if ClashFree(e, next) {
      ViewClashFree(e, next, company);
      forall r, s | r in View(next, company) && s in rows && s.company != company
        ensures !e.clash(r, s)
      {
        ClashFreeMembers(e, next, r, s);
      }
    } else if ClashFree(e, View(next, company)) && !ClashesAbroad(e, View(next, company), rows, company) {
      forall d
        ensures ClashFree(e, View(next, d))
      {
        ViewClashFree(e, rows, d);
      }
      forall r, s | r in next && s in next && r.company != s.company
        ensures !e.clash(r, s)
      {
        if r.company != company && s.company != company {
          ClashFreeMembers(e, rows, r, s);
        }
      }
      ClashFreeFromViews(e, next);
    }
  }

  lemma OthersMembers(rows: seq<Row>, next: seq<Row>, company: Id)
    requires SameForOthers(rows, next, company)
    ensures forall r: Row :: r.company != company ==> (r in rows <==> r in next)
  {
    hide View;
    forall r: Row | r.company != company
      ensures r in rows <==> r in next
    {
      ViewMembers(rows, r.company);
      ViewMembers(next, r.company);
      assert View(next, r.company) == View(rows, r.company);
    }
  }

  // ---- What a company can notice ------------------------------------------------------------------------------

  lemma CallOnView(e: Engine, rows: seq<Row>, q: Request, company: Id)
    requires IsIsolated(q) && q.company == Some(company)
    ensures
      var attempt, own := TryCall(e, rows, q), TryCall(e, View(rows, company), q);
      match attempt
      case Settled(_) => own == attempt
      case Write(_, found, touched) =>
        && own.Write? && own.found == found && own.touched == touched
        && (OwnedBy(touched, company) ==>
             own.next == View(attempt.next, company) && SameForOthers(rows, attempt.next, company))
  {
    hide View, OwnedBy, Try, Rewrite, NewRows, Selection, Assignment, Lookup;
    if Isolate(q).Ok? {
      var args := Entries(Isolate(q).value);
      var p, data := Selection(e, Or(q.model, ""), args), UpdateData(q.action, args);
      var news := NewRows(e, Or(q.model, ""), CreateData(q.action, args));
      if HasWhere(q.action) {
        IsolatedScope(e, q, company);
      }
      TryOnView(rows, q.action, p, Assignment(e, data), data.Obj?, news, company);
      if TryCall(e, rows, q).Write? {
        WriteConfinedIff(rows, q.action, p, Assignment(e, data), data.Obj?, news, company);
      }
    }
  }

  /** What the call would write on the company's rows alone is in order there, but clashes with another company. */
  ghost predicate MeetsForeignKey(e: Engine, rows: seq<Row>, q: Request, company: Id) {
    match TryCall(e, View(rows, company), q)
    case Settled(_) => false
    case Write(own, _, _) => ClashFree(e, own) && ClashesAbroad(e, own, rows, company)
  }

  /**
   A call that stays home has the effect and the answer it would have on a table that holds the
   company's rows alone, exactly if it meets no key of another company.
   */
  lemma CallSeesItsCompanyIff(e: Engine, rows: seq<Row>, q: Request, company: Id)
    requires IsIsolated(q) && q.company == Some(company) && StaysHome(e, rows, q, company)
    requires IsSymmetric(e) && ClashFree(e, rows)
    ensures
      var (next, answer) := Perform(e, rows, q);
      (View(next, company), answer) == Perform(e, View(rows, company), q) <==> !MeetsForeignKey(e, rows, q, company)
    ensures
      MeetsForeignKey(e, rows, q, company) ==>
        Perform(e, rows, q) == (rows, UniqueViolation) && Perform(e, View(rows, company), q).1.Found?
  {
    hide View, OwnedBy, TryCall, ClashFree, ClashesAbroad, IsSymmetric;
    CallOnView(e, rows, q, company);
    var attempt := TryCall(e, rows, q);
    if attempt.Write? {
      WriteClashesIff(e, rows, attempt.next, company);
    }
  }

  /** A call leaves the table free of clashes, and a call that stays home the rows of all others. */
  lemma CallKeepsOthers(e: Engine, rows: seq<Row>, q: Request, company: Id)
    requires IsIsolated(q) && ClashFree(e, rows)
    requires q.company.Some? ==> StaysHome(e, rows, q, q.company.value)
    ensures ClashFree(e, Perform(e, rows, q).0)
    ensures q.company != Some(company) ==> View(Perform(e, rows, q).0, company) == View(rows, company)
  {
    hide View, OwnedBy, TryCall, ClashFree, Rewrite;
    if q.company.Some? {
      CallIsConfinedIff(e, rows, q, q.company.value);
    } else {
      assert TryCall(e, rows, q) == Settled(Rejected(MissingTenantContext)) by {
        NoCompanyIsRejected(e, rows, q);
      }
    }
  }

  lemma NoCompanyIsRejected(e: Engine, rows: seq<Row>, q: Request)
    requires IsIsolated(q) && q.company == None
    ensures TryCall(e, rows, q) == Settled(Rejected(MissingTenantContext))
  {
  }

  /** The table and the answers after a sequence of calls of any companies. */
  function Run(e: Engine, rows: seq<Row>, calls: seq<Request>): (seq<Row>, seq<Answer>)
    decreases |calls|
  {
    if calls == [] then (rows, [])
    else
      var (next, answer) := Perform(e, rows, calls[0]);
      var (last, answers) := Run(e, next, calls[1..]);
      (last, [answer] + answers)
  }

  function OwnCalls(calls: seq<Request>, company: Id): (own: seq<Request>)
    ensures forall q :: q in own ==> q in calls
  {
    if calls == [] then []
    else
      var rest := OwnCalls(calls[1..], company);
      if calls[0].company == Some(company) then [calls[0]] + rest else rest
  }

  function OwnAnswers(calls: seq<Request>, answers: seq<Answer>, company: Id): seq<Answer>
    requires |answers| == |calls|
    decreases |calls|
  {
    if calls == [] then []
    else
      var rest := OwnAnswers(calls[1..], answers[1..], company);
      if calls[0].company == Some(company) then [answers[0]] + rest else rest
  }

  lemma {:induction false} RunLength(e: Engine, rows: seq<Row>, calls: seq<Request>)
    ensures |Run(e, rows, calls).1| == |calls|
    decreases |calls|
  {
    if calls != [] {
      RunLength(e, Perform(e, rows, calls[0]).0, calls[1..]);
    }
  }

  /** Every call of the run writes rows of its own company only. */
  ghost predicate AllStayHome(e: Engine, rows: seq<Row>, calls: seq<Request>)
    decreases |calls|
  {
    calls != [] ==>
      && (calls[0].company.Some? ==> StaysHome(e, rows, calls[0], calls[0].company.value))
      && AllStayHome(e, Perform(e, rows, calls[0]).0, calls[1..])
  }

  /** No call of the run updates a row with data that set another owner. */
  ghost predicate NoneMovesARow(e: Engine, rows: seq<Row>, calls: seq<Request>)
    decreases |calls|
  {
    calls != [] ==>
      && (calls[0].company.Some? ==> !MovesARow(e, rows, calls[0], calls[0].company.value))
      && NoneMovesARow(e, Perform(e, rows, calls[0]).0, calls[1..])
  }

  /** For calls whose data the database accepts the two are the same. */
  lemma {:induction false} RunStaysHomeIff(e: Engine, rows: seq<Row>, calls: seq<Request>)
    requires forall q :: q in calls ==> IsIsolated(q) && IsAccepted(e, q)
    ensures AllStayHome(e, rows, calls) <==> NoneMovesARow(e, rows, calls)
    decreases |calls|
  {
    hide Perform, StaysHome, MovesARow, IsIsolated, IsAccepted;
    if calls != [] {
      if calls[0].company.Some? {
        CallStaysHomeIff(e, rows, calls[0], calls[0].company.value);
      }
      RunStaysHomeIff(e, Perform(e, rows, calls[0]).0, calls[1..]);
    }
  }

  /** Calls whose data are plain fields stay home in any run. */
  lemma {:induction false} FieldRunsStayHome(e: Engine, rows: seq<Row>, calls: seq<Request>)
    requires
      forall q :: q in calls ==>
        && IsIsolated(q) && FieldData(e, UpdateData(q.action, Entries(q.args)))
        && FieldData(e, CreateData(q.action, Entries(q.args)))
    ensures AllStayHome(e, rows, calls)
    decreases |calls|
  {
    hide Perform, StaysHome, FieldData, UpdateData, CreateData, IsIsolated;
    if calls != [] {
      if calls[0].company.Some? {
        FieldCallsStayHome(e, rows, calls[0], calls[0].company.value);
      }
      FieldRunsStayHome(e, Perform(e, rows, calls[0]).0, calls[1..]);
    }
  }

  /** No call of the company meets a key of another one. */
  ghost predicate NoneMeetsForeignKey(e: Engine, rows: seq<Row>, calls: seq<Request>, company: Id)
    decreases |calls|
  {
    calls != [] ==>
      && (calls[0].company == Some(company) ==> !MeetsForeignKey(e, rows, calls[0], company))
      && NoneMeetsForeignKey(e, Perform(e, rows, calls[0]).0, calls[1..], company)
  }

  /** Whatever the keys do, a company without a call keeps its rows. */
  lemma {:induction false} OthersKeepTheirRows(e: Engine, rows: seq<Row>, calls: seq<Request>, company: Id)
    requires ClashFree(e, rows) && AllStayHome(e, rows, calls)
    requires forall q :: q in calls ==> IsIsolated(q) && q.company != Some(company)
    ensures View(Run(e, rows, calls).0, company) == View(rows, company)
    decreases |calls|
  {
    hide View, Perform, ClashFree, StaysHome, IsIsolated;
    if calls != [] {
      CallKeepsOthers(e, rows, calls[0], company);
      OthersKeepTheirRows(e, Perform(e, rows, calls[0]).0, calls[1..], company);
    }
  }

  /**
   In any interleaving of isolated calls of any companies that stay home, a company ends with the rows
   it would have and gets the answers it would get if the others' rows and calls were not there, exactly
   if none of its calls meets a key of another company.
   */
  lemma {:induction false} NonInterferenceIff(e: Engine, rows: seq<Row>, calls: seq<Request>, company: Id)
    requires IsSymmetric(e) && ClashFree(e, rows) && AllStayHome(e, rows, calls)
    requires forall q :: q in calls ==> IsIsolated(q)
    ensures |Run(e, rows, calls).1| == |calls|
    ensures
      var (last, answers) := Run(e, rows, calls);
      (View(last, company), OwnAnswers(calls, answers, company))
        == Run(e, View(rows, company), OwnCalls(calls, company))
      <==> NoneMeetsForeignKey(e, rows, calls, company)
    decreases |calls|
  {
    hide View, Perform, ClashFree, IsSymmetric, StaysHome, MeetsForeignKey, IsIsolated;
    RunLength(e, rows, calls);
    if calls != [] {
      var q, rest := calls[0], calls[1..];
      var (next, answer) := Perform(e, rows, q);
      CallKeepsOthers(e, rows, q, company);
      NonInterferenceIff(e, next, rest, company);
      assert ([answer] + Run(e, next, rest).1)[1..] == Run(e, next, rest).1;
      if q.company == Some(company) {
        CallSeesItsCompanyIff(e, rows, q, company);
        var own := OwnCalls(rest, company);
        assert OwnCalls(calls, company) == [q] + own && ([q] + own)[1..] == own;
        var (solo, reply) := Perform(e, View(rows, company), q);
        assert Run(e, View(rows, company), [q] + own) == (Run(e, solo, own).0, [reply] + Run(e, solo, own).1);
        HeadsAndTails(answer, OwnAnswers(rest, Run(e, next, rest).1, company), reply, Run(e, solo, own).1);
      }
    }
  }

  lemma HeadsAndTails<T>(a: T, s: seq<T>, b: T, t: seq<T>)
    ensures [a] + s == [b] + t <==> a == b && s == t
  {
    assert ([a] + s)[0] == a && ([a] + s)[1..] == s && ([b] + t)[0] == b && ([b] + t)[1..] == t;
  }

  // ---- The key that does reach across ------------------------------------------------------------------------

  /** A database with one unique key over all companies: the user of a profile. */
  function UserKeyEngine(): Engine {
    Engine(
      (_, _) => true,
      (r: Row, entry: Entry) => r.(fields := r.fields[entry.key := entry.value]),
      (r: Row, s: Row) =>
        && r.model == s.model && "user_id" in r.fields && "user_id" in s.fields
        && r.fields["user_id"] == s.fields["user_id"])
  }

  /** The call that creates a courier profile. */
  function CreateProfile(user: Js, company: Id): Request {
    Request(Create, Obj([Entry("data", Obj([Entry("user_id", user)]))]), false, Some(company), Some("Courier"))
  }

  function Profile(user: Js, company: Id): Row {
    Row("Courier", company, map["user_id" := user])
  }

  lemma ProfileIsAppended(rows: seq<Row>, user: Js, company: Id)
    requires company != "" && user != Undefined
    ensures
      var row := Profile(user, company);
      TryCall(UserKeyEngine(), rows, CreateProfile(user, company)) == Write(rows + [row], [row], [row])
  {
    hide Put, Lookup, NewRow;
    var data, q := Obj([Entry("user_id", user)]), CreateProfile(user, company);
    var injected := [Entry("user_id", user), Entry(OWNER, Str(company))];
    PutOwner(user, company);
    assert Lookup([Entry("data", data)], "data") == data by {
      LookupAppend([], Entry("data", data), "data");
      assert [] + [Entry("data", data)] == [Entry("data", data)];
    }
    LookupPut([Entry("data", data)], "data", Obj(injected), "data");
    assert Lookup(Entries(Isolate(q).value), "data") == Obj(injected);
    UserRow(user, company);
  }

  /**
   A company that creates a courier profile for a user who has one in another company is refused; on
   its own rows it would not be.
   */
  lemma ForeignKeyIsNoticed(user: Js, company: Id, other: Id)
    requires company != "" && company != other && user != Undefined
    ensures
      var e, rows, q := UserKeyEngine(), [Profile(user, other)], CreateProfile(user, company);
      && IsIsolated(q) && StaysHome(e, rows, q, company) && MeetsForeignKey(e, rows, q, company)
      && Perform(e, rows, q) == (rows, UniqueViolation)
      && Perform(e, View(rows, company), q).1 == Found([Profile(user, company)])
  {
    hide TryCall, ClashFree, ClashesAbroad, View, UserKeyEngine;
    var r, row := Profile(user, other), Profile(user, company);
    ProfileIsAppended([r], user, company);
    ProfileIsAppended([], user, company);
    ProfilesClash(user, company, other);
    assert [] + [row] == [row] && [r] + [row] == [r, row];
  }

  lemma ProfilesClash(user: Js, company: Id, other: Id)
    requires company != other
    ensures
      var e, r, row := UserKeyEngine(), Profile(user, other), Profile(user, company);
      && View([r], company) == [] && !ClashFree(e, [r, row])
      && ClashFree(e, [row]) && ClashesAbroad(e, [row], [r], company)
  {
    var e, r, row := UserKeyEngine(), Profile(user, other), Profile(user, company);
    assert [r][1..] == [] && [r, row][1..] == [row] && [row][1..] == [];
    assert e.clash(row, r) && e.clash(r, row) && row in [row] && r in [r];
  }

  lemma UserRow(user: Js, company: Id)
    requires user != Undefined
    ensures
      NewRow(UserKeyEngine(), "Courier", [Entry("user_id", user), Entry(OWNER, Str(company))])
      == Row("Courier", company, map["user_id" := user])
  {
    var e, first, second := UserKeyEngine(), Entry("user_id", user), Entry(OWNER, Str(company));
    var start := Row("Courier", "", map[]);
    assert [first, second][..1] == [first] && [first][..0] == [];
    assert |"user_id"| != |OWNER|;
    assert Assigned(e, start, [first]) == e.assign(Assigned(e, start, []), first);
    assert e.assign(start, first) == start.(fields := map["user_id" := user]);
  }

  lemma PutOwner(user: Js, company: Id)
    requires user != Undefined
    ensures
      var data := Obj([Entry("user_id", user)]);
      && !NamesOther(data, company)
      && InjectCreate(data, company) == Ok(Obj([Entry("user_id", user), Entry(OWNER, Str(company))]))
      && Lookup([Entry("user_id", user), Entry(OWNER, Str(company))], OWNER) == Str(company)
  {
    hide Lookup, Replace;
    var first, second := Entry("user_id", user), Entry(OWNER, Str(company));
    assert |"user_id"| != |OWNER|;
    LookupAbsent([first], OWNER);
    assert !HasKey([first], OWNER);
    LookupAppend([first], second, OWNER);
    assert [first] + [second] == [first, second];
  }
}
