/**
 Versions of payment rules (backend/src/modules/compensation/payment-rules.service.ts): every change
 appends a row, and readers keep the latest row of each key.  Each service call is one atomic step.
 */
module RuleVersions {
  import opened Common
  import opened Json
  import RuleConfig

  datatype Row = Row(
    id: Id, company: Id, key: Id, name: string, ruleType: RuleConfig.RuleType, version: int, config: Js, changedBy: Id,
    changeReason: Option<string>, active: bool, effectiveFrom: Option<int>, effectiveTo: Option<int>)

  datatype Creation = Creation(
    name: string, ruleType: RuleConfig.RuleType, value: real, conditions: Js, active: Option<bool>,
    changeReason: Option<string>, effectiveFrom: Option<int>, effectiveTo: Option<int>)

  /** The fields given to an update; an inner None is an explicit null. */
  datatype Changes = Changes(
    name: Option<string>, ruleType: Option<RuleConfig.RuleType>, value: Option<real>, conditions: Js,
    active: Option<bool>, changeReason: Option<Option<string>>, effectiveFrom: Option<Option<int>>,
    effectiveTo: Option<Option<int>>)

  datatype VersionError =
    | BadWindow | RuleMissing | NotLatest | NothingToChange | BadConfig(error: RuleConfig.Error) | UniqueViolation

  datatype Call =
    | Create(company: Id, user: Id, creation: Creation, id: Id, key: Id)
    | Update(company: Id, user: Id, rule: Id, changes: Changes, id: Id)

  predicate WindowOk(start: Option<int>, end: Option<int>) {
    start.Some? && end.Some? ==> start.value <= end.value
  }

  function Flatten<T>(given: Option<Option<T>>): Option<T> {
    if given.Some? then given.value else None
  }

  /** The primary key and the unique key (company, key, version) of the table. */
  predicate Clashes(r: Row, s: Row) {
    r.id == s.id || (r.company == s.company && r.key == s.key && r.version == s.version)
  }

  function Insert(rows: seq<Row>, row: Row): (seq<Row>, Result<Row, VersionError>) {
    if exists r :: r in rows && Clashes(r, row) then (rows, Err(UniqueViolation)) else (rows + [row], Ok(row))
  }

  function CreateRule(rows: seq<Row>, company: Id, user: Id, c: Creation, id: Id, key: Id):
    (seq<Row>, Result<Row, VersionError>)
  {
    if !WindowOk(c.effectiveFrom, c.effectiveTo) then (rows, Err(BadWindow))
    else
      match RuleConfig.Build(c.ruleType, c.value, c.conditions)
      case Err(e) => (rows, Err(BadConfig(e)))
      case Ok(config) =>
        Insert(rows, Row(id, company, key, c.name, c.ruleType, 1, config, user, c.changeReason, Or(c.active, true),
                         c.effectiveFrom, c.effectiveTo))
  }

  predicate Has(rows: seq<Row>, company: Id, id: Id) {
    exists r :: r in rows && r.id == id && r.company == company
  }

  function Find(rows: seq<Row>, company: Id, id: Id): (r: Row)
    requires Has(rows, company, id)
    ensures r in rows && r.id == id && r.company == company
  {
    var last := rows[|rows| - 1];
    if last.id == id && last.company == company then last
    else
      assert rows == rows[..|rows| - 1] + [last];
      Find(rows[..|rows| - 1], company, id)
  }

  predicate IsOf(r: Row, company: Id, key: Id) {
    r.company == company && r.key == key
  }

  /** The row of a key with the highest version. */
  function LatestOf(rows: seq<Row>, company: Id, key: Id): (latest: Option<Row>)
    ensures latest.Some? ==> latest.value in rows && IsOf(latest.value, company, key)
    ensures latest.None? ==> forall r :: r in rows ==> !IsOf(r, company, key)
    ensures latest.Some? ==> forall r :: r in rows && IsOf(r, company, key) ==> r.version <= latest.value.version
  {
    if rows == [] then None
    else
      var front, last := rows[..|rows| - 1], rows[|rows| - 1];
      assert rows == front + [last];
      var rest := LatestOf(front, company, key);
      if IsOf(last, company, key) && (rest == None || last.version > rest.value.version) then Some(last) else rest
  }

  predicate HasAnyUpdates(c: Changes) {
    || c.name.Some? || c.ruleType.Some? || c.value.Some? || c.conditions != Undefined || c.active.Some?
    || c.changeReason.Some? || c.effectiveFrom.Some? || c.effectiveTo.Some?
  }

  /** The configuration of the next version. */
  function NextConfig(current: Row, c: Changes): Result<Js, RuleConfig.Error> {
    match RuleConfig.Parse(current.config)
    case Err(e) => Err(e)
    case Ok(payload) =>
      RuleConfig.Build(Or(c.ruleType, current.ruleType), Or(c.value, payload.value),
                       if c.conditions != Undefined then c.conditions else payload.conditions)
  }

  function NextRow(current: Row, company: Id, user: Id, c: Changes, config: Js, id: Id): Row {
    Row(id, company, current.key, Or(c.name, current.name), Or(c.ruleType, current.ruleType), current.version + 1,
        config, user, Or(c.changeReason, current.changeReason), Or(c.active, current.active),
        Or(c.effectiveFrom, current.effectiveFrom), Or(c.effectiveTo, current.effectiveTo))
  }

  function UpdateRule(rows: seq<Row>, company: Id, user: Id, rule: Id, c: Changes, id: Id):
    (seq<Row>, Result<Row, VersionError>)
  {
    if !WindowOk(Flatten(c.effectiveFrom), Flatten(c.effectiveTo)) then (rows, Err(BadWindow))
    else if !Has(rows, company, rule) then (rows, Err(RuleMissing))
    else
      var current := Find(rows, company, rule);
      var latest := LatestOf(rows, company, current.key);
      if latest == None || latest.value.id != current.id then (rows, Err(NotLatest))
      else if !HasAnyUpdates(c) then (rows, Err(NothingToChange))
      else
        match NextConfig(current, c)
        case Err(e) => (rows, Err(BadConfig(e)))
        case Ok(config) => Insert(rows, NextRow(current, company, user, c, config, id))
  }

  function Perform(rows: seq<Row>, call: Call): (seq<Row>, Result<Row, VersionError>) {
    match call
    case Create(company, user, creation, id, key) => CreateRule(rows, company, user, creation, id, key)
    case Update(company, user, rule, changes, id) => UpdateRule(rows, company, user, rule, changes, id)
  }

  function Run(rows: seq<Row>, calls: seq<Call>): seq<Row>
    decreases |calls|
  {
    if calls == [] then rows else Run(Perform(rows, calls[0]).0, calls[1..])
  }

  // ---- Invariant ----------------------------------------------------------------------------------------------

  /** The versions of a key, in the order they were written. */
  function Versions(rows: seq<Row>, company: Id, key: Id): seq<int> {
    if rows == [] then []
    else
      var rest := Versions(rows[..|rows| - 1], company, key);
      var last := rows[|rows| - 1];
      if IsOf(last, company, key) then rest + [last.version] else rest
  }

  ghost predicate Numbered(versions: seq<int>) {
    forall i :: 0 <= i < |versions| ==> versions[i] == i + 1
  }

  ghost predicate IsBuilt(ruleType: RuleConfig.RuleType, config: Js, value: real, conditions: Js) {
    IsJs(conditions) && RuleConfig.Build(ruleType, value, conditions) == Ok(config)
  }

  ghost predicate Inv(rows: seq<Row>) {
    && (forall i, j :: 0 <= i < j < |rows| ==> rows[i].id != rows[j].id)
    && (forall company, key :: Numbered(Versions(rows, company, key)))
    && (forall r :: r in rows ==> exists value, conditions :: IsBuilt(r.ruleType, r.config, value, conditions))
  }

  ghost predicate IsJsCall(call: Call) {
    IsJs(if call.Create? then call.creation.conditions else call.changes.conditions)
  }

  ghost predicate Written(rows: seq<Row>, company: Id, key: Id, version: int) {
    exists r :: r in rows && IsOf(r, company, key) && r.version == version
  }

  lemma {:induction false} VersionsMember(rows: seq<Row>, company: Id, key: Id)
    ensures forall r :: r in rows && IsOf(r, company, key) ==> r.version in Versions(rows, company, key)
    ensures
      forall i :: 0 <= i < |Versions(rows, company, key)| ==>
        Written(rows, company, key, Versions(rows, company, key)[i])
    decreases |rows|
  {
    if rows != [] {
      var front, last := rows[..|rows| - 1], rows[|rows| - 1];
      assert rows == front + [last];
      VersionsMember(front, company, key);
      var rest, versions := Versions(front, company, key), Versions(rows, company, key);
      forall i | 0 <= i < |versions|
        ensures Written(rows, company, key, versions[i])
      {
        if i < |rest| {
          assert Written(front, company, key, rest[i]);
          var r :| r in front && IsOf(r, company, key) && r.version == rest[i];
          assert r in rows;
        } else {
          assert last in rows;
        }
      }
    }
  }

  lemma FirstVersion(rows: seq<Row>, company: Id, key: Id)
    requires Numbered(Versions(rows, company, key))
    ensures Versions(rows, company, key) == [] || Written(rows, company, key, 1)
  {
    VersionsMember(rows, company, key);
    var versions := Versions(rows, company, key);
    if versions != [] {
      assert versions[0] == 1;
    }
  }

  /** The latest row of a key carries as its version the number of rows of the key. */
  lemma LatestIsLast(rows: seq<Row>, company: Id, key: Id)
    requires Numbered(Versions(rows, company, key))
    ensures
      var latest := LatestOf(rows, company, key);
      var versions := Versions(rows, company, key);
      if latest.None? then versions == [] else latest.value.version == |versions| > 0
  {
    VersionsMember(rows, company, key);
    var latest := LatestOf(rows, company, key);
    var versions := Versions(rows, company, key);
    if latest.Some? {
      assert latest.value.version in versions;
      assert versions[|versions| - 1] == |versions|;
    }
  }

  lemma AppendKeepsInv(rows: seq<Row>, row: Row, value: real, conditions: Js)
    requires Inv(rows) && forall r :: r in rows ==> r.id != row.id
    requires row.version == |Versions(rows, row.company, row.key)| + 1
    requires IsBuilt(row.ruleType, row.config, value, conditions)
    ensures Inv(rows + [row])
  {
    var next := rows + [row];
    assert next[..|next| - 1] == rows;
    forall company, key
      ensures Numbered(Versions(next, company, key))
    {
      assert Numbered(Versions(rows, company, key));
    }
  }

  lemma CreateKeepsInv(rows: seq<Row>, company: Id, user: Id, c: Creation, id: Id, key: Id)
    requires Inv(rows) && IsJs(c.conditions)
    ensures Inv(CreateRule(rows, company, user, c, id, key).0)
  {
    hide Versions, RuleConfig.Build;
    var outcome := CreateRule(rows, company, user, c, id, key).1;
    if outcome.Ok? {
      FirstVersion(rows, company, key);
      AppendKeepsInv(rows, outcome.value, c.value, c.conditions);
    }
  }

  /** What was parsed is again a JavaScript object. */
  lemma ParsedIsJs(ruleType: RuleConfig.RuleType, config: Js, value: real, conditions: Js)
    requires IsBuilt(ruleType, config, value, conditions)
    ensures RuleConfig.Parse(config).Ok? && IsJs(RuleConfig.Parse(config).value.conditions)
    ensures RuleConfig.Parse(config).value.value == value >= 0.0
  {
    RuleConfig.RoundTrip(ruleType, value, conditions);
    if conditions.Obj? {
      NormalizeKeepsKeysDistinct(conditions, |conditions.entries|);
    }
  }

  lemma UpdateKeepsInv(rows: seq<Row>, company: Id, user: Id, rule: Id, c: Changes, id: Id)
    requires Inv(rows) && IsJs(c.conditions)
    ensures Inv(UpdateRule(rows, company, user, rule, c, id).0)
  {
    hide Versions, RuleConfig.Build, RuleConfig.Parse, LatestOf;
    var outcome := UpdateRule(rows, company, user, rule, c, id).1;
    if outcome.Ok? {
      var current := Find(rows, company, rule);
      LatestIsLast(rows, company, current.key);
      SameId(rows, current, LatestOf(rows, company, current.key).value);
      var value, conditions :| IsBuilt(current.ruleType, current.config, value, conditions);
      ParsedIsJs(current.ruleType, current.config, value, conditions);
      AppendKeepsInv(rows, outcome.value, Or(c.value, value),
                     if c.conditions != Undefined then c.conditions
                     else RuleConfig.Parse(current.config).value.conditions);
    }
  }

  lemma SameId(rows: seq<Row>, r: Row, s: Row)
    requires Inv(rows) && r in rows && s in rows && r.id == s.id
    ensures r == s
  {
  }

  lemma PerformKeepsInv(rows: seq<Row>, call: Call)
    requires Inv(rows) && IsJsCall(call)
    ensures Inv(Perform(rows, call).0)
  {
    hide Inv, CreateRule, UpdateRule;
    match call
    case Create(company, user, creation, id, key) => CreateKeepsInv(rows, company, user, creation, id, key);
    case Update(company, user, rule, changes, id) => UpdateKeepsInv(rows, company, user, rule, changes, id);
  }

  /** Through any calls of any companies, the versions of each key stay exactly 1 to k, in this order. */
  lemma {:induction false} VersionsAreConsecutive(rows: seq<Row>, calls: seq<Call>)
    requires Inv(rows) && forall call :: call in calls ==> IsJsCall(call)
    ensures Inv(Run(rows, calls))
    ensures forall company, key :: Numbered(Versions(Run(rows, calls), company, key))
    decreases |calls|
  {
    hide Perform, Versions;
    if calls != [] {
      PerformKeepsInv(rows, calls[0]);
      VersionsAreConsecutive(Perform(rows, calls[0]).0, calls[1..]);
    }
  }

  /** No call changes or removes a row; a successful one adds exactly the row it returns, a failed one nothing. */
  lemma CallAppends(rows: seq<Row>, call: Call)
    ensures
      match Perform(rows, call).1
      case Ok(row) => Perform(rows, call).0 == rows + [row]
      case Err(_) => Perform(rows, call).0 == rows
  {
    hide RuleConfig.Build, NextConfig, LatestOf, WindowOk;
  }

  lemma {:induction false} OldVersionsNeverChange(rows: seq<Row>, calls: seq<Call>)
    ensures rows <= Run(rows, calls)
    decreases |calls|
  {
    hide Perform;
    if calls != [] {
      CallAppends(rows, calls[0]);
      OldVersionsNeverChange(Perform(rows, calls[0]).0, calls[1..]);
    }
  }

  /**
   An update succeeds exactly if its window is ordered, the rule is the k-th of the k versions of its
   key, something changes, the next configuration is valid and the new id is unused: the unique key on
   versions never gets in the way.
   */
  lemma UpdateSucceedsIff(rows: seq<Row>, company: Id, user: Id, rule: Id, c: Changes, id: Id)
    requires Inv(rows)
    ensures
      UpdateRule(rows, company, user, rule, c, id).1.Ok? <==>
        && WindowOk(Flatten(c.effectiveFrom), Flatten(c.effectiveTo))
        && Has(rows, company, rule)
        && (var current := Find(rows, company, rule);
            && current.version == |Versions(rows, company, current.key)|
            && NextConfig(current, c).Ok?)
        && HasAnyUpdates(c)
        && (forall r :: r in rows ==> r.id != id)
  {
    hide Versions, NextConfig, LatestOf, WindowOk, HasAnyUpdates, Flatten, Or;
    if Has(rows, company, rule) {
      var current := Find(rows, company, rule);
      assert Numbered(Versions(rows, company, current.key));
      LatestIsLast(rows, company, current.key);
      var latest := LatestOf(rows, company, current.key);
      assert latest.Some?;
      if latest.value.id == current.id {
        SameId(rows, current, latest.value);
      }
      if latest.value.version == current.version {
        OneRowPerVersion(rows, company, current.key, current, latest.value);
      }
    }
  }

  lemma {:induction false} OneRowPerVersion(rows: seq<Row>, company: Id, key: Id, r: Row, s: Row)
    requires Numbered(Versions(rows, company, key)) && r in rows && s in rows
    requires IsOf(r, company, key) && IsOf(s, company, key) && r.version == s.version
    ensures r == s
    decreases |rows|
  {
    var front, last := rows[..|rows| - 1], rows[|rows| - 1];
    assert rows == front + [last];
    var versions := Versions(front, company, key);
    VersionsMember(front, company, key);
    if IsOf(last, company, key) {
      assert Versions(rows, company, key) == versions + [last.version];
      assert Numbered(versions) by {
        forall i | 0 <= i < |versions|
          ensures versions[i] == i + 1
        {
          assert Versions(rows, company, key)[i] == versions[i];
        }
      }
      assert Versions(rows, company, key)[|versions|] == last.version;
      assert last.version !in versions;
    }
    if r != last && s != last {
      OneRowPerVersion(front, company, key, r, s);
    }
  }

  /** After a successful update the row it wrote is the latest of its key, one version further. */
  lemma UpdatedRowIsLatest(rows: seq<Row>, company: Id, user: Id, rule: Id, c: Changes, id: Id)
    requires Inv(rows) && UpdateRule(rows, company, user, rule, c, id).1.Ok?
    ensures
      var (next, outcome) := UpdateRule(rows, company, user, rule, c, id);
      var row := outcome.value;
      && LatestOf(next, company, row.key) == Some(row)
      && row.version == |Versions(rows, company, row.key)| + 1
      && Find(rows, company, rule).key == row.key
  {
    hide Versions, NextConfig, WindowOk, HasAnyUpdates, Flatten, Or, Inv;
    UpdateSucceedsIff(rows, company, user, rule, c, id);
    var (next, outcome) := UpdateRule(rows, company, user, rule, c, id);
    assert next == rows + [outcome.value];
    assert next[..|next| - 1] == rows;
    assert Numbered(Versions(rows, company, outcome.value.key)) by {
      InvNumbers(rows, company, outcome.value.key);
    }
    LatestIsLast(rows, company, outcome.value.key);
  }

  lemma InvNumbers(rows: seq<Row>, company: Id, key: Id)
    requires Inv(rows)
    ensures Numbered(Versions(rows, company, key))
  {
  }

  /**
   An update that gives no type, value or conditions writes the same configuration again, exactly if
   the conditions it was built from are stable.
   */
  lemma ConfigIsKeptIff(current: Row, c: Changes, value: real, conditions: Js)
    requires IsBuilt(current.ruleType, current.config, value, conditions)
    requires c.ruleType == None && c.value == None && c.conditions == Undefined
    ensures NextConfig(current, c) == Ok(current.config) <==> RuleConfig.Stable(conditions)
  {
    hide RuleConfig.Build, RuleConfig.Parse, RuleConfig.Stable, IsJs;
    ParsedIsJs(current.ruleType, current.config, value, conditions);
    RuleConfig.RebuildIff(current.ruleType, value, conditions);
  }

  /** The changes that set every field to that of a row. */
  function Back(r: Row, payload: RuleConfig.Payload): Changes {
    Changes(Some(r.name), Some(r.ruleType), Some(payload.value), payload.conditions, Some(r.active),
            Some(r.changeReason), Some(r.effectiveFrom), Some(r.effectiveTo))
  }

  /** The changes that take a row back exist, and what they write but for the configuration is the row. */
  lemma NextRowIsBack(current: Row, next: Row, user: Id, config: Js, id: Id)
    requires RuleConfig.Parse(current.config).Ok? && next.key == current.key && next.version == current.version + 1
    ensures
      NextRow(next, current.company, user, Back(current, RuleConfig.Parse(current.config).value), config, id)
      == current.(id := id, version := current.version + 2, changedBy := user, config := config)
  {
    hide RuleConfig.Parse;
  }

  lemma BackConfig(current: Row, next: Row, value: real, conditions: Js)
    requires IsBuilt(current.ruleType, current.config, value, conditions) && RuleConfig.Parse(next.config).Ok?
    ensures RuleConfig.Parse(current.config).Ok?
    ensures
      var config := NextConfig(next, Back(current, RuleConfig.Parse(current.config).value));
      config.Ok? && (config.value == current.config <==> RuleConfig.Stable(conditions))
  {
    hide RuleConfig.Build, RuleConfig.Parse, RuleConfig.Stable, IsJs;
    ParsedIsJs(current.ruleType, current.config, value, conditions);
    ParsedConditions(current.config);
    RuleConfig.RebuildIff(current.ruleType, value, conditions);
    RuleConfig.RebuildSucceeds(current.ruleType, value, conditions);
  }

  /**
   A successful update of a rule can be taken back by a further one, exactly if the window of the rule
   is ordered and the further id is unused.  The row that is written is the old one but for id, version
   and author, exactly if the conditions of the old one were stable; otherwise the configuration
   differs as well, and nothing else.
   */
  lemma UpdateCanBeUndone(rows: seq<Row>, company: Id, user: Id, rule: Id, c: Changes, id: Id, other: Id, last: Id,
                          value: real, conditions: Js)
    requires Inv(rows) && IsJs(c.conditions) && UpdateRule(rows, company, user, rule, c, id).1.Ok?
    requires
      var current := Find(rows, company, rule);
      IsBuilt(current.ruleType, current.config, value, conditions)
    ensures RuleConfig.Parse(Find(rows, company, rule).config).Ok?
    ensures
      var current := Find(rows, company, rule);
      var next := UpdateRule(rows, company, user, rule, c, id).0;
      var back := Back(current, RuleConfig.Parse(current.config).value);
      var outcome := UpdateRule(next, company, other, id, back, last).1;
      && (outcome.Ok? <==>
           WindowOk(current.effectiveFrom, current.effectiveTo) && forall r :: r in next ==> r.id != last)
      && (outcome.Ok? ==>
           var taken := current.(id := last, version := current.version + 2, changedBy := other);
           && outcome.value == taken.(config := outcome.value.config)
           && (outcome.value == taken <==> RuleConfig.Stable(conditions)))
  {
    hide Versions, LatestOf, Inv, RuleConfig.Build, RuleConfig.Parse, RuleConfig.Stable, IsBuilt, NextConfig, NextRow,
      WindowOk, HasAnyUpdates;
    var current := Find(rows, company, rule);
    var (next, first) := UpdateRule(rows, company, user, rule, c, id);
    var row := first.value;
    UpdateKeepsInv(rows, company, user, rule, c, id);
    UpdatedRow(rows, company, user, rule, c, id);
    BackConfig(current, row, value, conditions);
    var back := Back(current, RuleConfig.Parse(current.config).value);
    assert HasAnyUpdates(back) by {
      BackHasUpdates(current, RuleConfig.Parse(current.config).value);
    }
    var found := Find(next, company, id);
    SameId(next, found, row);
    UpdateSucceedsIff(next, company, other, id, back, last);
    NextRowIsBack(current, row, other, NextConfig(row, back).value, last);
  }

  lemma BackHasUpdates(r: Row, payload: RuleConfig.Payload)
    ensures HasAnyUpdates(Back(r, payload))
  {
  }

  /** What a successful update returns, and where it stands. */
  lemma UpdatedRow(rows: seq<Row>, company: Id, user: Id, rule: Id, c: Changes, id: Id)
    requires Inv(rows) && IsJs(c.conditions) && UpdateRule(rows, company, user, rule, c, id).1.Ok?
    ensures
      var current := Find(rows, company, rule);
      var (next, outcome) := UpdateRule(rows, company, user, rule, c, id);
      var row := outcome.value;
      && next == rows + [row] && row.id == id && row.company == company == current.company && row.key == current.key
      && row.version == current.version + 1 == |Versions(next, company, row.key)|
      && RuleConfig.Parse(row.config).Ok?
  {
    hide Versions, LatestOf, RuleConfig.Build, RuleConfig.Parse, WindowOk, HasAnyUpdates, Flatten, Or;
    UpdateKeepsInv(rows, company, user, rule, c, id);
    UpdatedRowIsLatest(rows, company, user, rule, c, id);
    UpdateSucceedsIff(rows, company, user, rule, c, id);
    var (next, outcome) := UpdateRule(rows, company, user, rule, c, id);
    var row := outcome.value;
    InvNumbers(next, company, row.key);
    LatestIsLast(next, company, row.key);
    assert row in next;
    var value, conditions :| IsBuilt(row.ruleType, row.config, value, conditions);
    ParsedIsJs(row.ruleType, row.config, value, conditions);
  }

  lemma ParsedConditions(config: Js)
    ensures RuleConfig.Parse(config).Ok? ==> RuleConfig.Parse(config).value.conditions != Undefined
  {
  }

  // ---- What the calls write -----------------------------------------------------------------------------------

  /** What a configuration says: its value, and its conditions if they are an object. */
  ghost predicate Says(config: Js, value: real, conditions: Js) {
    RuleConfig.Parse(config) == Ok(RuleConfig.Payload(value, if conditions.Obj? then Normalize(conditions) else Null))
  }

  /** A rule is created as version 1 with the fields given, active unless asked otherwise. */
  lemma CreatedRow(rows: seq<Row>, company: Id, user: Id, c: Creation, id: Id, key: Id)
    ensures
      var (next, outcome) := CreateRule(rows, company, user, c, id, key);
      if c.effectiveFrom.Some? && c.effectiveTo.Some? && c.effectiveFrom.value > c.effectiveTo.value then
        next == rows && outcome == Err(BadWindow)
      else
        match RuleConfig.Build(c.ruleType, c.value, c.conditions)
        case Err(error) => next == rows && outcome == Err(BadConfig(error))
        case Ok(config) =>
          var row := Row(id, company, key, c.name, c.ruleType, 1, config, user, c.changeReason, c.active != Some(false),
                         c.effectiveFrom, c.effectiveTo);
          && Says(config, c.value, c.conditions)
          && (if exists r :: r in rows && (r.id == id || (r.company == company && r.key == key && r.version == 1)) then
                next == rows && outcome == Err(UniqueViolation)
              else next == rows + [row] && outcome == Ok(row))
  {
    hide RuleConfig.Build, RuleConfig.Parse;
    if RuleConfig.Build(c.ruleType, c.value, c.conditions).Ok? {
      RuleConfig.RoundTrip(c.ruleType, c.value, c.conditions);
    }
  }

  /** A field that an update leaves out keeps its value; one that is given, null included, has that value. */
  lemma UpdatedFields(rows: seq<Row>, company: Id, user: Id, rule: Id, c: Changes, id: Id)
    requires Inv(rows) && IsJs(c.conditions) && UpdateRule(rows, company, user, rule, c, id).1.Ok?
    ensures
      var was, now := Find(rows, company, rule), UpdateRule(rows, company, user, rule, c, id).1.value;
      && now.id == id && now.company == company && now.key == was.key && now.version == was.version + 1
      && now.changedBy == user
      && now.name == (if c.name.Some? then c.name.value else was.name)
      && now.ruleType == (if c.ruleType.Some? then c.ruleType.value else was.ruleType)
      && now.active == (if c.active.Some? then c.active.value else was.active)
      && now.changeReason == (if c.changeReason.Some? then c.changeReason.value else was.changeReason)
      && now.effectiveFrom == (if c.effectiveFrom.Some? then c.effectiveFrom.value else was.effectiveFrom)
      && now.effectiveTo == (if c.effectiveTo.Some? then c.effectiveTo.value else was.effectiveTo)
      && RuleConfig.Parse(was.config).Ok?
      && var before := RuleConfig.Parse(was.config).value;
      Says(now.config, if c.value.Some? then c.value.value else before.value,
           if c.conditions != Undefined then c.conditions else before.conditions)
  {
    hide Versions, LatestOf, Inv, RuleConfig.Build, RuleConfig.Parse, WindowOk, HasAnyUpdates, Flatten;
    UpdatedRow(rows, company, user, rule, c, id);
    var was := Find(rows, company, rule);
    var before := RuleConfig.Parse(was.config).value;
    RuleConfig.RoundTrip(Or(c.ruleType, was.ruleType), Or(c.value, before.value),
                         if c.conditions != Undefined then c.conditions else before.conditions);
  }

  /** Why an update is refused. */
  lemma UpdateRefusal(rows: seq<Row>, company: Id, user: Id, rule: Id, c: Changes, id: Id)
    requires Inv(rows) && UpdateRule(rows, company, user, rule, c, id).1.Err?
    ensures
      var error := UpdateRule(rows, company, user, rule, c, id).1.error;
      if && c.effectiveFrom.Some? && c.effectiveFrom.value.Some? && c.effectiveTo.Some? && c.effectiveTo.value.Some?
         && c.effectiveFrom.value.value > c.effectiveTo.value.value
      then error == BadWindow
      else if forall r :: r in rows ==> r.id != rule || r.company != company then error == RuleMissing
      else if Find(rows, company, rule).version != |Versions(rows, company, Find(rows, company, rule).key)| then
        error == NotLatest
      else if c == Changes(None, None, None, Undefined, None, None, None, None) then error == NothingToChange
      else error.BadConfig? || error == UniqueViolation
  {
    hide Versions, NextConfig, LatestOf;
    UpdateSucceedsIff(rows, company, user, rule, c, id);
    if Has(rows, company, rule) {
      var current := Find(rows, company, rule);
      LatestIsTheLastVersion(rows, company, current);
    }
  }

  lemma LatestIsTheLastVersion(rows: seq<Row>, company: Id, current: Row)
    requires Inv(rows) && current in rows && current.company == company
    ensures
      var latest := LatestOf(rows, company, current.key);
      latest.Some? && (latest.value.id == current.id <==> current.version == |Versions(rows, company, current.key)|)
  {
    hide Versions, LatestOf;
    assert Numbered(Versions(rows, company, current.key));
    LatestIsLast(rows, company, current.key);
    var latest := LatestOf(rows, company, current.key);
    assert latest.Some?;
    if latest.value.id == current.id {
      SameId(rows, current, latest.value);
    }
    if latest.value.version == current.version {
      OneRowPerVersion(rows, company, current.key, current, latest.value);
    }
  }

  // ---- latestRulesOnly ----------------------------------------------------------------------------------------

  function Newer(kept: Row, r: Row): Row {
    if r.version > kept.version then r else kept
  }

  /** The rows of a Map from key to row after `set`: a new key goes to the end. */
  function Put(latest: seq<Row>, r: Row): seq<Row> {
    if latest == [] then [r]
    else if latest[0].key == r.key then [Newer(latest[0], r)] + latest[1..]
    else [latest[0]] + Put(latest[1..], r)
  }

  function Collect(rules: seq<Row>): seq<Row> {
    if rules == [] then [] else Put(Collect(rules[..|rules| - 1]), rules[|rules| - 1])
  }

  /** Stable insertion; `rank` stands for the order of localeCompare. */
  function InsertByName(sorted: seq<Row>, r: Row, rank: string -> real): seq<Row> {
    if sorted == [] || rank(sorted[|sorted| - 1].name) <= rank(r.name) then sorted + [r]
    else InsertByName(sorted[..|sorted| - 1], r, rank) + [sorted[|sorted| - 1]]
  }

  function SortByName(rules: seq<Row>, rank: string -> real): seq<Row> {
    if rules == [] then [] else InsertByName(SortByName(rules[..|rules| - 1], rank), rules[|rules| - 1], rank)
  }

  function LatestRulesOnly(rules: seq<Row>, rank: string -> real): seq<Row> {
    SortByName(Collect(rules), rank)
  }

  ghost predicate DistinctRuleKeys(rules: seq<Row>) {
    forall i, j :: 0 <= i < j < |rules| ==> rules[i].key != rules[j].key
  }

  ghost predicate SortedByName(rules: seq<Row>, rank: string -> real) {
    forall i, j :: 0 <= i < j < |rules| ==> rank(rules[i].name) <= rank(rules[j].name)
  }

  /** A row with the highest version among the rules of its key. */
  ghost predicate IsMaximal(r: Row, rules: seq<Row>) {
    r in rules && forall s :: s in rules && s.key == r.key ==> s.version <= r.version
  }

  ghost function Keys(rules: seq<Row>): set<Id> {
    set r | r in rules :: r.key
  }

  lemma {:induction false} PutFacts(latest: seq<Row>, r: Row)
    requires DistinctRuleKeys(latest)
    ensures DistinctRuleKeys(Put(latest, r))
    ensures Keys(Put(latest, r)) == Keys(latest) + {r.key}
    ensures
      forall x :: x in Put(latest, r) ==>
        || (x == r && forall y :: y in latest && y.key == r.key ==> y.version <= r.version)
        || (x in latest && (x.key == r.key ==> r.version <= x.version))
    decreases |latest|
  {
    hide Keys, DistinctRuleKeys;
    if latest == [] {
      KeysOne(r);
    } else {
      var head, tail := latest[0], latest[1..];
      var first := if head.key == r.key then Newer(head, r) else head;
      assert latest == [head] + tail;
      KeysCons(head, tail);
      if head.key == r.key {
        KeysCons(first, tail);
      } else {
        PutFacts(tail, r);
        KeysCons(head, Put(tail, r));
      }
    }
  }

  lemma KeysOne(r: Row)
    ensures Keys([r]) == {r.key} && Keys([]) == {} && DistinctRuleKeys([r])
  {
  }

  lemma NoKeys()
    ensures DistinctRuleKeys([]) && Keys([]) == {}
  {
  }

  lemma DistinctConcat(a: seq<Row>, b: seq<Row>)
    ensures DistinctRuleKeys(a + b) <==> DistinctRuleKeys(a) && DistinctRuleKeys(b) && Keys(a) !! Keys(b)
  {
    var all := a + b;
    if DistinctRuleKeys(all) {
      forall i, j | 0 <= i < j < |a|
        ensures a[i].key != a[j].key
      {
        assert all[i].key != all[j].key;
      }
      forall i, j | 0 <= i < j < |b|
        ensures b[i].key != b[j].key
      {
        assert all[|a| + i].key != all[|a| + j].key;
      }
      forall i, j | 0 <= i < |a| && 0 <= j < |b|
        ensures a[i].key != b[j].key
      {
        assert all[i].key != all[|a| + j].key;
      }
    } else {
      var i, j :| 0 <= i < j < |all| && all[i].key == all[j].key;
      assert i < |a| ==> all[i].key in Keys(a);
      assert j >= |a| ==> all[j] in b && all[j].key in Keys(b);
    }
  }

  lemma KeysConcat(a: seq<Row>, b: seq<Row>)
    ensures Keys(a + b) == Keys(a) + Keys(b)
    ensures forall x :: x in b ==> x.key in Keys(b)
    ensures forall x :: x in a ==> x.key in Keys(a)
  {
  }

  lemma KeysCons(head: Row, tail: seq<Row>)
    ensures Keys([head] + tail) == {head.key} + Keys(tail)
    ensures DistinctRuleKeys([head] + tail) <==> DistinctRuleKeys(tail) && head.key !in Keys(tail)
    ensures forall x :: x in tail ==> x.key in Keys(tail)
  {
    hide Keys, DistinctRuleKeys;
    KeysConcat([head], tail);
    DistinctConcat([head], tail);
    KeysOne(head);
  }

  lemma KeysSnoc(front: seq<Row>, last: Row)
    ensures Keys(front + [last]) == Keys(front) + {last.key}
    ensures DistinctRuleKeys(front + [last]) <==> DistinctRuleKeys(front) && last.key !in Keys(front)
    ensures forall x :: x in front ==> x.key in Keys(front)
  {
    hide Keys, DistinctRuleKeys;
    KeysConcat(front, [last]);
    DistinctConcat(front, [last]);
    KeysOne(last);
  }

  lemma {:induction false} CollectFacts(rules: seq<Row>)
    ensures DistinctRuleKeys(Collect(rules))
    ensures forall x :: x in Collect(rules) ==> IsMaximal(x, rules)
    ensures Keys(Collect(rules)) == Keys(rules)
    decreases |rules|
  {
    hide Put, Keys, DistinctRuleKeys, IsMaximal;
    if rules == [] {
      NoKeys();
    } else {
      var front, last := rules[..|rules| - 1], rules[|rules| - 1];
      assert rules == front + [last];
      KeysSnoc(front, last);
      CollectFacts(front);
      PutFacts(Collect(front), last);
      MaximalStep(front, last);
    }
  }

  lemma MaximalStep(front: seq<Row>, last: Row)
    requires forall x :: x in Collect(front) ==> IsMaximal(x, front)
    requires Keys(Collect(front)) == Keys(front)
    requires
      forall x :: x in Put(Collect(front), last) ==>
        || (x == last && forall y :: y in Collect(front) && y.key == last.key ==> y.version <= last.version)
        || (x in Collect(front) && (x.key == last.key ==> last.version <= x.version))
    ensures forall x :: x in Put(Collect(front), last) ==> IsMaximal(x, front + [last])
  {
    hide Put, Collect;
    forall x | x in Put(Collect(front), last)
      ensures IsMaximal(x, front + [last])
    {
      forall s | s in front + [last] && s.key == x.key
        ensures s.version <= x.version
      {
        if s in front && x !in Collect(front) {
          assert s.key in Keys(front);
          var y :| y in Collect(front) && y.key == s.key;
          assert IsMaximal(y, front);
        }
      }
    }
  }

  lemma {:induction false} InsertFacts(sorted: seq<Row>, r: Row, rank: string -> real)
    requires DistinctRuleKeys(sorted) && SortedByName(sorted, rank) && r.key !in Keys(sorted)
    ensures
      var s := InsertByName(sorted, r, rank);
      && DistinctRuleKeys(s) && SortedByName(s, rank) && Keys(s) == Keys(sorted) + {r.key}
      && (forall x :: x in s <==> x in sorted || x == r)
    decreases |sorted|
  {
    hide Keys, DistinctRuleKeys;
    if sorted == [] || rank(sorted[|sorted| - 1].name) <= rank(r.name) {
      KeysSnoc(sorted, r);
    } else {
      var front, last := sorted[..|sorted| - 1], sorted[|sorted| - 1];
      assert sorted == front + [last];
      KeysSnoc(front, last);
      InsertFacts(front, r, rank);
      KeysSnoc(InsertByName(front, r, rank), last);
      var rest := InsertByName(front, r, rank);
      forall i | 0 <= i < |rest|
        ensures rank(rest[i].name) <= rank(last.name)
      {
        assert rest[i] in front || rest[i] == r;
      }
    }
  }

  lemma {:induction false} SortFacts(rules: seq<Row>, rank: string -> real)
    requires DistinctRuleKeys(rules)
    ensures
      var s := SortByName(rules, rank);
      && DistinctRuleKeys(s) && SortedByName(s, rank) && Keys(s) == Keys(rules)
      && (forall x :: x in s <==> x in rules)
    decreases |rules|
  {
    hide Keys, DistinctRuleKeys, InsertByName;
    if rules == [] {
      NoKeys();
    } else {
      var front, last := rules[..|rules| - 1], rules[|rules| - 1];
      assert rules == front + [last];
      KeysSnoc(front, last);
      SortFacts(front, rank);
      InsertFacts(SortByName(front, rank), last, rank);
    }
  }

  /**
   Whatever the order of the rules, `latestRulesOnly` returns one rule of each key and no other, a
   highest version of it, in the order of the names.
   */
  lemma LatestIsMaximumPerKey(rules: seq<Row>, rank: string -> real)
    ensures
      var latest := LatestRulesOnly(rules, rank);
      && DistinctRuleKeys(latest) && Keys(latest) == Keys(rules) && SortedByName(latest, rank)
      && (forall r :: r in latest ==> IsMaximal(r, rules))
  {
    hide Keys, DistinctRuleKeys, IsMaximal;
    CollectFacts(rules);
    SortFacts(Collect(rules), rank);
  }

  /** The rows of one company, in any order. */
  ghost predicate IsListing(listing: seq<Row>, rows: seq<Row>, company: Id) {
    forall r :: r in listing <==> r in rows && r.company == company
  }

  /** Of k versions of a key, the one kept is version k, and nothing else is kept. */
  lemma LatestIsVersionK(rows: seq<Row>, company: Id, listing: seq<Row>, rank: string -> real)
    requires Inv(rows) && IsListing(listing, rows, company)
    ensures
      forall r :: r in LatestRulesOnly(listing, rank) <==>
        r in rows && r.company == company && r.version == |Versions(rows, company, r.key)|
  {
    hide Keys, DistinctRuleKeys, SortedByName, Versions, LatestRulesOnly, Inv;
    LatestIsMaximumPerKey(listing, rank);
    var latest := LatestRulesOnly(listing, rank);
    forall r | r in listing
      ensures r in latest <==> r.version == |Versions(rows, company, r.key)|
    {
      InvNumbers(rows, company, r.key);
      LatestIsLast(rows, company, r.key);
      var top := LatestOf(rows, company, r.key).value;
      assert top in listing;
      KeptRow(listing, latest, r);
      var kept :| kept in latest && kept.key == r.key;
      assert IsMaximal(kept, listing);
      OneRowPerVersion(rows, company, r.key, kept, top);
      if r.version == top.version {
        OneRowPerVersion(rows, company, r.key, r, top);
      }
    }
    assert forall r :: r in latest ==> IsMaximal(r, listing);
  }

  lemma KeptRow(listing: seq<Row>, latest: seq<Row>, r: Row)
    requires Keys(latest) == Keys(listing) && r in listing
    ensures exists kept :: kept in latest && kept.key == r.key
  {
    assert r.key in Keys(latest);
  }

  // ---- The services' form -------------------------------------------------------------------------------------

  /** A Map, as its rows by key and its keys in the order of their first insertion, holds these rows. */
  ghost predicate Holds(byKey: map<Id, Row>, order: seq<Id>, rows: seq<Row>) {
    && |order| == |rows|
    && (forall i :: 0 <= i < |rows| ==> order[i] == rows[i].key && order[i] in byKey && byKey[order[i]] == rows[i])
    && (forall key :: key in byKey ==> key in order)
  }

  lemma {:induction false} PutAt(front: seq<Row>, kept: Row, back: seq<Row>, r: Row)
    requires kept.key == r.key && forall k :: 0 <= k < |front| ==> front[k].key != r.key
    ensures Put(front + [kept] + back, r) == front + [Newer(kept, r)] + back
    decreases |front|
  {
    hide Newer;
    var all := front + [kept] + back;
    if front == [] {
      assert all[0] == kept && all[1..] == back;
    } else {
      var head, tail := front[0], front[1..];
      assert all[0] == head && all[1..] == tail + [kept] + back;
      PutAt(tail, kept, back, r);
      assert [head] + (tail + [Newer(kept, r)] + back) == front + [Newer(kept, r)] + back;
    }
  }

  lemma PutAtIndex(rows: seq<Row>, i: nat, r: Row)
    requires i < |rows| && rows[i].key == r.key && DistinctRuleKeys(rows)
    ensures Put(rows, r) == rows[i := Newer(rows[i], r)]
  {
    hide Put, Newer;
    var front, back := rows[..i], rows[i + 1..];
    assert rows == front + [rows[i]] + back;
    PutAt(front, rows[i], back, r);
    assert front + [Newer(rows[i], r)] + back == rows[i := Newer(rows[i], r)];
  }

  lemma {:induction false} PutNew(latest: seq<Row>, r: Row)
    requires forall i :: 0 <= i < |latest| ==> latest[i].key != r.key
    ensures Put(latest, r) == latest + [r]
    decreases |latest|
  {
    if latest != [] {
      PutNew(latest[1..], r);
    }
  }

  /** Setting a key the Map holds overwrites in place; setting another appends. */
  lemma SetHolds(byKey: map<Id, Row>, order: seq<Id>, rows: seq<Row>, r: Row)
    requires Holds(byKey, order, rows) && DistinctRuleKeys(rows)
    ensures
      if r.key !in byKey then Holds(byKey[r.key := r], order + [r.key], Put(rows, r))
      else if r.version > byKey[r.key].version then Holds(byKey[r.key := r], order, Put(rows, r))
      else Holds(byKey, order, Put(rows, r))
  {
    hide Put;
    if r.key in byKey {
      var i :| 0 <= i < |order| && order[i] == r.key;
      PutAtIndex(rows, i, r);
      assert rows[i := rows[i]] == rows;
    } else {
      PutNew(rows, r);
    }
  }

  method CollectLatestRules(rules: seq<Row>, rank: string -> real) returns (latest: seq<Row>)
    ensures latest == LatestRulesOnly(rules, rank)
  {
    hide Holds, Put, DistinctRuleKeys, Keys, SortByName;
    var byKey: map<Id, Row>, order: seq<Id> := map[], [];
    assert Holds(byKey, order, []) by {
      NothingHeld();
    }
    for i := 0 to |rules|
      invariant Holds(byKey, order, Collect(rules[..i]))
    {
      var rule := rules[i];
      assert rules[..i + 1][..i] == rules[..i];
      CollectFacts(rules[..i]);
      SetHolds(byKey, order, Collect(rules[..i]), rule);
      if rule.key !in byKey {
        byKey, order := byKey[rule.key := rule], order + [rule.key];
      } else if rule.version > byKey[rule.key].version {
        byKey := byKey[rule.key := rule];
      }
    }
    assert rules[..|rules|] == rules;
    ValuesHeld(byKey, order, Collect(rules));
    var values := seq(|order|, i requires 0 <= i < |order| && order[i] in byKey => byKey[order[i]]);
    latest := SortByName(values, rank);
  }

  lemma NothingHeld()
    ensures Holds(map[], [], [])
  {
  }

  lemma ValuesHeld(byKey: map<Id, Row>, order: seq<Id>, rows: seq<Row>)
    requires Holds(byKey, order, rows)
    ensures forall i :: 0 <= i < |order| ==> order[i] in byKey
    ensures rows == seq(|order|, i requires 0 <= i < |order| && order[i] in byKey => byKey[order[i]])
  {
  }

  class RuleStore {
    var rows: seq<Row>

    ghost predicate Valid()
      reads this
    {
      Inv(rows)
    }

    constructor ()
      ensures Valid() && rows == []
    {
      rows := [];
    }

    method CreatePaymentRule(company: Id, user: Id, c: Creation, id: Id, key: Id)
      returns (outcome: Result<Row, VersionError>)
      requires Valid() && IsJs(c.conditions)
      modifies this
      ensures Valid() && (rows, outcome) == CreateRule(old(rows), company, user, c, id, key)
    {
      hide Inv;
      CreateKeepsInv(rows, company, user, c, id, key);
      if !WindowOk(c.effectiveFrom, c.effectiveTo) {
        return Err(BadWindow);
      }
      var config := RuleConfig.Build(c.ruleType, c.value, c.conditions);
      if config.Err? {
        return Err(BadConfig(config.error));
      }
      outcome := InsertRow(Row(id, company, key, c.name, c.ruleType, 1, config.value, user, c.changeReason,
                               Or(c.active, true), c.effectiveFrom, c.effectiveTo));
    }

    method UpdatePaymentRule(company: Id, user: Id, rule: Id, c: Changes, id: Id)
      returns (outcome: Result<Row, VersionError>)
      requires Valid() && IsJs(c.conditions)
      modifies this
      ensures Valid() && (rows, outcome) == UpdateRule(old(rows), company, user, rule, c, id)
    {
      hide Inv;
      UpdateKeepsInv(rows, company, user, rule, c, id);
      if !WindowOk(Flatten(c.effectiveFrom), Flatten(c.effectiveTo)) {
        return Err(BadWindow);
      }
      if !Has(rows, company, rule) {
        return Err(RuleMissing);
      }
      var current := Find(rows, company, rule);
      var latest := LatestOf(rows, company, current.key);
      if latest.None? || latest.value.id != current.id {
        return Err(NotLatest);
      }
      if !HasAnyUpdates(c) {
        return Err(NothingToChange);
      }
      var config := NextConfig(current, c);
      if config.Err? {
        return Err(BadConfig(config.error));
      }
      outcome := InsertRow(NextRow(current, company, user, c, config.value, id));
    }

    /** The insert of the database, which refuses a row that breaks a unique key. */
    method InsertRow(row: Row) returns (outcome: Result<Row, VersionError>)
      modifies this
      ensures (rows, outcome) == Insert(old(rows), row)
    {
      if exists r :: r in rows && Clashes(r, row) {
        outcome := Err(UniqueViolation);
      } else {
        rows := rows + [row];
        outcome := Ok(row);
      }
    }
  }
}
