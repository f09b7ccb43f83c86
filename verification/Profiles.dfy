/**
 Users and their role profiles, as written by the users service
 (backend/src/modules/users/users.service.ts) and the couriers service
 (backend/src/modules/couriers/couriers.service.ts).  Each service call is one atomic step; a profile
 is named by its user, who has at most one of each kind.
 */
module Profiles {
  import opened Common

  datatype Role = Admin | Dispatcher | Courier

  datatype CourierStatus = Inactive | Available | Busy | Offline | Suspended

  datatype User = User(company: Id, role: Role, email: string, active: bool)

  datatype CourierRow = CourierRow(company: Id, status: CourierStatus)

  datatype DispatcherRow = DispatcherRow(company: Id, active: bool)

  datatype Directory = Directory(
    users: map<Id, User>, couriers: map<Id, CourierRow>, dispatchers: map<Id, DispatcherRow>)

  datatype UserChanges = UserChanges(role: Option<Role>, email: Option<string>, active: Option<bool>)

  datatype Error =
    | EmailTaken | UserMissing | UniqueViolation | CourierMissing | UserInactive | ProfileInactive | ProfileSuspended

  datatype Outcome = Done | Failed(error: Error)

  datatype Call =
    | CreateOwner(company: Id, id: Id, email: string)
    | CreateUser(company: Id, id: Id, role: Role, email: string)
    | UpdateUser(company: Id, id: Id, changes: UserChanges)
    | UpdateCourierStatus(company: Id, id: Id, online: bool)

  /** Another user of the company has the email. */
  predicate EmailUsed(users: map<Id, User>, company: Id, email: string, except: Option<Id>) {
    exists id :: id in users && users[id].company == company && users[id].email == email && Some(id) != except
  }

  function ResolveCourierStatus(isActive: bool, previousRole: Option<Role>, previous: Option<CourierStatus>):
    CourierStatus
  {
    if !isActive then Inactive
    else if previousRole != Some(Courier) then Offline
    else if previous == None || previous == Some(Inactive) then Offline
    else previous.value
  }

  function CourierOff(d: Directory, user: Id): Directory {
    if user in d.couriers then d.(couriers := d.couriers[user := d.couriers[user].(status := Inactive)]) else d
  }

  function DispatcherOff(d: Directory, user: Id): Directory {
    if user in d.dispatchers then d.(dispatchers := d.dispatchers[user := d.dispatchers[user].(active := false)]) else d
  }

  function SyncRoleProfiles(d: Directory, company: Id, user: Id, nextRole: Role, isActive: bool,
                            previousRole: Option<Role>): Directory {
    match nextRole
    case Courier =>
      var status :=
        if user in d.couriers then ResolveCourierStatus(isActive, previousRole, Some(d.couriers[user].status))
        else if isActive then Offline
        else Inactive;
      DispatcherOff(d.(couriers := d.couriers[user := CourierRow(company, status)]), user)
    case Dispatcher =>
      CourierOff(d.(dispatchers := d.dispatchers[user := DispatcherRow(company, isActive)]), user)
    case Admin => DispatcherOff(CourierOff(d, user), user)
  }

  /** A user inserted without profiles, as registration and tenant provisioning do for the owner. */
  function InsertUser(d: Directory, id: Id, user: User): (Directory, Outcome) {
    if id in d.users || EmailUsed(d.users, user.company, user.email, None) then (d, Failed(UniqueViolation))
    else (d.(users := d.users[id := user]), Done)
  }

  function Create(d: Directory, company: Id, id: Id, role: Role, email: string): (Directory, Outcome) {
    if EmailUsed(d.users, company, email, None) then (d, Failed(EmailTaken))
    else
      var (inserted, outcome) := InsertUser(d, id, User(company, role, email, true));
      if outcome.Failed? then (d, outcome) else (SyncRoleProfiles(inserted, company, id, role, true, None), Done)
  }

  function Update(d: Directory, company: Id, id: Id, c: UserChanges): (Directory, Outcome) {
    if id !in d.users || d.users[id].company != company then (d, Failed(UserMissing))
    else
      var current := d.users[id];
      var email := Or(c.email, current.email);
      var checked := c.email.Some? && email != "" && email != current.email;
      if checked && EmailUsed(d.users, company, email, Some(id)) then (d, Failed(EmailTaken))
      else if EmailUsed(d.users, company, email, Some(id)) then (d, Failed(UniqueViolation))
      else
        var next := User(company, Or(c.role, current.role), email, Or(c.active, current.active));
        (SyncRoleProfiles(d.(users := d.users[id := next]), company, id, next.role, next.active, Some(current.role)),
         Done)
  }

  function Toggle(d: Directory, company: Id, id: Id, online: bool): (Directory, Outcome) {
    if id !in d.couriers || d.couriers[id].company != company || id !in d.users then (d, Failed(CourierMissing))
    else if !d.users[id].active then (d, Failed(UserInactive))
    else if d.couriers[id].status == Inactive then (d, Failed(ProfileInactive))
    else if d.couriers[id].status == Suspended then (d, Failed(ProfileSuspended))
    else
      var status := if online then Available else Offline;
      (d.(couriers := d.couriers[id := d.couriers[id].(status := status)]), Done)
  }

  function Perform(d: Directory, call: Call): (Directory, Outcome) {
    match call
    case CreateOwner(company, id, email) => InsertUser(d, id, User(company, Admin, email, true))
    case CreateUser(company, id, role, email) => Create(d, company, id, role, email)
    case UpdateUser(company, id, changes) => Update(d, company, id, changes)
    case UpdateCourierStatus(company, id, online) => Toggle(d, company, id, online)
  }

  function Run(d: Directory, calls: seq<Call>): Directory
    decreases |calls|
  {
    if calls == [] then d else Run(Perform(d, calls[0]).0, calls[1..])
  }

  // ---- Invariant ----------------------------------------------------------------------------------------------

  predicate IsActiveCourier(d: Directory, id: Id) {
    id in d.users && d.users[id].role == Courier && d.users[id].active
  }

  predicate IsActiveDispatcher(d: Directory, id: Id) {
    id in d.users && d.users[id].role == Dispatcher && d.users[id].active
  }

  predicate HasLiveCourier(d: Directory, id: Id) {
    id in d.couriers && d.couriers[id].status != Inactive
  }

  predicate HasLiveDispatcher(d: Directory, id: Id) {
    id in d.dispatchers && d.dispatchers[id].active
  }

  /** The profiles of one user fit the user. */
  predicate Fits(d: Directory, id: Id) {
    && (IsActiveCourier(d, id) <==> HasLiveCourier(d, id))
    && (IsActiveDispatcher(d, id) <==> HasLiveDispatcher(d, id))
    && (id in d.couriers ==> id in d.users && d.couriers[id].company == d.users[id].company)
    && (id in d.dispatchers ==> id in d.users && d.dispatchers[id].company == d.users[id].company)
  }

  ghost predicate EmailsUnique(users: map<Id, User>) {
    forall id, other
      | id in users && other in users
        && users[id].company == users[other].company && users[id].email == users[other].email
      :: id == other
  }

  ghost predicate Inv(d: Directory) {
    (forall id :: Fits(d, id)) && EmailsUnique(d.users)
  }

  /** Nothing of another user differs. */
  ghost predicate SameElsewhere(d: Directory, e: Directory, user: Id) {
    forall id :: id != user ==>
      && (id in d.users <==> id in e.users) && (id in d.users ==> d.users[id] == e.users[id])
      && (id in d.couriers <==> id in e.couriers) && (id in d.couriers ==> d.couriers[id] == e.couriers[id])
      && (id in d.dispatchers <==> id in e.dispatchers)
      && (id in d.dispatchers ==> d.dispatchers[id] == e.dispatchers[id])
  }

  /**
   Whatever profiles the user had, provided they belong to the company, they fit the role and activity
   afterwards.
   */
  lemma SyncFits(d: Directory, company: Id, user: Id, previousRole: Option<Role>)
    requires user in d.users && d.users[user].company == company
    requires user in d.couriers ==> d.couriers[user].company == company
    requires user in d.dispatchers ==> d.dispatchers[user].company == company
    ensures
      var e := SyncRoleProfiles(d, company, user, d.users[user].role, d.users[user].active, previousRole);
      Fits(e, user) && e.users == d.users
  {
  }

  lemma SyncTouchesOne(d: Directory, company: Id, user: Id, role: Role, isActive: bool, previousRole: Option<Role>)
    ensures SameElsewhere(d, SyncRoleProfiles(d, company, user, role, isActive, previousRole), user)
  {
    hide ResolveCourierStatus;
  }

  lemma OthersFit(d: Directory, e: Directory, user: Id)
    requires (forall id :: Fits(d, id)) && SameElsewhere(d, e, user) && Fits(e, user)
    ensures forall id :: Fits(e, id)
  {
    forall id | id != user
      ensures Fits(e, id)
    {
      assert Fits(d, id);
    }
  }

  lemma EmailsStayUnique(users: map<Id, User>, id: Id, next: User)
    requires EmailsUnique(users) && !EmailUsed(users, next.company, next.email, Some(id))
    ensures EmailsUnique(users[id := next])
  {
  }

  /** One user's row has been written, and the profiles have been brought in line with it. */
  lemma WriteKeepsInv(d: Directory, id: Id, next: User, previousRole: Option<Role>)
    requires Inv(d) && (id in d.users ==> d.users[id].company == next.company)
    requires !EmailUsed(d.users, next.company, next.email, Some(id))
    ensures
      var written := d.(users := d.users[id := next]);
      var e := SyncRoleProfiles(written, next.company, id, next.role, next.active, previousRole);
      Inv(e) && SameElsewhere(d, e, id)
  {
    hide SyncRoleProfiles, Fits, EmailsUnique, EmailUsed;
    var written := d.(users := d.users[id := next]);
    var e := SyncRoleProfiles(written, next.company, id, next.role, next.active, previousRole);
    assert Fits(d, id);
    ProfilesOfUser(d, id);
    SyncFits(written, next.company, id, previousRole);
    SyncTouchesOne(written, next.company, id, next.role, next.active, previousRole);
    EmailsStayUnique(d.users, id, next);
    OthersFit(d, e, id);
  }

  lemma InsertKeepsInv(d: Directory, id: Id, user: User)
    requires Inv(d) && user.role == Admin
    ensures Inv(InsertUser(d, id, user).0) && SameElsewhere(d, InsertUser(d, id, user).0, id)
  {
    hide Fits, EmailsUnique, EmailUsed;
    var e := InsertUser(d, id, user).0;
    assert Fits(d, id);
    if e != d {
      OwnerFits(d, id, e);
      EmailUnusedByAll(d.users, user.company, user.email, id);
      EmailsStayUnique(d.users, id, user);
      OthersFit(d, e, id);
    }
  }

  lemma EmailUnusedByAll(users: map<Id, User>, company: Id, email: string, id: Id)
    requires !EmailUsed(users, company, email, None)
    ensures !EmailUsed(users, company, email, Some(id))
  {
  }

  lemma CreateKeepsInv(d: Directory, company: Id, id: Id, role: Role, email: string)
    requires Inv(d)
    ensures Inv(Create(d, company, id, role, email).0) && SameElsewhere(d, Create(d, company, id, role, email).0, id)
  {
    hide SyncRoleProfiles, Inv, EmailUsed;
    if Create(d, company, id, role, email).1.Done? {
      EmailUnusedByAll(d.users, company, email, id);
      WriteKeepsInv(d, id, User(company, role, email, true), None);
    }
  }

  lemma UpdateKeepsInv(d: Directory, company: Id, id: Id, c: UserChanges)
    requires Inv(d)
    ensures Inv(Update(d, company, id, c).0) && SameElsewhere(d, Update(d, company, id, c).0, id)
  {
    hide SyncRoleProfiles, Inv, EmailUsed;
    if Update(d, company, id, c).1.Done? {
      var current := d.users[id];
      var next := User(company, Or(c.role, current.role), Or(c.email, current.email), Or(c.active, current.active));
      WriteKeepsInv(d, id, next, Some(current.role));
    }
  }

  lemma ToggleKeepsInv(d: Directory, company: Id, id: Id, online: bool)
    requires Inv(d)
    ensures Inv(Toggle(d, company, id, online).0) && SameElsewhere(d, Toggle(d, company, id, online).0, id)
  {
    hide Fits, EmailsUnique;
    assert Fits(d, id);
    ToggleFits(d, company, id, online);
    OthersFit(d, Toggle(d, company, id, online).0, id);
  }

  /** After any call everyone but the user it names is as before, and the invariant holds again. */
  lemma PerformKeepsInv(d: Directory, call: Call)
    requires Inv(d)
    ensures Inv(Perform(d, call).0) && SameElsewhere(d, Perform(d, call).0, call.id)
    ensures Perform(d, call).1.Failed? ==> Perform(d, call).0 == d
  {
    hide SyncRoleProfiles, Inv, SameElsewhere, EmailUsed;
    match call
    case CreateOwner(company, id, email) => InsertKeepsInv(d, id, User(company, Admin, email, true));
    case CreateUser(company, id, role, email) => CreateKeepsInv(d, company, id, role, email);
    case UpdateUser(company, id, changes) => UpdateKeepsInv(d, company, id, changes);
    case UpdateCourierStatus(company, id, online) => ToggleKeepsInv(d, company, id, online);
  }

  lemma OwnerFits(d: Directory, id: Id, e: Directory)
    requires Fits(d, id) && id !in d.users && id in e.users && e.users[id].role == Admin
    requires e.couriers == d.couriers && e.dispatchers == d.dispatchers
    ensures Fits(e, id)
  {
  }

  lemma ProfilesOfUser(d: Directory, id: Id)
    requires Fits(d, id)
    ensures id in d.couriers ==> id in d.users && d.couriers[id].company == d.users[id].company
    ensures id in d.dispatchers ==> id in d.users && d.dispatchers[id].company == d.users[id].company
  {
  }

  lemma ToggleFits(d: Directory, company: Id, id: Id, online: bool)
    requires Fits(d, id)
    ensures Fits(Toggle(d, company, id, online).0, id)
  {
  }

  /**
   Through any mix of user creation, role and activity changes and toggles: a user is an active courier
   exactly if a courier profile other than inactive exists, an active dispatcher exactly if an active
   dispatcher profile exists, profiles belong to the user's company, and emails are unique in a company.
   */
  lemma {:induction false} ProfilesFitTheRoles(d: Directory, calls: seq<Call>)
    requires Inv(d)
    ensures Inv(Run(d, calls))
    decreases |calls|
  {
    hide Perform, Inv;
    if calls != [] {
      PerformKeepsInv(d, calls[0]);
      ProfilesFitTheRoles(Perform(d, calls[0]).0, calls[1..]);
    }
  }

  /** What `ProfilesFitTheRoles` says, from the empty directory on and written out. */
  lemma ProfilesOfAnyRun(calls: seq<Call>, id: Id)
    ensures
      var d := Run(Directory(map[], map[], map[]), calls);
      && (IsActiveCourier(d, id) <==> HasLiveCourier(d, id))
      && (IsActiveDispatcher(d, id) <==> HasLiveDispatcher(d, id))
      && !(HasLiveCourier(d, id) && HasLiveDispatcher(d, id))
      && EmailsUnique(d.users)
  {
    var empty := Directory(map[], map[], map[]);
    ProfilesFitTheRoles(empty, calls);
    assert Fits(Run(empty, calls), id);
  }

  // ---- What the calls write -----------------------------------------------------------------------------------

  /** Some user of the company other than `except` has the email. */
  ghost predicate EmailTakenBy(d: Directory, company: Id, email: string, except: Option<Id>) {
    exists id :: id in d.users && Some(id) != except && d.users[id].company == company && d.users[id].email == email
  }

  /**
   A user is created exactly if id and email are new in the company: active, in the role asked for, and
   with the profile of that role, offline for a courier.
   */
  lemma CreateOutcome(d: Directory, company: Id, id: Id, role: Role, email: string)
    requires Inv(d)
    ensures
      var (e, outcome) := Create(d, company, id, role, email);
      if EmailTakenBy(d, company, email, None) then e == d && outcome == Failed(EmailTaken)
      else if id in d.users then e == d && outcome == Failed(UniqueViolation)
      else
        && outcome == Done && e.users == d.users[id := User(company, role, email, true)]
        && e.couriers == (if role == Courier then d.couriers[id := CourierRow(company, Offline)] else d.couriers)
        && e.dispatchers ==
             (if role == Dispatcher then d.dispatchers[id := DispatcherRow(company, true)] else d.dispatchers)
  {
    assert Fits(d, id);
  }

  lemma SyncKeepsUsers(d: Directory, company: Id, user: Id, role: Role, isActive: bool, previousRole: Option<Role>)
    ensures SyncRoleProfiles(d, company, user, role, isActive, previousRole).users == d.users
  {
    hide ResolveCourierStatus;
  }

  /** The owner of a company is an active user without profiles. */
  lemma OwnerOutcome(d: Directory, company: Id, id: Id, email: string)
    ensures
      var (e, outcome) := Perform(d, CreateOwner(company, id, email));
      if id in d.users || EmailTakenBy(d, company, email, None) then e == d && outcome == Failed(UniqueViolation)
      else outcome == Done && e == d.(users := d.users[id := User(company, Admin, email, true)])
  {
  }

  /**
   An update is refused exactly if the user is not of the company or the email is another user's; else it
   writes the fields that are given and keeps the others.
   */
  lemma UpdateOutcome(d: Directory, company: Id, id: Id, c: UserChanges)
    ensures
      var (e, outcome) := Update(d, company, id, c);
      if id !in d.users || d.users[id].company != company then e == d && outcome == Failed(UserMissing)
      else
        var was := d.users[id];
        var email := if c.email.Some? then c.email.value else was.email;
        if EmailTakenBy(d, company, email, Some(id)) then
          && e == d
          && outcome == Failed(if email != was.email && email != "" then EmailTaken else UniqueViolation)
        else
          && outcome == Done && e.users.Keys == d.users.Keys && e.users == d.users[id := e.users[id]]
          && var now := e.users[id];
          && now.company == was.company && now.email == email
          && now.role == (if c.role.Some? then c.role.value else was.role)
          && now.active == (if c.active.Some? then c.active.value else was.active)
  {
    hide SyncRoleProfiles;
    var was := Or(if id in d.users then Some(d.users[id]) else None, User(company, Admin, "", false));
    var next := User(company, Or(c.role, was.role), Or(c.email, was.email), Or(c.active, was.active));
    SyncKeepsUsers(d.(users := d.users[id := next]), company, id, next.role, next.active, Some(was.role));
  }

  // ---- Courier status -----------------------------------------------------------------------------------------

  /** An active courier keeps the status through an update; anyone else who becomes one starts offline. */
  lemma StatusAfterUpdate(d: Directory, company: Id, id: Id, c: UserChanges)
    requires Inv(d) && Update(d, company, id, c).1.Done? && IsActiveCourier(Update(d, company, id, c).0, id)
    ensures
      var e := Update(d, company, id, c).0;
      && id in e.couriers
      && (if IsActiveCourier(d, id) then id in d.couriers && e.couriers[id] == d.couriers[id]
          else e.couriers[id].status == Offline)
  {
    hide EmailUsed, EmailsUnique;
    assert Fits(d, id);
  }

  /**
   The toggle works for exactly the active couriers of the company who are not suspended; it makes them
   available or offline, as asked, and writes nothing else.
   */
  lemma ToggleIff(d: Directory, company: Id, id: Id, online: bool)
    requires Inv(d)
    ensures
      var (e, outcome) := Toggle(d, company, id, online);
      if && IsActiveCourier(d, id) && d.users[id].company == company
         && !(id in d.couriers && d.couriers[id].status == Suspended)
      then
        && outcome == Done && id in d.couriers
        && e == d.(couriers := d.couriers[id := CourierRow(company, if online then Available else Offline)])
      else e == d && outcome.Failed?
    ensures Toggle(d, company, id, online).1.Done? ==> IsActiveCourier(Toggle(d, company, id, online).0, id)
  {
    assert Fits(d, id);
  }

  /** Why a toggle is refused: the profile or its user is missing or inactive, or it is suspended. */
  lemma ToggleRefusal(d: Directory, company: Id, id: Id, online: bool)
    requires Inv(d)
    ensures
      Toggle(d, company, id, online).1 ==
        if id !in d.couriers || id !in d.users || d.users[id].company != company then Failed(CourierMissing)
        else if !d.users[id].active then Failed(UserInactive)
        else if d.users[id].role != Courier then Failed(ProfileInactive)
        else if d.couriers[id].status == Suspended then Failed(ProfileSuspended)
        else Done
  {
    assert Fits(d, id);
  }

  predicate IsOnline(status: CourierStatus) {
    status == Available || status == Busy
  }

  /** Whoever is shown online is an active courier. */
  lemma OnlineIsActive(d: Directory, calls: seq<Call>, id: Id)
    requires Inv(d)
    ensures
      var e := Run(d, calls);
      id in e.couriers && IsOnline(e.couriers[id].status) ==> IsActiveCourier(e, id)
  {
    ProfilesFitTheRoles(d, calls);
    assert Fits(Run(d, calls), id);
  }

  // ---- The services' form -------------------------------------------------------------------------------------

  class UserDirectory {
    var users: map<Id, User>
    var couriers: map<Id, CourierRow>
    var dispatchers: map<Id, DispatcherRow>

    ghost function State(): Directory
      reads this
    {
      Directory(users, couriers, dispatchers)
    }

    ghost predicate Valid()
      reads this
    {
      Inv(State())
    }

    constructor ()
      ensures Valid() && State() == Directory(map[], map[], map[])
    {
      users, couriers, dispatchers := map[], map[], map[];
    }

    method NewUser(company: Id, id: Id, role: Role, email: string) returns (outcome: Outcome)
      requires Valid()
      modifies this
      ensures Valid() && (State(), outcome) == Create(old(State()), company, id, role, email)
    {
      PerformKeepsInv(State(), CreateUser(company, id, role, email));
      hide Inv, EmailUsed;
      if EmailUsed(users, company, email, None) {
        return Failed(EmailTaken);
      }
      if id in users {
        return Failed(UniqueViolation);
      }
      users := users[id := User(company, role, email, true)];
      Sync(company, id, role, true, None);
      outcome := Done;
    }

    method ChangeUser(company: Id, id: Id, c: UserChanges) returns (outcome: Outcome)
      requires Valid()
      modifies this
      ensures Valid() && (State(), outcome) == Update(old(State()), company, id, c)
    {
      PerformKeepsInv(State(), UpdateUser(company, id, c));
      hide Inv, EmailUsed;
      if id !in users || users[id].company != company {
        return Failed(UserMissing);
      }
      var current := users[id];
      if c.email.Some? && c.email.value != "" && c.email.value != current.email {
        if EmailUsed(users, company, c.email.value, Some(id)) {
          return Failed(EmailTaken);
        }
      }
      var next := current;
      if c.role.Some? {
        next := next.(role := c.role.value);
      }
      if c.email.Some? {
        next := next.(email := c.email.value);
      }
      if c.active.Some? {
        next := next.(active := c.active.value);
      }
      if EmailUsed(users, company, next.email, Some(id)) {
        return Failed(UniqueViolation);
      }
      users := users[id := next];
      Sync(company, id, next.role, next.active, Some(current.role));
      outcome := Done;
    }

    method Sync(company: Id, user: Id, nextRole: Role, isActive: bool, previousRole: Option<Role>)
      modifies this
      ensures State() == SyncRoleProfiles(old(State()), company, user, nextRole, isActive, previousRole)
    {
      var hasCourier, hasDispatcher := user in couriers, user in dispatchers;
      if nextRole == Courier {
        if hasCourier {
          var status := ResolveCourierStatus(isActive, previousRole, Some(couriers[user].status));
          couriers := couriers[user := CourierRow(company, status)];
        } else {
          couriers := couriers[user := CourierRow(company, if isActive then Offline else Inactive)];
        }
        if hasDispatcher {
          dispatchers := dispatchers[user := dispatchers[user].(active := false)];
        }
        return;
      }
      if nextRole == Dispatcher {
        dispatchers := dispatchers[user := DispatcherRow(company, isActive)];
        if hasCourier {
          couriers := couriers[user := couriers[user].(status := Inactive)];
        }
        return;
      }
      if hasCourier {
        couriers := couriers[user := couriers[user].(status := Inactive)];
      }
      if hasDispatcher {
        dispatchers := dispatchers[user := dispatchers[user].(active := false)];
      }
    }

    method ToggleCourier(company: Id, id: Id, online: bool) returns (outcome: Outcome)
      requires Valid()
      modifies this
      ensures Valid() && (State(), outcome) == Toggle(old(State()), company, id, online)
    {
      PerformKeepsInv(State(), UpdateCourierStatus(company, id, online));
      hide Inv;
      if id !in couriers || couriers[id].company != company || id !in users {
        return Failed(CourierMissing);
      }
      if !users[id].active {
        return Failed(UserInactive);
      }
      if couriers[id].status == Inactive {
        return Failed(ProfileInactive);
      }
      if couriers[id].status == Suspended {
        return Failed(ProfileSuspended);
      }
      couriers := couriers[id := couriers[id].(status := if online then Available else Offline)];
      outcome := Done;
    }
  }
}
