/** Branch references in every run of the system: they stay live, and a primary branch stays listed. */
module LinkRuns {
  import opened Common
  import opened Schema
  import opened System
  import opened Validator
  import opened BranchLists
  import Accounts
  import Users
  import Branches
  import Vehicles
  import Drivers
  import Trips

  /** A branch reference is null or names a live branch of the tenant. */
  predicate LinkLive(branches: map<Id, Branch>, tenantId: Id, branchId: Option<Id>) {
    branchId.Some? ==> LiveBranch(branches, tenantId, branchId.value)
  }

  ghost predicate UsersLinked(branches: map<Id, Branch>, users: map<Id, User>) {
    forall i :: i in users ==> LinkLive(branches, users[i].tenantId, users[i].branchId)
  }

  ghost predicate VehiclesLinked(branches: map<Id, Branch>, vehicles: map<Id, Vehicle>) {
    forall i :: i in vehicles ==> LinkLive(branches, vehicles[i].tenantId, vehicles[i].branchId)
  }

  ghost predicate DriversLinked(branches: map<Id, Branch>, drivers: map<Id, Driver>) {
    forall i :: i in drivers ==> LinkLive(branches, drivers[i].tenantId, drivers[i].branchId)
  }

  /** A user-branch row joins a user and a live branch of one tenant. */
  ghost predicate RowsLinked(branches: map<Id, Branch>, users: map<Id, User>, rows: set<UserBranch>) {
    forall ub :: ub in rows ==>
      ub.userId in users && users[ub.userId].tenantId == ub.tenantId && LiveBranch(branches, ub.tenantId, ub.branchId)
  }

  /** Generated branch ids are never blank. */
  ghost predicate BranchIdsReal(branches: map<Id, Branch>) {
    forall b :: b in branches ==> !Blank(b)
  }

  ghost predicate LinksLive(db: Db) {
    && UsersLinked(db.branches, db.users)
    && VehiclesLinked(db.branches, db.vehicles)
    && DriversLinked(db.branches, db.drivers)
    && RowsLinked(db.branches, db.users, db.userBranches)
    && BranchIdsReal(db.branches)
  }

  predicate RealId(op: Op) {
    op.OnBranches? && op.branch.Create? ==> !Blank(op.branch.newId)
  }

  /** What the validator and the foreign key together let through. */
  lemma AcceptedLinkIsLive(branches: map<Id, Branch>, tenantId: Id, patch: Patch<Id>)
    requires BranchIdsReal(branches) && !BranchRefused(branches, tenantId, patch)
      && BranchKeyHolds(branches, patch.OrNull())
    ensures LinkLive(branches, tenantId, patch.OrNull())
  {
    assert patch == Set("") ==> Blank(patch.value);
  }

  lemma ListedAreLive(branches: map<Id, Branch>, tenantId: Id, ids: seq<Id>, branchId: Patch<Id>)
    requires BranchesExist(branches, tenantId, Users.Listed(ids, branchId))
    ensures forall i :: i in Users.Listed(ids, branchId) ==> LiveBranch(branches, tenantId, i)
  {
    CountIsExact(branches, tenantId, Users.Listed(ids, branchId));
  }

  // ── One call ───────────────────────────────────────────────────────────────

  lemma StoredUserLinked(branches: map<Id, Branch>, users: map<Id, User>, rows: set<UserBranch>, id: Id, u: User)
    requires UsersLinked(branches, users) && RowsLinked(branches, users, rows)
      && LinkLive(branches, u.tenantId, u.branchId)
    requires id in users ==> users[id].tenantId == u.tenantId
    ensures UsersLinked(branches, users[id := u]) && RowsLinked(branches, users[id := u], rows)
  {
  }

  lemma AddedRowsLinked(branches: map<Id, Branch>, users: map<Id, User>, rows: set<UserBranch>, tenantId: Id, id: Id,
    ids: seq<Id>)
    requires RowsLinked(branches, users, rows) && id in users && users[id].tenantId == tenantId
    requires forall b :: b in ids ==> LiveBranch(branches, tenantId, b)
    ensures RowsLinked(branches, users, rows + Users.Rows(tenantId, id, ids))
  {
  }

  /** The primary branch of a new user is null or live. */
  lemma PrimaryIsLive(branches: map<Id, Branch>, tenantId: Id, dto: Users.CreateUser, ids: seq<Id>, primary: Option<Id>)
    requires BranchIdsReal(branches) && !BranchRefused(branches, tenantId, dto.branchId)
      && BranchKeyHolds(branches, primary)
    requires forall b :: b in ids ==> LiveBranch(branches, tenantId, b)
    requires primary == if dto.branchId.Set? then Some(dto.branchId.value) else Users.FirstOf(ids)
    ensures LinkLive(branches, tenantId, primary)
  {
    if dto.branchId.Set? {
      AcceptedLinkIsLive(branches, tenantId, dto.branchId);
    }
  }

  /** What a creation that goes through has passed and what it writes. */
  lemma CreateUserWrites(db: Db, tenantId: Id, dto: Users.CreateUser, newId: Id, after: Db)
    returns (ids: seq<Id>, u: User)
    requires Users.AfterCreateUser(db, tenantId, dto, newId) == Ok(after)
    ensures ids == Users.Listed(if dto.branchIds.Some? then dto.branchIds.value else [], dto.branchId)
    ensures BranchesExist(db.branches, tenantId, ids)
    ensures !BranchRefused(db.branches, tenantId, dto.branchId) && BranchKeyHolds(db.branches, u.branchId)
    ensures u.tenantId == tenantId && u.branchId == if dto.branchId.Set? then Some(dto.branchId.value)
      else Users.FirstOf(ids)
    ensures newId !in db.users
    ensures after
      == db.(users := db.users[newId := u], userBranches := db.userBranches + Users.Rows(tenantId, newId, ids))
  {
    ids := Users.Listed(if dto.branchIds.Some? then dto.branchIds.value else [], dto.branchId);
    u := after.users[newId];
  }

  lemma CreateUserKeepsLinks(db: Db, tenantId: Id, dto: Users.CreateUser, newId: Id, after: Db)
    requires LinksLive(db) && Users.AfterCreateUser(db, tenantId, dto, newId) == Ok(after)
    ensures LinksLive(after)
  {
    var ids, u := CreateUserWrites(db, tenantId, dto, newId, after);
    ListedAreLive(db.branches, tenantId, if dto.branchIds.Some? then dto.branchIds.value else [], dto.branchId);
    PrimaryIsLive(db.branches, tenantId, dto, ids, u.branchId);
    StoredUserLinked(db.branches, db.users, db.userBranches, newId, u);
    AddedRowsLinked(db.branches, db.users[newId := u], db.userBranches, tenantId, newId, ids);
  }

  lemma UpdateUserKeepsLinks(db: Db, tenantId: Id, id: Id, dto: Users.UpdateUser, currentUserId: Id, after: Db)
    requires LinksLive(db) && Users.AfterUpdateUser(db, tenantId, id, dto, currentUserId) == Ok(after)
    ensures LinksLive(after)
  {
    var kept := Users.KeptRows(db.userBranches, tenantId, id);
    if dto.branchIds.Some? {
      ListedAreLive(db.branches, tenantId, dto.branchIds.value, dto.branchId);
    }
    StoredUserLinked(db.branches, db.users, db.userBranches, id, after.users[id]);
    if dto.branchIds.Some? {
      AddedRowsLinked(db.branches, after.users, kept, tenantId, id, Users.Listed(dto.branchIds.value, dto.branchId));
    }
  }

  lemma UserCallKeepsLinks(db: Db, c: Users.Call, now: Time, after: Db)
    requires LinksLive(db) && Users.Outcome(db, c, now) == Ok(after)
    ensures LinksLive(after)
  {
    match c
    case Create(tenantId, dto, newId) => CreateUserKeepsLinks(db, tenantId, dto, newId, after);
    case Update(tenantId, id, dto, currentUserId) => UpdateUserKeepsLinks(db, tenantId, id, dto, currentUserId, after);
    case Remove(_, _, _) =>
  }

  lemma AccountCallKeepsLinks(db: Db, c: Accounts.Call, now: Time, after: Db)
    requires LinksLive(db) && Accounts.Outcome(db, c, now) == Ok(after)
    ensures LinksLive(after)
  {
    Accounts.CallWrites(db, c, now, after);
  }

  lemma RemoveBranchKeepsLinks(db: Db, tenantId: Id, id: Id, now: Time, after: Db)
    requires LinksLive(db) && Branches.AfterRemoveBranch(db, tenantId, id, now) == Ok(after)
    ensures LinksLive(after)
  {
  }

  lemma BranchCallKeepsLinks(db: Db, c: Branches.Call, now: Time, after: Db)
    requires LinksLive(db) && RealId(OnBranches(c)) && Branches.Outcome(db, c, now) == Ok(after)
    ensures LinksLive(after)
  {
    match c
    case Create(_, _, _) =>
    case Update(_, _, _) =>
    case Remove(tenantId, id) => RemoveBranchKeepsLinks(db, tenantId, id, now, after);
  }

  lemma VehicleCallKeepsLinks(db: Db, c: Vehicles.Call, now: Time, after: Db)
    requires LinksLive(db) && Vehicles.Outcome(db, c, now) == Ok(after)
    ensures LinksLive(after)
  {
    Vehicles.CallKeepsRows(db, c, now, after);
    match c
    case Create(tenantId, dto, newId) => AcceptedLinkIsLive(db.branches, tenantId, dto.branchId);
    case CreateByContract(tenantId, _, _, _, branchId, newId) => AcceptedLinkIsLive(db.branches, tenantId, branchId);
    case Update(_, _, _) =>
    case Remove(_, _) =>
  }

  lemma DriverCallKeepsLinks(db: Db, c: Drivers.Call, now: Time, after: Db)
    requires LinksLive(db) && Drivers.Outcome(db, c, now) == Ok(after)
    ensures LinksLive(after)
  {
    Drivers.CallKeepsRows(db, c, now, after);
    match c
    case Create(tenantId, dto, newId) => AcceptedLinkIsLive(db.branches, tenantId, dto.branchId);
    case Update(_, _, _) =>
    case Remove(_, _) =>
  }

  lemma TripCallKeepsLinks(db: Db, c: Trips.Call, now: Time, after: Db)
    requires LinksLive(db) && Trips.Outcome(db, c, now) == Ok(after)
    ensures LinksLive(after)
  {
    Trips.CallWrites(db, c, now, after);
    match c
    case Start(_, _, _, _) =>
    case End(_, _, _, _, _) =>
    case Update(_, _, _) =>
  }

  lemma StepKeepsLinks(db: Db, e: Event)
    requires LinksLive(db) && RealId(e.op)
    ensures LinksLive(Step(db, e))
  {
    if Outcome(db, e).Ok? {
      var after := Step(db, e);
      match e.op
      case OnAccounts(c) => AccountCallKeepsLinks(db, c, e.now, after);
      case OnUsers(c) => UserCallKeepsLinks(db, c, e.now, after);
      case OnBranches(c) => BranchCallKeepsLinks(db, c, e.now, after);
      case OnVehicles(c) => VehicleCallKeepsLinks(db, c, e.now, after);
      case OnDrivers(c) => DriverCallKeepsLinks(db, c, e.now, after);
      case OnTrips(c) => TripCallKeepsLinks(db, c, e.now, after);
      case OnAssignments(_) => CallWrites(db, e, after);
      case OnBookings(_, _) => CallWrites(db, e, after);
    }
  }

  /** In every run from a state with live links, such as the empty one, no branch reference ever dangles. */
  lemma {:induction false} BranchLinksStayLive(db: Db, events: seq<Event>)
    requires LinksLive(db)
    requires forall k :: 0 <= k < |events| ==> RealId(events[k].op)
    ensures LinksLive(Run(db, events))
    decreases |events|
  {
    if events != [] {
      StepKeepsLinks(db, events[0]);
      BranchLinksStayLive(Step(db, events[0]), events[1..]);
    }
  }

  // ── The primary branch is one of the listed ones ───────────────────────────

  ghost predicate PrimaryListed(users: map<Id, User>, rows: set<UserBranch>) {
    forall u :: u in users && users[u].branchId.Some? ==>
      UserBranch(users[u].tenantId, u, users[u].branchId.value) in rows
  }

  /** A user update that names a primary branch without a list, and one the user is not listed for. */
  predicate StrayPrimary(db: Db, op: Op) {
    && op.OnUsers? && op.user.Update?
    && Truthy(op.user.change.branchId) && op.user.change.branchIds.None?
    && UserBranch(op.user.tenantId, op.user.id, op.user.change.branchId.value) !in db.userBranches
  }

  lemma CreateUserKeepsPrimary(db: Db, tenantId: Id, dto: Users.CreateUser, newId: Id, after: Db)
    requires LinksLive(db) && PrimaryListed(db.users, db.userBranches)
    requires Users.AfterCreateUser(db, tenantId, dto, newId) == Ok(after)
    ensures PrimaryListed(after.users, after.userBranches)
  {
    if dto.branchId.Set? {
      AcceptedLinkIsLive(db.branches, tenantId, dto.branchId);
      assert !Blank(dto.branchId.value);
    }
  }

  lemma UpdateUserListsPrimaryIff(db: Db, tenantId: Id, id: Id, dto: Users.UpdateUser, currentUserId: Id, after: Db)
    requires LinksLive(db) && PrimaryListed(db.users, db.userBranches)
    requires Users.AfterUpdateUser(db, tenantId, id, dto, currentUserId) == Ok(after)
    ensures PrimaryListed(after.users, after.userBranches) <==>
      !StrayPrimary(db, OnUsers(Users.Update(tenantId, id, dto, currentUserId)))
  {
    var u := after.users[id];
    assert u.tenantId == tenantId;
    if dto.branchIds.Some? && Truthy(dto.branchId) {
      assert LiveBranch(db.branches, tenantId, dto.branchId.value) && !Blank(dto.branchId.value);
      assert dto.branchId.value in Users.Listed(dto.branchIds.value, dto.branchId);
    }
  }

  /** A user call keeps every primary branch listed if and only if it is not such an update. */
  lemma UserCallListsPrimaryIff(db: Db, c: Users.Call, now: Time, after: Db)
    requires LinksLive(db) && PrimaryListed(db.users, db.userBranches) && Users.Outcome(db, c, now) == Ok(after)
    ensures PrimaryListed(after.users, after.userBranches) <==> !StrayPrimary(db, OnUsers(c))
  {
    match c
    case Create(tenantId, dto, newId) => CreateUserKeepsPrimary(db, tenantId, dto, newId, after);
    case Update(tenantId, id, dto, currentUserId) =>
      UpdateUserListsPrimaryIff(db, tenantId, id, dto, currentUserId, after);
    case Remove(_, _, _) =>
  }

  lemma AccountCallKeepsPrimary(db: Db, c: Accounts.Call, now: Time, after: Db)
    requires PrimaryListed(db.users, db.userBranches) && Accounts.Outcome(db, c, now) == Ok(after)
    ensures PrimaryListed(after.users, after.userBranches)
  {
    Accounts.CallWrites(db, c, now, after);
  }

  lemma BranchCallKeepsPrimary(db: Db, c: Branches.Call, now: Time, after: Db)
    requires PrimaryListed(db.users, db.userBranches) && Branches.Outcome(db, c, now) == Ok(after)
    ensures PrimaryListed(after.users, after.userBranches)
  {
    match c
    case Create(_, _, _) =>
    case Update(_, _, _) =>
    case Remove(_, _) =>
  }

  ghost predicate PrimariesListed(db: Db) {
    PrimaryListed(db.users, db.userBranches)
  }

  /** Exactly which successful calls of any service keep every primary branch listed. */
  lemma CallListsPrimaryIff(db: Db, e: Event, after: Db)
    requires LinksLive(db) && PrimariesListed(db) && Outcome(db, e) == Ok(after)
    ensures PrimariesListed(after) <==> !StrayPrimary(db, e.op)
  {
    CallWrites(db, e, after);
    if e.op.OnUsers? {
      UserCallListsPrimaryIff(db, e.op.user, e.now, after);
    } else if e.op.OnAccounts? {
      AccountCallKeepsPrimary(db, e.op.account, e.now, after);
    } else if e.op.OnBranches? {
      BranchCallKeepsPrimary(db, e.op.branch, e.now, after);
    }
  }

  /**
   * In any run of all services every user's primary branch is null or one of the user's rows, in
   * every state, if and only if no accepted update names an unlisted one without a list.
   */
  lemma {:induction false} PrimaryBranchStaysListed(db: Db, events: seq<Event>)
    requires LinksLive(db) && PrimariesListed(db)
    requires forall k :: 0 <= k < |events| ==> RealId(events[k].op)
    ensures Always(db, events, PrimariesListed) <==> Avoids(db, events, StrayPrimary)
    decreases |events|
  {
    if events != [] {
      var next := Step(db, events[0]);
      if Outcome(db, events[0]).Ok? {
        CallListsPrimaryIff(db, events[0], next);
      }
      StepKeepsLinks(db, events[0]);
      if PrimariesListed(next) {
        PrimaryBranchStaysListed(next, events[1..]);
      }
    }
  }
}
