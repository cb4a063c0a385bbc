/** src/users: creation, update and removal of drivers and employees by an admin. */
module Users {
  import opened Common
  import opened Schema
  import opened Validator
  import opened BranchLists

  datatype CreateUser = CreateUser(email: string, role: Patch<Role>, branchId: Patch<Id>, branchIds: Option<seq<Id>>)

  /** `others` says whether a name or a password is sent. */
  datatype UpdateUser = UpdateUser(
    role: Patch<Role>,
    isActive: Patch<bool>,
    branchId: Patch<Id>,
    branchIds: Option<seq<Id>>,
    others: bool)

  predicate Manageable(role: Role) {
    role == DRIVER || role == EMPLOYEE
  }

  /** The unique index on the email, which also counts soft-deleted users. */
  predicate EmailIndexed(users: map<Id, User>, email: string) {
    exists i :: i in users && users[i].email == email
  }

  function Rows(tenantId: Id, userId: Id, ids: seq<Id>): set<UserBranch> {
    set b | b in ids :: UserBranch(tenantId, userId, b)
  }

  /** The branch list of a request, with the primary branch appended when one is named. */
  function Listed(ids: seq<Id>, branchId: Patch<Id>): seq<Id> {
    NormalizeBranchIds(ids + (if Truthy(branchId) then [branchId.value] else []))
  }

  function FirstOf(ids: seq<Id>): Option<Id> {
    if |ids| == 0 then None else Some(ids[0])
  }

  /** The unique index on (user, branch). */
  predicate RowsClash(rows: set<UserBranch>, userId: Id, ids: seq<Id>) {
    exists ub :: ub in rows && ub.userId == userId && ub.branchId in ids
  }

  function AfterCreateUser(db: Db, tenantId: Id, dto: CreateUser, newId: Id): Result<Db> {
    if dto.role.Set? && !Manageable(dto.role.value) then Err(BadRequest)
    else if EmailInUse(db.users, dto.email) then Err(Conflict)
    else if BranchRefused(db.branches, tenantId, dto.branchId) then Err(NotFound)
    else
      var ids := Listed(if dto.branchIds.Some? then dto.branchIds.value else [], dto.branchId);
      if !BranchesExist(db.branches, tenantId, ids) then Err(BadRequest)
      else
        var primary := if dto.branchId.Set? then Some(dto.branchId.value) else FirstOf(ids);
        var role := if dto.role.Set? then dto.role.value else EMPLOYEE;
        if newId in db.users || EmailIndexed(db.users, dto.email) then Err(UniqueIndex)
        else if tenantId !in db.tenants || !BranchKeyHolds(db.branches, primary) then Err(ForeignKey)
        else if RowsClash(db.userBranches, newId, ids) then Err(UniqueIndex)
        else Ok(db.(
          users := db.users[newId := User(tenantId, primary, dto.email, role, APPROVED, true, None)],
          userBranches := db.userBranches + Rows(tenantId, newId, ids)))
  }

  /** The user row after an update; `ids` is the normalised list, if one was sent. */
  function PatchedUser(u: User, dto: UpdateUser, ids: Option<seq<Id>>): User {
    u.(role := if dto.role.Set? then dto.role.value else u.role,
       isActive := if dto.isActive.Set? then dto.isActive.value else u.isActive,
       branchId :=
         if !dto.branchId.Absent? then PatchedBranch(u.branchId, dto.branchId)
         else if ids.Some? then FirstOf(ids.value)
         else u.branchId)
  }

  function KeptRows(rows: set<UserBranch>, tenantId: Id, userId: Id): set<UserBranch> {
    set ub | ub in rows && !(ub.tenantId == tenantId && ub.userId == userId)
  }

  function IncomingIds(dto: UpdateUser): Option<seq<Id>> {
    if dto.branchIds.Some? then Some(Listed(dto.branchIds.value, dto.branchId)) else None
  }

  predicate NothingSent(dto: UpdateUser) {
    dto.role.Absent? && dto.isActive.Absent? && dto.branchId.Absent? && dto.branchIds.None? && !dto.others
  }

  function AfterUpdateUser(db: Db, tenantId: Id, id: Id, dto: UpdateUser, currentUserId: Id): Result<Db> {
    if !LiveUser(db.users, tenantId, id) then Err(NotFound)
    else if !Manageable(db.users[id].role) then Err(Forbidden)
    else if dto.role.Set? && !Manageable(dto.role.value) then Err(BadRequest)
    else if !dto.role.Absent? && currentUserId == id then Err(Forbidden)
    else if currentUserId == id && dto.isActive == Set(false) then Err(Forbidden)
    else if BranchRefused(db.branches, tenantId, dto.branchId) then Err(NotFound)
    else
      var ids := IncomingIds(dto);
      if ids.Some? && !BranchesExist(db.branches, tenantId, ids.value) then Err(BadRequest)
      else if NothingSent(dto) then Err(BadRequest)
      else if dto.role.Null? || dto.isActive.Null? then Err(NotNull)
      else if ids.Some? && RowsClash(KeptRows(db.userBranches, tenantId, id), id, ids.value) then Err(UniqueIndex)
      else Ok(db.(
        users := db.users[id := PatchedUser(db.users[id], dto, ids)],
        userBranches :=
          if ids.Some? then KeptRows(db.userBranches, tenantId, id) + Rows(tenantId, id, ids.value)
            else db.userBranches))
  }

  function AfterRemoveUser(db: Db, tenantId: Id, id: Id, currentUserId: Id, now: Time): Result<Db> {
    if !LiveUser(db.users, tenantId, id) then Err(NotFound)
    else if currentUserId == id then Err(Forbidden)
    else if !Manageable(db.users[id].role) then Err(Forbidden)
    else Ok(db.(users := db.users[id := db.users[id].(deletedAt := Some(now))]))
  }

  // ── Calls that write users ─────────────────────────────────────────────────

  datatype Call =
    | Create(tenantId: Id, user: CreateUser, newId: Id)
    | Update(tenantId: Id, id: Id, change: UpdateUser, currentUserId: Id)
    | Remove(tenantId: Id, id: Id, currentUserId: Id)

  function Outcome(db: Db, c: Call, now: Time): Result<Db> {
    match c
    case Create(tenantId, user, newId) => AfterCreateUser(db, tenantId, user, newId)
    case Update(tenantId, id, change, currentUserId) => AfterUpdateUser(db, tenantId, id, change, currentUserId)
    case Remove(tenantId, id, currentUserId) => AfterRemoveUser(db, tenantId, id, currentUserId, now)
  }

  lemma CallWrites(db: Db, c: Call, now: Time, after: Db)
    requires Outcome(db, c, now) == Ok(after)
    ensures after == db.(users := after.users, userBranches := after.userBranches)
  {
    match c
    case Create(_, _, _) =>
    case Update(_, _, _, _) =>
    case Remove(_, _, _) =>
  }

  lemma SameEmailKeepsIndex(users: map<Id, User>, id: Id, u: User)
    requires EmailsUnique(users) && id in users && u.email == users[id].email
    ensures EmailsUnique(users[id := u])
  {
    forall i, j | i in users && j in users && users[id := u][i].email == users[id := u][j].email
      ensures i == j
    {
      assert users[id := u][i].email == users[i].email && users[id := u][j].email == users[j].email;
    }
  }

  class UsersService {
    const prisma: Database

    constructor (prisma: Database)
      ensures this.prisma == prisma
    {
      this.prisma := prisma;
    }

    method Create(tenantId: Id, dto: CreateUser, newId: Id) returns (r: Result<()>)
      requires prisma.Valid()
      modifies prisma`users, prisma`userBranches
      ensures prisma.Valid()
      ensures Realises(
        AfterCreateUser(old(prisma.Snapshot()), tenantId, dto, newId),
        old(prisma.Snapshot()), prisma.Snapshot(), r)
    {
      if dto.role.Set? && !Manageable(dto.role.value) {
        return Err(BadRequest);
      }
      if EmailInUse(prisma.users, dto.email) {
        return Err(Conflict);
      }
      if BranchRefused(prisma.branches, tenantId, dto.branchId) {
        return Err(NotFound);
      }
      var sent := if dto.branchIds.Some? then dto.branchIds.value else [];
      if Truthy(dto.branchId) {
        sent := sent + [dto.branchId.value];
      } else {
        assert sent + [] == sent;
      }
      var branchIds := NormalizeBranchIds(sent);
      if !BranchesExist(prisma.branches, tenantId, branchIds) {
        return Err(BadRequest);
      }
      var primaryBranchId := if dto.branchId.Set? then Some(dto.branchId.value) else if |branchIds| > 0 then
        Some(branchIds[0]) else None;
      if newId in prisma.users || EmailIndexed(prisma.users, dto.email) {
        return Err(UniqueIndex);
      }
      if tenantId !in prisma.tenants || (primaryBranchId.Some? && primaryBranchId.value !in prisma.branches) {
        return Err(ForeignKey);
      }
      if RowsClash(prisma.userBranches, newId, branchIds) {
        return Err(UniqueIndex);
      }
      var role := if dto.role.Set? then dto.role.value else EMPLOYEE;
      prisma.users := prisma.users[newId := User(tenantId, primaryBranchId, dto.email, role, APPROVED, true, None)];
      prisma.userBranches := prisma.userBranches + Rows(tenantId, newId, branchIds);
      return Ok(());
    }

    method Update(tenantId: Id, id: Id, dto: UpdateUser, currentUserId: Id) returns (r: Result<()>)
      requires prisma.Valid()
      modifies prisma`users, prisma`userBranches
      ensures prisma.Valid()
      ensures Realises(
        AfterUpdateUser(old(prisma.Snapshot()), tenantId, id, dto, currentUserId),
        old(prisma.Snapshot()), prisma.Snapshot(), r)
    {
      if !LiveUser(prisma.users, tenantId, id) {
        return Err(NotFound);
      }
      var data := prisma.users[id];
      if !Manageable(data.role) {
        return Err(Forbidden);
      }
      if !dto.role.Absent? {
        if dto.role.Set? && !Manageable(dto.role.value) {
          return Err(BadRequest);
        }
        if currentUserId == id {
          return Err(Forbidden);
        }
      }
      if currentUserId == id && dto.isActive == Set(false) {
        return Err(Forbidden);
      }
      if BranchRefused(prisma.branches, tenantId, dto.branchId) {
        return Err(NotFound);
      }
      var incoming := IncomingIds(dto);
      if incoming.Some? && !BranchesExist(prisma.branches, tenantId, incoming.value) {
        return Err(BadRequest);
      }
      if NothingSent(dto) {
        return Err(BadRequest);
      }
      if dto.role.Null? || dto.isActive.Null? {
        return Err(NotNull);
      }
      if incoming.Some? && RowsClash(KeptRows(prisma.userBranches, tenantId, id), id, incoming.value) {
        return Err(UniqueIndex);
      }
      if dto.role.Set? {
        data := data.(role := dto.role.value);
      }
      if dto.isActive.Set? {
        data := data.(isActive := dto.isActive.value);
      }
      if !dto.branchId.Absent? {
        data := data.(branchId := if Truthy(dto.branchId) then Some(dto.branchId.value) else None);
      } else if incoming.Some? {
        data := data.(branchId := if |incoming.value| > 0 then Some(incoming.value[0]) else None);
      }
      assert data == PatchedUser(prisma.users[id], dto, incoming);
      SameEmailKeepsIndex(prisma.users, id, data);
      prisma.users := prisma.users[id := data];
      if incoming.Some? {
        prisma.userBranches := KeptRows(prisma.userBranches, tenantId, id) + Rows(tenantId, id, incoming.value);
      }
      return Ok(());
    }

    method Remove(tenantId: Id, id: Id, currentUserId: Id, now: Time) returns (r: Result<()>)
      requires prisma.Valid()
      modifies prisma`users
      ensures prisma.Valid()
      ensures Realises(
        AfterRemoveUser(old(prisma.Snapshot()), tenantId, id, currentUserId, now),
        old(prisma.Snapshot()), prisma.Snapshot(), r)
    {
      if !LiveUser(prisma.users, tenantId, id) {
        return Err(NotFound);
      }
      if currentUserId == id || !Manageable(prisma.users[id].role) {
        return Err(Forbidden);
      }
      SameEmailKeepsIndex(prisma.users, id, prisma.users[id].(deletedAt := Some(now)));
      prisma.users := prisma.users[id := prisma.users[id].(deletedAt := Some(now))];
      return Ok(());
    }
  }
}
