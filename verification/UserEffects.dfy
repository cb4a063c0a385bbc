/** Which user calls are accepted and what they store in the two tables, column by column. */
module UserEffects {
  import opened Common
  import opened Schema
  import opened Users
  import opened BranchLists
  import opened FleetEffects

  predicate Subordinate(role: Role) {
    role == DRIVER || role == EMPLOYEE
  }

  /** The branch ids a list and a primary branch ask for: the non-blank ones of both. */
  predicate Asked(list: seq<Id>, branchId: Patch<Id>, b: Id) {
    !Blank(b) && (b in list || branchId == Set(b))
  }

  lemma ListedAreAsked(list: seq<Id>, branchId: Patch<Id>, b: Id)
    ensures b in Listed(list, branchId) <==> Asked(list, branchId, b)
  {
    assert branchId == Set("") ==> Blank("");
  }

  /** All branches asked for are own ones. */
  ghost predicate AskedAreOwn(db: Db, tenantId: Id, list: seq<Id>, branchId: Patch<Id>) {
    forall b :: Asked(list, branchId, b) ==> OwnBranch(db, tenantId, b)
  }

  lemma ListCheckMeans(db: Db, tenantId: Id, list: seq<Id>, branchId: Patch<Id>)
    ensures BranchesExist(db.branches, tenantId, Listed(list, branchId)) <==> AskedAreOwn(db, tenantId, list, branchId)
  {
    CountIsExact(db.branches, tenantId, Listed(list, branchId));
    forall b
      ensures b in Listed(list, branchId) <==> Asked(list, branchId, b)
    {
      ListedAreAsked(list, branchId, b);
    }
  }

  function ListOf(branchIds: Option<seq<Id>>): seq<Id> {
    match branchIds
    case Some(ids) => ids
    case None => []
  }

  // ── Creation ───────────────────────────────────────────────────────────────

  /** An email in use is a conflict for anyone who may be created at all. */
  lemma EmailInUseConflicts(db: Db, tenantId: Id, dto: CreateUser, newId: Id, u: Id)
    requires u in db.users && db.users[u].email == dto.email && db.users[u].deletedAt == None
    requires dto.role.Set? ==> Subordinate(dto.role.value)
    ensures AfterCreateUser(db, tenantId, dto, newId) == Err(Conflict)
  {
  }

  /** Whoever is created is a DRIVER or EMPLOYEE, under an email of nobody else, with own branches only. */
  lemma CreationAccepts(db: Db, tenantId: Id, dto: CreateUser, newId: Id, after: Db)
    requires AfterCreateUser(db, tenantId, dto, newId) == Ok(after)
    ensures newId !in db.users && tenantId in db.tenants
    ensures forall u :: u in db.users ==> db.users[u].email != dto.email
    ensures forall r :: dto.role == Set(r) ==> Subordinate(r)
    ensures AskedAreOwn(db, tenantId, ListOf(dto.branchIds), dto.branchId)
  {
    ListCheckMeans(db, tenantId, ListOf(dto.branchIds), dto.branchId);
  }

  /**
   * It stores an approved active user and exactly one row for each branch asked for; the primary
   * branch is the named one, else the first.
   */
  lemma CreationStores(db: Db, tenantId: Id, dto: CreateUser, newId: Id, after: Db)
    requires AfterCreateUser(db, tenantId, dto, newId) == Ok(after)
    ensures after == db.(users := after.users, userBranches := after.userBranches)
    ensures newId in after.users && after.users == db.users[newId := after.users[newId]]
    ensures var u := after.users[newId];
      && u.tenantId == tenantId && u.email == dto.email && u.approvalStatus == APPROVED && u.isActive
        && u.deletedAt == None
      && (forall r :: dto.role == Set(r) ==> u.role == r) && (!dto.role.Set? ==> u.role == EMPLOYEE)
      && (forall b :: dto.branchId == Set(b) ==> u.branchId == Some(b))
      && (!dto.branchId.Set? ==> u.branchId == FirstOf(NormalizeBranchIds(ListOf(dto.branchIds))))
    ensures forall ub :: ub in after.userBranches <==>
      || ub in db.userBranches
      || (ub.tenantId == tenantId && ub.userId == newId && Asked(ListOf(dto.branchIds), dto.branchId, ub.branchId))
  {
    forall b
      ensures b in Listed(ListOf(dto.branchIds), dto.branchId) <==> Asked(ListOf(dto.branchIds), dto.branchId, b)
    {
      ListedAreAsked(ListOf(dto.branchIds), dto.branchId, b);
    }
    assert ListOf(dto.branchIds) + [] == ListOf(dto.branchIds);
  }

  // ── Update ─────────────────────────────────────────────────────────────────

  predicate OwnUser(db: Db, tenantId: Id, id: Id) {
    id in db.users && db.users[id].tenantId == tenantId && db.users[id].deletedAt == None
  }

  /** The refusals that protect roles and the caller's own account. */
  lemma UpdateProtects(db: Db, tenantId: Id, id: Id, dto: UpdateUser, currentUserId: Id)
    ensures var r := AfterUpdateUser(db, tenantId, id, dto, currentUserId);
      && (!OwnUser(db, tenantId, id) ==> r == Err(NotFound))
      && (OwnUser(db, tenantId, id) && !Subordinate(db.users[id].role) ==> r == Err(Forbidden))
      && (dto.role.Set? && !Subordinate(dto.role.value) ==> r.Err?)
      && (currentUserId == id && dto.role != Absent ==> r.Err?)
      && (currentUserId == id && dto.isActive == Set(false) ==> r.Err?)
      && (!PatchWelcome(db, tenantId, dto.branchId) ==> r.Err?)
      && (dto.branchIds.Some? && !AskedAreOwn(db, tenantId, dto.branchIds.value, dto.branchId) ==> r.Err?)
  {
    if dto.branchIds.Some? {
      ListCheckMeans(db, tenantId, dto.branchIds.value, dto.branchId);
    }
  }

  /** Exactly the named columns change; without a primary branch a sent list makes its first entry the primary one. */
  lemma UpdateStoresUser(db: Db, tenantId: Id, id: Id, dto: UpdateUser, currentUserId: Id, after: Db)
    requires AfterUpdateUser(db, tenantId, id, dto, currentUserId) == Ok(after)
    ensures OwnUser(db, tenantId, id) && id in after.users
    ensures after == db.(users := db.users[id := after.users[id]], userBranches := after.userBranches)
    ensures var (u, stored) := (db.users[id], after.users[id]);
      && (forall r :: dto.role == Set(r) ==> stored.role == r) && (dto.role == Absent ==> stored.role == u.role)
      && (forall a :: dto.isActive == Set(a) ==> stored.isActive == a)
      && (dto.isActive == Absent ==> stored.isActive == u.isActive)
      && (dto.branchId != Absent || dto.branchIds.None? ==> LinkPatched(u.branchId, dto.branchId, stored.branchId))
      && (dto.branchId == Absent && dto.branchIds.Some? ==>
            stored.branchId == FirstOf(NormalizeBranchIds(dto.branchIds.value)))
      && stored.tenantId == u.tenantId && stored.email == u.email && stored.approvalStatus == u.approvalStatus
      && stored.deletedAt == None
  {
    if dto.branchIds.Some? {
      assert dto.branchIds.value + [] == dto.branchIds.value;
    }
  }

  /**
   * A sent list replaces the user's rows of the tenant by one row for each branch asked for; without a
   * list no row changes.
   */
  lemma UpdateReplacesRows(db: Db, tenantId: Id, id: Id, dto: UpdateUser, currentUserId: Id, after: Db)
    requires AfterUpdateUser(db, tenantId, id, dto, currentUserId) == Ok(after)
    ensures dto.branchIds.None? ==> after.userBranches == db.userBranches
    ensures dto.branchIds.Some? ==> forall ub :: ub in after.userBranches <==>
      if ub.tenantId == tenantId && ub.userId == id then Asked(dto.branchIds.value, dto.branchId, ub.branchId)
      else ub in db.userBranches
  {
    if dto.branchIds.Some? {
      forall b
        ensures b in Listed(dto.branchIds.value, dto.branchId) <==> Asked(dto.branchIds.value, dto.branchId, b)
      {
        ListedAreAsked(dto.branchIds.value, dto.branchId, b);
      }
    }
  }

  // ── Removal ────────────────────────────────────────────────────────────────

  /** A removal goes through exactly for another DRIVER or EMPLOYEE of the tenant, and only stamps the row. */
  lemma RemovalEffect(db: Db, tenantId: Id, id: Id, currentUserId: Id, now: Time)
    ensures var r := AfterRemoveUser(db, tenantId, id, currentUserId, now);
      && (!OwnUser(db, tenantId, id) ==> r == Err(NotFound))
      && (OwnUser(db, tenantId, id) && (currentUserId == id || !Subordinate(db.users[id].role)) ==> r == Err(Forbidden))
      && (OwnUser(db, tenantId, id) && currentUserId != id && Subordinate(db.users[id].role) ==>
            r == Ok(db.(users := db.users[id := db.users[id].(deletedAt := Some(now))])))
  {
  }
}
