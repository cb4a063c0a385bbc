/**
 * src/auth (registration, login, refresh), src/admin-applications, src/tenants and the
 * per-request gate of src/common/guards/tenant.guard.ts.
 */
module Accounts {
  import opened Common
  import opened Schema
  import opened Validator
  import opened Users

  /** What a signed token says about its holder. */
  datatype Claim = Claim(sub: Id, role: Role, tenantId: Id)

  function ClaimOf(id: Id, u: User): Claim {
    Claim(id, u.role, u.tenantId)
  }

  // ── Registration ───────────────────────────────────────────────────────────

  function InsertAdmin(db: Db, tenant: Tenant, user: User, newTenantId: Id, newUserId: Id): Result<Db> {
    if newTenantId in db.tenants || newUserId in db.users || EmailIndexed(db.users, user.email) then Err(UniqueIndex)
    else Ok(db.(tenants := db.tenants[newTenantId := tenant],
      users := db.users[newUserId := user.(tenantId := newTenantId)]))
  }

  function AfterRegister(db: Db, email: string, newTenantId: Id, newUserId: Id): Result<Db> {
    if EmailInUse(db.users, email) then Err(Conflict)
    else InsertAdmin(db, Tenant(false, None), User(newTenantId, None, email, ADMIN, PENDING_APPROVAL, false, None),
      newTenantId, newUserId)
  }

  predicate SuperAdminExists(users: map<Id, User>) {
    exists i :: i in users && users[i].role == SUPER_ADMIN && users[i].deletedAt.None?
  }

  function AfterSeed(db: Db, email: string, secretMatches: bool, newTenantId: Id, newUserId: Id): Result<Db> {
    if !secretMatches then Err(Forbidden)
    else if SuperAdminExists(db.users) then Err(Conflict)
    else if EmailInUse(db.users, email) then Err(Conflict)
    else InsertAdmin(db, Tenant(true, None), User(newTenantId, None, email, SUPER_ADMIN, APPROVED, true, None),
      newTenantId, newUserId)
  }

  // ── The platform administrator's decisions ─────────────────────────────────

  datatype Decision = Approve | Reject | Suspend | Reactivate

  predicate LiveAdmin(users: map<Id, User>, id: Id) {
    id in users && users[id].role == ADMIN && users[id].deletedAt.None?
  }

  /** From which application status a decision may be taken. */
  predicate Decidable(d: Decision, status: ApprovalStatus) {
    match d
    case Approve => status != APPROVED
    case Reject => status != APPROVED
    case Suspend => status == APPROVED
    case Reactivate => status == SUSPENDED
  }

  function Decided(u: User, d: Decision): User {
    match d
    case Approve => u.(approvalStatus := APPROVED, isActive := true)
    case Reject => u.(approvalStatus := REJECTED, isActive := false)
    case Suspend => u.(approvalStatus := SUSPENDED, isActive := false)
    case Reactivate => u.(approvalStatus := APPROVED, isActive := true)
  }

  /** A rejection alone leaves the tenant untouched. */
  function AfterDecision(db: Db, d: Decision, id: Id): Result<Db> {
    if !LiveAdmin(db.users, id) then Err(NotFound)
    else if !Decidable(d, db.users[id].approvalStatus) then Err(BadRequest)
    else
      var u := Decided(db.users[id], d);
      if d == Reject then Ok(db.(users := db.users[id := u]))
      else if u.tenantId !in db.tenants then Err(NotFound)
      else Ok(db.(users := db.users[id := u],
        tenants := db.tenants[u.tenantId := db.tenants[u.tenantId].(isActive := d != Suspend)]))
  }

  // ── Tenants ────────────────────────────────────────────────────────────────

  predicate LiveTenant(tenants: map<Id, Tenant>, id: Id) {
    id in tenants && tenants[id].deletedAt.None?
  }

  function AfterUpdateTenant(db: Db, id: Id, isActive: Patch<bool>): Result<Db> {
    if !LiveTenant(db.tenants, id) then Err(NotFound)
    else if isActive.Null? then Err(NotNull)
    else Ok(db.(tenants :=
      db.tenants[id := db.tenants[id].(isActive := if isActive.Set? then isActive.value else db.tenants[id].isActive)]))
  }

  function AfterRemoveTenant(db: Db, id: Id, now: Time): Result<Db> {
    if !LiveTenant(db.tenants, id) then Err(NotFound)
    else Ok(db.(tenants := db.tenants[id := Tenant(false, Some(now))]))
  }

  // ── Calls that write accounts ──────────────────────────────────────────────

  datatype Call =
    | Register(email: string, newTenantId: Id, newUserId: Id)
    | Seed(email: string, secretMatches: bool, newTenantId: Id, newUserId: Id)
    | Decide(decision: Decision, id: Id)
    | PatchTenant(id: Id, isActive: Patch<bool>)
    | DropTenant(id: Id)

  function Outcome(db: Db, c: Call, now: Time): Result<Db> {
    match c
    case Register(email, newTenantId, newUserId) => AfterRegister(db, email, newTenantId, newUserId)
    case Seed(email, secretMatches, newTenantId, newUserId) =>
      AfterSeed(db, email, secretMatches, newTenantId, newUserId)
    case Decide(decision, id) => AfterDecision(db, decision, id)
    case PatchTenant(id, isActive) => AfterUpdateTenant(db, id, isActive)
    case DropTenant(id) => AfterRemoveTenant(db, id, now)
  }

  /** Users keep their tenant and branch; new ones have no branch. */
  ghost predicate BranchesUntouched(before: map<Id, User>, after: map<Id, User>) {
    && (forall u :: u in before ==>
      u in after && after[u].tenantId == before[u].tenantId && after[u].branchId == before[u].branchId)
    && (forall u :: u in after && u !in before ==> after[u].branchId.None?)
  }

  lemma InsertWrites(db: Db, tenant: Tenant, user: User, newTenantId: Id, newUserId: Id, after: Db)
    requires InsertAdmin(db, tenant, user, newTenantId, newUserId) == Ok(after)
    requires user.branchId.None?
    ensures after == db.(tenants := after.tenants, users := after.users) && BranchesUntouched(db.users, after.users)
  {
  }

  lemma DecisionWrites(db: Db, d: Decision, id: Id, after: Db)
    requires AfterDecision(db, d, id) == Ok(after)
    ensures after == db.(tenants := after.tenants, users := after.users) && BranchesUntouched(db.users, after.users)
  {
    match d
    case Approve =>
    case Reject =>
    case Suspend =>
    case Reactivate =>
  }

  lemma CallWrites(db: Db, c: Call, now: Time, after: Db)
    requires Outcome(db, c, now) == Ok(after)
    ensures after == db.(tenants := after.tenants, users := after.users) && BranchesUntouched(db.users, after.users)
  {
    match c
    case Register(email, newTenantId, newUserId) =>
      InsertWrites(db, Tenant(false, None), User(newTenantId, None, email, ADMIN, PENDING_APPROVAL, false, None),
        newTenantId, newUserId, after);
    case Seed(email, _, newTenantId, newUserId) =>
      InsertWrites(db, Tenant(true, None), User(newTenantId, None, email, SUPER_ADMIN, APPROVED, true, None),
        newTenantId, newUserId, after);
    case Decide(d, id) => DecisionWrites(db, d, id, after);
    case PatchTenant(_, _) =>
    case DropTenant(_) =>
  }

  // ── The three gates ────────────────────────────────────────────────────────

  predicate TenantActive(db: Db, tenantId: Id) {
    tenantId in db.tenants && db.tenants[tenantId].isActive
  }

  predicate HasEmail(u: User, email: string) {
    u.email == email && u.deletedAt.None?
  }

  /** `login`: the account found by email, its password, approval, activity and tenant. */
  ghost function Login(db: Db, email: string, passwordValid: bool): Result<Claim> {
    if i :| i in db.users && HasEmail(db.users[i], email) then
      var u := db.users[i];
      if !passwordValid then Err(Unauthorized)
      else if u.role == ADMIN && u.approvalStatus == PENDING_APPROVAL then Err(Forbidden)
      else if u.role == ADMIN && u.approvalStatus == REJECTED then Err(Forbidden)
      else if u.role == ADMIN && u.approvalStatus == SUSPENDED then Err(Forbidden)
      else if !u.isActive then Err(Unauthorized)
      else if !TenantActive(db, u.tenantId) then Err(Forbidden)
      else Ok(ClaimOf(i, u))
    else Err(Unauthorized)
  }

  /** `refresh`: never looks at the approval status. */
  function Refresh(db: Db, sub: Id, tokenValid: bool): Result<Claim> {
    if !tokenValid then Err(Unauthorized)
    else if sub !in db.users || db.users[sub].deletedAt.Some? || !db.users[sub].isActive then Err(Unauthorized)
    else if !TenantActive(db, db.users[sub].tenantId) then Err(Unauthorized)
    else Ok(ClaimOf(sub, db.users[sub]))
  }

  /** `TenantGuard.canActivate` on a non-public route, for a verified claim. */
  function GuardVerdict(db: Db, claim: Claim): Result<()> {
    if claim.role == SUPER_ADMIN then Ok(())
    else if claim.sub !in db.users || db.users[claim.sub].deletedAt.Some? then Err(Unauthorized)
    else
      var u := db.users[claim.sub];
      if u.role == ADMIN && u.approvalStatus != APPROVED then Err(Forbidden)
      else if !u.isActive then Err(Unauthorized)
      else if !TenantActive(db, u.tenantId) then Err(Forbidden)
      else Ok(())
  }

  class AccountsService {
    const prisma: Database

    constructor (prisma: Database)
      ensures this.prisma == prisma
    {
      this.prisma := prisma;
    }

    method RegisterTenant(email: string, newTenantId: Id, newUserId: Id) returns (r: Result<()>)
      requires prisma.Valid()
      modifies prisma`tenants, prisma`users
      ensures prisma.Valid()
      ensures Realises(
        AfterRegister(old(prisma.Snapshot()), email, newTenantId, newUserId),
        old(prisma.Snapshot()), prisma.Snapshot(), r)
    {
      if EmailInUse(prisma.users, email) {
        return Err(Conflict);
      }
      if newTenantId in prisma.tenants || newUserId in prisma.users || EmailIndexed(prisma.users, email) {
        return Err(UniqueIndex);
      }
      prisma.tenants := prisma.tenants[newTenantId := Tenant(false, None)];
      prisma.users := prisma.users[newUserId := User(newTenantId, None, email, ADMIN, PENDING_APPROVAL, false, None)];
      return Ok(());
    }

    method SeedSuperAdmin(email: string, secretMatches: bool, newTenantId: Id, newUserId: Id) returns (r: Result<()>)
      requires prisma.Valid()
      modifies prisma`tenants, prisma`users
      ensures prisma.Valid()
      ensures Realises(
        AfterSeed(old(prisma.Snapshot()), email, secretMatches, newTenantId, newUserId),
        old(prisma.Snapshot()), prisma.Snapshot(), r)
    {
      if !secretMatches {
        return Err(Forbidden);
      }
      if SuperAdminExists(prisma.users) || EmailInUse(prisma.users, email) {
        return Err(Conflict);
      }
      if newTenantId in prisma.tenants || newUserId in prisma.users || EmailIndexed(prisma.users, email) {
        return Err(UniqueIndex);
      }
      prisma.tenants := prisma.tenants[newTenantId := Tenant(true, None)];
      prisma.users := prisma.users[newUserId := User(newTenantId, None, email, SUPER_ADMIN, APPROVED, true, None)];
      return Ok(());
    }

    method ApproveAdmin(id: Id) returns (r: Result<()>)
      requires prisma.Valid()
      modifies prisma`tenants, prisma`users
      ensures prisma.Valid()
      ensures Realises(AfterDecision(old(prisma.Snapshot()), Approve, id), old(prisma.Snapshot()), prisma.Snapshot(), r)
    {
      if !LiveAdmin(prisma.users, id) {
        return Err(NotFound);
      }
      var user := prisma.users[id];
      if user.approvalStatus == APPROVED {
        return Err(BadRequest);
      }
      r := StoreDecision(id, user.(approvalStatus := APPROVED, isActive := true), true);
    }

    method RejectAdmin(id: Id) returns (r: Result<()>)
      requires prisma.Valid()
      modifies prisma`users
      ensures prisma.Valid()
      ensures Realises(AfterDecision(old(prisma.Snapshot()), Reject, id), old(prisma.Snapshot()), prisma.Snapshot(), r)
    {
      if !LiveAdmin(prisma.users, id) {
        return Err(NotFound);
      }
      var user := prisma.users[id];
      if user.approvalStatus == APPROVED {
        return Err(BadRequest);
      }
      user := user.(approvalStatus := REJECTED, isActive := false);
      SameEmailKeepsIndex(prisma.users, id, user);
      prisma.users := prisma.users[id := user];
      return Ok(());
    }

    method SuspendAdmin(id: Id) returns (r: Result<()>)
      requires prisma.Valid()
      modifies prisma`tenants, prisma`users
      ensures prisma.Valid()
      ensures Realises(AfterDecision(old(prisma.Snapshot()), Suspend, id), old(prisma.Snapshot()), prisma.Snapshot(), r)
    {
      if !LiveAdmin(prisma.users, id) {
        return Err(NotFound);
      }
      var user := prisma.users[id];
      if user.approvalStatus != APPROVED {
        return Err(BadRequest);
      }
      r := StoreDecision(id, user.(approvalStatus := SUSPENDED, isActive := false), false);
    }

    method ReactivateAdmin(id: Id) returns (r: Result<()>)
      requires prisma.Valid()
      modifies prisma`tenants, prisma`users
      ensures prisma.Valid()
      ensures Realises(
        AfterDecision(old(prisma.Snapshot()), Reactivate, id),
        old(prisma.Snapshot()), prisma.Snapshot(), r)
    {
      if !LiveAdmin(prisma.users, id) {
        return Err(NotFound);
      }
      var user := prisma.users[id];
      if user.approvalStatus != SUSPENDED {
        return Err(BadRequest);
      }
      r := StoreDecision(id, user.(approvalStatus := APPROVED, isActive := true), true);
    }

    /** The transaction that writes the admin and its tenant together. */
    method StoreDecision(id: Id, user: User, tenantActive: bool) returns (r: Result<()>)
      requires prisma.Valid() && id in prisma.users && user.email == prisma.users[id].email
      modifies prisma`tenants, prisma`users
      ensures prisma.Valid()
      ensures user.tenantId !in old(prisma.tenants) ==>
        r == Err(NotFound) && prisma.Snapshot() == old(prisma.Snapshot())
      ensures user.tenantId in old(prisma.tenants) ==>
        && r == Ok(())
        && prisma.Snapshot() == old(prisma.Snapshot()).(
             users := old(prisma.users)[id := user],
             tenants := old(prisma.tenants)[user.tenantId :=
               old(prisma.tenants)[user.tenantId].(isActive := tenantActive)])
    {
      if user.tenantId !in prisma.tenants {
        return Err(NotFound);
      }
      SameEmailKeepsIndex(prisma.users, id, user);
      prisma.users := prisma.users[id := user];
      prisma.tenants := prisma.tenants[user.tenantId := prisma.tenants[user.tenantId].(isActive := tenantActive)];
      return Ok(());
    }

    method UpdateTenant(id: Id, isActive: Patch<bool>) returns (r: Result<()>)
      modifies prisma`tenants
      ensures Realises(
        AfterUpdateTenant(old(prisma.Snapshot()), id, isActive),
        old(prisma.Snapshot()), prisma.Snapshot(), r)
    {
      if !LiveTenant(prisma.tenants, id) {
        return Err(NotFound);
      }
      if isActive.Null? {
        return Err(NotNull);
      }
      var data := prisma.tenants[id];
      if isActive.Set? {
        data := data.(isActive := isActive.value);
      }
      prisma.tenants := prisma.tenants[id := data];
      return Ok(());
    }

    method RemoveTenant(id: Id, now: Time) returns (r: Result<()>)
      modifies prisma`tenants
      ensures Realises(AfterRemoveTenant(old(prisma.Snapshot()), id, now), old(prisma.Snapshot()), prisma.Snapshot(), r)
    {
      if !LiveTenant(prisma.tenants, id) {
        return Err(NotFound);
      }
      prisma.tenants := prisma.tenants[id := prisma.tenants[id].(deletedAt := Some(now), isActive := false)];
      return Ok(());
    }

    /** `login`, with the password comparison as an oracle. */
    method LogIn(email: string, passwordValid: bool) returns (r: Result<Claim>)
      requires prisma.Valid()
      ensures r == Login(prisma.Snapshot(), email, passwordValid)
    {
      var users := prisma.users;
      if i :| i in users && HasEmail(users[i], email) {
        var user := users[i];
        if !passwordValid {
          return Err(Unauthorized);
        }
        if user.role == ADMIN && user.approvalStatus != APPROVED {
          return Err(Forbidden);
        }
        if !user.isActive {
          return Err(Unauthorized);
        }
        if user.tenantId !in prisma.tenants || !prisma.tenants[user.tenantId].isActive {
          return Err(Forbidden);
        }
        return Ok(Claim(i, user.role, user.tenantId));
      }
      return Err(Unauthorized);
    }
  }
}
