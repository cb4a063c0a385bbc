/** Approval, activity and the three gates in every run of the system. */
module AccountRuns {
  import opened Common
  import opened Schema
  import opened System
  import opened Accounts
  import Users
  import Branches

  // ── The invariant behind the gates ─────────────────────────────────────────

  /** Every user's tenant exists, and an ADMIN is active exactly when approved. */
  ghost predicate Sound(users: map<Id, User>, tenants: map<Id, Tenant>) {
    forall u :: u in users ==>
      && users[u].tenantId in tenants
      && (users[u].role == ADMIN ==> (users[u].isActive <==> users[u].approvalStatus == APPROVED))
  }

  ghost predicate AccountsSound(db: Db) {
    Sound(db.users, db.tenants) && EmailsUnique(db.users)
  }

  /**
   * Nobody becomes or stops being an administrator of either kind; ADMINs are never deleted; tenant
   * and email never change.
   */
  ghost predicate StaysInRank(before: User, after: User) {
    && after.tenantId == before.tenantId && after.email == before.email
    && (after.role == SUPER_ADMIN <==> before.role == SUPER_ADMIN)
    && (after.role == ADMIN <==> before.role == ADMIN)
    && (before.role == ADMIN ==> after.deletedAt == before.deletedAt)
  }

  ghost predicate RanksStay(before: Db, after: Db) {
    && (forall u :: u in before.users ==> u in after.users && StaysInRank(before.users[u], after.users[u]))
    && (forall t :: t in before.tenants ==> t in after.tenants)
  }

  /** A new ADMIN comes with a new tenant. */
  ghost predicate NewAdminsBringTenants(before: Db, after: Db) {
    forall u :: u in after.users && u !in before.users && after.users[u].role == ADMIN ==>
      after.users[u].tenantId !in before.tenants
  }

  lemma InsertKeepsSound(db: Db, tenant: Tenant, user: User, newTenantId: Id, newUserId: Id, after: Db)
    requires AccountsSound(db) && InsertAdmin(db, tenant, user, newTenantId, newUserId) == Ok(after)
    requires user.role == ADMIN ==> (user.isActive <==> user.approvalStatus == APPROVED)
    ensures AccountsSound(after) && RanksStay(db, after) && NewAdminsBringTenants(db, after)
  {
  }

  lemma DecisionKeepsSound(db: Db, d: Decision, id: Id, after: Db)
    requires AccountsSound(db) && AfterDecision(db, d, id) == Ok(after)
    ensures AccountsSound(after) && RanksStay(db, after) && NewAdminsBringTenants(db, after)
  {
    Users.SameEmailKeepsIndex(db.users, id, after.users[id]);
  }

  lemma AccountCallKeepsSound(db: Db, c: Accounts.Call, now: Time, after: Db)
    requires AccountsSound(db) && Accounts.Outcome(db, c, now) == Ok(after)
    ensures AccountsSound(after) && RanksStay(db, after) && NewAdminsBringTenants(db, after)
  {
    match c
    case Register(email, newTenantId, newUserId) =>
      InsertKeepsSound(db, Tenant(false, None), User(newTenantId, None, email, ADMIN, PENDING_APPROVAL, false, None),
        newTenantId, newUserId, after);
    case Seed(email, _, newTenantId, newUserId) =>
      InsertKeepsSound(db, Tenant(true, None), User(newTenantId, None, email, SUPER_ADMIN, APPROVED, true, None),
        newTenantId, newUserId, after);
    case Decide(d, id) => DecisionKeepsSound(db, d, id, after);
    case PatchTenant(_, _) =>
    case DropTenant(_) =>
  }

  lemma CreateUserKeepsSound(db: Db, tenantId: Id, dto: Users.CreateUser, newId: Id, after: Db)
    requires AccountsSound(db) && Users.AfterCreateUser(db, tenantId, dto, newId) == Ok(after)
    ensures AccountsSound(after) && RanksStay(db, after) && NewAdminsBringTenants(db, after)
    ensures forall u :: u in db.users ==> after.users[u] == db.users[u]
  {
  }

  lemma UserCallKeepsSound(db: Db, c: Users.Call, now: Time, after: Db)
    requires AccountsSound(db) && Users.Outcome(db, c, now) == Ok(after)
    ensures AccountsSound(after) && RanksStay(db, after) && NewAdminsBringTenants(db, after)
    ensures forall u :: u in db.users && db.users[u].role == ADMIN ==> after.users[u] == db.users[u]
  {
    match c
    case Create(tenantId, dto, newId) =>
      CreateUserKeepsSound(db, tenantId, dto, newId, after);
    case Update(_, id, _, _) =>
      Users.SameEmailKeepsIndex(db.users, id, after.users[id]);
    case Remove(_, id, _) =>
      Users.SameEmailKeepsIndex(db.users, id, after.users[id]);
  }

  lemma BranchCallKeepsSound(db: Db, c: Branches.Call, now: Time, after: Db)
    requires AccountsSound(db) && Branches.Outcome(db, c, now) == Ok(after)
    ensures AccountsSound(after) && RanksStay(db, after) && NewAdminsBringTenants(db, after)
  {
    Branches.CallKeepsRows(db, c, now, after);
    forall i, j | i in after.users && j in after.users && after.users[i].email == after.users[j].email
      ensures i == j
    {
      assert after.users[i].email == db.users[i].email && after.users[j].email == db.users[j].email;
    }
  }

  lemma StepKeepsSound(db: Db, e: Event)
    requires AccountsSound(db)
    ensures AccountsSound(Step(db, e)) && RanksStay(db, Step(db, e)) && NewAdminsBringTenants(db, Step(db, e))
  {
    if System.Outcome(db, e).Ok? {
      var after := Step(db, e);
      System.CallWrites(db, e, after);
      if e.op.OnAccounts? {
        AccountCallKeepsSound(db, e.op.account, e.now, after);
      } else if e.op.OnUsers? {
        UserCallKeepsSound(db, e.op.user, e.now, after);
      } else if e.op.OnBranches? {
        BranchCallKeepsSound(db, e.op.branch, e.now, after);
      }
    }
  }

  lemma {:induction false} RunKeepsSound(db: Db, events: seq<Event>)
    requires AccountsSound(db)
    ensures AccountsSound(Run(db, events)) && RanksStay(db, Run(db, events))
    decreases |events|
  {
    if events != [] {
      var next := Step(db, events[0]);
      StepKeepsSound(db, events[0]);
      RunKeepsSound(next, events[1..]);
      forall u | u in db.users
        ensures StaysInRank(db.users[u], Run(db, events).users[u])
      {
        assert StaysInRank(db.users[u], next.users[u]);
        assert StaysInRank(next.users[u], Run(next, events[1..]).users[u]);
      }
    }
  }

  // ── The three gates agree ──────────────────────────────────────────────────

  /**
   * In a sound state, for a live user below SUPER_ADMIN and a token of such a rank: all three gates
   * accept or all refuse, and the guard refuses with the error of login.
   */
  lemma GatesAgree(db: Db, u: Id, claim: Claim)
    requires AccountsSound(db)
    requires u in db.users && db.users[u].deletedAt.None? && db.users[u].role != SUPER_ADMIN
    requires claim.sub == u && claim.role != SUPER_ADMIN
    ensures Login(db, db.users[u].email, true).Ok? <==> Refresh(db, u, true).Ok?
    ensures Login(db, db.users[u].email, true).Ok? <==> GuardVerdict(db, claim).Ok?
    ensures Login(db, db.users[u].email, true) ==
      match GuardVerdict(db, claim) case Ok(_) => Ok(ClaimOf(u, db.users[u])) case Err(e) => Err(e)
  {
    assert HasEmail(db.users[u], db.users[u].email);
  }

  /**
   * In every reachable state: a token signed at any earlier point of the run for a user below
   * SUPER_ADMIN passes the tenant guard exactly when login and refresh would accept its holder.
   */
  lemma GatesAgreeInEveryRun(before: seq<Event>, between: seq<Event>, u: Id)
    requires u in Run(EMPTY_DB, before).users && Run(EMPTY_DB, before).users[u].role != SUPER_ADMIN
    requires u in Run(Run(EMPTY_DB, before), between).users
      && Run(Run(EMPTY_DB, before), between).users[u].deletedAt.None?
    ensures var signed := Run(EMPTY_DB, before); var db := Run(signed, between);
      && (GuardVerdict(db, ClaimOf(u, signed.users[u])).Ok? <==> Login(db, db.users[u].email, true).Ok?)
      && (GuardVerdict(db, ClaimOf(u, signed.users[u])).Ok? <==> Refresh(db, u, true).Ok?)
  {
    var signed := Run(EMPTY_DB, before);
    RunKeepsSound(EMPTY_DB, before);
    RunKeepsSound(signed, between);
    assert StaysInRank(signed.users[u], Run(signed, between).users[u]);
    GatesAgree(Run(signed, between), u, ClaimOf(u, signed.users[u]));
  }

  /**
   * The invariant is what makes them agree: an ADMIN who is active without approval passes refresh and
   * nothing else.
   */
  lemma GatesDifferWithoutInvariant()
    ensures var user := User("tenant", None, "a@b", ADMIN, REJECTED, true, None);
      var db := EMPTY_DB.(tenants := map["tenant" := Tenant(true, None)], users := map["admin" := user]);
      Refresh(db, "admin", true).Ok? && GuardVerdict(db, ClaimOf("admin", user)).Err?
  {
  }

  // ── One ADMIN per registered tenant, for ever ──────────────────────────────

  /** The live ADMINs of a tenant. */
  function Admins(db: Db, tenantId: Id): set<Id> {
    set u | u in db.users && db.users[u].role == ADMIN && db.users[u].deletedAt.None?
      && db.users[u].tenantId == tenantId
  }

  /** A registration that succeeds makes its applicant the one live ADMIN of the new tenant. */
  lemma RegistrationAppointsOneAdmin(db: Db, email: string, newTenantId: Id, newUserId: Id)
    requires AccountsSound(db) && AfterRegister(db, email, newTenantId, newUserId).Ok?
    ensures Admins(AfterRegister(db, email, newTenantId, newUserId).value, newTenantId) == {newUserId}
  {
  }

  lemma StepKeepsAdmins(db: Db, e: Event, tenantId: Id)
    requires AccountsSound(db) && tenantId in db.tenants
    ensures Admins(Step(db, e), tenantId) == Admins(db, tenantId)
  {
    StepKeepsSound(db, e);
    forall u | u in db.users
      ensures StaysInRank(db.users[u], Step(db, e).users[u])
    {
    }
  }

  /** No call of any service ever adds, removes or replaces a live ADMIN of an existing tenant. */
  lemma {:induction false} AdminsNeverChange(db: Db, events: seq<Event>, tenantId: Id)
    requires AccountsSound(db) && tenantId in db.tenants
    ensures Admins(Run(db, events), tenantId) == Admins(db, tenantId)
    decreases |events|
  {
    if events != [] {
      StepKeepsAdmins(db, events[0], tenantId);
      StepKeepsSound(db, events[0]);
      AdminsNeverChange(Step(db, events[0]), events[1..], tenantId);
    }
  }

  /** So whoever registered a tenant is its one live ADMIN in every later state. */
  lemma RegisteredTenantKeepsItsAdmin(db: Db, email: string, newTenantId: Id, newUserId: Id, later: seq<Event>)
    requires AccountsSound(db) && AfterRegister(db, email, newTenantId, newUserId).Ok?
    ensures Admins(Run(AfterRegister(db, email, newTenantId, newUserId).value, later), newTenantId) == {newUserId}
  {
    var after := AfterRegister(db, email, newTenantId, newUserId).value;
    AccountCallKeepsSound(db, Register(email, newTenantId, newUserId), 0, after);
    RegistrationAppointsOneAdmin(db, email, newTenantId, newUserId);
    AdminsNeverChange(after, later, newTenantId);
  }

  // ── A tenant is active while its ADMIN is approved ─────────────────────────

  ghost predicate ActivityMirrors(users: map<Id, User>, tenants: map<Id, Tenant>) {
    && (forall u :: u in users && users[u].role == ADMIN ==>
          && users[u].deletedAt.None? && users[u].tenantId in tenants
          && (tenants[users[u].tenantId].isActive <==> users[u].approvalStatus == APPROVED))
    && (forall u, w :: u in users && w in users && users[u].role == ADMIN && users[w].role == ADMIN ==>
          users[u].tenantId == users[w].tenantId ==> u == w)
  }

  ghost predicate TenantsMirror(db: Db) {
    ActivityMirrors(db.users, db.tenants)
  }

  predicate Administered(users: map<Id, User>, tenantId: Id) {
    exists u :: u in users && users[u].role == ADMIN && users[u].tenantId == tenantId
  }

  /** A tenant patch or removal that flips the activity of a tenant with an ADMIN. */
  predicate FlipsTenant(db: Db, op: Op) {
    op.OnAccounts? &&
    match op.account
    case PatchTenant(id, isActive) =>
      id in db.tenants && isActive.Set? && isActive.value != db.tenants[id].isActive && Administered(db.users, id)
    case DropTenant(id) => id in db.tenants && db.tenants[id].isActive && Administered(db.users, id)
    case _ => false
  }

  lemma DecisionKeepsMirror(db: Db, d: Decision, id: Id, after: Db)
    requires TenantsMirror(db) && AfterDecision(db, d, id) == Ok(after)
    ensures TenantsMirror(after)
  {
  }

  lemma InsertKeepsMirror(db: Db, tenant: Tenant, user: User, newTenantId: Id, newUserId: Id, after: Db)
    requires AccountsSound(db) && TenantsMirror(db)
      && InsertAdmin(db, tenant, user, newTenantId, newUserId) == Ok(after)
    requires user.role == ADMIN ==> user.deletedAt.None? && (tenant.isActive <==> user.approvalStatus == APPROVED)
    ensures TenantsMirror(after)
  {
  }

  /** An account call keeps the mirror if and only if it does not flip an administered tenant. */
  lemma AccountCallMirrorsIff(db: Db, c: Accounts.Call, now: Time, after: Db)
    requires AccountsSound(db) && TenantsMirror(db) && Accounts.Outcome(db, c, now) == Ok(after)
    ensures TenantsMirror(after) <==> !FlipsTenant(db, OnAccounts(c))
  {
    match c
    case Register(email, newTenantId, newUserId) =>
      InsertKeepsMirror(db, Tenant(false, None), User(newTenantId, None, email, ADMIN, PENDING_APPROVAL, false, None),
        newTenantId, newUserId, after);
    case Seed(email, _, newTenantId, newUserId) =>
      InsertKeepsMirror(db, Tenant(true, None), User(newTenantId, None, email, SUPER_ADMIN, APPROVED, true, None),
        newTenantId, newUserId, after);
    case Decide(d, id) => DecisionKeepsMirror(db, d, id, after);
    case PatchTenant(id, isActive) => TenantWriteMirrorsIff(db, id, after);
    case DropTenant(id) => TenantWriteMirrorsIff(db, id, after);
  }

  lemma TenantWriteMirrorsIff(db: Db, id: Id, after: Db)
    requires TenantsMirror(db) && id in db.tenants && id in after.tenants && after.users == db.users
    requires after.tenants == db.tenants[id := after.tenants[id]]
    ensures TenantsMirror(after) <==>
      (after.tenants[id].isActive != db.tenants[id].isActive ==> !Administered(db.users, id))
  {
    if after.tenants[id].isActive != db.tenants[id].isActive && Administered(db.users, id) {
      var u :| u in db.users && db.users[u].role == ADMIN && db.users[u].tenantId == id;
      assert after.tenants[after.users[u].tenantId].isActive != (after.users[u].approvalStatus == APPROVED);
    }
  }

  /** Exactly which successful calls of any service keep tenant activity mirroring its ADMIN. */
  lemma CallMirrorsIff(db: Db, e: Event, after: Db)
    requires AccountsSound(db) && TenantsMirror(db) && System.Outcome(db, e) == Ok(after)
    ensures TenantsMirror(after) <==> !FlipsTenant(db, e.op)
  {
    System.CallWrites(db, e, after);
    if e.op.OnAccounts? {
      AccountCallMirrorsIff(db, e.op.account, e.now, after);
    } else if e.op.OnUsers? {
      UserCallKeepsSound(db, e.op.user, e.now, after);
    } else if e.op.OnBranches? {
      Branches.CallKeepsRows(db, e.op.branch, e.now, after);
    }
  }

  /**
   * In any run of all services a tenant with an ADMIN is active exactly while that ADMIN is
   * approved, in every state, if and only if no accepted tenant call flips such a tenant.
   */
  lemma {:induction false} TenantActivityMirrorsAdmin(db: Db, events: seq<Event>)
    requires AccountsSound(db) && TenantsMirror(db)
    ensures Always(db, events, TenantsMirror) <==> Avoids(db, events, FlipsTenant)
    decreases |events|
  {
    if events != [] {
      var next := Step(db, events[0]);
      if System.Outcome(db, events[0]).Ok? {
        CallMirrorsIff(db, events[0], next);
      }
      StepKeepsSound(db, events[0]);
      if TenantsMirror(next) {
        TenantActivityMirrorsAdmin(next, events[1..]);
      }
    }
  }
}
