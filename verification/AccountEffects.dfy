/** Which account calls are accepted, what they store, and exactly whom each gate lets through. */
module AccountEffects {
  import opened Common
  import opened Schema
  import opened Accounts
  import Users

  // ── Login ──────────────────────────────────────────────────────────────────

  /** A wrong password is refused whoever asks, and with the same error as an unknown email. */
  lemma WrongPasswordRefused(db: Db, email: string)
    ensures Login(db, email, false) == Err(Unauthorized)
  {
  }

  lemma UnknownEmailRefused(db: Db, email: string, passwordValid: bool)
    requires forall u :: u in db.users && db.users[u].email == email ==> db.users[u].deletedAt != None
    ensures Login(db, email, passwordValid) == Err(Unauthorized)
  {
    assert forall u :: u in db.users ==> !HasEmail(db.users[u], email);
  }

  /** The tenant of the account is switched on. */
  predicate TenantOn(db: Db, tenantId: Id) {
    tenantId in db.tenants && db.tenants[tenantId].isActive
  }

  /** An account that login and the guard ask nothing more of; employees and drivers need no approval. */
  predicate InGoodStanding(db: Db, u: User) {
    (u.role == ADMIN ==> u.approvalStatus == APPROVED) && u.isActive && TenantOn(db, u.tenantId)
  }

  /**
   * Whoever is logged in gave the right password, and the claim is that of a live account with that
   * email in good standing.
   */
  lemma LoginClaimsTheAccount(db: Db, email: string, passwordValid: bool, c: Claim)
    requires Login(db, email, passwordValid) == Ok(c)
    ensures passwordValid && c.sub in db.users
    ensures db.users[c.sub].email == email && db.users[c.sub].deletedAt == None
    ensures c.role == db.users[c.sub].role && c.tenantId == db.users[c.sub].tenantId
    ensures InGoodStanding(db, db.users[c.sub])
  {
  }

  /**
   * Of a live account, login accepts exactly the right password and good standing; the error tells
   * which is missing first.
   */
  lemma LoginVerdict(db: Db, id: Id, passwordValid: bool)
    requires EmailsUnique(db.users) && id in db.users && db.users[id].deletedAt == None
    ensures var (u, r) := (db.users[id], Login(db, db.users[id].email, passwordValid));
      && (r.Ok? <==> passwordValid && InGoodStanding(db, u))
      && (!passwordValid ==> r == Err(Unauthorized))
      && (passwordValid && u.role == ADMIN && u.approvalStatus != APPROVED ==> r == Err(Forbidden))
      && (passwordValid && (u.role == ADMIN ==> u.approvalStatus == APPROVED) && !u.isActive ==> r == Err(Unauthorized))
      && (passwordValid && (u.role == ADMIN ==> u.approvalStatus == APPROVED) && u.isActive && !TenantOn(db, u.tenantId)
          ==> r == Err(Forbidden))
  {
    assert HasEmail(db.users[id], db.users[id].email);
  }

  // ── Refresh and the guard ──────────────────────────────────────────────────

  /**
   * A refresh token that does not verify is refused; otherwise a live active account of an active
   * tenant is what counts.
   */
  lemma RefreshVerdict(db: Db, sub: Id, tokenValid: bool)
    ensures var r := Refresh(db, sub, tokenValid);
      && (r.Err? ==> r == Err(Unauthorized))
      && (r.Ok? <==>
            && tokenValid && sub in db.users && db.users[sub].deletedAt == None
            && db.users[sub].isActive && TenantOn(db, db.users[sub].tenantId))
      && (r.Ok? ==> r.value == Claim(sub, db.users[sub].role, db.users[sub].tenantId))
  {
  }

  /** The guard waves every SUPER_ADMIN claim through and of the others exactly the live accounts in good standing. */
  lemma GuardVerdictIs(db: Db, claim: Claim)
    ensures var r := GuardVerdict(db, claim);
      && (r.Ok? <==>
            || claim.role == SUPER_ADMIN
            || (claim.sub in db.users && db.users[claim.sub].deletedAt == None
                && InGoodStanding(db, db.users[claim.sub])))
      && (claim.role != SUPER_ADMIN && (claim.sub !in db.users || db.users[claim.sub].deletedAt != None) ==>
            r == Err(Unauthorized))
  {
  }

  // ── Registration and seeding ───────────────────────────────────────────────

  /** The email belongs to nobody, deleted or not, and both ids are new. */
  ghost predicate Vacant(db: Db, email: string, tenantId: Id, userId: Id) {
    && (forall u :: u in db.users ==> db.users[u].email != email)
    && tenantId !in db.tenants && userId !in db.users
  }

  /** A registration stores an inactive tenant with one inactive ADMIN awaiting approval, and nothing else. */
  lemma RegistrationEffect(db: Db, email: string, tenantId: Id, userId: Id)
    ensures var r := AfterRegister(db, email, tenantId, userId);
      && (r.Ok? <==> Vacant(db, email, tenantId, userId))
      && (r.Ok? ==> r.value == db.(
            tenants := db.tenants[tenantId := Tenant(false, None)],
            users := db.users[userId := User(tenantId, None, email, ADMIN, PENDING_APPROVAL, false, None)]))
      && ((exists u :: u in db.users && db.users[u].email == email && db.users[u].deletedAt == None) ==>
        r == Err(Conflict))
  {
  }

  /** The seed works once, with the secret, and stores an active tenant with an approved SUPER_ADMIN. */
  lemma SeedEffect(db: Db, email: string, secretMatches: bool, tenantId: Id, userId: Id)
    ensures var r := AfterSeed(db, email, secretMatches, tenantId, userId);
      && (r.Ok? <==>
            && secretMatches && Vacant(db, email, tenantId, userId)
            && forall u :: u in db.users && db.users[u].deletedAt == None ==> db.users[u].role != SUPER_ADMIN)
      && (r.Ok? ==> r.value == db.(
            tenants := db.tenants[tenantId := Tenant(true, None)],
            users := db.users[userId := User(tenantId, None, email, SUPER_ADMIN, APPROVED, true, None)]))
      && (!secretMatches ==> r == Err(Forbidden))
  {
  }

  // ── Decisions and tenants ──────────────────────────────────────────────────

  predicate Applicant(db: Db, id: Id) {
    id in db.users && db.users[id].role == ADMIN && db.users[id].deletedAt == None
  }

  /** The state with the ADMIN and, if asked, its tenant changed. */
  function With(db: Db, id: Id, status: ApprovalStatus, active: bool, tenantActive: Option<bool>): Db
    requires id in db.users && db.users[id].tenantId in db.tenants
  {
    var t := db.users[id].tenantId;
    db.(users := db.users[id := db.users[id].(approvalStatus := status, isActive := active)],
        tenants := if tenantActive.None? then db.tenants
                   else db.tenants[t := db.tenants[t].(isActive := tenantActive.value)])
  }

  /** From which statuses each decision goes through and where it leads, for an ADMIN whose tenant exists. */
  lemma DecisionEffect(db: Db, id: Id)
    requires Applicant(db, id) && db.users[id].tenantId in db.tenants
    ensures var s := db.users[id].approvalStatus;
      && AfterDecision(db, Approve, id)
         == (if s == APPROVED then Err(BadRequest) else Ok(With(db, id, APPROVED, true, Some(true))))
      && AfterDecision(db, Reject, id)
         == (if s == APPROVED then Err(BadRequest) else Ok(With(db, id, REJECTED, false, None)))
      && AfterDecision(db, Suspend, id)
         == (if s == APPROVED then Ok(With(db, id, SUSPENDED, false, Some(false))) else Err(BadRequest))
      && AfterDecision(db, Reactivate, id)
         == (if s == SUSPENDED then Ok(With(db, id, APPROVED, true, Some(true))) else Err(BadRequest))
  {
  }

  /** Nobody but a live ADMIN is decided about. */
  lemma OthersAreNotDecided(db: Db, d: Decision, id: Id)
    requires !Applicant(db, id)
    ensures AfterDecision(db, d, id) == Err(NotFound)
  {
  }

  /** A suspension shuts an approved ADMIN out of every gate at once, and a reactivation lets the ADMIN in again. */
  lemma SuspensionShutsOut(db: Db, id: Id, claim: Claim)
    requires EmailsUnique(db.users) && Applicant(db, id) && db.users[id].tenantId in db.tenants
    requires db.users[id].approvalStatus == APPROVED && claim.sub == id && claim.role != SUPER_ADMIN
    ensures AfterDecision(db, Suspend, id).Ok?
    ensures var shut := AfterDecision(db, Suspend, id).value;
      && Login(shut, db.users[id].email, true).Err? && Refresh(shut, id, true).Err? && GuardVerdict(shut, claim).Err?
      && AfterDecision(shut, Reactivate, id).Ok?
      && (var open := AfterDecision(shut, Reactivate, id).value;
          Login(open, db.users[id].email, true).Ok? && Refresh(open, id, true).Ok? && GuardVerdict(open, claim).Ok?)
  {
    var shut := AfterDecision(db, Suspend, id).value;
    var open := AfterDecision(shut, Reactivate, id).value;
    Users.SameEmailKeepsIndex(db.users, id, shut.users[id]);
    Users.SameEmailKeepsIndex(shut.users, id, open.users[id]);
    LoginVerdict(shut, id, true);
    LoginVerdict(open, id, true);
  }

  /** A tenant patch sets the activity that is sent; a removal deletes now and switches off. */
  lemma TenantEffect(db: Db, id: Id, isActive: Patch<bool>, now: Time)
    ensures var live := id in db.tenants && db.tenants[id].deletedAt == None;
      && AfterRemoveTenant(db, id, now)
         == (if live then Ok(db.(tenants := db.tenants[id := Tenant(false, Some(now))])) else Err(NotFound))
      && (!live ==> AfterUpdateTenant(db, id, isActive) == Err(NotFound))
      && (live && isActive == Absent ==> AfterUpdateTenant(db, id, isActive) == Ok(db))
      && (forall x :: live && isActive == Set(x) ==>
            AfterUpdateTenant(db, id, isActive) == Ok(db.(tenants := db.tenants[id := Tenant(x, None)])))
  {
    if id in db.tenants {
      assert db.tenants[id := db.tenants[id]] == db.tenants;
    }
  }
}
