/**
 * src/common/helpers/entity-validator.helper.ts: the look-ups that every service asks before it
 * writes, as predicates that say when the validator throws.
 */
module Validator {
  import opened Common
  import opened Schema

  /** `findFirst({ email, deletedAt: null })` finds someone. */
  predicate EmailInUse(users: map<Id, User>, email: string) {
    exists i :: i in users && users[i].email == email && users[i].deletedAt.None?
  }

  /** `assertBranchExists`: skipped unless an id is given. */
  predicate BranchRefused(branches: map<Id, Branch>, tenantId: Id, branchId: Patch<Id>) {
    Truthy(branchId) && !LiveBranch(branches, tenantId, branchId.value)
  }

  /** `assertRegistrationUnique`: a live vehicle other than `except` has the plate. */
  predicate PlateInUse(vehicles: map<Id, Vehicle>, plate: string, except: Option<Id>) {
    exists i :: i in vehicles && vehicles[i].registrationNo == plate && vehicles[i].deletedAt.None? && Some(i) != except
  }

  /** For drivers the validator asks about live rows only, the unique indexes about all of them. */
  predicate PhoneTaken(drivers: map<Id, Driver>, phone: string, except: Option<Id>, liveOnly: bool) {
    exists i :: i in drivers && drivers[i].phone == phone && Some(i) != except
      && (liveOnly ==> drivers[i].deletedAt.None?)
  }

  predicate LicenseTaken(drivers: map<Id, Driver>, licenseNo: string, except: Option<Id>, liveOnly: bool) {
    exists i :: i in drivers && drivers[i].licenseNo == licenseNo && Some(i) != except
      && (liveOnly ==> drivers[i].deletedAt.None?)
  }

  predicate UserTaken(drivers: map<Id, Driver>, userId: Id, liveOnly: bool) {
    exists i :: i in drivers && drivers[i].userId == Some(userId) && (liveOnly ==> drivers[i].deletedAt.None?)
  }
}
