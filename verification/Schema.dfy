/** The tables of prisma/schema.prisma that carry the modelled behaviour, as rows keyed by id. */
module Schema {
  import opened Common

  datatype Role = SUPER_ADMIN | ADMIN | EMPLOYEE | DRIVER
  datatype ApprovalStatus = PENDING_APPROVAL | APPROVED | REJECTED | SUSPENDED
  datatype VehicleStatus = AVAILABLE | ON_TRIP | MAINTENANCE | INACTIVE
  datatype BookingStatus = PENDING | CONFIRMED | COMPLETED | CANCELLED

  datatype Tenant = Tenant(isActive: bool, deletedAt: Option<Time>)

  datatype Branch = Branch(tenantId: Id, name: string, deletedAt: Option<Time>)

  datatype User = User(
    tenantId: Id,
    branchId: Option<Id>,
    email: string,
    role: Role,
    approvalStatus: ApprovalStatus,
    isActive: bool,
    deletedAt: Option<Time>)

  datatype UserBranch = UserBranch(tenantId: Id, userId: Id, branchId: Id)

  datatype Vehicle = Vehicle(
    tenantId: Id,
    branchId: Option<Id>,
    registrationNo: string,
    status: VehicleStatus,
    deletedAt: Option<Time>)

  datatype Driver = Driver(
    tenantId: Id,
    branchId: Option<Id>,
    userId: Option<Id>,
    phone: string,
    licenseNo: string,
    isAvailable: bool,
    deletedAt: Option<Time>)

  datatype Assignment = Assignment(
    vehicleId: Id,
    driverId: Id,
    startDate: Time,
    endDate: Option<Time>,
    deletedAt: Option<Time>)

  datatype Booking = Booking(
    tenantId: Id,
    vehicleId: Id,
    driverId: Option<Id>,
    startDate: Time,
    endDate: Time,
    status: BookingStatus,
    advancePaid: int,
    deletedAt: Option<Time>)

  datatype Trip = Trip(
    tenantId: Id,
    vehicleId: Id,
    driverId: Id,
    startTime: Time,
    endTime: Option<Time>,
    distance: int,
    income: int,
    tollCost: int,
    policeCost: int,
    deletedAt: Option<Time>)

  datatype MaintenanceLog = MaintenanceLog(
    tenantId: Id,
    vehicleId: Id,
    totalCost: int,
    date: Time,
    deletedAt: Option<Time>)

  /** One state of the database. */
  datatype Db = Db(
    tenants: map<Id, Tenant>,
    branches: map<Id, Branch>,
    users: map<Id, User>,
    userBranches: set<UserBranch>,
    vehicles: map<Id, Vehicle>,
    drivers: map<Id, Driver>,
    assignments: map<Id, Assignment>,
    bookings: map<Id, Booking>,
    trips: map<Id, Trip>,
    maintenanceLogs: map<Id, MaintenanceLog>)

  const EMPTY_DB := Db(map[], map[], map[], {}, map[], map[], map[], map[], map[], map[])

  /** The row a `findFirst({ id, tenantId, deletedAt: null })` on vehicles would return. */
  predicate LiveVehicle(vehicles: map<Id, Vehicle>, tenantId: Id, id: Id) {
    id in vehicles && vehicles[id].tenantId == tenantId && vehicles[id].deletedAt.None?
  }

  predicate LiveDriver(drivers: map<Id, Driver>, tenantId: Id, id: Id) {
    id in drivers && drivers[id].tenantId == tenantId && drivers[id].deletedAt.None?
  }

  predicate LiveBranch(branches: map<Id, Branch>, tenantId: Id, id: Id) {
    id in branches && branches[id].tenantId == tenantId && branches[id].deletedAt.None?
  }

  predicate LiveUser(users: map<Id, User>, tenantId: Id, id: Id) {
    id in users && users[id].tenantId == tenantId && users[id].deletedAt.None?
  }

  /** The unique indexes on `User.email` and `Driver.userId`. */
  ghost predicate EmailsUnique(users: map<Id, User>) {
    forall i, j :: i in users && j in users && users[i].email == users[j].email ==> i == j
  }

  ghost predicate DriverUsersUnique(drivers: map<Id, Driver>) {
    forall i, j ::
      i in drivers && j in drivers && drivers[i].userId.Some? && drivers[i].userId == drivers[j].userId ==> i == j
  }

  /** The unique index on `Vehicle.registrationNo`. */
  ghost predicate PlatesUnique(vehicles: map<Id, Vehicle>) {
    forall i, j :: i in vehicles && j in vehicles && vehicles[i].registrationNo == vehicles[j].registrationNo ==> i == j
  }

  ghost predicate Indexed(db: Db) {
    EmailsUnique(db.users) && DriverUsersUnique(db.drivers)
  }

  /** A nullable foreign key to branches. */
  predicate BranchKeyHolds(branches: map<Id, Branch>, branchId: Option<Id>) {
    branchId.Some? ==> branchId.value in branches
  }

  /** A patch of a branch relation: connect a non-empty id, disconnect on null or empty, otherwise leave. */
  function PatchedBranch(branchId: Option<Id>, patch: Patch<Id>): Option<Id> {
    if patch.Absent? then branchId else if Truthy(patch) then Some(patch.value) else None
  }

  /** The Prisma client: the tables as fields that the services update in place. */
  class Database {
    var tenants: map<Id, Tenant>
    var branches: map<Id, Branch>
    var users: map<Id, User>
    var userBranches: set<UserBranch>
    var vehicles: map<Id, Vehicle>
    var drivers: map<Id, Driver>
    var assignments: map<Id, Assignment>
    var bookings: map<Id, Booking>
    var trips: map<Id, Trip>
    var maintenanceLogs: map<Id, MaintenanceLog>

    constructor ()
      ensures Snapshot() == EMPTY_DB && Valid()
    {
      tenants, branches, users, userBranches := map[], map[], map[], {};
      vehicles, drivers, assignments := map[], map[], map[];
      bookings, trips, maintenanceLogs := map[], map[], map[];
    }

    /** The state of all tables as one value. */
    ghost function Snapshot(): Db
      reads this
    {
      Db(tenants, branches, users, userBranches, vehicles, drivers, assignments, bookings, trips, maintenanceLogs)
    }

    ghost predicate Valid()
      reads this
    {
      Indexed(Snapshot())
    }
  }

  /** The state after a call: a refused call changes nothing. */
  function Settle(db: Db, outcome: Result<Db>): Db {
    if outcome.Ok? then outcome.value else db
  }

  /**
   * What a service call must do, given the state its specification yields:
   * reach exactly that state, or report the error and leave every table as it was.
   */
  ghost predicate Realises(spec: Result<Db>, before: Db, after: Db, outcome: Result<()>) {
    match spec
    case Ok(db) => outcome == Ok(()) && after == db
    case Err(e) => outcome == Err(e) && after == before
  }
}
