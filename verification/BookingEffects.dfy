/** Which booking requests are accepted and what they store, column by column. */
module BookingEffects {
  import opened Common
  import opened Schema
  import opened Bookings
  import opened AvailabilityEffects

  /** An id of a request body that counts as given. */
  predicate Names(p: Patch<Id>, id: Id) {
    p == Set(id) && id != ""
  }

  ghost predicate KeysExist(db: Db, vehicleId: Id, driverId: Option<Id>) {
    vehicleId in db.vehicles && (driverId != None ==> driverId.value in db.drivers)
  }

  // ── Creation ───────────────────────────────────────────────────────────────

  /**
   * A creation goes through exactly when its dates are in order, vehicle and named driver are free,
   * and its keys hold.
   */
  lemma CreationAcceptedIff(db: Db, tenantId: Id, dto: CreateBooking, newId: Id)
    ensures AfterRequest(db, Create(tenantId, dto), newId).Ok? <==>
      && dto.startDate < dto.endDate
      && !VehicleTaken(db, dto.vehicleId, tenantId, dto.startDate, dto.endDate)
      && (forall d :: Names(dto.driverId, d) ==> !DriverTaken(db, d, tenantId, dto.startDate, dto.endDate))
      && newId !in db.bookings
      && dto.vehicleId in db.vehicles && (forall d :: dto.driverId == Set(d) ==> d in db.drivers)
  {
    if dto.startDate < dto.endDate {
      AvailabilityEffects.VehicleAvailableMeans(db, dto.vehicleId, tenantId, dto.startDate, dto.endDate);
      if dto.driverId.Set? {
        AvailabilityEffects.DriverAvailableMeans(db, dto.driverId.value, tenantId, dto.startDate, dto.endDate);
      }
    }
  }

  /** Bad dates, a taken vehicle or a taken driver, each on its own, refuse with BadRequest. */
  lemma CreationRefused(db: Db, tenantId: Id, dto: CreateBooking, newId: Id)
    requires
      || dto.endDate <= dto.startDate
      || VehicleTaken(db, dto.vehicleId, tenantId, dto.startDate, dto.endDate)
      || exists d :: Names(dto.driverId, d) && DriverTaken(db, d, tenantId, dto.startDate, dto.endDate)
    ensures AfterRequest(db, Create(tenantId, dto), newId) == Err(BadRequest)
  {
    CreationAcceptedIff(db, tenantId, dto, newId);
    if dto.startDate < dto.endDate {
      AvailabilityEffects.VehicleAvailableMeans(db, dto.vehicleId, tenantId, dto.startDate, dto.endDate);
      if dto.driverId.Set? {
        AvailabilityEffects.DriverAvailableMeans(db, dto.driverId.value, tenantId, dto.startDate, dto.endDate);
      }
    }
  }

  /** It adds one PENDING row with the columns of the request and changes nothing else. */
  lemma CreationStores(db: Db, tenantId: Id, dto: CreateBooking, newId: Id, after: Db)
    requires AfterRequest(db, Create(tenantId, dto), newId) == Ok(after)
    ensures after == db.(bookings := after.bookings) && after.bookings.Keys == db.bookings.Keys + {newId}
    ensures forall i :: i in db.bookings ==> i != newId && after.bookings[i] == db.bookings[i]
    ensures var b := after.bookings[newId];
      && b.tenantId == tenantId && b.vehicleId == dto.vehicleId && b.status == PENDING && b.deletedAt == None
      && b.startDate == dto.startDate && b.endDate == dto.endDate
      && (forall d :: dto.driverId == Set(d) ==> b.driverId == Some(d))
      && (!dto.driverId.Set? ==> b.driverId == None)
      && (forall p :: dto.advancePaid == Set(p) ==> b.advancePaid == p)
      && (!dto.advancePaid.Set? ==> b.advancePaid == 0)
  {
  }

  // ── Confirmation and cancellation ──────────────────────────────────────────

  /** The booking can be found by the tenant. */
  predicate Found(db: Db, tenantId: Id, id: Id) {
    id in db.bookings && db.bookings[id].tenantId == tenantId && db.bookings[id].deletedAt == None
  }

  /** A confirmation goes through exactly for a PENDING booking, and changes its status only. */
  lemma ConfirmationEffect(db: Db, tenantId: Id, id: Id, newId: Id)
    ensures var r := AfterRequest(db, Confirm(tenantId, id), newId);
      && (r.Ok? <==> Found(db, tenantId, id) && db.bookings[id].status == PENDING)
      && (r.Ok? ==> r.value == db.(bookings := db.bookings[id := db.bookings[id].(status := CONFIRMED)]))
      && (!Found(db, tenantId, id) ==> r == Err(NotFound))
      && (Found(db, tenantId, id) && db.bookings[id].status != PENDING ==> r == Err(BadRequest))
  {
  }

  /** A cancellation goes through exactly for a PENDING or CONFIRMED booking, and changes its status only. */
  lemma CancellationEffect(db: Db, tenantId: Id, id: Id, newId: Id)
    ensures var r := AfterRequest(db, Cancel(tenantId, id), newId);
      && (r.Ok? <==>
        Found(db, tenantId, id) && (db.bookings[id].status == PENDING || db.bookings[id].status == CONFIRMED))
      && (r.Ok? ==> r.value == db.(bookings := db.bookings[id := db.bookings[id].(status := CANCELLED)]))
      && (!Found(db, tenantId, id) ==> r == Err(NotFound))
      && (r.Err? && Found(db, tenantId, id) ==> r == Err(BadRequest))
  {
  }

  // ── Re-assignment ──────────────────────────────────────────────────────────

  predicate Reassignable(db: Db, tenantId: Id, id: Id) {
    Found(db, tenantId, id) && (db.bookings[id].status == PENDING || db.bookings[id].status == CONFIRMED)
  }

  /** A vehicle is named that the booking does not have, and it is taken on the booking's dates. */
  ghost predicate NewVehicleTaken(db: Db, tenantId: Id, b: Booking, change: AssignDriverVehicle) {
    exists v :: Names(change.vehicleId, v) && v != b.vehicleId && VehicleTaken(db, v, tenantId, b.startDate, b.endDate)
  }

  ghost predicate NewDriverTaken(db: Db, tenantId: Id, b: Booking, change: AssignDriverVehicle) {
    exists d :: Names(change.driverId, d) && b.driverId != Some(d)
      && DriverTaken(db, d, tenantId, b.startDate, b.endDate)
  }

  /** A re-assignment onto a vehicle or a driver that is taken on the booking's own dates is refused. */
  lemma ReassignmentRefused(db: Db, tenantId: Id, id: Id, change: AssignDriverVehicle, newId: Id)
    ensures var r := AfterRequest(db, Assign(tenantId, id, change), newId);
      && (!Found(db, tenantId, id) ==> r == Err(NotFound))
      && (Found(db, tenantId, id) && !Reassignable(db, tenantId, id) ==> r == Err(Forbidden))
      && (Reassignable(db, tenantId, id) && db.bookings[id].startDate < db.bookings[id].endDate
          && (NewVehicleTaken(db, tenantId, db.bookings[id], change)
            || NewDriverTaken(db, tenantId, db.bookings[id], change))
          ==> r == Err(BadRequest))
  {
    if Reassignable(db, tenantId, id) && db.bookings[id].startDate < db.bookings[id].endDate {
      OracleOnDates(db, tenantId, db.bookings[id], change);
    }
  }

  lemma OracleOnDates(db: Db, tenantId: Id, b: Booking, change: AssignDriverVehicle)
    requires b.startDate < b.endDate
    ensures forall id :: VehiclePasses(db, Assign(tenantId, id, change), b) <==>
      !NewVehicleTaken(db, tenantId, b, change)
    ensures forall id :: DriverPasses(db, Assign(tenantId, id, change), b) <==> !NewDriverTaken(db, tenantId, b, change)
  {
    if change.vehicleId.Set? {
      AvailabilityEffects.VehicleAvailableMeans(db, change.vehicleId.value, tenantId, b.startDate, b.endDate);
    }
    if change.driverId.Set? {
      AvailabilityEffects.DriverAvailableMeans(db, change.driverId.value, tenantId, b.startDate, b.endDate);
    }
  }

  /**
   * It goes through exactly when the booking is open, what it newly names is free, nothing required is
   * null and the keys hold.
   */
  lemma ReassignmentAcceptedIff(db: Db, tenantId: Id, id: Id, change: AssignDriverVehicle, newId: Id)
    requires Found(db, tenantId, id) ==> db.bookings[id].startDate < db.bookings[id].endDate
    ensures AfterRequest(db, Assign(tenantId, id, change), newId).Ok? <==>
      && Reassignable(db, tenantId, id)
      && !NewVehicleTaken(db, tenantId, db.bookings[id], change)
      && !NewDriverTaken(db, tenantId, db.bookings[id], change)
      && !change.vehicleId.Null? && !change.advancePaid.Null?
      && (if change.vehicleId.Set? then change.vehicleId.value else db.bookings[id].vehicleId) in db.vehicles
      && (change.driverId.Set? ==> change.driverId.value in db.drivers)
      && (change.driverId.Absent? && db.bookings[id].driverId.Some? ==> db.bookings[id].driverId.value in db.drivers)
  {
    if Found(db, tenantId, id) {
      OracleOnDates(db, tenantId, db.bookings[id], change);
    }
  }

  /** Exactly the named columns change: a value replaces, null clears the driver, an absent column stays. */
  lemma ReassignmentStores(db: Db, tenantId: Id, id: Id, change: AssignDriverVehicle, newId: Id, after: Db)
    requires AfterRequest(db, Assign(tenantId, id, change), newId) == Ok(after)
    ensures after == db.(bookings := after.bookings) && after.bookings.Keys == db.bookings.Keys && id in db.bookings
    ensures forall i :: i in db.bookings && i != id ==> after.bookings[i] == db.bookings[i]
    ensures var (b, a) := (db.bookings[id], after.bookings[id]);
      && (forall v :: change.vehicleId == Set(v) ==> a.vehicleId == v)
      && (!change.vehicleId.Set? ==> a.vehicleId == b.vehicleId)
      && (forall d :: change.driverId == Set(d) ==> a.driverId == Some(d))
      && (change.driverId.Null? ==> a.driverId == None)
      && (change.driverId.Absent? ==> a.driverId == b.driverId)
      && (forall p :: change.advancePaid == Set(p) ==> a.advancePaid == p)
      && (!change.advancePaid.Set? ==> a.advancePaid == b.advancePaid)
      && a.tenantId == b.tenantId && a.status == b.status && a.deletedAt == b.deletedAt
      && a.startDate == b.startDate && a.endDate == b.endDate
  {
  }
}
