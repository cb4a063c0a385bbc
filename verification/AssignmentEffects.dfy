/** Which assignment calls are accepted and what they store, told by instants and columns. */
module AssignmentEffects {
  import opened Common
  import opened Schema
  import opened Assignments
  import Intervals
  import System
  import Trips

  /** The instant lies in the range, both ends included; without an end it goes on for ever. */
  predicate Contains(start: Time, end: Option<Time>, x: Time) {
    start <= x && (end == None || x <= end.value)
  }

  /** The two ranges share an instant. */
  ghost predicate Meets(a: Assignment, start: Time, end: Option<Time>) {
    exists x: Time :: Contains(a.startDate, a.endDate, x) && Contains(start, end, x)
  }

  /** No stored range ends before it starts. */
  ghost predicate RangesPositive(db: Db) {
    forall i :: i in db.assignments && db.assignments[i].endDate != None ==>
      db.assignments[i].startDate < db.assignments[i].endDate.value
  }

  lemma AssignmentCallKeepsRanges(db: Db, c: Call, now: Time, after: Db)
    requires RangesPositive(db) && Outcome(db, c, now) == Ok(after)
    ensures RangesPositive(after)
  {
    match c
    case Create(_, _, _) =>
    case Update(_, _, _) =>
    case Remove(_, _) =>
  }

  /** Every call of every service keeps that, so it holds in every run from the empty database. */
  lemma CallKeepsRanges(db: Db, e: System.Event)
    requires RangesPositive(db)
    ensures RangesPositive(System.Step(db, e))
  {
    if System.Outcome(db, e).Ok? {
      if e.op.OnAssignments? {
        AssignmentCallKeepsRanges(db, e.op.assignment, e.now, System.Step(db, e));
      } else {
        System.CallWrites(db, e, System.Step(db, e));
      }
    }
  }

  predicate Exists(db: Db, tenantId: Id, vehicleId: Id, driverId: Id) {
    OwnVehicle(db, tenantId, vehicleId) && OwnDriver(db, tenantId, driverId)
  }

  predicate OwnVehicle(db: Db, tenantId: Id, id: Id) {
    id in db.vehicles && db.vehicles[id].tenantId == tenantId && db.vehicles[id].deletedAt == None
  }

  predicate OwnDriver(db: Db, tenantId: Id, id: Id) {
    id in db.drivers && db.drivers[id].tenantId == tenantId && db.drivers[id].deletedAt == None
  }

  // ── Creation ───────────────────────────────────────────────────────────────

  /** The end a creation asks for; null and absent both leave it open. */
  function EndOf(dto: CreateAssignment): Option<Time> {
    match dto.endDate
    case Set(t) => Some(t)
    case _ => None
  }

  /** A live assignment of the vehicle or of the driver asked for. */
  predicate Rivals(a: Assignment, dto: CreateAssignment) {
    a.deletedAt == None && (a.vehicleId == dto.vehicleId || a.driverId == dto.driverId)
  }

  /** A creation goes through exactly when no live assignment of its vehicle or its driver shares an instant with it. */
  lemma CreationAcceptedIff(db: Db, tenantId: Id, dto: CreateAssignment, newId: Id)
    requires RangesPositive(db)
    ensures AfterCreateAssignment(db, tenantId, dto, newId).Ok? <==>
      && (EndOf(dto) != None ==> dto.startDate < EndOf(dto).value)
      && Exists(db, tenantId, dto.vehicleId, dto.driverId)
      && (forall i :: i in db.assignments && Rivals(db.assignments[i], dto) ==>
            !Meets(db.assignments[i], dto.startDate, EndOf(dto)))
      && newId !in db.assignments
  {
    if EndOf(dto) == None || dto.startDate < EndOf(dto).value {
      forall i | i in db.assignments
        ensures Meets(db.assignments[i], dto.startDate, EndOf(dto)) <==>
          Intervals.Touches(db.assignments[i].startDate, db.assignments[i].endDate, dto.startDate, dto.endDate.OrNull())
      {
        MeetsIsTouches(db.assignments[i], dto.startDate, EndOf(dto));
      }
    }
  }

  lemma MeetsIsTouches(a: Assignment, start: Time, end: Option<Time>)
    requires a.endDate != None ==> a.startDate <= a.endDate.value
    requires end != None ==> start <= end.value
    ensures Meets(a, start, end) <==> Intervals.Touches(a.startDate, a.endDate, start, end)
  {
    var x := if a.startDate < start then start else a.startDate;
    if Intervals.Touches(a.startDate, a.endDate, start, end) {
      assert Contains(a.startDate, a.endDate, x) && Contains(start, end, x);
    }
  }

  /** It adds one live row with the columns of the request and changes nothing else. */
  lemma CreationStores(db: Db, tenantId: Id, dto: CreateAssignment, newId: Id, after: Db)
    requires AfterCreateAssignment(db, tenantId, dto, newId) == Ok(after)
    ensures newId !in db.assignments
    ensures after == db.(assignments :=
      db.assignments[newId := Assignment(dto.vehicleId, dto.driverId, dto.startDate, EndOf(dto), None)])
  {
  }

  // ── Update and removal ─────────────────────────────────────────────────────

  /** A live assignment of a vehicle of the tenant. */
  predicate Found(db: Db, tenantId: Id, id: Id) {
    && id in db.assignments && db.assignments[id].deletedAt == None
    && db.assignments[id].vehicleId in db.vehicles && db.vehicles[db.assignments[id].vehicleId].tenantId == tenantId
  }

  /** An id is sent that is not empty. */
  predicate Names(p: Patch<Id>, id: Id) {
    p == Set(id) && id != ""
  }

  /** An accepted update stores what was sent where something was sent, and the old columns elsewhere. */
  lemma UpdateStores(db: Db, tenantId: Id, id: Id, dto: UpdateAssignment, after: Db)
    requires AfterUpdateAssignment(db, tenantId, id, dto) == Ok(after)
    ensures after == db.(assignments := after.assignments) && after.assignments.Keys == db.assignments.Keys
    ensures Found(db, tenantId, id) && forall i :: i in db.assignments && i != id ==>
      after.assignments[i] == db.assignments[i]
    ensures var (a, stored) := (db.assignments[id], after.assignments[id]);
      && (forall v :: Names(dto.vehicleId, v) ==> stored.vehicleId == v)
      && ((forall v :: !Names(dto.vehicleId, v)) ==> stored.vehicleId == a.vehicleId)
      && (forall d :: Names(dto.driverId, d) ==> stored.driverId == d)
      && ((forall d :: !Names(dto.driverId, d)) ==> stored.driverId == a.driverId)
      && (forall t :: dto.startDate == Set(t) ==> stored.startDate == t)
      && (!dto.startDate.Set? ==> stored.startDate == a.startDate)
      && (forall t :: dto.endDate == Set(t) ==> stored.endDate == Some(t))
      && (dto.endDate.Null? ==> stored.endDate == None)
      && (dto.endDate.Absent? ==> stored.endDate == a.endDate)
      && stored.deletedAt == None
      && (stored.endDate != None ==> stored.startDate < stored.endDate.value)
      && (stored.vehicleId == a.vehicleId || OwnVehicle(db, tenantId, stored.vehicleId))
      && (stored.driverId == a.driverId || OwnDriver(db, tenantId, stored.driverId))
  {
    assert dto.vehicleId.Set? && dto.vehicleId.value != "" ==> Names(dto.vehicleId, dto.vehicleId.value);
    assert dto.driverId.Set? && dto.driverId.value != "" ==> Names(dto.driverId, dto.driverId.value);
  }

  /** A driver named in an accepted update may from then on start the row's vehicle at every instant of its range. */
  lemma NamedDriverMayDrive(db: Db, tenantId: Id, id: Id, dto: UpdateAssignment, after: Db, d: Id, t: Time)
    requires AfterUpdateAssignment(db, tenantId, id, dto) == Ok(after) && Names(dto.driverId, d)
    requires id in after.assignments && Contains(after.assignments[id].startDate, after.assignments[id].endDate, t)
    ensures Trips.MayDrive(after.assignments, d, after.assignments[id].vehicleId, t)
    ensures d == db.assignments[id].driverId || OwnDriver(db, tenantId, d)
  {
    UpdateStores(db, tenantId, id, dto, after);
    assert after.assignments[id].driverId == d;
  }

  /** A vehicle named in one may be started by the row's driver. */
  lemma NamedVehicleMayBeDriven(db: Db, tenantId: Id, id: Id, dto: UpdateAssignment, after: Db, v: Id, t: Time)
    requires AfterUpdateAssignment(db, tenantId, id, dto) == Ok(after) && Names(dto.vehicleId, v)
    requires id in after.assignments && Contains(after.assignments[id].startDate, after.assignments[id].endDate, t)
    ensures Trips.MayDrive(after.assignments, after.assignments[id].driverId, v, t)
    ensures v == db.assignments[id].vehicleId || OwnVehicle(db, tenantId, v)
  {
    UpdateStores(db, tenantId, id, dto, after);
    assert after.assignments[id].vehicleId == v;
  }

  /** The range an update leaves: what was sent, and the old dates elsewhere. */
  predicate RangeAccepted(a: Assignment, dto: UpdateAssignment) {
    var start := if dto.startDate.Set? then dto.startDate.value else a.startDate;
    match dto.endDate
    case Set(end) => start < end
    case Null => true
    case Absent => a.endDate == None || start < a.endDate.value
  }

  /** Exactly which updates go through; no overlap is asked about. */
  lemma UpdateAcceptedIff(db: Db, tenantId: Id, id: Id, dto: UpdateAssignment)
    ensures var r := AfterUpdateAssignment(db, tenantId, id, dto);
      && (r.Ok? <==>
            && Found(db, tenantId, id) && RangeAccepted(db.assignments[id], dto)
            && (forall v :: Names(dto.vehicleId, v) && v != db.assignments[id].vehicleId ==>
              OwnVehicle(db, tenantId, v))
            && (forall d :: Names(dto.driverId, d) && d != db.assignments[id].driverId ==> OwnDriver(db, tenantId, d)))
      && (!Found(db, tenantId, id) ==> r == Err(NotFound))
      && (Found(db, tenantId, id) && !RangeAccepted(db.assignments[id], dto) ==> r == Err(BadRequest))
  {
    assert dto.vehicleId.Set? && dto.vehicleId.value != "" ==> Names(dto.vehicleId, dto.vehicleId.value);
    assert dto.driverId.Set? && dto.driverId.value != "" ==> Names(dto.driverId, dto.driverId.value);
  }

  /** A removal goes through exactly for such a row, stamps it as deleted now and changes nothing else. */
  lemma RemovalEffect(db: Db, tenantId: Id, id: Id, now: Time)
    ensures var r := AfterRemoveAssignment(db, tenantId, id, now);
      if Found(db, tenantId, id)
      then r == Ok(db.(assignments := db.assignments[id := db.assignments[id].(deletedAt := Some(now))]))
      else r == Err(NotFound)
  {
  }

  predicate SamePair(a: Assignment, b: Assignment) {
    a.vehicleId == b.vehicleId && a.driverId == b.driverId
  }

  /** A removed driver may no longer start the vehicle on the strength of that row. */
  lemma RemovedShiftIsOver(db: Db, tenantId: Id, id: Id, now: Time, after: Db, t: Time)
    requires AfterRemoveAssignment(db, tenantId, id, now) == Ok(after)
    requires forall i :: i in db.assignments && i != id && SamePair(db.assignments[i], db.assignments[id]) ==>
      db.assignments[i].deletedAt != None
    ensures !Trips.MayDrive(after.assignments, db.assignments[id].driverId, db.assignments[id].vehicleId, t)
  {
  }
}
