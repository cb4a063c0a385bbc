/** Exclusivity of assignments: which updates keep it, and what it gives at any instant. */
module AssignmentRuns {
  import opened Common
  import opened Intervals
  import opened Schema
  import opened System
  import Assignments
  import Trips

  /** Two live rows that may not share an instant. */
  predicate Compete(a: Assignment, b: Assignment) {
    a.deletedAt.None? && b.deletedAt.None? && (a.vehicleId == b.vehicleId || a.driverId == b.driverId)
  }

  predicate Meet(a: Assignment, b: Assignment) {
    Touches(a.startDate, a.endDate, b.startDate, b.endDate)
  }

  /** Live assignments of one vehicle, and of one driver, are pairwise disjoint; every range has positive length. */
  ghost predicate Exclusive(assignments: map<Id, Assignment>) {
    && (forall i, j :: i in assignments && j in assignments && i != j && Compete(assignments[i], assignments[j]) ==>
          !Meet(assignments[i], assignments[j]))
    && (forall i :: i in assignments && assignments[i].endDate.Some? ==>
      assignments[i].startDate < assignments[i].endDate.value)
  }

  /** The overlap queries of `create`, asked about a row that is already stored under `id`. */
  predicate PassesCreateFilters(assignments: map<Id, Assignment>, id: Id, a: Assignment) {
    && !Assignments.VehicleAssigned(assignments, a.vehicleId, a.startDate, a.endDate, Some(id))
    && !Assignments.DriverAssigned(assignments, a.driverId, a.startDate, a.endDate, Some(id))
  }

  /** Storing a live row keeps exclusivity exactly when it passes the filters of `create`. */
  lemma StoringIsExclusiveIff(assignments: map<Id, Assignment>, id: Id, a: Assignment)
    requires Exclusive(assignments) && a.deletedAt.None?
    requires a.endDate.Some? ==> a.startDate < a.endDate.value
    ensures Exclusive(assignments[id := a]) <==> PassesCreateFilters(assignments, id, a)
  {
    var after := assignments[id := a];
    forall i | i in assignments && i != id
      ensures Meet(assignments[i], a) == Meet(a, assignments[i])
    {
    }
    if Exclusive(after) {
      forall i | i in assignments && i != id && Compete(assignments[i], a)
        ensures !Meet(assignments[i], a)
      {
        assert after[i] == assignments[i] && after[id] == a;
      }
    }
  }

  lemma DeletingKeepsExclusive(assignments: map<Id, Assignment>, id: Id, now: Time)
    requires Exclusive(assignments) && id in assignments
    ensures Exclusive(assignments[id := assignments[id].(deletedAt := Some(now))])
  {
  }

  /** The update keeps the vehicle and the driver and only narrows the range. */
  predicate Narrows(before: Assignment, after: Assignment) {
    && after.vehicleId == before.vehicleId && after.driverId == before.driverId
    && Within(after.startDate, after.endDate, before.startDate, before.endDate)
  }

  /** A narrowing update always passes the filters. */
  lemma NarrowingPasses(assignments: map<Id, Assignment>, id: Id, a: Assignment)
    requires Exclusive(assignments) && id in assignments && assignments[id].deletedAt.None?
      && Narrows(assignments[id], a)
    ensures PassesCreateFilters(assignments, id, a)
  {
    forall i | i in assignments && i != id && Compete(assignments[i], assignments[id])
      ensures !Meet(assignments[i], a)
    {
      assert !Meet(assignments[i], assignments[id]);
    }
  }

  // ── One call ───────────────────────────────────────────────────────────────

  /** The guard that `update` lacks: the update narrows, or would pass the filters of `create`. */
  predicate Guarded(db: Db, op: Op) {
    op.OnAssignments? && op.assignment.Update? && op.assignment.id in db.assignments ==>
      var a := Assignments.Patched(db.assignments[op.assignment.id], op.assignment.change);
      Narrows(db.assignments[op.assignment.id], a) || PassesCreateFilters(db.assignments, op.assignment.id, a)
  }

  /** Creation and removal always keep exclusivity; an update keeps it if and only if the guard holds. */
  lemma CallIsExclusiveIff(db: Db, c: Assignments.Call, now: Time, after: Db)
    requires Exclusive(db.assignments) && Assignments.Outcome(db, c, now) == Ok(after)
    ensures Exclusive(after.assignments) <==> Guarded(db, OnAssignments(c))
  {
    match c
    case Create(_, dto, newId) =>
      StoringIsExclusiveIff(db.assignments, newId, after.assignments[newId]);
      forall i | i in db.assignments
        ensures Some(i) != Some(newId)
      {
      }
    case Update(_, id, change) =>
      StoringIsExclusiveIff(db.assignments, id, after.assignments[id]);
      if Narrows(db.assignments[id], after.assignments[id]) {
        NarrowingPasses(db.assignments, id, after.assignments[id]);
      }
    case Remove(_, id) =>
      DeletingKeepsExclusive(db.assignments, id, now);
  }

  /** An update that neither narrows nor passes the filters. */
  ghost predicate Widens(db: Db, op: Op) {
    !Guarded(db, op)
  }

  ghost predicate AssignmentsExclusive(db: Db) {
    Exclusive(db.assignments)
  }

  /** Exactly which successful calls of any service keep exclusivity. */
  lemma SystemCallIsExclusiveIff(db: Db, e: Event, after: Db)
    requires AssignmentsExclusive(db) && Outcome(db, e) == Ok(after)
    ensures AssignmentsExclusive(after) <==> !Widens(db, e.op)
  {
    if e.op.OnAssignments? {
      CallIsExclusiveIff(db, e.op.assignment, e.now, after);
    } else {
      CallWrites(db, e, after);
    }
  }

  // ── Runs ───────────────────────────────────────────────────────────────────

  /**
   * In any run of all services live assignments stay exclusive in every state, if and only if
   * every accepted update narrows or passes the filters of `create`.
   */
  lemma {:induction false} AssignmentsStayExclusive(db: Db, events: seq<Event>)
    requires AssignmentsExclusive(db)
    ensures Always(db, events, AssignmentsExclusive) <==> Avoids(db, events, Widens)
    decreases |events|
  {
    if events != [] {
      var next := Step(db, events[0]);
      if Outcome(db, events[0]).Ok? {
        SystemCallIsExclusiveIff(db, events[0], next);
      }
      if AssignmentsExclusive(next) {
        AssignmentsStayExclusive(next, events[1..]);
      }
    }
  }

  /** Under exclusivity, at any instant a vehicle has one driver who may start it, and a driver one vehicle to start. */
  lemma OneDriverOneVehicle(assignments: map<Id, Assignment>, d1: Id, v1: Id, d2: Id, v2: Id, t: Time)
    requires Exclusive(assignments)
    requires Trips.MayDrive(assignments, d1, v1, t) && Trips.MayDrive(assignments, d2, v2, t)
    ensures d1 == d2 <==> v1 == v2
  {
    var i :| i in assignments && assignments[i].vehicleId == v1 && assignments[i].driverId == d1
      && assignments[i].deletedAt.None? && Covers(assignments[i].startDate, assignments[i].endDate, t);
    var j :| j in assignments && assignments[j].vehicleId == v2 && assignments[j].driverId == d2
      && assignments[j].deletedAt.None? && Covers(assignments[j].startDate, assignments[j].endDate, t);
    assert Meet(assignments[i], assignments[j]);
  }
}
