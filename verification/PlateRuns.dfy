/** Registration numbers in every run of the system: no two vehicles, deleted or not, ever share one. */
module PlateRuns {
  import opened Common
  import opened Schema
  import opened System
  import Vehicles
  import Branches
  import Trips

  lemma SamePlatesStayUnique(before: map<Id, Vehicle>, after: map<Id, Vehicle>)
    requires PlatesUnique(before) && after.Keys == before.Keys
    requires forall i :: i in before ==> after[i].registrationNo == before[i].registrationNo
    ensures PlatesUnique(after)
  {
    forall i, j | i in after && j in after && after[i].registrationNo == after[j].registrationNo
      ensures i == j
    {
      assert before[i].registrationNo == before[j].registrationNo;
    }
  }

  /** A new plate is unique when the index test found nobody else with it. */
  lemma FreshPlateStaysUnique(vehicles: map<Id, Vehicle>, id: Id, v: Vehicle)
    requires PlatesUnique(vehicles) && !Vehicles.PlateIndexed(vehicles, v.registrationNo, Some(id))
    ensures PlatesUnique(vehicles[id := v])
  {
    var after := vehicles[id := v];
    forall i | i in vehicles && i != id
      ensures vehicles[i].registrationNo != v.registrationNo
    {
      assert Some(i) != Some(id);
    }
    forall i, j | i in after && j in after && after[i].registrationNo == after[j].registrationNo
      ensures i == j
    {
    }
  }

  lemma VehicleCallKeepsPlates(db: Db, c: Vehicles.Call, now: Time, after: Db)
    requires PlatesUnique(db.vehicles) && Vehicles.Outcome(db, c, now) == Ok(after)
    ensures PlatesUnique(after.vehicles)
  {
    match c
    case Create(_, _, newId) => FreshPlateStaysUnique(db.vehicles, newId, after.vehicles[newId]);
    case CreateByContract(_, _, _, _, _, newId) => FreshPlateStaysUnique(db.vehicles, newId, after.vehicles[newId]);
    case Update(_, id, change) =>
      if change.registrationNo.Set? {
        FreshPlateStaysUnique(db.vehicles, id, after.vehicles[id]);
      } else {
        SamePlatesStayUnique(db.vehicles, after.vehicles);
      }
    case Remove(_, _) => SamePlatesStayUnique(db.vehicles, after.vehicles);
  }

  lemma TripCallKeepsPlates(db: Db, c: Trips.Call, now: Time, after: Db)
    requires PlatesUnique(db.vehicles) && Trips.Outcome(db, c, now) == Ok(after)
    ensures PlatesUnique(after.vehicles)
  {
    match c
    case Start(_, _, _, _) => SamePlatesStayUnique(db.vehicles, after.vehicles);
    case End(_, _, _, _, _) => SamePlatesStayUnique(db.vehicles, after.vehicles);
    case Update(_, _, _) =>
  }

  lemma StepKeepsPlates(db: Db, e: Event)
    requires PlatesUnique(db.vehicles)
    ensures PlatesUnique(Step(db, e).vehicles)
  {
    if Outcome(db, e).Ok? {
      var after := Step(db, e);
      CallWrites(db, e, after);
      if e.op.OnVehicles? {
        VehicleCallKeepsPlates(db, e.op.vehicle, e.now, after);
      } else if e.op.OnTrips? {
        TripCallKeepsPlates(db, e.op.trip, e.now, after);
      } else if e.op.OnBranches? {
        Branches.CallKeepsRows(db, e.op.branch, e.now, after);
        SamePlatesStayUnique(db.vehicles, after.vehicles);
      }
    }
  }

  lemma {:induction false} PlatesStayUnique(db: Db, events: seq<Event>)
    requires PlatesUnique(db.vehicles)
    ensures PlatesUnique(Run(db, events).vehicles)
    decreases |events|
  {
    if events != [] {
      StepKeepsPlates(db, events[0]);
      PlatesStayUnique(Step(db, events[0]), events[1..]);
    }
  }
}
