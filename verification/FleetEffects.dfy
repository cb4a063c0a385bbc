/** Which vehicle, driver and branch calls are accepted and what they store, column by column. */
module FleetEffects {
  import opened Common
  import opened Schema
  import Vehicles
  import Drivers
  import Branches

  /** The id names a branch of the tenant that is not deleted. */
  predicate OwnBranch(db: Db, tenantId: Id, id: Id) {
    id in db.branches && db.branches[id].tenantId == tenantId && db.branches[id].deletedAt == None
  }

  /** A branch sent with a creation must be an own branch; nothing, or null, is no branch. */
  ghost predicate BranchWelcome(db: Db, tenantId: Id, branchId: Patch<Id>) {
    forall b :: branchId == Set(b) ==> OwnBranch(db, tenantId, b)
  }

  /** A branch sent with an update must be an own branch, or empty to disconnect. */
  ghost predicate PatchWelcome(db: Db, tenantId: Id, branchId: Patch<Id>) {
    forall b :: branchId == Set(b) && b != "" ==> OwnBranch(db, tenantId, b)
  }

  /** What a branch patch makes of a reference. */
  ghost predicate LinkPatched(was: Option<Id>, branchId: Patch<Id>, stored: Option<Id>) {
    && (forall b :: branchId == Set(b) && b != "" ==> stored == Some(b))
    && (branchId == Null || branchId == Set("") ==> stored == None)
    && (branchId == Absent ==> stored == was)
  }

  /** No branch has the empty id. */
  predicate NoEmptyId(db: Db) {
    "" !in db.branches
  }

  // ── Vehicles ───────────────────────────────────────────────────────────────

  ghost predicate PlateFree(db: Db, plate: string) {
    forall i :: i in db.vehicles ==> db.vehicles[i].registrationNo != plate
  }

  /** A live vehicle has the plate. */
  ghost predicate PlateHeld(db: Db, plate: string) {
    exists i :: i in db.vehicles && db.vehicles[i].registrationNo == plate && db.vehicles[i].deletedAt == None
  }

  /** A contract is in order when it has both dates and they are in order. */
  predicate ContractInOrder(dto: Vehicles.CreateVehicle) {
    dto.contractual ==> dto.contract != None && dto.contract.value.0 < dto.contract.value.1
  }

  /** A vehicle is created exactly with a plate no vehicle ever had, an own branch or none, and a contract in order. */
  lemma VehicleCreation(db: Db, tenantId: Id, dto: Vehicles.CreateVehicle, newId: Id)
    requires NoEmptyId(db)
    ensures var r := Vehicles.AfterCreateVehicle(db, tenantId, dto, newId);
      && (r.Ok? <==>
            && PlateFree(db, dto.registrationNo) && BranchWelcome(db, tenantId, dto.branchId)
            && ContractInOrder(dto) && newId !in db.vehicles)
      && (r.Ok? ==> r.value == db.(vehicles :=
            db.vehicles[newId := Vehicle(tenantId, dto.branchId.OrNull(), dto.registrationNo, AVAILABLE, None)]))
      && (PlateHeld(db, dto.registrationNo) ==> r == Err(Conflict))
      && (!PlateHeld(db, dto.registrationNo) && !PatchWelcome(db, tenantId, dto.branchId) ==> r == Err(NotFound))
  {
  }

  /** The same for a vehicle that comes with a source contract. */
  lemma ContractVehicleCreation(db: Db, tenantId: Id, start: Time, end: Time, plate: string, branchId: Patch<Id>,
    newId: Id)
    requires NoEmptyId(db)
    ensures var r := Vehicles.AfterCreateContractVehicle(db, tenantId, start, end, plate, branchId, newId);
      && (r.Ok? <==>
        start < end && PlateFree(db, plate) && BranchWelcome(db, tenantId, branchId) && newId !in db.vehicles)
      && (r.Ok? ==> r.value == db.(vehicles :=
            db.vehicles[newId := Vehicle(tenantId, branchId.OrNull(), plate, AVAILABLE, None)]))
  {
  }

  predicate OwnVehicle(db: Db, tenantId: Id, id: Id) {
    id in db.vehicles && db.vehicles[id].tenantId == tenantId && db.vehicles[id].deletedAt == None
  }

  /** Something is sent at all, and nothing required is null. */
  predicate VehiclePatchInOrder(dto: Vehicles.UpdateVehicle) {
    && dto != Vehicles.UpdateVehicle(Absent, Absent, Absent, false)
    && dto.registrationNo != Null && dto.status != Null
  }

  /** Which vehicle patches go through: never onto the plate of another vehicle, deleted or not. */
  lemma VehiclePatchAcceptedIff(db: Db, tenantId: Id, id: Id, dto: Vehicles.UpdateVehicle)
    ensures Vehicles.AfterUpdateVehicle(db, tenantId, id, dto).Ok? <==>
      && OwnVehicle(db, tenantId, id) && VehiclePatchInOrder(dto) && PatchWelcome(db, tenantId, dto.branchId)
      && forall p, i :: dto.registrationNo == Set(p) && i in db.vehicles && db.vehicles[i].registrationNo == p ==>
        i == id
  {
    forall i | i in db.vehicles
      ensures Some(i) != Some(id) <==> i != id
    {
    }
  }

  /** Exactly the named columns change. */
  lemma VehiclePatchStores(db: Db, tenantId: Id, id: Id, dto: Vehicles.UpdateVehicle, after: Db)
    requires Vehicles.AfterUpdateVehicle(db, tenantId, id, dto) == Ok(after)
    ensures id in db.vehicles && id in after.vehicles
    ensures after == db.(vehicles := db.vehicles[id := after.vehicles[id]])
    ensures var (v, stored) := (db.vehicles[id], after.vehicles[id]);
      && (forall p :: dto.registrationNo == Set(p) ==> stored.registrationNo == p)
      && (dto.registrationNo == Absent ==> stored.registrationNo == v.registrationNo)
      && (forall s :: dto.status == Set(s) ==> stored.status == s)
      && (dto.status == Absent ==> stored.status == v.status)
      && LinkPatched(v.branchId, dto.branchId, stored.branchId)
      && stored.tenantId == v.tenantId && stored.deletedAt == None
  {
  }

  /** A removal stamps a live vehicle of the tenant as deleted now, and nothing else. */
  lemma VehicleRemoval(db: Db, tenantId: Id, id: Id, now: Time)
    ensures Vehicles.AfterRemoveVehicle(db, tenantId, id, now) ==
      if OwnVehicle(db, tenantId, id)
      then Ok(db.(vehicles := db.vehicles[id := db.vehicles[id].(deletedAt := Some(now))]))
      else Err(NotFound)
  {
  }

  // ── Drivers ────────────────────────────────────────────────────────────────

  /** No driver, deleted or not, has the phone, the licence or the account. */
  ghost predicate DriverNew(db: Db, dto: Drivers.CreateDriver) {
    forall i :: i in db.drivers ==>
      && db.drivers[i].phone != dto.phone && db.drivers[i].licenseNo != dto.licenseNo
      && (forall u :: dto.userId == Set(u) ==> db.drivers[i].userId != Some(u))
  }

  /**
   * A driver is created exactly with phone, licence and account of its own; the account is a live one
   * of the tenant.
   */
  lemma DriverCreation(db: Db, tenantId: Id, dto: Drivers.CreateDriver, newId: Id)
    requires NoEmptyId(db) && "" !in db.users
    ensures var r := Drivers.AfterCreateDriver(db, tenantId, dto, newId);
      && (r.Ok? <==>
            && DriverNew(db, dto) && BranchWelcome(db, tenantId, dto.branchId) && newId !in db.drivers
            && (forall u :: dto.userId == Set(u) ==>
                  u in db.users && db.users[u].tenantId == tenantId && db.users[u].deletedAt == None))
      && (r.Ok? ==> r.value == db.(drivers := db.drivers[newId :=
            Driver(tenantId, dto.branchId.OrNull(), dto.userId.OrNull(), dto.phone, dto.licenseNo, true, None)]))
  {
  }

  predicate OwnDriver(db: Db, tenantId: Id, id: Id) {
    id in db.drivers && db.drivers[id].tenantId == tenantId && db.drivers[id].deletedAt == None
  }

  predicate DriverPatchInOrder(dto: Drivers.UpdateDriver) {
    && dto != Drivers.UpdateDriver(Absent, Absent, Absent, Absent, false)
    && dto.phone != Null && dto.licenseNo != Null && dto.isAvailable != Null
  }

  /** Which driver patches go through: never onto the phone or licence of another driver, deleted or not. */
  lemma DriverPatchAcceptedIff(db: Db, tenantId: Id, id: Id, dto: Drivers.UpdateDriver)
    ensures Drivers.AfterUpdateDriver(db, tenantId, id, dto).Ok? <==>
      && OwnDriver(db, tenantId, id) && DriverPatchInOrder(dto) && PatchWelcome(db, tenantId, dto.branchId)
      && (forall p, i :: dto.phone == Set(p) && i in db.drivers && db.drivers[i].phone == p ==> i == id)
      && (forall l, i :: dto.licenseNo == Set(l) && i in db.drivers && db.drivers[i].licenseNo == l ==> i == id)
  {
    forall i | i in db.drivers
      ensures Some(i) != Some(id) <==> i != id
    {
    }
  }

  /** Exactly the named columns change; the account link never does. */
  lemma DriverPatchStores(db: Db, tenantId: Id, id: Id, dto: Drivers.UpdateDriver, after: Db)
    requires Drivers.AfterUpdateDriver(db, tenantId, id, dto) == Ok(after)
    ensures id in db.drivers && id in after.drivers
    ensures after == db.(drivers := db.drivers[id := after.drivers[id]])
    ensures var (d, stored) := (db.drivers[id], after.drivers[id]);
      && (forall p :: dto.phone == Set(p) ==> stored.phone == p) && (dto.phone == Absent ==> stored.phone == d.phone)
      && (forall l :: dto.licenseNo == Set(l) ==> stored.licenseNo == l)
      && (dto.licenseNo == Absent ==> stored.licenseNo == d.licenseNo)
      && (forall a :: dto.isAvailable == Set(a) ==> stored.isAvailable == a)
      && (dto.isAvailable == Absent ==> stored.isAvailable == d.isAvailable)
      && LinkPatched(d.branchId, dto.branchId, stored.branchId)
      && stored.tenantId == d.tenantId && stored.userId == d.userId && stored.deletedAt == None
  {
  }

  /** A removal stamps a live driver of the tenant as deleted now, and nothing else. */
  lemma DriverRemoval(db: Db, tenantId: Id, id: Id, now: Time)
    ensures Drivers.AfterRemoveDriver(db, tenantId, id, now) ==
      if OwnDriver(db, tenantId, id)
      then Ok(db.(drivers := db.drivers[id := db.drivers[id].(deletedAt := Some(now))]))
      else Err(NotFound)
  {
  }

  // ── Branches ───────────────────────────────────────────────────────────────

  /** No live branch of the tenant other than `id` has the name. */
  ghost predicate NameFree(db: Db, tenantId: Id, name: string, id: Id) {
    forall i :: i in db.branches && db.branches[i].name == name && OwnBranch(db, tenantId, i) ==> i == id
  }

  /** A branch is created exactly under a name that no live branch of the tenant has. */
  lemma BranchCreation(db: Db, tenantId: Id, name: string, newId: Id)
    ensures var r := Branches.AfterCreateBranch(db, tenantId, name, newId);
      && (r.Ok? <==> newId !in db.branches && NameFree(db, tenantId, name, newId))
      && ((exists i :: OwnBranch(db, tenantId, i) && db.branches[i].name == name) ==> r == Err(Conflict))
      && (r.Ok? ==> r.value == db.(branches := db.branches[newId := Branch(tenantId, name, None)]))
  {
  }

  /**
   * A renaming goes through exactly to a name no other live branch of the tenant has; only an empty
   * name is not compared.
   */
  lemma BranchRenaming(db: Db, tenantId: Id, id: Id, name: string)
    requires name != ""
    requires OwnBranch(db, tenantId, id) ==> NameFree(db, tenantId, db.branches[id].name, id)
    ensures var r := Branches.AfterUpdateBranch(db, tenantId, id, Set(name));
      && (r.Ok? <==> OwnBranch(db, tenantId, id) && NameFree(db, tenantId, name, id))
      && (r.Ok? ==> r.value == db.(branches := db.branches[id := Branch(tenantId, name, None)]))
  {
    forall i | i in db.branches
      ensures Some(i) != Some(id) <==> i != id
    {
    }
  }

  /**
   * A removal clears exactly the references to the branch, of users, vehicles and drivers of every
   * kind, drops exactly its user-branch rows, stamps it as deleted now and changes nothing else.
   */
  lemma BranchRemoval(db: Db, tenantId: Id, id: Id, now: Time)
    ensures var r := Branches.AfterRemoveBranch(db, tenantId, id, now);
      && (r.Ok? <==> OwnBranch(db, tenantId, id))
      && (r.Err? ==> r == Err(NotFound))
      && (r.Ok? ==>
            && r.value.branches == db.branches[id := db.branches[id].(deletedAt := Some(now))]
            && (forall ub :: ub in r.value.userBranches <==> ub in db.userBranches && ub.branchId != id)
            && r.value.users.Keys == db.users.Keys
            && (forall u :: u in db.users && db.users[u].branchId != Some(id) ==> r.value.users[u] == db.users[u])
            && (forall u :: u in db.users && db.users[u].branchId == Some(id) ==>
                  r.value.users[u] == db.users[u].(branchId := None))
            && r.value.vehicles.Keys == db.vehicles.Keys
            && (forall v :: v in db.vehicles && db.vehicles[v].branchId != Some(id) ==>
              r.value.vehicles[v] == db.vehicles[v])
            && (forall v :: v in db.vehicles && db.vehicles[v].branchId == Some(id) ==>
                  r.value.vehicles[v] == db.vehicles[v].(branchId := None))
            && r.value.drivers.Keys == db.drivers.Keys
            && (forall d :: d in db.drivers && db.drivers[d].branchId != Some(id) ==>
              r.value.drivers[d] == db.drivers[d])
            && (forall d :: d in db.drivers && db.drivers[d].branchId == Some(id) ==>
                  r.value.drivers[d] == db.drivers[d].(branchId := None)))
  {
  }
}
