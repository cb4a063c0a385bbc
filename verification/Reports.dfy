/** src/reports: per-vehicle reports, each a group-by query joined with the vehicles. */
module Reports {
  import opened Common
  import opened Schema
  import opened Accounting
  import opened Clock
  import System
  import TripRuns

  // ── groupBy(['vehicleId']) with two sums and a count ───────────────────────

  datatype Group = Group(vehicleId: Id, count: nat, first: int, second: int)

  /** The columns of a group-by query: the key and the two summed columns. */
  datatype Columns<!T> = Columns(key: T -> Id, first: T -> int, second: T -> int)

  /** One more matching row: it joins its vehicle's group, or opens one. */
  function AddTo(groups: seq<Group>, id: Id, first: int, second: int): seq<Group>
    decreases |groups|
  {
    if groups == [] then [Group(id, 1, first, second)]
    else if groups[0].vehicleId == id then
      [Group(id, groups[0].count + 1, groups[0].first + first, groups[0].second + second)] + groups[1..]
    else [groups[0]] + AddTo(groups[1..], id, first, second)
  }

  function GroupBy<T>(rows: seq<T>, keep: T -> bool, c: Columns<T>): seq<Group>
    decreases |rows|
  {
    if rows == [] then []
    else
      var n := |rows| - 1;
      var groups := GroupBy(rows[..n], keep, c);
      if keep(rows[n]) then AddTo(groups, c.key(rows[n]), c.first(rows[n]), c.second(rows[n])) else groups
  }

  ghost predicate OnePerVehicle(groups: seq<Group>) {
    forall i, j :: 0 <= i < j < |groups| ==> groups[i].vehicleId != groups[j].vehicleId
  }

  /** `groups.find(g => g.vehicleId === id)` with each missing figure read as 0. */
  function Find(groups: seq<Group>, id: Id): Group {
    if groups == [] then Group(id, 0, 0, 0)
    else if groups[0].vehicleId == id then groups[0]
    else Find(groups[1..], id)
  }

  lemma {:induction false} AddToFind(groups: seq<Group>, id: Id, first: int, second: int, other: Id)
    ensures var g := Find(groups, other);
      Find(AddTo(groups, id, first, second), other)
        == if other == id then Group(id, g.count + 1, g.first + first, g.second + second) else g
    decreases |groups|
  {
    if groups != [] && groups[0].vehicleId != id {
      AddToFind(groups[1..], id, first, second, other);
    }
  }

  /** A filter narrowed to the rows of one vehicle. */
  function Only<T>(keep: T -> bool, key: T -> Id, id: Id): T -> bool {
    (r: T) => keep(r) && key(r) == id
  }

  function Ones<T>(): T -> int {
    (r: T) => 1
  }

  /** The grouped figures of a vehicle are the direct filtered sums over the table. */
  lemma {:induction false} GroupIsDirectSum<T>(rows: seq<T>, keep: T -> bool, c: Columns<T>, id: Id)
    ensures var g := Find(GroupBy(rows, keep, c), id); var own := Only(keep, c.key, id);
      && g.count == Sum(rows, own, Ones())
      && g.first == Sum(rows, own, c.first)
      && g.second == Sum(rows, own, c.second)
    decreases |rows|
  {
    if rows != [] {
      var n := |rows| - 1;
      GroupIsDirectSum(rows[..n], keep, c, id);
      if keep(rows[n]) {
        AddToFind(GroupBy(rows[..n], keep, c), c.key(rows[n]), c.first(rows[n]), c.second(rows[n]), id);
      }
    }
  }

  // ── Totals over all groups ─────────────────────────────────────────────────

  function Counts(groups: seq<Group>): int
    decreases |groups|
  {
    if groups == [] then 0 else groups[0].count + Counts(groups[1..])
  }

  function Firsts(groups: seq<Group>): int
    decreases |groups|
  {
    if groups == [] then 0 else groups[0].first + Firsts(groups[1..])
  }

  function Seconds(groups: seq<Group>): int
    decreases |groups|
  {
    if groups == [] then 0 else groups[0].second + Seconds(groups[1..])
  }

  lemma {:induction false} AddToTotals(groups: seq<Group>, id: Id, first: int, second: int)
    ensures Counts(AddTo(groups, id, first, second)) == Counts(groups) + 1
    ensures Firsts(AddTo(groups, id, first, second)) == Firsts(groups) + first
    ensures Seconds(AddTo(groups, id, first, second)) == Seconds(groups) + second
    decreases |groups|
  {
    if groups != [] && groups[0].vehicleId != id {
      AddToTotals(groups[1..], id, first, second);
    }
  }

  /** Summing a grouped report over its rows gives the sums over all matching rows of the table. */
  lemma {:induction false} GroupsConserve<T>(rows: seq<T>, keep: T -> bool, c: Columns<T>)
    ensures Counts(GroupBy(rows, keep, c)) == Sum(rows, keep, Ones())
    ensures Firsts(GroupBy(rows, keep, c)) == Sum(rows, keep, c.first)
    ensures Seconds(GroupBy(rows, keep, c)) == Sum(rows, keep, c.second)
    decreases |rows|
  {
    if rows != [] {
      var n := |rows| - 1;
      GroupsConserve(rows[..n], keep, c);
      if keep(rows[n]) {
        AddToTotals(GroupBy(rows[..n], keep, c), c.key(rows[n]), c.first(rows[n]), c.second(rows[n]));
      }
    }
  }

  lemma {:induction false} AddToKeepsOnePerVehicle(groups: seq<Group>, id: Id, first: int, second: int)
    requires OnePerVehicle(groups)
    ensures OnePerVehicle(AddTo(groups, id, first, second))
    ensures forall g :: g in AddTo(groups, id, first, second) ==>
      g.vehicleId == id || exists h :: h in groups && h.vehicleId == g.vehicleId
    decreases |groups|
  {
    if groups != [] && groups[0].vehicleId != id {
      var rest := AddTo(groups[1..], id, first, second);
      AddToKeepsOnePerVehicle(groups[1..], id, first, second);
      forall k | 0 <= k < |rest|
        ensures rest[k].vehicleId != groups[0].vehicleId
      {
        assert rest[k] in rest;
        if rest[k].vehicleId != id {
          var h :| h in groups[1..] && h.vehicleId == rest[k].vehicleId;
        }
      }
    }
  }

  lemma {:induction false} GroupsArePerVehicle<T>(rows: seq<T>, keep: T -> bool, c: Columns<T>)
    ensures OnePerVehicle(GroupBy(rows, keep, c))
    decreases |rows|
  {
    if rows != [] {
      var n := |rows| - 1;
      GroupsArePerVehicle(rows[..n], keep, c);
      if keep(rows[n]) {
        AddToKeepsOnePerVehicle(GroupBy(rows[..n], keep, c), c.key(rows[n]), c.first(rows[n]), c.second(rows[n]));
      }
    }
  }

  // ── Ordering by the first sum, largest first ───────────────────────────────

  function InsertDesc(g: Group, sorted: seq<Group>): seq<Group>
    decreases |sorted|
  {
    if sorted == [] then [g]
    else if g.first >= sorted[0].first then [g] + sorted
    else [sorted[0]] + InsertDesc(g, sorted[1..])
  }

  function SortDesc(groups: seq<Group>): seq<Group>
    decreases |groups|
  {
    if groups == [] then [] else InsertDesc(groups[0], SortDesc(groups[1..]))
  }

  ghost predicate Descending(groups: seq<Group>) {
    forall i, j :: 0 <= i < j < |groups| ==> groups[i].first >= groups[j].first
  }

  lemma {:induction false} InsertDescMembers(g: Group, sorted: seq<Group>)
    ensures forall h :: h in InsertDesc(g, sorted) <==> h == g || h in sorted
    decreases |sorted|
  {
    if sorted != [] && g.first < sorted[0].first {
      InsertDescMembers(g, sorted[1..]);
    }
  }

  lemma {:induction false} InsertDescOrders(g: Group, sorted: seq<Group>)
    requires Descending(sorted)
    ensures Descending(InsertDesc(g, sorted))
    decreases |sorted|
  {
    if sorted != [] && g.first < sorted[0].first {
      var rest := InsertDesc(g, sorted[1..]);
      InsertDescOrders(g, sorted[1..]);
      InsertDescMembers(g, sorted[1..]);
      forall k | 0 <= k < |rest|
        ensures rest[k].first <= sorted[0].first
      {
        assert rest[k] in rest;
      }
    }
  }

  lemma {:induction false} InsertDescTotals(g: Group, sorted: seq<Group>)
    ensures Counts(InsertDesc(g, sorted)) == g.count + Counts(sorted)
    ensures Firsts(InsertDesc(g, sorted)) == g.first + Firsts(sorted)
    ensures Seconds(InsertDesc(g, sorted)) == g.second + Seconds(sorted)
    decreases |sorted|
  {
    if sorted != [] && g.first < sorted[0].first {
      InsertDescTotals(g, sorted[1..]);
    }
  }

  lemma {:induction false} SortDescFacts(groups: seq<Group>)
    ensures Descending(SortDesc(groups))
    ensures Counts(SortDesc(groups)) == Counts(groups)
    ensures Firsts(SortDesc(groups)) == Firsts(groups)
    ensures Seconds(SortDesc(groups)) == Seconds(groups)
    decreases |groups|
  {
    if groups != [] {
      SortDescFacts(groups[1..]);
      InsertDescOrders(groups[0], SortDesc(groups[1..]));
      InsertDescTotals(groups[0], SortDesc(groups[1..]));
    }
  }

  lemma {:induction false} InsertDescKeepsOnePerVehicle(g: Group, sorted: seq<Group>)
    requires OnePerVehicle([g] + sorted)
    ensures OnePerVehicle(InsertDesc(g, sorted))
    decreases |sorted|
  {
    if sorted != [] && g.first < sorted[0].first {
      var rest := InsertDesc(g, sorted[1..]);
      assert forall k :: 0 <= k < |sorted| ==> sorted[k] == ([g] + sorted)[k + 1];
      assert forall k :: 0 < k < |sorted| ==> ([g] + sorted[1..])[k] == sorted[k];
      assert OnePerVehicle(sorted);
      assert ([g] + sorted[1..])[0] == ([g] + sorted)[0];
      assert OnePerVehicle([g] + sorted[1..]);
      InsertDescKeepsOnePerVehicle(g, sorted[1..]);
      InsertDescMembers(g, sorted[1..]);
      forall k | 0 <= k < |rest|
        ensures rest[k].vehicleId != sorted[0].vehicleId
      {
        assert rest[k] in rest;
      }
    }
  }

  lemma {:induction false} SortDescKeepsOnePerVehicle(groups: seq<Group>)
    requires OnePerVehicle(groups)
    ensures OnePerVehicle(SortDesc(groups))
    ensures forall h :: h in SortDesc(groups) <==> h in groups
    decreases |groups|
  {
    if groups != [] {
      var rest := SortDesc(groups[1..]);
      SortDescKeepsOnePerVehicle(groups[1..]);
      forall k | 0 <= k < |rest|
        ensures rest[k].vehicleId != groups[0].vehicleId
      {
        assert rest[k] in groups[1..];
      }
      InsertDescKeepsOnePerVehicle(groups[0], rest);
      InsertDescMembers(groups[0], rest);
    }
  }

  lemma {:induction false} FindListed(groups: seq<Group>, k: nat)
    requires OnePerVehicle(groups) && k < |groups|
    ensures Find(groups, groups[k].vehicleId) == groups[k]
    decreases |groups|
  {
    if k > 0 {
      FindListed(groups[1..], k - 1);
    }
  }

  lemma {:induction false} FindAbsent(groups: seq<Group>, id: Id)
    ensures (exists k :: 0 <= k < |groups| && groups[k].vehicleId == id) || Find(groups, id).count == 0
    decreases |groups|
  {
    if groups != [] && groups[0].vehicleId != id {
      FindAbsent(groups[1..], id);
      if k :| 0 <= k < |groups[1..]| && groups[1..][k].vehicleId == id {
        assert groups[k + 1].vehicleId == id;
      }
    }
  }

  /**
   * Each vehicle has at most one row of a sorted grouped query, the row holds the direct filtered
   * sums, and no vehicle with matching rows is missing.
   */
  lemma SortedGroupsAreDirect<T>(rows: seq<T>, keep: T -> bool, c: Columns<T>)
    ensures var groups := SortDesc(GroupBy(rows, keep, c));
      && OnePerVehicle(groups)
      && (forall k :: 0 <= k < |groups| ==>
            var own := Only(keep, c.key, groups[k].vehicleId);
            groups[k].count == Sum(rows, own, Ones()) && groups[k].first == Sum(rows, own, c.first)
              && groups[k].second == Sum(rows, own, c.second))
      && (forall id :: Sum(rows, Only(keep, c.key, id), Ones()) > 0 ==>
        exists k :: 0 <= k < |groups| && groups[k].vehicleId == id)
  {
    var groups := GroupBy(rows, keep, c);
    var sorted := SortDesc(groups);
    GroupsArePerVehicle(rows, keep, c);
    SortDescKeepsOnePerVehicle(groups);
    forall k | 0 <= k < |sorted|
      ensures var own := Only(keep, c.key, sorted[k].vehicleId);
        sorted[k].count == Sum(rows, own, Ones()) && sorted[k].first == Sum(rows, own, c.first)
          && sorted[k].second == Sum(rows, own, c.second)
    {
      assert sorted[k] in sorted;
      var j :| 0 <= j < |groups| && groups[j] == sorted[k];
      FindListed(groups, j);
      GroupIsDirectSum(rows, keep, c, sorted[k].vehicleId);
    }
    forall id | Sum(rows, Only(keep, c.key, id), Ones()) > 0
      ensures exists k :: 0 <= k < |sorted| && sorted[k].vehicleId == id
    {
      GroupIsDirectSum(rows, keep, c, id);
      FindAbsent(groups, id);
      var j :| 0 <= j < |groups| && groups[j].vehicleId == id;
      assert groups[j] in sorted;
    }
  }

  // ── The reports ────────────────────────────────────────────────────────────

  /** `vehicleId` and the two dates of a report request. */
  datatype Query = Query(vehicleId: Option<Id>, window: Window)

  predicate Selected(q: Query, id: Id) {
    q.vehicleId.Some? ==> id == q.vehicleId.value
  }

  function TripsFor(tenantId: Id, q: Query): Trip -> bool {
    (t: Trip) => TripsOf(tenantId, q.window)(t) && Selected(q, t.vehicleId)
  }

  function FuelFor(tenantId: Id, q: Query): FuelLog -> bool {
    (f: FuelLog) => FuelOf(tenantId, q.window)(f) && Selected(q, f.vehicleId)
  }

  function MaintenanceFor(tenantId: Id, q: Query): MaintenanceLog -> bool {
    (m: MaintenanceLog) => MaintenanceOf(tenantId, q.window)(m) && Selected(q, m.vehicleId)
  }

  const TRIP_VEHICLE: Trip -> Id := (t: Trip) => t.vehicleId
  const FUEL_VEHICLE: FuelLog -> Id := (f: FuelLog) => f.vehicleId
  const MAINTENANCE_VEHICLE: MaintenanceLog -> Id := (m: MaintenanceLog) => m.vehicleId

  const TRIP_COLUMNS := Columns(TRIP_VEHICLE, DISTANCE, INCOME)
  const FUEL_COLUMNS := Columns(FUEL_VEHICLE, FUEL_COST, LITERS)
  const MAINTENANCE_COLUMNS := Columns(MAINTENANCE_VEHICLE, UPKEEP, UPKEEP)

  /** A row of the mileage or fuel report; a vehicle that is deleted or of another tenant shows as unknown. */
  datatype Line = Line(vehicleId: Id, registrationNo: string, count: nat, total: int, other: int)

  function Plate(vehicles: map<Id, Vehicle>, tenantId: Id, id: Id): string {
    if LiveVehicle(vehicles, tenantId, id) then vehicles[id].registrationNo else "Unknown"
  }

  function Lines(groups: seq<Group>, vehicles: map<Id, Vehicle>, tenantId: Id): (r: seq<Line>)
    ensures |r| == |groups|
    ensures forall k :: 0 <= k < |r| ==>
      r[k] == Line(groups[k].vehicleId, Plate(vehicles, tenantId, groups[k].vehicleId), groups[k].count,
        groups[k].first, groups[k].second)
  {
    seq(|groups|, k requires 0 <= k < |groups| =>
      Line(groups[k].vehicleId, Plate(vehicles, tenantId, groups[k].vehicleId), groups[k].count, groups[k].first,
        groups[k].second))
  }

  function GetMileageReport(b: Books, vehicles: map<Id, Vehicle>, tenantId: Id, q: Query): seq<Line> {
    Lines(SortDesc(GroupBy(b.trips, TripsFor(tenantId, q), TRIP_COLUMNS)), vehicles, tenantId)
  }

  function GetFuelReport(b: Books, vehicles: map<Id, Vehicle>, tenantId: Id, q: Query): seq<Line> {
    Lines(SortDesc(GroupBy(b.fuelLogs, FuelFor(tenantId, q), FUEL_COLUMNS)), vehicles, tenantId)
  }

  function LineCounts(lines: seq<Line>): int
    decreases |lines|
  {
    if lines == [] then 0 else lines[0].count + LineCounts(lines[1..])
  }

  function LineTotals(lines: seq<Line>): int
    decreases |lines|
  {
    if lines == [] then 0 else lines[0].total + LineTotals(lines[1..])
  }

  lemma {:induction false} LinesConserve(groups: seq<Group>, vehicles: map<Id, Vehicle>, tenantId: Id)
    ensures LineCounts(Lines(groups, vehicles, tenantId)) == Counts(groups)
    ensures LineTotals(Lines(groups, vehicles, tenantId)) == Firsts(groups)
    decreases |groups|
  {
    if groups != [] {
      assert Lines(groups, vehicles, tenantId)[1..] == Lines(groups[1..], vehicles, tenantId);
      LinesConserve(groups[1..], vehicles, tenantId);
    }
  }

  /**
   * The mileage report counts every matching trip and all its distance, whether or not the vehicle
   * still exists; longest distance first.
   */
  lemma MileageConserves(b: Books, vehicles: map<Id, Vehicle>, tenantId: Id, q: Query)
    ensures var report := GetMileageReport(b, vehicles, tenantId, q);
      && LineCounts(report) == Sum(b.trips, TripsFor(tenantId, q), Ones())
      && LineTotals(report) == Sum(b.trips, TripsFor(tenantId, q), DISTANCE)
      && (forall i, j :: 0 <= i < j < |report| ==> report[i].total >= report[j].total)
  {
    var groups := GroupBy(b.trips, TripsFor(tenantId, q), TRIP_COLUMNS);
    GroupsConserve(b.trips, TripsFor(tenantId, q), TRIP_COLUMNS);
    SortDescFacts(groups);
    LinesConserve(SortDesc(groups), vehicles, tenantId);
  }

  /**
   * The fuel report of all vehicles sums to the fuel costs of the profit-and-loss report over the same
   * window; highest cost first.
   */
  lemma FuelConserves(b: Books, vehicles: map<Id, Vehicle>, tenantId: Id, w: Window)
    ensures var report := GetFuelReport(b, vehicles, tenantId, Query(None, w));
      && LineTotals(report) == GetProfitLoss(b, tenantId, w).breakdown.fuelCosts
      && (forall i, j :: 0 <= i < j < |report| ==> report[i].total >= report[j].total)
  {
    var keep := FuelFor(tenantId, Query(None, w));
    var groups := GroupBy(b.fuelLogs, keep, FUEL_COLUMNS);
    GroupsConserve(b.fuelLogs, keep, FUEL_COLUMNS);
    SortDescFacts(groups);
    LinesConserve(SortDesc(groups), vehicles, tenantId);
    SameFilterSameSum(b.fuelLogs, keep, FuelOf(tenantId, w), FUEL_COST);
  }

  /**
   * Every row of the mileage and fuel reports holds the direct count and sums of its vehicle, which
   * has no other row.
   */
  lemma ReportRowsAreDirect(b: Books, vehicles: map<Id, Vehicle>, tenantId: Id, q: Query)
    ensures var mileage := GetMileageReport(b, vehicles, tenantId, q);
      && (forall i, j :: 0 <= i < j < |mileage| ==> mileage[i].vehicleId != mileage[j].vehicleId)
      && (forall k :: 0 <= k < |mileage| ==>
            var own := Only(TripsFor(tenantId, q), TRIP_VEHICLE, mileage[k].vehicleId);
            mileage[k].count == Sum(b.trips, own, Ones()) && mileage[k].total == Sum(b.trips, own, DISTANCE))
    ensures var fuel := GetFuelReport(b, vehicles, tenantId, q);
      && (forall i, j :: 0 <= i < j < |fuel| ==> fuel[i].vehicleId != fuel[j].vehicleId)
      && (forall k :: 0 <= k < |fuel| ==>
            var own := Only(FuelFor(tenantId, q), FUEL_VEHICLE, fuel[k].vehicleId);
            && fuel[k].count == Sum(b.fuelLogs, own, Ones())
            && fuel[k].total == Sum(b.fuelLogs, own, FUEL_COST) && fuel[k].other == Sum(b.fuelLogs, own, LITERS))
  {
    SortedGroupsAreDirect(b.trips, TripsFor(tenantId, q), TRIP_COLUMNS);
    SortedGroupsAreDirect(b.fuelLogs, FuelFor(tenantId, q), FUEL_COLUMNS);
  }

  // ── The usage report ───────────────────────────────────────────────────────

  datatype Usage = Usage(
    vehicleId: Id,
    trips: nat,
    totalDistance: int,
    totalIncome: int,
    fillups: nat,
    fuelCost: int,
    totalLiters: int,
    maintenances: nat,
    maintenanceCost: int)

  /** What `vehicle.findMany` returns: every selected live vehicle of the tenant, once. */
  ghost predicate Listed(listed: seq<Id>, vehicles: map<Id, Vehicle>, tenantId: Id, q: Query) {
    && (forall i, j :: 0 <= i < j < |listed| ==> listed[i] != listed[j])
    && (forall id :: id in listed <==> LiveVehicle(vehicles, tenantId, id) && Selected(q, id))
  }

  function UsageOf(b: Books, tenantId: Id, q: Query, id: Id): Usage {
    var t := Find(GroupBy(b.trips, TripsFor(tenantId, q), TRIP_COLUMNS), id);
    var f := Find(GroupBy(b.fuelLogs, FuelFor(tenantId, q), FUEL_COLUMNS), id);
    var m := Find(GroupBy(b.maintenanceLogs, MaintenanceFor(tenantId, q), MAINTENANCE_COLUMNS), id);
    Usage(id, t.count, t.first, t.second, f.count, f.first, f.second, m.count, m.first)
  }

  function GetVehicleUsageReport(b: Books, listed: seq<Id>, tenantId: Id, q: Query): seq<Usage>
    decreases |listed|
  {
    if listed == [] then []
    else [UsageOf(b, tenantId, q, listed[0])] + GetVehicleUsageReport(b, listed[1..], tenantId, q)
  }

  /** Every figure of a usage row is the direct sum, or count, over the matching rows of that vehicle. */
  lemma UsageIsDirect(b: Books, tenantId: Id, q: Query, id: Id)
    ensures var u := UsageOf(b, tenantId, q, id);
      var trips := Only(TripsFor(tenantId, q), TRIP_VEHICLE, id);
      var fuel := Only(FuelFor(tenantId, q), FUEL_VEHICLE, id);
      var upkeep := Only(MaintenanceFor(tenantId, q), MAINTENANCE_VEHICLE, id);
      && u.trips == Sum(b.trips, trips, Ones()) && u.totalDistance == Sum(b.trips, trips, DISTANCE)
        && u.totalIncome == Sum(b.trips, trips, INCOME)
      && u.fillups == Sum(b.fuelLogs, fuel, Ones()) && u.fuelCost == Sum(b.fuelLogs, fuel, FUEL_COST)
        && u.totalLiters == Sum(b.fuelLogs, fuel, LITERS)
      && u.maintenances == Sum(b.maintenanceLogs, upkeep, Ones())
        && u.maintenanceCost == Sum(b.maintenanceLogs, upkeep, UPKEEP)
  {
    GroupIsDirectSum(b.trips, TripsFor(tenantId, q), TRIP_COLUMNS, id);
    GroupIsDirectSum(b.fuelLogs, FuelFor(tenantId, q), FUEL_COLUMNS, id);
    GroupIsDirectSum(b.maintenanceLogs, MaintenanceFor(tenantId, q), MAINTENANCE_COLUMNS, id);
  }

  function UsageIncome(report: seq<Usage>): int
    decreases |report|
  {
    if report == [] then 0 else report[0].totalIncome + UsageIncome(report[1..])
  }

  function UsageFuel(report: seq<Usage>): int
    decreases |report|
  {
    if report == [] then 0 else report[0].fuelCost + UsageFuel(report[1..])
  }

  function UsageMaintenance(report: seq<Usage>): int
    decreases |report|
  {
    if report == [] then 0 else report[0].maintenanceCost + UsageMaintenance(report[1..])
  }

  /** A filter narrowed to rows whose vehicle is in the list. */
  function Among<T>(keep: T -> bool, key: T -> Id, listed: seq<Id>): T -> bool {
    (r: T) => keep(r) && key(r) in listed
  }

  lemma AmongSplits<T>(rows: seq<T>, keep: T -> bool, key: T -> Id, amount: T -> int, listed: seq<Id>)
    requires listed != [] && listed[0] !in listed[1..]
    ensures Sum(rows, Among(keep, key, listed), amount)
      == Sum(rows, Only(keep, key, listed[0]), amount) + Sum(rows, Among(keep, key, listed[1..]), amount)
  {
    assert forall id :: id in listed <==> id == listed[0] || id in listed[1..];
    SumSplits(rows, Among(keep, key, listed), Only(keep, key, listed[0]), Among(keep, key, listed[1..]), amount);
  }

  /** Adding the report's rows up gives the sums over the rows whose vehicle is listed. */
  lemma {:induction false} UsageSumsListed(b: Books, listed: seq<Id>, tenantId: Id, q: Query)
    requires forall i, j :: 0 <= i < j < |listed| ==> listed[i] != listed[j]
    ensures var report := GetVehicleUsageReport(b, listed, tenantId, q);
      && UsageIncome(report) == Sum(b.trips, Among(TripsFor(tenantId, q), TRIP_VEHICLE, listed), INCOME)
      && UsageFuel(report) == Sum(b.fuelLogs, Among(FuelFor(tenantId, q), FUEL_VEHICLE, listed), FUEL_COST)
      && UsageMaintenance(report)
        == Sum(b.maintenanceLogs, Among(MaintenanceFor(tenantId, q), MAINTENANCE_VEHICLE, listed), UPKEEP)
    decreases |listed|
  {
    if listed == [] {
      EmptyFilterSumsToZero(b.trips, Among(TripsFor(tenantId, q), TRIP_VEHICLE, listed), INCOME);
      EmptyFilterSumsToZero(b.fuelLogs, Among(FuelFor(tenantId, q), FUEL_VEHICLE, listed), FUEL_COST);
      EmptyFilterSumsToZero(b.maintenanceLogs, Among(MaintenanceFor(tenantId, q), MAINTENANCE_VEHICLE, listed), UPKEEP);
    } else {
      UsageSumsListed(b, listed[1..], tenantId, q);
      UsageIsDirect(b, tenantId, q, listed[0]);
      AmongSplits(b.trips, TripsFor(tenantId, q), TRIP_VEHICLE, INCOME, listed);
      AmongSplits(b.fuelLogs, FuelFor(tenantId, q), FUEL_VEHICLE, FUEL_COST, listed);
      AmongSplits(b.maintenanceLogs, MaintenanceFor(tenantId, q), MAINTENANCE_VEHICLE, UPKEEP, listed);
    }
  }

  /** A row of the tenant in the window whose vehicle is not a live one of the tenant. */
  function Unlisted<T>(keep: T -> bool, key: T -> Id, vehicles: map<Id, Vehicle>, tenantId: Id): T -> bool {
    (r: T) => keep(r) && !LiveVehicle(vehicles, tenantId, key(r))
  }

  /**
   * For all tables whatsoever: the usage report over all vehicles, plus the rows whose vehicle it
   * does not list, is exactly what accounting sums.
   */
  lemma UsageReportConserves(b: Books, vehicles: map<Id, Vehicle>, listed: seq<Id>, tenantId: Id, w: Window)
    requires Listed(listed, vehicles, tenantId, Query(None, w))
    ensures var report := GetVehicleUsageReport(b, listed, tenantId, Query(None, w));
      var books := GetProfitLoss(b, tenantId, w).breakdown;
      var trips := Unlisted(TripsOf(tenantId, w), TRIP_VEHICLE, vehicles, tenantId);
      var fuel := Unlisted(FuelOf(tenantId, w), FUEL_VEHICLE, vehicles, tenantId);
      var upkeep := Unlisted(MaintenanceOf(tenantId, w), MAINTENANCE_VEHICLE, vehicles, tenantId);
      && UsageIncome(report) + Sum(b.trips, trips, INCOME) == books.incomeFromTrips
      && UsageFuel(report) + Sum(b.fuelLogs, fuel, FUEL_COST) == books.fuelCosts
      && UsageMaintenance(report) + Sum(b.maintenanceLogs, upkeep, UPKEEP) == books.maintenanceCosts
  {
    var q := Query(None, w);
    UsageSumsListed(b, listed, tenantId, q);
    SumSplits(b.trips, TripsOf(tenantId, w), Among(TripsFor(tenantId, q), TRIP_VEHICLE, listed),
      Unlisted(TripsOf(tenantId, w), TRIP_VEHICLE, vehicles, tenantId), INCOME);
    SumSplits(b.fuelLogs, FuelOf(tenantId, w), Among(FuelFor(tenantId, q), FUEL_VEHICLE, listed),
      Unlisted(FuelOf(tenantId, w), FUEL_VEHICLE, vehicles, tenantId), FUEL_COST);
    SumSplits(b.maintenanceLogs, MaintenanceOf(tenantId, w),
      Among(MaintenanceFor(tenantId, q), MAINTENANCE_VEHICLE, listed),
      Unlisted(MaintenanceOf(tenantId, w), MAINTENANCE_VEHICLE, vehicles, tenantId), UPKEEP);
  }

  /** A row whose vehicle is soft-deleted. */
  function Orphan<T>(keep: T -> bool, key: T -> Id, vehicles: map<Id, Vehicle>): T -> bool {
    (r: T) => keep(r) && key(r) in vehicles && vehicles[key(r)].deletedAt.Some?
  }

  /** The row names a vehicle of its own tenant. */
  predicate OwnsVehicle(vehicles: map<Id, Vehicle>, id: Id, tenantId: Id) {
    id in vehicles && vehicles[id].tenantId == tenantId
  }

  ghost predicate TripsOwnVehicles(trips: seq<Trip>, vehicles: map<Id, Vehicle>) {
    forall t :: t in trips ==> OwnsVehicle(vehicles, t.vehicleId, t.tenantId)
  }

  ghost predicate LogsOwnVehicles(b: Books, vehicles: map<Id, Vehicle>) {
    && (forall f :: f in b.fuelLogs ==> OwnsVehicle(vehicles, f.vehicleId, f.tenantId))
    && (forall m :: m in b.maintenanceLogs ==> OwnsVehicle(vehicles, m.vehicleId, m.tenantId))
  }

  /**
   * The trips of every run of the system do, so the trip rows missing from the report are those of
   * soft-deleted vehicles.
   */
  lemma MissingTripsAreOfDeletedVehicles(clock: Time, events: seq<System.Event>, trips: seq<Trip>, tenantId: Id,
    w: Window)
    requires Timely(clock, events, System.AT)
    requires forall t :: t in trips ==> t in System.Run(EMPTY_DB, events).trips.Values
    ensures var vehicles := System.Run(EMPTY_DB, events).vehicles;
      && TripsOwnVehicles(trips, vehicles)
      && Sum(trips, Unlisted(TripsOf(tenantId, w), TRIP_VEHICLE, vehicles, tenantId), INCOME)
         == Sum(trips, Orphan(TripsOf(tenantId, w), TRIP_VEHICLE, vehicles), INCOME)
  {
    var db := System.Run(EMPTY_DB, events);
    TripRuns.RunKeepsLedger(EMPTY_DB, clock, events);
    forall t | t in trips
      ensures OwnsVehicle(db.vehicles, t.vehicleId, t.tenantId)
    {
      var i :| i in db.trips && db.trips[i] == t;
    }
    SameFilterSameSum(trips, Unlisted(TripsOf(tenantId, w), TRIP_VEHICLE, db.vehicles, tenantId),
      Orphan(TripsOf(tenantId, w), TRIP_VEHICLE, db.vehicles), INCOME);
  }

  /**
   * With every row on a vehicle of its tenant: the report plus the rows of soft-deleted vehicles is
   * what accounting sums.
   */
  lemma UsageReportMissesDeletedOnly(b: Books, vehicles: map<Id, Vehicle>, listed: seq<Id>, tenantId: Id, w: Window)
    requires TripsOwnVehicles(b.trips, vehicles) && LogsOwnVehicles(b, vehicles)
    requires Listed(listed, vehicles, tenantId, Query(None, w))
    ensures var report := GetVehicleUsageReport(b, listed, tenantId, Query(None, w));
      var books := GetProfitLoss(b, tenantId, w).breakdown;
      var trips := Orphan(TripsOf(tenantId, w), TRIP_VEHICLE, vehicles);
      var fuel := Orphan(FuelOf(tenantId, w), FUEL_VEHICLE, vehicles);
      var upkeep := Orphan(MaintenanceOf(tenantId, w), MAINTENANCE_VEHICLE, vehicles);
      && UsageIncome(report) + Sum(b.trips, trips, INCOME) == books.incomeFromTrips
      && UsageFuel(report) + Sum(b.fuelLogs, fuel, FUEL_COST) == books.fuelCosts
      && UsageMaintenance(report) + Sum(b.maintenanceLogs, upkeep, UPKEEP) == books.maintenanceCosts
  {
    UsageReportConserves(b, vehicles, listed, tenantId, w);
    SameFilterSameSum(b.trips, Unlisted(TripsOf(tenantId, w), TRIP_VEHICLE, vehicles, tenantId),
      Orphan(TripsOf(tenantId, w), TRIP_VEHICLE, vehicles), INCOME);
    SameFilterSameSum(b.fuelLogs, Unlisted(FuelOf(tenantId, w), FUEL_VEHICLE, vehicles, tenantId),
      Orphan(FuelOf(tenantId, w), FUEL_VEHICLE, vehicles), FUEL_COST);
    SameFilterSameSum(b.maintenanceLogs, Unlisted(MaintenanceOf(tenantId, w), MAINTENANCE_VEHICLE, vehicles, tenantId),
      Orphan(MaintenanceOf(tenantId, w), MAINTENANCE_VEHICLE, vehicles), UPKEEP);
  }
}
