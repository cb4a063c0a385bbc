/**
 * What one more row in a table does to the profit-and-loss figures and to the reports. Together
 * with the empty books, where every figure is 0, this settles every figure.
 */
module BookEffects {
  import opened Common
  import opened Schema
  import opened Accounting
  import opened Reports

  /** The instant lies in the window, both ends included; a missing end leaves its side open. */
  predicate In(t: Time, w: Window) {
    (w.start == None || w.start.value <= t) && (w.end == None || t <= w.end.value)
  }

  const NO_BOOKS := Books([], [], [], [], [])

  /** Empty books have no figures. */
  lemma NoBooksNoFigures(tenantId: Id, w: Window)
    ensures GetProfitLoss(NO_BOOKS, tenantId, w) == ProfitLoss(0, 0, 0, Breakdown(0, 0, 0, 0, 0, 0, 0))
  {
  }

  lemma SumOfOneMore<T>(rows: seq<T>, row: T, keep: T -> bool, amount: T -> int)
    ensures Sum(rows + [row], keep, amount) == Sum(rows, keep, amount) + if keep(row) then amount(row) else 0
  {
    assert (rows + [row])[..|rows|] == rows;
  }

  /** The figures follow from the breakdown: two incomes, five expenses, and the difference. */
  lemma FiguresOfBreakdown(b: Books, tenantId: Id, w: Window)
    ensures var (p, d) := (GetProfitLoss(b, tenantId, w), BreakdownOf(b, tenantId, w));
      && p.breakdown == d
      && p.totalIncome == d.incomeFromRecords + d.incomeFromTrips
      && p.totalExpenses
         == d.expenseFromRecords + d.fuelCosts + d.maintenanceCosts + d.tripTollCosts + d.tripPoliceCosts
      && p.profit == p.totalIncome - p.totalExpenses
  {
  }

  /** What an entry adds to its table's sum: its amount, if it is the tenant's, in the window and not deleted. */
  function Adds(counts: bool, amount: int): int {
    if counts then amount else 0
  }

  predicate EntryCounts(e: Entry, tenantId: Id, w: Window) {
    e.tenantId == tenantId && e.deletedAt == None && In(e.createdAt, w)
  }

  /** An income record moves the income from records, and nothing else. */
  lemma OneMoreIncome(b: Books, e: Entry, tenantId: Id, w: Window)
    ensures var d := BreakdownOf(b, tenantId, w);
      BreakdownOf(b.(incomes := b.incomes + [e]), tenantId, w)
        == d.(incomeFromRecords := d.incomeFromRecords + Adds(EntryCounts(e, tenantId, w), e.amount))
  {
    SumOfOneMore(b.incomes, e, EntriesOf(tenantId, w), AMOUNT);
  }

  /** An expense record moves the expenses from records. */
  lemma OneMoreExpense(b: Books, e: Entry, tenantId: Id, w: Window)
    ensures var d := BreakdownOf(b, tenantId, w);
      BreakdownOf(b.(expenses := b.expenses + [e]), tenantId, w)
        == d.(expenseFromRecords := d.expenseFromRecords + Adds(EntryCounts(e, tenantId, w), e.amount))
  {
    SumOfOneMore(b.expenses, e, EntriesOf(tenantId, w), AMOUNT);
  }

  /** A trip moves the three figures of trips, each by its own column. */
  lemma OneMoreTrip(b: Books, t: Trip, tenantId: Id, w: Window)
    ensures var d := BreakdownOf(b, tenantId, w);
      var counts := t.tenantId == tenantId && t.deletedAt == None && In(t.startTime, w);
      BreakdownOf(b.(trips := b.trips + [t]), tenantId, w) == d.(
        incomeFromTrips := d.incomeFromTrips + Adds(counts, t.income),
        tripTollCosts := d.tripTollCosts + Adds(counts, t.tollCost),
        tripPoliceCosts := d.tripPoliceCosts + Adds(counts, t.policeCost))
  {
    SumOfOneMore(b.trips, t, TripsOf(tenantId, w), INCOME);
    SumOfOneMore(b.trips, t, TripsOf(tenantId, w), TOLL);
    SumOfOneMore(b.trips, t, TripsOf(tenantId, w), POLICE);
  }

  /** A fuel log moves the fuel costs. */
  lemma OneMoreFuelLog(b: Books, f: FuelLog, tenantId: Id, w: Window)
    ensures var d := BreakdownOf(b, tenantId, w);
      var counts := f.tenantId == tenantId && f.deletedAt == None && In(f.date, w);
      BreakdownOf(b.(fuelLogs := b.fuelLogs + [f]), tenantId, w)
        == d.(fuelCosts := d.fuelCosts + Adds(counts, f.cost))
  {
    SumOfOneMore(b.fuelLogs, f, FuelOf(tenantId, w), FUEL_COST);
  }

  /** A maintenance log moves the maintenance costs. */
  lemma OneMoreMaintenanceLog(b: Books, m: MaintenanceLog, tenantId: Id, w: Window)
    ensures var d := BreakdownOf(b, tenantId, w);
      var counts := m.tenantId == tenantId && m.deletedAt == None && In(m.date, w);
      BreakdownOf(b.(maintenanceLogs := b.maintenanceLogs + [m]), tenantId, w)
        == d.(maintenanceCosts := d.maintenanceCosts + Adds(counts, m.totalCost))
  {
    SumOfOneMore(b.maintenanceLogs, m, MaintenanceOf(tenantId, w), UPKEEP);
  }

  /** So one more income record raises the profit by its amount, and one more fuel log lowers it by its cost. */
  lemma ProfitMoves(b: Books, e: Entry, f: FuelLog, tenantId: Id, w: Window)
    ensures GetProfitLoss(b.(incomes := b.incomes + [e]), tenantId, w).profit
      == GetProfitLoss(b, tenantId, w).profit + Adds(EntryCounts(e, tenantId, w), e.amount)
    ensures GetProfitLoss(b.(fuelLogs := b.fuelLogs + [f]), tenantId, w).profit
      == GetProfitLoss(b, tenantId, w).profit
         - Adds(f.tenantId == tenantId && f.deletedAt == None && In(f.date, w), f.cost)
  {
    OneMoreIncome(b, e, tenantId, w);
    OneMoreFuelLog(b, f, tenantId, w);
    FiguresOfBreakdown(b, tenantId, w);
    FiguresOfBreakdown(b.(incomes := b.incomes + [e]), tenantId, w);
    FiguresOfBreakdown(b.(fuelLogs := b.fuelLogs + [f]), tenantId, w);
  }

  // ── Reports ────────────────────────────────────────────────────────────────

  /** The query asks about the vehicle: it names it, or names none. */
  predicate AsksAbout(q: Query, id: Id) {
    q.vehicleId == None || q.vehicleId == Some(id)
  }

  predicate TripAsked(t: Trip, tenantId: Id, q: Query) {
    t.tenantId == tenantId && t.deletedAt == None && In(t.startTime, q.window) && AsksAbout(q, t.vehicleId)
  }

  predicate FuelAsked(f: FuelLog, tenantId: Id, q: Query) {
    f.tenantId == tenantId && f.deletedAt == None && In(f.date, q.window) && AsksAbout(q, f.vehicleId)
  }

  predicate MaintenanceAsked(m: MaintenanceLog, tenantId: Id, q: Query) {
    m.tenantId == tenantId && m.deletedAt == None && In(m.date, q.window) && AsksAbout(q, m.vehicleId)
  }

  /** A vehicle has no figures in empty books. */
  lemma NoBooksNoUsage(tenantId: Id, q: Query, id: Id)
    ensures UsageOf(NO_BOOKS, tenantId, q, id) == Usage(id, 0, 0, 0, 0, 0, 0, 0, 0)
  {
  }

  /**
   * One more trip adds itself, its distance and its income to its own vehicle's usage, if asked for,
   * and to no other.
   */
  lemma OneMoreTripUsed(b: Books, t: Trip, tenantId: Id, q: Query, id: Id)
    ensures var one := if TripAsked(t, tenantId, q) && t.vehicleId == id then 1 else 0;
      var before := UsageOf(b, tenantId, q, id);
      UsageOf(b.(trips := b.trips + [t]), tenantId, q, id) == before.(
        trips := before.trips + one,
        totalDistance := before.totalDistance + one * t.distance,
        totalIncome := before.totalIncome + one * t.income)
  {
    var own := Only(TripsFor(tenantId, q), TRIP_VEHICLE, id);
    UsageIsDirect(b, tenantId, q, id);
    UsageIsDirect(b.(trips := b.trips + [t]), tenantId, q, id);
    assert TripsFor(tenantId, q)(t) <==> TripsOf(tenantId, q.window)(t) && Selected(q, t.vehicleId);
    assert own(t) <==> TripAsked(t, tenantId, q) && t.vehicleId == id;
    SumOfOneMore(b.trips, t, own, Ones());
    SumOfOneMore(b.trips, t, own, DISTANCE);
    SumOfOneMore(b.trips, t, own, INCOME);
  }

  /** One more fuel log adds a fill-up, its cost and its litres. */
  lemma OneMoreFuelUsed(b: Books, f: FuelLog, tenantId: Id, q: Query, id: Id)
    ensures var one := if FuelAsked(f, tenantId, q) && f.vehicleId == id then 1 else 0;
      var before := UsageOf(b, tenantId, q, id);
      UsageOf(b.(fuelLogs := b.fuelLogs + [f]), tenantId, q, id) == before.(
        fillups := before.fillups + one,
        fuelCost := before.fuelCost + one * f.cost,
        totalLiters := before.totalLiters + one * f.liters)
  {
    var own := Only(FuelFor(tenantId, q), FUEL_VEHICLE, id);
    UsageIsDirect(b, tenantId, q, id);
    UsageIsDirect(b.(fuelLogs := b.fuelLogs + [f]), tenantId, q, id);
    assert FuelFor(tenantId, q)(f) <==> FuelOf(tenantId, q.window)(f) && Selected(q, f.vehicleId);
    assert own(f) <==> FuelAsked(f, tenantId, q) && f.vehicleId == id;
    SumOfOneMore(b.fuelLogs, f, own, Ones());
    SumOfOneMore(b.fuelLogs, f, own, FUEL_COST);
    SumOfOneMore(b.fuelLogs, f, own, LITERS);
  }

  /** One more maintenance log adds a maintenance and its cost. */
  lemma OneMoreMaintenanceUsed(b: Books, m: MaintenanceLog, tenantId: Id, q: Query, id: Id)
    ensures var one := if MaintenanceAsked(m, tenantId, q) && m.vehicleId == id then 1 else 0;
      var before := UsageOf(b, tenantId, q, id);
      UsageOf(b.(maintenanceLogs := b.maintenanceLogs + [m]), tenantId, q, id) == before.(
        maintenances := before.maintenances + one,
        maintenanceCost := before.maintenanceCost + one * m.totalCost)
  {
    var own := Only(MaintenanceFor(tenantId, q), MAINTENANCE_VEHICLE, id);
    UsageIsDirect(b, tenantId, q, id);
    UsageIsDirect(b.(maintenanceLogs := b.maintenanceLogs + [m]), tenantId, q, id);
    assert MaintenanceFor(tenantId, q)(m) <==> MaintenanceOf(tenantId, q.window)(m) && Selected(q, m.vehicleId);
    assert own(m) <==> MaintenanceAsked(m, tenantId, q) && m.vehicleId == id;
    SumOfOneMore(b.maintenanceLogs, m, own, Ones());
    SumOfOneMore(b.maintenanceLogs, m, own, UPKEEP);
  }

  /**
   * The mileage and fuel lines of a vehicle agree with its usage, and carry its plate if it is a live
   * vehicle of the tenant.
   */
  lemma LinesAgreeWithUsage(b: Books, vehicles: map<Id, Vehicle>, tenantId: Id, q: Query)
    ensures forall k :: 0 <= k < |GetMileageReport(b, vehicles, tenantId, q)| ==>
      var line := GetMileageReport(b, vehicles, tenantId, q)[k];
      var u := UsageOf(b, tenantId, q, line.vehicleId);
      line.count == u.trips && line.total == u.totalDistance && PlateShown(line, vehicles, tenantId)
    ensures forall k :: 0 <= k < |GetFuelReport(b, vehicles, tenantId, q)| ==>
      var line := GetFuelReport(b, vehicles, tenantId, q)[k];
      var u := UsageOf(b, tenantId, q, line.vehicleId);
      line.count == u.fillups && line.total == u.fuelCost && line.other == u.totalLiters
      && PlateShown(line, vehicles, tenantId)
  {
    ReportRowsAreDirect(b, vehicles, tenantId, q);
    forall k | 0 <= k < |GetMileageReport(b, vehicles, tenantId, q)|
      ensures var line := GetMileageReport(b, vehicles, tenantId, q)[k];
        var u := UsageOf(b, tenantId, q, line.vehicleId);
        line.count == u.trips && line.total == u.totalDistance && PlateShown(line, vehicles, tenantId)
    {
      UsageIsDirect(b, tenantId, q, GetMileageReport(b, vehicles, tenantId, q)[k].vehicleId);
    }
    forall k | 0 <= k < |GetFuelReport(b, vehicles, tenantId, q)|
      ensures var line := GetFuelReport(b, vehicles, tenantId, q)[k];
        var u := UsageOf(b, tenantId, q, line.vehicleId);
        line.count == u.fillups && line.total == u.fuelCost && line.other == u.totalLiters
        && PlateShown(line, vehicles, tenantId)
    {
      UsageIsDirect(b, tenantId, q, GetFuelReport(b, vehicles, tenantId, q)[k].vehicleId);
    }
  }

  predicate PlateShown(line: Line, vehicles: map<Id, Vehicle>, tenantId: Id) {
    line.registrationNo ==
      if line.vehicleId in vehicles && vehicles[line.vehicleId].tenantId == tenantId
         && vehicles[line.vehicleId].deletedAt == None
      then vehicles[line.vehicleId].registrationNo
      else "Unknown"
  }

  /** The usage report has one row per listed vehicle, in the order of the list. */
  lemma {:induction false} UsageRowsAreListed(b: Books, listed: seq<Id>, tenantId: Id, q: Query)
    ensures var report := GetVehicleUsageReport(b, listed, tenantId, q);
      |report| == |listed| && forall k :: 0 <= k < |listed| ==> report[k] == UsageOf(b, tenantId, q, listed[k])
    decreases |listed|
  {
    if listed != [] {
      UsageRowsAreListed(b, listed[1..], tenantId, q);
    }
  }
}
