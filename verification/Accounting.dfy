/** src/accounting: profit and loss of a tenant over a window of time. */
module Accounting {
  import opened Common
  import opened Schema

  /** A row of the income or of the expense table. */
  datatype Entry = Entry(tenantId: Id, amount: int, createdAt: Time, deletedAt: Option<Time>)

  datatype FuelLog = FuelLog(tenantId: Id, vehicleId: Id, liters: int, cost: int, date: Time, deletedAt: Option<Time>)

  /** The rows of the tables that money is read from, in any order. */
  datatype Books = Books(
    incomes: seq<Entry>,
    expenses: seq<Entry>,
    trips: seq<Trip>,
    fuelLogs: seq<FuelLog>,
    maintenanceLogs: seq<MaintenanceLog>)

  /** A closed window, open on a side whose date is not given. */
  datatype Window = Window(start: Option<Time>, end: Option<Time>)

  predicate InWindow(t: Time, w: Window) {
    (w.start.Some? ==> w.start.value <= t) && (w.end.Some? ==> t <= w.end.value)
  }

  // ── Aggregation ────────────────────────────────────────────────────────────

  /** `_sum` over the rows that match a filter, with null read as 0. */
  function Sum<T>(rows: seq<T>, keep: T -> bool, amount: T -> int): int
    decreases |rows|
  {
    if rows == [] then 0
    else
      var n := |rows| - 1;
      Sum(rows[..n], keep, amount) + if keep(rows[n]) then amount(rows[n]) else 0
  }

  /** Splitting a filter in two disjoint parts splits the sum. */
  lemma {:induction false} SumSplits<T>(rows: seq<T>, keep: T -> bool, one: T -> bool, other: T -> bool,
    amount: T -> int)
    requires forall r :: r in rows ==> (keep(r) <==> one(r) || other(r)) && !(one(r) && other(r))
    ensures Sum(rows, keep, amount) == Sum(rows, one, amount) + Sum(rows, other, amount)
    decreases |rows|
  {
    if rows != [] {
      var n := |rows| - 1;
      assert rows[n] in rows && forall r :: r in rows[..n] ==> r in rows;
      SumSplits(rows[..n], keep, one, other, amount);
    }
  }

  lemma {:induction false} SameFilterSameSum<T>(rows: seq<T>, keep: T -> bool, same: T -> bool, amount: T -> int)
    requires forall r :: r in rows ==> (keep(r) <==> same(r))
    ensures Sum(rows, keep, amount) == Sum(rows, same, amount)
    decreases |rows|
  {
    if rows != [] {
      var n := |rows| - 1;
      assert rows[n] in rows && forall r :: r in rows[..n] ==> r in rows;
      SameFilterSameSum(rows[..n], keep, same, amount);
    }
  }

  lemma {:induction false} EmptyFilterSumsToZero<T>(rows: seq<T>, keep: T -> bool, amount: T -> int)
    requires forall r :: r in rows ==> !keep(r)
    ensures Sum(rows, keep, amount) == 0
    decreases |rows|
  {
    if rows != [] {
      var n := |rows| - 1;
      assert rows[n] in rows && forall r :: r in rows[..n] ==> r in rows;
      EmptyFilterSumsToZero(rows[..n], keep, amount);
    }
  }

  // ── Filters and amounts ────────────────────────────────────────────────────

  function EntriesOf(tenantId: Id, w: Window): Entry -> bool {
    (e: Entry) => e.tenantId == tenantId && e.deletedAt.None? && InWindow(e.createdAt, w)
  }

  function TripsOf(tenantId: Id, w: Window): Trip -> bool {
    (t: Trip) => t.tenantId == tenantId && t.deletedAt.None? && InWindow(t.startTime, w)
  }

  function FuelOf(tenantId: Id, w: Window): FuelLog -> bool {
    (f: FuelLog) => f.tenantId == tenantId && f.deletedAt.None? && InWindow(f.date, w)
  }

  function MaintenanceOf(tenantId: Id, w: Window): MaintenanceLog -> bool {
    (m: MaintenanceLog) => m.tenantId == tenantId && m.deletedAt.None? && InWindow(m.date, w)
  }

  const AMOUNT: Entry -> int := (e: Entry) => e.amount
  const INCOME: Trip -> int := (t: Trip) => t.income
  const TOLL: Trip -> int := (t: Trip) => t.tollCost
  const POLICE: Trip -> int := (t: Trip) => t.policeCost
  const DISTANCE: Trip -> int := (t: Trip) => t.distance
  const FUEL_COST: FuelLog -> int := (f: FuelLog) => f.cost
  const LITERS: FuelLog -> int := (f: FuelLog) => f.liters
  const UPKEEP: MaintenanceLog -> int := (m: MaintenanceLog) => m.totalCost

  // ── Profit and loss ────────────────────────────────────────────────────────

  datatype Breakdown = Breakdown(
    incomeFromRecords: int,
    incomeFromTrips: int,
    expenseFromRecords: int,
    fuelCosts: int,
    maintenanceCosts: int,
    tripTollCosts: int,
    tripPoliceCosts: int)

  datatype ProfitLoss = ProfitLoss(totalIncome: int, totalExpenses: int, profit: int, breakdown: Breakdown)

  function BreakdownOf(b: Books, tenantId: Id, w: Window): Breakdown {
    Breakdown(
      Sum(b.incomes, EntriesOf(tenantId, w), AMOUNT),
      Sum(b.trips, TripsOf(tenantId, w), INCOME),
      Sum(b.expenses, EntriesOf(tenantId, w), AMOUNT),
      Sum(b.fuelLogs, FuelOf(tenantId, w), FUEL_COST),
      Sum(b.maintenanceLogs, MaintenanceOf(tenantId, w), UPKEEP),
      Sum(b.trips, TripsOf(tenantId, w), TOLL),
      Sum(b.trips, TripsOf(tenantId, w), POLICE))
  }

  function GetProfitLoss(b: Books, tenantId: Id, w: Window): ProfitLoss {
    var d := BreakdownOf(b, tenantId, w);
    var totalIncome := d.incomeFromRecords + d.incomeFromTrips;
    var totalExpenses := d.expenseFromRecords + d.fuelCosts + d.maintenanceCosts + d.tripTollCosts + d.tripPoliceCosts;
    ProfitLoss(totalIncome, totalExpenses, totalIncome - totalExpenses, d)
  }

  // ── Windows add up ─────────────────────────────────────────────────────────

  function Plus(a: Breakdown, b: Breakdown): Breakdown {
    Breakdown(
      a.incomeFromRecords + b.incomeFromRecords,
      a.incomeFromTrips + b.incomeFromTrips,
      a.expenseFromRecords + b.expenseFromRecords,
      a.fuelCosts + b.fuelCosts,
      a.maintenanceCosts + b.maintenanceCosts,
      a.tripTollCosts + b.tripTollCosts,
      a.tripPoliceCosts + b.tripPoliceCosts)
  }

  /** Every instant of `whole` is in exactly one of the two parts, and no other instant is. */
  ghost predicate Splits(whole: Window, one: Window, other: Window) {
    forall t: Time :: (InWindow(t, whole) <==> InWindow(t, one) || InWindow(t, other))
      && !(InWindow(t, one) && InWindow(t, other))
  }

  lemma BreakdownSplits(b: Books, tenantId: Id, whole: Window, one: Window, other: Window)
    requires Splits(whole, one, other)
    ensures BreakdownOf(b, tenantId, whole) == Plus(BreakdownOf(b, tenantId, one), BreakdownOf(b, tenantId, other))
  {
    SumSplits(b.incomes, EntriesOf(tenantId, whole), EntriesOf(tenantId, one), EntriesOf(tenantId, other), AMOUNT);
    SumSplits(b.expenses, EntriesOf(tenantId, whole), EntriesOf(tenantId, one), EntriesOf(tenantId, other), AMOUNT);
    SumSplits(b.trips, TripsOf(tenantId, whole), TripsOf(tenantId, one), TripsOf(tenantId, other), INCOME);
    SumSplits(b.trips, TripsOf(tenantId, whole), TripsOf(tenantId, one), TripsOf(tenantId, other), TOLL);
    SumSplits(b.trips, TripsOf(tenantId, whole), TripsOf(tenantId, one), TripsOf(tenantId, other), POLICE);
    SumSplits(b.fuelLogs, FuelOf(tenantId, whole), FuelOf(tenantId, one), FuelOf(tenantId, other), FUEL_COST);
    SumSplits(b.maintenanceLogs, MaintenanceOf(tenantId, whole), MaintenanceOf(tenantId, one),
      MaintenanceOf(tenantId, other), UPKEEP);
  }

  /** Adjacent windows add up in every figure, also when the outer ends are open. */
  lemma AdjacentWindowsAddUp(b: Books, tenantId: Id, start: Option<Time>, mid: Time, end: Option<Time>)
    requires (start.Some? ==> start.value <= mid) && (end.Some? ==> mid < end.value)
    ensures var whole := GetProfitLoss(b, tenantId, Window(start, end));
      var first := GetProfitLoss(b, tenantId, Window(start, Some(mid)));
      var second := GetProfitLoss(b, tenantId, Window(Some(mid + 1), end));
      && whole.breakdown == Plus(first.breakdown, second.breakdown)
      && whole.totalIncome == first.totalIncome + second.totalIncome
      && whole.totalExpenses == first.totalExpenses + second.totalExpenses
      && whole.profit == first.profit + second.profit
  {
    BreakdownSplits(b, tenantId, Window(start, end), Window(start, Some(mid)), Window(Some(mid + 1), end));
  }

  /** Windows that share their end point count the rows stamped with it twice, and nothing else. */
  lemma SharedEndPointCountsTwice(b: Books, tenantId: Id, start: Option<Time>, mid: Time, end: Option<Time>)
    requires (start.Some? ==> start.value <= mid) && (end.Some? ==> mid < end.value)
    ensures Plus(BreakdownOf(b, tenantId, Window(start, Some(mid))), BreakdownOf(b, tenantId, Window(Some(mid), end)))
      == Plus(BreakdownOf(b, tenantId, Window(start, end)), BreakdownOf(b, tenantId, Window(Some(mid), Some(mid))))
  {
    var point, after := Window(Some(mid), Some(mid)), Window(Some(mid + 1), end);
    BreakdownSplits(b, tenantId, Window(start, end), Window(start, Some(mid)), after);
    BreakdownSplits(b, tenantId, Window(Some(mid), end), point, after);
  }
}
