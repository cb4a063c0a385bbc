/** src/workshop: job cards whose total is kept up to date with a separate table of items. */
module Workshop {
  import opened Common
  import opened Schema

  datatype JobStatus = OPEN | IN_PROGRESS | COMPLETED_JOB | CANCELLED_JOB

  datatype Job = Job(tenantId: Id, vehicleId: Id, status: JobStatus, totalCost: int, deletedAt: Option<Time>)
  datatype Item = Item(jobId: Id, cost: int)

  datatype State = State(jobs: map<Id, Job>, items: seq<Item>)

  predicate LiveJob(jobs: map<Id, Job>, tenantId: Id, id: Id) {
    id in jobs && jobs[id].tenantId == tenantId && jobs[id].deletedAt.None?
  }

  datatype Call =
    | CreateJob(tenantId: Id, vehicleId: Id, newId: Id)
    | AddItem(tenantId: Id, jobId: Id, cost: int)
    | UpdateStatus(tenantId: Id, jobId: Id, status: JobStatus)

  function Outcome(s: State, vehicles: map<Id, Vehicle>, c: Call): Result<State> {
    match c
    case CreateJob(tenantId, vehicleId, newId) =>
      if !LiveVehicle(vehicles, tenantId, vehicleId) then Err(NotFound)
      else if newId in s.jobs then Err(UniqueIndex)
      else Ok(s.(jobs := s.jobs[newId := Job(tenantId, vehicleId, OPEN, 0, None)]))
    case AddItem(tenantId, jobId, cost) =>
      if !LiveJob(s.jobs, tenantId, jobId) then Err(NotFound)
      else if s.jobs[jobId].status == COMPLETED_JOB then Err(BadRequest)
      else Ok(State(s.jobs[jobId := s.jobs[jobId].(totalCost := s.jobs[jobId].totalCost + cost)],
        s.items + [Item(jobId, cost)]))
    case UpdateStatus(tenantId, jobId, status) =>
      if !LiveJob(s.jobs, tenantId, jobId) then Err(NotFound)
      else Ok(s.(jobs := s.jobs[jobId := s.jobs[jobId].(status := status)]))
  }

  class WorkshopService {
    const prisma: Database
    var jobs: map<Id, Job>
    var items: seq<Item>

    constructor (prisma: Database)
      ensures this.prisma == prisma && jobs == map[] && items == []
    {
      this.prisma := prisma;
      jobs, items := map[], [];
    }

    ghost predicate Did(c: Call, before: State, r: Result<()>)
      reads this, prisma
    {
      match Outcome(before, prisma.vehicles, c)
      case Ok(after) => r == Ok(()) && State(jobs, items) == after
      case Err(e) => r == Err(e) && State(jobs, items) == before
    }

    method OpenJob(tenantId: Id, vehicleId: Id, newId: Id) returns (r: Result<()>)
      modifies this
      ensures Did(CreateJob(tenantId, vehicleId, newId), old(State(jobs, items)), r)
    {
      if !LiveVehicle(prisma.vehicles, tenantId, vehicleId) {
        return Err(NotFound);
      }
      if newId in jobs {
        return Err(UniqueIndex);
      }
      jobs := jobs[newId := Job(tenantId, vehicleId, OPEN, 0, None)];
      return Ok(());
    }

    method AddPart(tenantId: Id, jobId: Id, cost: int) returns (r: Result<()>)
      modifies this
      ensures Did(AddItem(tenantId, jobId, cost), old(State(jobs, items)), r)
    {
      if !LiveJob(jobs, tenantId, jobId) {
        return Err(NotFound);
      }
      if jobs[jobId].status == COMPLETED_JOB {
        return Err(BadRequest);
      }
      items := items + [Item(jobId, cost)];
      jobs := jobs[jobId := jobs[jobId].(totalCost := jobs[jobId].totalCost + cost)];
      return Ok(());
    }

    method SetStatus(tenantId: Id, jobId: Id, status: JobStatus) returns (r: Result<()>)
      modifies this
      ensures Did(UpdateStatus(tenantId, jobId, status), old(State(jobs, items)), r)
    {
      if !LiveJob(jobs, tenantId, jobId) {
        return Err(NotFound);
      }
      jobs := jobs[jobId := jobs[jobId].(status := status)];
      return Ok(());
    }
  }

  // ── The bill ───────────────────────────────────────────────────────────────

  /** The cost of all items of a job, summed over the whole table. */
  function Bill(items: seq<Item>, jobId: Id): int
    decreases |items|
  {
    if items == [] then 0
    else
      var n := |items| - 1;
      Bill(items[..n], jobId) + if items[n].jobId == jobId then items[n].cost else 0
  }

  /** Every total is the sum of the job's items, and no item belongs to a job that does not exist. */
  ghost predicate Billed(s: State) {
    && (forall id :: id in s.jobs ==> s.jobs[id].totalCost == Bill(s.items, id))
    && (forall k :: 0 <= k < |s.items| ==> s.items[k].jobId in s.jobs)
  }

  lemma {:induction false} NoItemsNoBill(items: seq<Item>, jobId: Id)
    requires forall k :: 0 <= k < |items| ==> items[k].jobId != jobId
    ensures Bill(items, jobId) == 0
    decreases |items|
  {
    if items != [] {
      NoItemsNoBill(items[..|items| - 1], jobId);
    }
  }

  lemma CallKeepsBilled(s: State, vehicles: map<Id, Vehicle>, c: Call)
    requires Billed(s) && Outcome(s, vehicles, c).Ok?
    ensures Billed(Outcome(s, vehicles, c).value)
  {
    match c
    case CreateJob(_, _, newId) => NoItemsNoBill(s.items, newId);
    case AddItem(_, jobId, cost) => assert (s.items + [Item(jobId, cost)])[..|s.items|] == s.items;
    case UpdateStatus(_, _, _) =>
  }

  /** A call, with the vehicles as they are then. */
  datatype Event = Event(vehicles: map<Id, Vehicle>, call: Call)

  function Run(s: State, events: seq<Event>): State
    decreases |events|
  {
    if events == [] then s
    else
      var r := Outcome(s, events[0].vehicles, events[0].call);
      Run(if r.Ok? then r.value else s, events[1..])
  }

  /** In every run the stored total of a job equals the sum of its items. */
  lemma {:induction false} TotalIsTheBill(s: State, events: seq<Event>)
    requires Billed(s)
    ensures Billed(Run(s, events))
    decreases |events|
  {
    if events != [] {
      var r := Outcome(s, events[0].vehicles, events[0].call);
      if r.Ok? {
        CallKeepsBilled(s, events[0].vehicles, events[0].call);
        TotalIsTheBill(r.value, events[1..]);
      } else {
        TotalIsTheBill(s, events[1..]);
      }
    }
  }
}
