/** src/jobs, the offline detection: alerts for vehicles on a trip that have stopped reporting. */
module Jobs {
  import opened Common
  import opened Schema
  import Tracking

  datatype AlertType = VEHICLE_OFFLINE | OTHER_TYPE
  datatype AlertStatus = UNREAD | READ | DISMISSED

  datatype Alert = Alert(tenantId: Id, kind: AlertType, message: string, status: AlertStatus, createdAt: Time)

  const OFFLINE_THRESHOLD: Time := 30 * 60 * 1000
  const DEDUP_WINDOW: Time := 60 * 60 * 1000

  const MESSAGE_HEAD := "Vehicle "
  const MESSAGE_TAIL := " is offline \U{2014} no GPS update for 30+ minutes"

  function OfflineMessage(registrationNo: string): string {
    MESSAGE_HEAD + registrationNo + MESSAGE_TAIL
  }

  predicate OccursAt(text: string, part: string, k: nat) {
    k + |part| <= |text| && text[k..k + |part|] == part
  }

  /** The `contains` filter on a text column. */
  predicate Contains(text: string, part: string) {
    exists k :: 0 <= k <= |text| && OccursAt(text, part, k)
  }

  lemma MessageContainsPlate(registrationNo: string)
    ensures Contains(OfflineMessage(registrationNo), registrationNo)
  {
    assert OccursAt(OfflineMessage(registrationNo), registrationNo, |MESSAGE_HEAD|);
  }

  lemma MessageDeterminesPlate(a: string, b: string)
    requires OfflineMessage(a) == OfflineMessage(b)
    ensures a == b
  {
    var k := |MESSAGE_HEAD|;
    assert |a| == |b|;
    assert a == OfflineMessage(a)[k..k + |a|] && b == OfflineMessage(b)[k..k + |b|];
  }

  predicate OnTheRoad(v: Vehicle) {
    v.status == ON_TRIP && v.deletedAt.None?
  }

  /** No GPS row of the vehicle is as young as the threshold. */
  predicate Silent(gps: seq<Tracking.GpsRow>, tenantId: Id, vehicleId: Id, now: Time) {
    forall r :: r in gps && Tracking.Concerns(r, tenantId, vehicleId) ==> r.timestamp < now - OFFLINE_THRESHOLD
  }

  /** An UNREAD offline alert of the last hour that mentions the plate. */
  predicate Warns(a: Alert, tenantId: Id, plate: string, now: Time) {
    a.tenantId == tenantId && a.kind == VEHICLE_OFFLINE && a.status == UNREAD && Contains(a.message, plate)
      && now - DEDUP_WINDOW <= a.createdAt
  }

  predicate Warned(alerts: seq<Alert>, tenantId: Id, plate: string, now: Time) {
    exists k :: 0 <= k < |alerts| && Warns(alerts[k], tenantId, plate, now)
  }

  /**
   * The instants of one run of the job: its start, from which the threshold is counted, the
   * look-up of earlier alerts for each vehicle, and the insertion of the new ones.
   */
  datatype Moments = Moments(startedAt: Time, checkedAt: Id -> Time, insertedAt: Time)

  ghost predicate InOrder(at: Moments) {
    forall id :: at.startedAt <= at.checkedAt(id) <= at.insertedAt
  }

  predicate Due(alerts: seq<Alert>, gps: seq<Tracking.GpsRow>, vehicles: map<Id, Vehicle>, id: Id, at: Moments) {
    && id in vehicles && OnTheRoad(vehicles[id])
    && Silent(gps, vehicles[id].tenantId, id, at.startedAt)
    && !Warned(alerts, vehicles[id].tenantId, vehicles[id].registrationNo, at.checkedAt(id))
  }

  function OfflineAlert(v: Vehicle, now: Time): Alert {
    Alert(v.tenantId, VEHICLE_OFFLINE, OfflineMessage(v.registrationNo), UNREAD, now)
  }

  /** `order` lists every due vehicle once. */
  ghost predicate Lists(
    order: seq<Id>,
    alerts: seq<Alert>,
    gps: seq<Tracking.GpsRow>,
    vehicles: map<Id, Vehicle>,
    at: Moments)
  {
    && (forall i, j :: 0 <= i < j < |order| ==> order[i] != order[j])
    && (forall id :: id in order <==> Due(alerts, gps, vehicles, id, at))
  }

  function Created(order: seq<Id>, vehicles: map<Id, Vehicle>, now: Time): seq<Alert>
    requires forall id :: id in order ==> id in vehicles
  {
    seq(|order|, k requires 0 <= k < |order| => assert order[k] in order; OfflineAlert(vehicles[order[k]], now))
  }

  class JobsService {
    const prisma: Database
    const tracking: Tracking.TrackingService
    var alerts: seq<Alert>

    constructor (prisma: Database, tracking: Tracking.TrackingService)
      ensures this.prisma == prisma && this.tracking == tracking && alerts == []
    {
      this.prisma := prisma;
      this.tracking := tracking;
      alerts := [];
    }

    /** The loop over the vehicles on a trip; their order is the database's. */
    method RunOfflineDetection(at: Moments) returns (ghost order: seq<Id>)
      modifies this`alerts
      ensures Lists(order, old(alerts), tracking.gps, prisma.vehicles, at)
      ensures alerts == old(alerts) + Created(order, prisma.vehicles, at.insertedAt)
    {
      var threshold := at.startedAt - OFFLINE_THRESHOLD;
      var vehicles := prisma.vehicles;
      var todo := set id | id in vehicles && OnTheRoad(vehicles[id]);
      ghost var seen: set<Id> := {};
      var alertsToCreate: seq<Alert> := [];
      order := [];
      while todo != {}
        invariant alerts == old(alerts) && todo !! seen
        invariant todo + seen == set id | id in vehicles && OnTheRoad(vehicles[id])
        invariant forall i, j :: 0 <= i < j < |order| ==> order[i] != order[j]
        invariant forall id :: id in order <==> id in seen && Due(alerts, tracking.gps, vehicles, id, at)
        invariant alertsToCreate == Created(order, vehicles, at.insertedAt)
        decreases todo
      {
        var id :| id in todo;
        var vehicle := vehicles[id];
        todo := todo - {id};
        seen := seen + {id};
        var lastGps := Tracking.FindNewest(tracking.gps, vehicle.tenantId, id);
        var isOffline := lastGps.None? || lastGps.value.timestamp < threshold;
        assert isOffline <==> Silent(tracking.gps, vehicle.tenantId, id, at.startedAt);
        if isOffline && !Warned(alerts, vehicle.tenantId, vehicle.registrationNo, at.checkedAt(id)) {
          order := order + [id];
          alertsToCreate := alertsToCreate + [OfflineAlert(vehicle, at.insertedAt)];
        }
      }
      alerts := alerts + alertsToCreate;
    }
  }

  // ── Coverage ───────────────────────────────────────────────────────────────

  /** After a run of the job every silent vehicle on a trip has an unread alert of the last hour that names it. */
  lemma EverySilentVehicleIsWarned(
    alerts: seq<Alert>,
    gps: seq<Tracking.GpsRow>,
    vehicles: map<Id, Vehicle>,
    at: Moments,
    order: seq<Id>,
    id: Id)
    requires InOrder(at) && Lists(order, alerts, gps, vehicles, at)
    requires id in vehicles && OnTheRoad(vehicles[id]) && Silent(gps, vehicles[id].tenantId, id, at.startedAt)
    ensures Warned(
      alerts + Created(order, vehicles, at.insertedAt), vehicles[id].tenantId, vehicles[id].registrationNo,
        at.checkedAt(id))
  {
    var after := alerts + Created(order, vehicles, at.insertedAt);
    if Due(alerts, gps, vehicles, id, at) {
      var k :| 0 <= k < |order| && order[k] == id;
      MessageContainsPlate(vehicles[id].registrationNo);
      assert after[|alerts| + k] == OfflineAlert(vehicles[id], at.insertedAt);
    } else {
      var k :| 0 <= k < |alerts|
        && Warns(alerts[k], vehicles[id].tenantId, vehicles[id].registrationNo, at.checkedAt(id));
      assert after[k] == alerts[k];
    }
  }

  /** An unread offline alert of the last hour with the vehicle's own message. */
  predicate IsOwn(a: Alert, v: Vehicle, now: Time) {
    a.message == OfflineMessage(v.registrationNo) && Warns(a, v.tenantId, v.registrationNo, now)
  }

  predicate HasOwn(alerts: seq<Alert>, v: Vehicle, now: Time) {
    exists k :: 0 <= k < |alerts| && IsOwn(alerts[k], v, now)
  }

  /** An unread offline alert of the last hour about something else whose message contains the plate. */
  predicate Masked(alerts: seq<Alert>, v: Vehicle, now: Time) {
    exists k :: 0 <= k < |alerts| && alerts[k].message != OfflineMessage(v.registrationNo)
      && Warns(alerts[k], v.tenantId, v.registrationNo, now)
  }

  lemma WarnedByOwnOrMasked(alerts: seq<Alert>, v: Vehicle, now: Time)
    ensures Warned(alerts, v.tenantId, v.registrationNo, now) <==> HasOwn(alerts, v, now) || Masked(alerts, v, now)
  {
    forall k | 0 <= k < |alerts| && Warns(alerts[k], v.tenantId, v.registrationNo, now)
      ensures HasOwn(alerts, v, now) || Masked(alerts, v, now)
    {
      assert IsOwn(alerts[k], v, now) || alerts[k].message != OfflineMessage(v.registrationNo);
    }
  }

  /** A run of the job gives a vehicle an alert of its own only by creating one for it. */
  lemma OwnAlertAfter(alerts: seq<Alert>, order: seq<Id>, vehicles: map<Id, Vehicle>, now: Time, insertedAt: Time,
    id: Id)
    requires PlatesUnique(vehicles) && id in vehicles && now <= insertedAt
    requires forall i :: i in order ==> i in vehicles
    ensures HasOwn(alerts + Created(order, vehicles, insertedAt), vehicles[id], now) <==>
      HasOwn(alerts, vehicles[id], now) || id in order
  {
    var v, n, after := vehicles[id], |alerts|, alerts + Created(order, vehicles, insertedAt);
    if HasOwn(alerts, v, now) {
      var k :| 0 <= k < n && IsOwn(alerts[k], v, now);
      assert after[k] == alerts[k];
    }
    if id in order {
      var k :| 0 <= k < |order| && order[k] == id;
      MessageContainsPlate(v.registrationNo);
      assert after[n + k] == OfflineAlert(v, insertedAt);
      assert IsOwn(after[n + k], v, now);
    }
    if HasOwn(after, v, now) {
      var k :| 0 <= k < |after| && IsOwn(after[k], v, now);
      if k < n {
        assert alerts[k] == after[k];
      } else {
        assert order[k - n] in order && after[k] == OfflineAlert(vehicles[order[k - n]], insertedAt);
        MessageDeterminesPlate(vehicles[order[k - n]].registrationNo, v.registrationNo);
      }
    }
  }

  /**
   * Exactly when a silent vehicle ends up with an alert of its own: it had one already, or no
   * alert about another plate contains its plate.
   */
  lemma SilentVehicleHasOwnAlertIff(
    alerts: seq<Alert>,
    gps: seq<Tracking.GpsRow>,
    vehicles: map<Id, Vehicle>,
    at: Moments,
    order: seq<Id>,
    id: Id)
    requires InOrder(at) && Lists(order, alerts, gps, vehicles, at) && PlatesUnique(vehicles)
    requires id in vehicles && OnTheRoad(vehicles[id]) && Silent(gps, vehicles[id].tenantId, id, at.startedAt)
    ensures HasOwn(alerts + Created(order, vehicles, at.insertedAt), vehicles[id], at.checkedAt(id)) <==>
      HasOwn(alerts, vehicles[id], at.checkedAt(id)) || !Masked(alerts, vehicles[id], at.checkedAt(id))
  {
    OwnAlertAfter(alerts, order, vehicles, at.checkedAt(id), at.insertedAt, id);
    WarnedByOwnOrMasked(alerts, vehicles[id], at.checkedAt(id));
  }

  /** Such masking is real: an alert about plate AB12 counts as the warning for the vehicle with plate AB1. */
  lemma LongerPlateMasks(tenantId: Id, now: Time)
    ensures var v := Vehicle(tenantId, None, "AB1", ON_TRIP, None);
      var alerts := [OfflineAlert(v.(registrationNo := "AB12"), now)];
      Masked(alerts, v, now) && !HasOwn(alerts, v, now)
  {
    var message := OfflineMessage("AB12");
    assert OccursAt(message, "AB1", |MESSAGE_HEAD|) by {
      assert message[|MESSAGE_HEAD|..|MESSAGE_HEAD| + 3] == "AB1";
    }
    assert |OfflineMessage("AB1")| != |message|;
    var v := Vehicle(tenantId, None, "AB1", ON_TRIP, None);
    var alerts := [OfflineAlert(v.(registrationNo := "AB12"), now)];
    assert alerts[0].message == message && Warns(alerts[0], tenantId, "AB1", now);
  }

  // ── No flood ───────────────────────────────────────────────────────────────

  /** What happens to the alerts: a run of the job, an alert marked read or dismissed, an alert of another type. */
  datatype Event =
    | Detect(vehicles: map<Id, Vehicle>, gps: seq<Tracking.GpsRow>, at: Moments, order: seq<Id>)
    | Mark(tenantId: Id, index: nat, status: AlertStatus)
    | Scan(alert: Alert)

  /** Plates are unique in every state of the system: `PlateRuns.PlatesStayUnique`. */
  ghost predicate Possible(alerts: seq<Alert>, e: Event) {
    match e
    case Detect(vehicles, gps, at, order) => InOrder(at) && PlatesUnique(vehicles)
      && Lists(order, alerts, gps, vehicles, at)
    case Mark(_, _, status) => status != UNREAD
    case Scan(alert) => alert.kind == OTHER_TYPE
  }

  ghost function Step(alerts: seq<Alert>, e: Event): seq<Alert>
    requires Possible(alerts, e)
  {
    match e
    case Detect(vehicles, _, at, order) => alerts + Created(order, vehicles, at.insertedAt)
    case Mark(tenantId, index, status) =>
      if index < |alerts| && alerts[index].tenantId == tenantId then alerts[index := alerts[index].(status := status)]
        else alerts
    case Scan(alert) => alerts + [alert]
  }

  /** The alerts along a run, from an empty table. */
  ghost predicate IsRun(states: seq<seq<Alert>>, events: seq<Event>) {
    && |states| == |events| + 1 && states[0] == []
    && forall k :: 0 <= k < |events| ==> Possible(states[k], events[k]) && states[k + 1] == Step(states[k], events[k])
  }

  /** Two unread offline alerts of one tenant with the same message. */
  predicate Repeats(a: Alert, b: Alert) {
    a.kind == VEHICLE_OFFLINE && b.kind == VEHICLE_OFFLINE && a.status == UNREAD && b.status == UNREAD
    && a.tenantId == b.tenantId && a.message == b.message
  }

  ghost predicate HourApart(alerts: seq<Alert>) {
    forall i, j :: 0 <= i < j < |alerts| && Repeats(alerts[i], alerts[j]) ==>
      alerts[i].createdAt + DEDUP_WINDOW < alerts[j].createdAt
  }

  lemma DetectKeepsApart(alerts: seq<Alert>, e: Event)
    requires HourApart(alerts) && e.Detect? && Possible(alerts, e)
    ensures HourApart(Step(alerts, e))
  {
    var n, after := |alerts|, Step(alerts, e);
    forall i, j | 0 <= i < j < |after| && Repeats(after[i], after[j]) && n <= j
      ensures after[i].createdAt + DEDUP_WINDOW < after[j].createdAt
    {
      assert e.order[j - n] in e.order;
      var v := e.vehicles[e.order[j - n]];
      assert after[j] == OfflineAlert(v, e.at.insertedAt);
      if i < n {
        MessageContainsPlate(v.registrationNo);
        assert !Warns(alerts[i], v.tenantId, v.registrationNo, e.at.checkedAt(e.order[j - n]));
      } else {
        assert e.order[i - n] in e.order;
        assert after[i] == OfflineAlert(e.vehicles[e.order[i - n]], e.at.insertedAt);
        MessageDeterminesPlate(e.vehicles[e.order[i - n]].registrationNo, v.registrationNo);
        assert false;
      }
    }
  }

  lemma StepKeepsApart(alerts: seq<Alert>, e: Event)
    requires HourApart(alerts) && Possible(alerts, e)
    ensures HourApart(Step(alerts, e))
  {
    match e
    case Detect(_, _, _, _) => DetectKeepsApart(alerts, e);
    case Mark(_, _, _) =>
      var after := Step(alerts, e);
      forall i, j | 0 <= i < j < |after| && Repeats(after[i], after[j])
        ensures Repeats(alerts[i], alerts[j]) && after[i].createdAt == alerts[i].createdAt
          && after[j].createdAt == alerts[j].createdAt
      {
      }
    case Scan(_) =>
  }

  /** In every run, alerts about one plate that are still unread were created more than an hour apart. */
  lemma {:induction false} UnreadAlertsAreAnHourApart(states: seq<seq<Alert>>, events: seq<Event>, k: nat)
    requires IsRun(states, events) && k < |states|
    ensures HourApart(states[k])
  {
    if k > 0 {
      UnreadAlertsAreAnHourApart(states, events, k - 1);
      StepKeepsApart(states[k - 1], events[k - 1]);
    }
  }

  // ── A run that leaves a silent vehicle without an alert of its own ─────────

  const SHORT_PLATE := Vehicle("t", None, "AB1", ON_TRIP, None)
  const LONG_PLATE := Vehicle("t", None, "AB12", ON_TRIP, None)
  const ONLY_LONG := map["short" := SHORT_PLATE.(status := AVAILABLE), "long" := LONG_PLATE]
  const BOTH := map["short" := SHORT_PLATE, "long" := LONG_PLATE]
  const LONG_ALERT := OfflineAlert(LONG_PLATE, 0)

  /** All steps of a run of the job at one instant. */
  function Instantly(now: Time): Moments {
    Moments(now, (id: Id) => now, now)
  }

  const FIRST_JOB := Detect(ONLY_LONG, [], Instantly(0), ["long"])
  const SECOND_JOB := Detect(BOTH, [], Instantly(DEDUP_WINDOW), [])

  /** The first job creates the one alert. */
  lemma FirstJobAlerts()
    ensures Possible([], FIRST_JOB) && Step([], FIRST_JOB) == [LONG_ALERT]
  {
    assert ["long"][0] == "long";
    assert Due([], [], ONLY_LONG, "long", Instantly(0));
    assert forall id :: id in ["long"] <==> id == "long";
  }

  /** An hour later it warns of both plates, so the second job creates nothing. */
  lemma SecondJobIsMasked()
    ensures Possible([LONG_ALERT], SECOND_JOB) && Step([LONG_ALERT], SECOND_JOB) == [LONG_ALERT]
  {
    LongerPlateMasks("t", 0);
    MessageContainsPlate("AB12");
    assert [LONG_ALERT][0] == LONG_ALERT;
    assert Warns(LONG_ALERT, "t", "AB12", DEDUP_WINDOW) && Warns(LONG_ALERT, "t", "AB1", DEDUP_WINDOW);
    assert Warned([LONG_ALERT], "t", "AB12", DEDUP_WINDOW) && Warned([LONG_ALERT], "t", "AB1", DEDUP_WINDOW);
  }

  /** After this run of two jobs the vehicle with plate AB1 is on a trip, silent, and has no alert of its own. */
  lemma MaskedRunLeavesSilent()
    ensures IsRun([[], [LONG_ALERT], [LONG_ALERT]], [FIRST_JOB, SECOND_JOB])
    ensures OnTheRoad(BOTH["short"]) && Silent([], "t", "short", DEDUP_WINDOW)
    ensures !HasOwn([LONG_ALERT], BOTH["short"], DEDUP_WINDOW)
  {
    FirstJobAlerts();
    SecondJobIsMasked();
    assert |OfflineMessage("AB1")| != |OfflineMessage("AB12")|;
  }
}
