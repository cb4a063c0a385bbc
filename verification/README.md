# Fleet backend: verified model

A Dafny model of a multi-tenant fleet backend (bookings, trips, assignments, accounts, branches, GPS
tracking, reports) and proofs of what its services guarantee together, over whole runs.

## How the model is built

- `Schema` holds the tables as maps from id to row, and `Database`, the client object whose table fields
  the services reassign. Times are integer milliseconds; money and distance are integers.
- Each service is a class with one method per operation that writes. Its contract (`Realises`) ties the new
  state and the error of every branch to a specification function such as `AfterStartTrip`: on success the
  tables are exactly that state, on an error nothing changes. The table below names the handlers with the
  most branches; the others (booking confirmation and cancellation, creation, update and removal of vehicles,
  drivers, branches and users, registration, the decisions on admins, tenant patches, logout, job cards) are
  proved in the same way, and the run theorems are about all of them. Unique indexes and foreign keys of
  prisma/schema.prisma appear as the errors `UniqueIndex`, `ForeignKey` and `NotNull`.
- `AvailabilityEffects`, `BookingEffects`, `TripEffects`, `AssignmentEffects`, `AccountEffects`, `FleetEffects`,
  `UserEffects`, `SessionEffects` and `BookEffects` say what those functions mean in the columns of the rows and the
  instants of the clock: exactly which calls go through, and what each stores.
- `System` turns all calls of all services into steps, and `TripRuns`, `AssignmentRuns`, `AccountRuns`,
  `LinkRuns` and `PlateRuns` (unique plates, which `Jobs` uses) prove invariants over every run of them, with
  exact conditions (if and only if), per call and per run, where the code keeps an invariant only under a
  discipline of its callers.
- `BookingRuns` splits each booking request into its phases (load, vehicle check, driver check, write) and
  lets requests interleave, while other services change all other tables at will; `BookingCommits` says
  exactly which such runs double-book or put a booking on a stranger's vehicle, `BookingLifecycle` which ones
  reopen a closed booking.
- `Races` and `RaceRuns` do the same for trip starts and assignment creations, `TrackingRuns` with `RateRuns` and
  `LatestRuns` for GPS saves, each step of a save at its own instant.
- `Scenarios`, `BookingExamples`, `RaceExamples` and `TrackingExamples` run from the empty state into states where a
  property fails.
- `Tracking`, `Redis`, `Tokens`, `Jobs`, `Workshop`, `Accounting`, `Reports` and `Responses` are small machines or
  pure computations of their own, each with its theorem.

`dafny verify dfyconfig.toml` checks everything.

## What is assumed

- Ids are parameters of the creating call; a clash with a stored id is an error. Generated branch ids are
  not blank and no vehicle has the empty id.
- Every call carries its instant, or one for each of its steps where they matter (GPS saves, logout, the
  offline job); clocks do not go back where a lemma says `Timely`.
- A Redis key can be read strictly before its expiry, with no eviction or loss of keys other than the failing
  calls that `Tracking.Faults` describes. Redis keys are structured values; `Redis.TextIsInjective` shows
  that their texts do not collide as long as tenant ids contain no colon.
- A signature check and a password comparison are boolean inputs.

## Model

| member | source | states |
|---|---|---|
| Intervals.OverlapsMeansSharedInstant | src/scheduling/scheduling.service.ts:31-41 | The half-open filter on bookings passes exactly when two ranges of positive length share an instant. |
| Intervals.TouchesMeansSharedInstant | src/assignments/assignments.service.ts:33-55 | The assignment overlap filter, with null meaning unbounded, passes exactly when the two closed ranges share an instant. |
| Scheduling.SchedulingService.CheckVehicleAvailability | src/scheduling/scheduling.service.ts:22-96 | Available iff no active booking, no trip and no maintenance blocks the range; the reasons are duplicate-free, and each one is given exactly when its cause exists (scheduled maintenance only if the status is not MAINTENANCE already). |
| Scheduling.SchedulingService.CheckDriverAvailability | src/scheduling/scheduling.service.ts:105-154 | Available iff no live assignment and no trip of the driver blocks the range; each reason exactly when its cause exists. |
| AvailabilityEffects.VehicleAvailableMeans | src/scheduling/scheduling.service.ts:30-95 | For all tables: a vehicle is available in a range exactly when no undeleted PENDING or CONFIRMED booking and no undeleted trip of the tenant takes an instant of it (a trip without an end for ever), its status is not MAINTENANCE and no undeleted log falls into it. |
| AvailabilityEffects.DriverAvailableMeans | src/scheduling/scheduling.service.ts:113-151 | A driver is available exactly when no undeleted assignment and no undeleted trip of the tenant takes an instant of the range. |
| AvailabilityEffects.RunningTripTakesBoth | src/scheduling/scheduling.service.ts:49-61 | A running trip that began before the range ends makes its vehicle and its driver unavailable. |
| Scheduling.AvailabilityInherited | src/scheduling/scheduling.service.ts:22-96 | Every sub-range of an available range is available. |
| Scheduling.AvailabilitySplits | src/scheduling/scheduling.service.ts:22-96 | For any tables: a range is available iff both halves of an interior split are and no degenerate row slips between them. |
| Scheduling.OnlyZeroLengthTripsSlip | src/scheduling/scheduling.service.ts:48-61 | With bookings of positive length, the only rows that slip through a split are trips of length zero exactly at the split point. |
| Bookings.BookingsService.CreateBooking | src/bookings/bookings.service.ts:22-74 | Creation refuses bad dates and unavailable vehicles and drivers, and otherwise stores exactly the PENDING row; a refusal changes no table. |
| Bookings.BookingsService.AssignBooking | src/bookings/bookings.service.ts:142-200 | A changed vehicle or driver is re-checked against the booking's own dates; then exactly the named columns change. |
| BookingEffects.CreationAcceptedIff | src/bookings/bookings.service.ts:22-74 | A creation goes through exactly when its dates are in order, nothing takes the vehicle or the named driver, and its keys hold. |
| BookingEffects.CreationRefused | src/bookings/bookings.service.ts:26-58 | Bad dates, a taken vehicle or a taken driver, each on its own, refuse with BadRequest. |
| BookingEffects.CreationStores | src/bookings/bookings.service.ts:60-73 | One PENDING row with the columns of the request, the named driver included; nothing else changes. |
| BookingEffects.ConfirmationEffect | src/bookings/bookings.service.ts:99-115 | Goes through exactly for a PENDING booking of the tenant, with the errors otherwise, and changes the status only. |
| BookingEffects.CancellationEffect | src/bookings/bookings.service.ts:119-138 | Goes through exactly for a PENDING or CONFIRMED booking of the tenant and changes the status only. |
| BookingEffects.ReassignmentRefused | src/bookings/bookings.service.ts:142-189 | A newly named vehicle or driver that is taken on the booking's own dates refuses with BadRequest, a closed booking with Forbidden. |
| BookingEffects.ReassignmentAcceptedIff | src/bookings/bookings.service.ts:142-200 | Exactly which re-assignments go through. |
| BookingEffects.ReassignmentStores | src/bookings/bookings.service.ts:191-199 | A value replaces its column, null clears the driver, an absent column stays, and no other column changes. |
| BookingRuns.PlacingKeepsNoDoubleBooking | src/bookings/bookings.service.ts:30-73 | Storing a row keeps active bookings of one (tenant, vehicle) disjoint if and only if the row is inactive or the conflict query, its own id left out, finds nothing. |
| BookingRuns.WriteSparesOthers | src/bookings/bookings.service.ts:22-200 | A write never invalidates the checks another request has already passed, unless the two name one (tenant, vehicle) for overlapping dates. |
| BookingRuns.NoDoubleBookingInAnyDisciplinedRun | src/bookings/bookings.service.ts:22-200 | However the phases of requests interleave, two active bookings of one (tenant, vehicle) never overlap, as long as requests in flight never share a booking id or name one (tenant, vehicle) for overlapping dates. |
| BookingRuns.AloneIsAtomic | src/bookings/bookings.service.ts:22-200 | The phases of one request run back to back give exactly the specified service call, refused or not. |
| BookingRuns.AtomicRequestKeepsNoDoubleBooking | src/bookings/bookings.service.ts:22-200 | Every request executed alone keeps bookings disjoint, with no condition on the caller. |
| BookingCommits.StepDoubleBooksIff | src/bookings/bookings.service.ts:60-73 | With no discipline at all: a step keeps bookings disjoint if and only if it is not a commit of an active row that another booking blocks at that moment. |
| BookingCommits.RunDoubleBooksIff | src/bookings/bookings.service.ts:22-200 | Any run whatsoever never double-books, in any of its states, if and only if at every commit the conflict query, its own id left out, would still come back empty. |
| BookingCommits.DisciplineAvoidsContests | src/bookings/bookings.service.ts:22-200 | The discipline on requests in flight is one way to meet that exact condition. |
| BookingExamples.SharedTargetDoubleBooks | src/bookings/bookings.service.ts:30-73 | Without it the code fails: two creations that both check before either writes double-book. |
| BookingExamples.SharedBookingDoubleBooks | src/bookings/bookings.service.ts:99-138 | And a confirmation that straddles a cancellation and a re-creation double-books. |
| BookingExamples.StrangerBooksTheSameVan | src/bookings/bookings.service.ts:30-73 | Tenants are not isolated: the owner of a van and another tenant both create the same hire, and the van is booked twice at once. |
| BookingCommits.RequestKeepsOwnedIff | src/bookings/bookings.service.ts:22-200 | A request that succeeds keeps every booking on a vehicle of its own tenant if and only if the vehicle it names, if any, is of the requesting tenant. |
| BookingCommits.RunKeepsOwnedIff | src/bookings/bookings.service.ts:22-200 | Any interleaved run keeps every booking on its tenant's vehicle, in all its states, if and only if every commit names an own vehicle or none. |
| BookingCommits.ServicesKeepOwners | src/vehicles/vehicles.service.ts:145-206 | No call of any service removes a vehicle or moves it to another tenant, as that run theorem asks of the other services. |
| BookingCommits.NoVehicleIsBookedTwice | src/bookings/bookings.service.ts:22-200 | In every disciplined run whose requests name own vehicles, no vehicle is booked twice for overlapping dates, whichever tenants book. |
| BookingLifecycle.StepEvolvesIff | src/bookings/bookings.service.ts:99-200 | With no discipline at all: a step moves statuses only forward, never to COMPLETED, keeps tenants and dates and freezes closed rows, if and only if it is not a commit that changes a row closed by then. |
| BookingLifecycle.RunEvolvesIff | src/bookings/bookings.service.ts:99-200 | Every step of any interleaved run does so if and only if no commit of the run reopens a closed row. |
| BookingExamples.LateConfirmationRevives | src/bookings/bookings.service.ts:99-138 | Such a commit exists: a confirmation that checked before a cancellation turns CANCELLED into CONFIRMED. |
| BookingLifecycle.OnePerBookingNeverReopens | src/bookings/bookings.service.ts:99-200 | Keeping requests on one booking apart excludes it, whatever targets clash. |
| BookingLifecycle.AtMostTwoStatusChanges | src/bookings/bookings.service.ts:99-138 | In every interleaved run without such a commit a booking changes status at most 2 minus the rank of its present status times, and at most twice when it is created on the way. |
| BookingLifecycle.CallsEvolve | src/bookings/bookings.service.ts:22-200 | In every run of whole calls of all services, with no condition on the callers, all of this holds. |
| BookingRuns.CancelledSlotIsFree | src/bookings/bookings.service.ts:119-138 | After a cancellation no active booking blocks the very same interval, so re-creating it is never refused for one. |
| Trips.TripsService.FindDriver | src/trips/trips.service.ts:22-28 | The driver profile found for a user is the only one there is, because of the unique index on `userId`. |
| Trips.TripsService.StartTrip | src/trips/trips.service.ts:20-89 | Every refusal in the code's order; on success trip, vehicle status and driver flag change together. |
| Trips.TripsService.EndTrip | src/trips/trips.service.ts:96-148 | A running trip is ended once, by its own driver if the caller is a DRIVER; costs, vehicle and driver change together. |
| TripEffects.StartAcceptedIff | src/trips/trips.service.ts:20-70 | For a driver profile of the account: exactly on a shift of the driver for the vehicle, both ends included, with the vehicle AVAILABLE and none of its trips running. |
| TripEffects.StartStores | src/trips/trips.service.ts:72-86 | A running trip without costs, the vehicle ON_TRIP and the driver unavailable; nothing else changes. |
| TripEffects.EndAcceptedIff | src/trips/trips.service.ts:96-121 | Exactly for a running trip of the tenant, by its own driver if the caller is a DRIVER. |
| TripEffects.EndStores | src/trips/trips.service.ts:125-145 | Each of the four columns becomes what was sent for it or stays, the trip ends now, vehicle and driver are free; no other column or row changes. |
| TripEffects.UpdateEffect | src/trips/trips.service.ts:151-168 | Exactly for a trip of the tenant; the four columns only. |
| TripEffects.CostsMoveAccounts | src/trips/trips.service.ts:130-133 | Income, toll and police costs sent move exactly their own accounting figures by new minus old, and the profit accordingly, if the trip is in the window. |
| TripRuns.RunKeepsLedger | src/trips/trips.service.ts:20-168 | In every run of all services with a clock that does not go back: trips of a vehicle are disjoint in time, dated in the past, and of one tenant with their vehicle and driver. |
| TripRuns.TripsNeverOverlap | src/trips/trips.service.ts:49-75 | From the empty database, whatever admins patch in between: any two trips of a vehicle are disjoint and at most one is running. |
| Races.AloneIsAtomic | src/trips/trips.service.ts:20-89 | The reads and the write of a trip start, or of an assignment creation, run back to back give exactly the specified service call. |
| RaceRuns.OneRunningIff | src/trips/trips.service.ts:61-86 | Any run with interleaved starts never has two running trips of a vehicle, in any state, if and only if at every commit of a start the query for a running trip, asked again, would still find none. |
| RaceRuns.TripsDisjointIff | src/trips/trips.service.ts:30-86 | It keeps trips of a vehicle disjoint if and only if no start commits over a trip that is running or ended after the start's own instant, which is fixed before its checks. |
| RaceExamples.TwoStartsRunTwice | src/trips/trips.service.ts:61-86 | In a reachable state two starts that both look before either writes give one van two running trips. |
| RaceExamples.LateStartIsReachable | src/trips/trips.service.ts:30-75 | Asking for a running trip again would not be enough: a start that commits late overlaps a trip that began and ended meanwhile. |
| TripRuns.StatusMirrorsTrips | src/trips/trips.service.ts:72-86 | In any run of all services, a vehicle (deleted or not) is ON_TRIP exactly while it has a running trip, in all states, if and only if no accepted patch moves one into or out of ON_TRIP. |
| TripRuns.HandMoveBreaksMirror | src/vehicles/vehicles.service.ts:145-194 | A vehicle call keeps that equivalence if and only if it makes no such move. |
| Scenarios.StatusPatchBreaksMirror | src/vehicles/vehicles.service.ts:169 | In a state reached from the empty database such a move is accepted, and the vehicle is ON_TRIP without a trip. |
| TripRuns.BusyDriversAreOnTheRoad | src/trips/trips.service.ts:72-86 | In any run of all services, unavailable drivers have a running trip in all states if and only if no accepted patch takes off duty a driver who has none. |
| TripRuns.OffDutyNeedsRunningTrip | src/drivers/drivers.service.ts:67-106 | Taking a driver off duty by hand keeps that claim if and only if the driver has a running trip. |
| Scenarios.DutyPatchBreaksBusy | src/drivers/drivers.service.ts:90 | In a reachable state an idle driver is taken off duty, and is unavailable without a trip. |
| TripRuns.StartKeepsFree | src/trips/trips.service.ts:72-86 | Starting a trip always keeps available drivers without a running trip. |
| TripRuns.EndKeepsFreeIff | src/trips/trips.service.ts:125-145 | Ending a trip keeps available drivers without a running trip if and only if its driver has no other running trip. |
| TripRuns.DriverCallKeepsFreeIff | src/drivers/drivers.service.ts:67-106 | A driver call keeps them so if and only if it does not patch to available a driver who has a running trip. |
| TripRuns.DriversAlwaysFreeIff | src/trips/trips.service.ts:20-148 | In any run of all services, available drivers have no running trip in all states if and only if no successful call is such an end or such a patch. |
| Scenarios.FreeDriverOnTheRoad | src/trips/trips.service.ts:125-145 | In a run from the empty database, after ending one of two trips the driver is available although the other is still running. |
| Scenarios.DutyPatchReleasesEarly | src/drivers/drivers.service.ts:90 | In a reachable state a driver on the road is patched to available. |
| Assignments.AssignmentsService.Create | src/assignments/assignments.service.ts:14-70 | Every refusal in the code's order, then exactly one new row. |
| Assignments.AssignmentsService.Update | src/assignments/assignments.service.ts:100-143 | Dates and tenant ownership are validated, overlap is not; exactly the named columns change. |
| AssignmentEffects.CreationAcceptedIff | src/assignments/assignments.service.ts:14-60 | A creation goes through exactly when no live assignment of its vehicle or its driver shares an instant with it, on live rows of the tenant. |
| AssignmentEffects.UpdateAcceptedIff | src/assignments/assignments.service.ts:100-132 | Exactly which updates go through: a newly named vehicle or driver must be a live one of the tenant, the range left must be positive. |
| AssignmentEffects.UpdateStores | src/assignments/assignments.service.ts:134-142 | What was sent where something was sent, the old columns elsewhere, and no other row. |
| AssignmentEffects.NamedDriverMayDrive | src/assignments/assignments.service.ts:127-138 | A driver named in an accepted update may start the row's vehicle at every instant of its range, and is the old driver or a live one of the tenant. |
| AssignmentEffects.NamedVehicleMayBeDriven | src/assignments/assignments.service.ts:121-137 | The same for a named vehicle. |
| AssignmentEffects.RemovedShiftIsOver | src/assignments/assignments.service.ts:145-155 | After a removal the driver may not start the vehicle unless another live assignment says so. |
| AssignmentRuns.StoringIsExclusiveIff | src/assignments/assignments.service.ts:32-60 | Storing a live row keeps assignments exclusive if and only if it passes both overlap queries of `create`. |
| AssignmentRuns.NarrowingPasses | src/assignments/assignments.service.ts:100-143 | An update that keeps vehicle and driver and only narrows the range always passes those queries. |
| AssignmentRuns.CallIsExclusiveIff | src/assignments/assignments.service.ts:14-155 | Creation and removal always keep exclusivity; an update keeps it if and only if it narrows or passes the queries it does not ask. |
| AssignmentRuns.AssignmentsStayExclusive | src/assignments/assignments.service.ts:14-155 | In any run of whole calls of all services, live assignments of one vehicle, and of one driver, are pairwise disjoint in all states if and only if every accepted update meets that guard. |
| RaceRuns.AssignmentsExclusiveIff | src/assignments/assignments.service.ts:32-69 | With interleaved creations: if and only if, besides, at every commit of a creation both overlap queries, asked again, would still find nothing. |
| RaceExamples.TwoCreationsOverlap | src/assignments/assignments.service.ts:32-69 | In a reachable state two creations that both look before either writes assign one van twice. |
| AssignmentRuns.OneDriverOneVehicle | src/trips/trips.service.ts:32-47 | Under exclusivity, at any instant a vehicle has at most one driver who may start it and a driver at most one vehicle to start. |
| Scenarios.WideningUpdateOverlaps | src/assignments/assignments.service.ts:100-143 | Without the guard the claim is false: in a state reached from the empty database a widening is accepted, after which starting the van at one instant succeeds for either of two drivers. |
| Vehicles.VehiclesService.Update | src/vehicles/vehicles.service.ts:145-194 | Exactly the named columns change; an empty branch id disconnects; a soft-deleted vehicle's plate still fails the unique index. |
| FleetEffects.VehicleCreation | src/vehicles/vehicles.service.ts:24-119 | Exactly with a plate no vehicle ever had, an own branch or none and a contract in order; one AVAILABLE row; the errors of a plate in use and a foreign branch. |
| FleetEffects.ContractVehicleCreation | src/contracts/contracts.service.ts:50-92 | The same for a vehicle that comes with a source contract. |
| FleetEffects.VehiclePatchAcceptedIff | src/vehicles/vehicles.service.ts:145-187 | Exactly which patches go through: never onto the plate of another vehicle, deleted or not. |
| FleetEffects.VehiclePatchStores | src/vehicles/vehicles.service.ts:160-193 | Exactly the named columns change; an empty or null branch disconnects. |
| FleetEffects.DriverCreation | src/drivers/drivers.service.ts:19-44 | Exactly with a phone, licence and account of nobody else, the account a live one of the tenant, and an own branch or none. |
| FleetEffects.DriverPatchAcceptedIff | src/drivers/drivers.service.ts:67-99 | Exactly which patches go through: never onto the phone or licence of another driver, deleted or not. |
| FleetEffects.DriverPatchStores | src/drivers/drivers.service.ts:85-105 | Exactly the named columns change; the account link never does. |
| Vehicles.CallKeepsRows | src/vehicles/vehicles.service.ts:24-206 | No vehicle call, contract-made vehicles included, removes a row, changes a tenant or, unless a status patch says so, moves a vehicle into or out of ON_TRIP. |
| Drivers.CallKeepsRows | src/drivers/drivers.service.ts:19-118 | No driver call removes a row, changes a tenant or makes a driver unavailable unless a patch says so. |
| Branches.BranchesService.Remove | src/branches/branches.service.ts:148-176 | The transaction unlinks every user, user-branch row, vehicle and driver of the branch and soft-deletes it. |
| FleetEffects.BranchCreation | src/branches/branches.service.ts:14-33 | Exactly under a name no live branch of the tenant has. |
| FleetEffects.BranchRenaming | src/branches/branches.service.ts:128-146 | Exactly to a name no other live branch of the tenant has. |
| FleetEffects.BranchRemoval | src/branches/branches.service.ts:148-176 | Exactly the references to the branch are cleared and its user-branch rows dropped; every other row stays as it is. |
| Branches.CallKeepsRows | src/branches/branches.service.ts:14-176 | Branch calls change nothing but branch links in users, vehicles and drivers. |
| BranchLists.NormalizeBranchIds | src/users/users.service.ts:66-69 | The result has no duplicates and contains exactly the non-blank ids of the list. |
| BranchLists.NormalizationKeepsOrder | src/users/users.service.ts:66-69 | Ids keep the order of their first occurrences. |
| BranchLists.NormalizationIsIdempotent | src/users/users.service.ts:66-69 | Normalising twice is normalising once. |
| BranchLists.CountIsExact | src/users/users.service.ts:71-84 | For every list the count equals the length if and only if every id names a live branch of the tenant and no id comes twice. |
| BranchLists.CountIsSound | src/users/users.service.ts:66-84 | On a normalised list it therefore passes if and only if every non-blank id sent names a live branch of the tenant. |
| Users.UsersService.Create | src/users/users.service.ts:88-140 | Role, email, branch and list are checked; user and user-branch rows are written together, the primary branch being the named one or the first of the list. |
| Users.UsersService.Update | src/users/users.service.ts:174-269 | Every refusal of the code; exactly the named columns change, and a sent list replaces the user's rows of the tenant. |
| UserEffects.CreationAccepts | src/users/users.service.ts:88-102 | Whoever is created is a DRIVER or EMPLOYEE under an email of nobody else, with own branches only. |
| UserEffects.CreationStores | src/users/users.service.ts:104-134 | An approved active user and exactly one row for each branch asked for; the primary branch is the named one, else the first of the list. |
| UserEffects.UpdateProtects | src/users/users.service.ts:180-237 | The refusals that protect other roles, the caller's own role and activity, and branches of others. |
| UserEffects.UpdateStoresUser | src/users/users.service.ts:189-248 | Exactly the named columns change; without a primary branch a sent list makes its first entry the primary one. |
| UserEffects.UpdateReplacesRows | src/users/users.service.ts:250-262 | A sent list replaces the user's rows of the tenant by one row for each branch asked for; without a list no row changes. |
| UserEffects.RemovalEffect | src/users/users.service.ts:307-330 | Exactly for another DRIVER or EMPLOYEE of the tenant; only the deletion stamp is set. |
| LinkRuns.AcceptedLinkIsLive | src/common/helpers/entity-validator.helper.ts:87-102 | What the validator (which skips empty ids) and the foreign key let through together is null or a live branch of the tenant. |
| LinkRuns.BranchLinksStayLive | src/branches/branches.service.ts:148-176 | In every run of all services each branch reference of a user, vehicle, driver or user-branch row names a live branch of the same tenant. |
| LinkRuns.UserCallListsPrimaryIff | src/users/users.service.ts:88-269 | A user call keeps every primary branch among the user's rows if and only if it is not an update naming an unlisted primary branch without a list. |
| Scenarios.PrimaryPatchUnlistsBranch | src/users/users.service.ts:210-215 | In a reachable state such an update is accepted, and the primary branch is none of the user's rows. |
| LinkRuns.PrimaryBranchStaysListed | src/users/users.service.ts:221-263 | In any run of all services a user's primary branch is null or one of the user's rows, in all states, if and only if no accepted update is of that kind. |
| Accounts.AccountsService.LogIn | src/auth/auth.service.ts:29-62 | The verdict and error of every branch, for the one live account with that email. |
| AccountEffects.WrongPasswordRefused | src/auth/auth.service.ts:37-38 | A wrong password is refused whatever the account, with the error of an unknown email. |
| AccountEffects.LoginClaimsTheAccount | src/auth/auth.service.ts:29-61 | Whoever is logged in gave the right password, and the claim is that of a live account with that email, approved if an ADMIN, active, of an active tenant. |
| AccountEffects.LoginVerdict | src/auth/auth.service.ts:37-61 | Of a live account login accepts exactly these, and each refusal has the error of the first thing missing. |
| AccountEffects.RefreshVerdict | src/auth/auth.service.ts:152-171 | A refresh token that does not verify is refused; otherwise exactly live active accounts of active tenants pass. |
| AccountEffects.GuardVerdictIs | src/common/guards/tenant.guard.ts:34-66 | Every SUPER_ADMIN claim and exactly the live accounts in good standing pass. |
| AccountEffects.RegistrationEffect | src/auth/auth.service.ts:68-92 | Exactly under an email nobody ever had; an inactive tenant with one inactive ADMIN awaiting approval. |
| AccountEffects.SeedEffect | src/auth/auth.service.ts:104-149 | Exactly with the secret, once; an active tenant with an approved SUPER_ADMIN. |
| AccountEffects.DecisionEffect | src/admin-applications/admin-applications.service.ts:47-167 | From which statuses each decision goes through and the admin and tenant it leaves. |
| AccountEffects.SuspensionShutsOut | src/admin-applications/admin-applications.service.ts:110-167 | A suspension shuts an approved ADMIN out of login, refresh and guard at once, and a reactivation opens all three again. |
| AccountEffects.TenantEffect | src/tenants/tenants.service.ts:43-65 | A patch sets the activity sent; a removal deletes and switches off; both only for a live tenant. |
| AccountRuns.RunKeepsSound | src/admin-applications/admin-applications.service.ts:47-167 | In every run of all services an ADMIN is active iff APPROVED, emails are unique, nobody gains or loses an administrator role and no ADMIN is deleted. |
| AccountRuns.GatesAgree | src/common/guards/tenant.guard.ts:37-66 | In a sound state login, refresh and the tenant guard accept exactly the same live users below SUPER_ADMIN, and the guard refuses with the error of login. |
| AccountRuns.GatesAgreeInEveryRun | src/auth/auth.service.ts:41-59 | The same in every reachable state, for a token signed at any earlier point of the run. |
| AccountRuns.GatesDifferWithoutInvariant | src/auth/auth.service.ts:162-168 | Refresh, which never looks at the approval status, accepts an active but rejected ADMIN whom the guard refuses; only the invariant excludes that state. |
| AccountRuns.RegistrationAppointsOneAdmin | src/auth/auth.service.ts:76-92 | A successful registration makes its applicant the one live ADMIN of the new tenant. |
| AccountRuns.AdminsNeverChange | src/users/users.service.ts:182-200 | No call of any service adds, removes or replaces a live ADMIN of an existing tenant. |
| AccountRuns.RegisteredTenantKeepsItsAdmin | src/auth/auth.service.ts:76-92 | A registered tenant has exactly its applicant as live ADMIN in every later state. |
| AccountRuns.AccountCallMirrorsIff | src/tenants/tenants.service.ts:43-65 | An account call keeps tenant activity equal to its ADMIN's approval if and only if it is not a tenant patch or removal that flips an administered tenant. |
| Scenarios.TenantPatchBreaksMirror | src/tenants/tenants.service.ts:43-53 | In a reachable state a tenant is patched inactive while its ADMIN stays approved. |
| AccountRuns.TenantActivityMirrorsAdmin | src/admin-applications/admin-applications.service.ts:57-164 | In any run of all services a tenant with an ADMIN is active exactly while that ADMIN is APPROVED, in all states, if and only if no accepted tenant call flips such a tenant. |
| Redis.TextIsInjective | src/tracking/tracking.service.ts:37-81 | The texts of rate-limit, location and blacklist keys never collide when tenant ids contain no colon. |
| Tracking.FindNewest | src/tracking/tracking.service.ts:108-118 | The query answers a row of the vehicle that none of its rows is newer than, or nothing iff there is none. |
| Tracking.TrackingService.SaveLocation | src/tracking/tracking.service.ts:35-90 | The rate flag is tested and spent before the vehicle is looked up; the row is stamped after the look-up and cached after that; every Redis call may fail silently. |
| Tracking.TrackingService.GetLatest | src/tracking/tracking.service.ts:93-119 | Answers the cached location while it can be read, else a newest row; NotFound exactly for a vehicle that is not live in the tenant. |
| SessionEffects.SaveEffect | src/tracking/tracking.service.ts:35-90 | With Redis available: the verdict, the row and both Redis entries of a save in milliseconds (5000 for the flag, 3600000 for the cache), and no other key. |
| SessionEffects.SaveWithoutRedis | src/tracking/tracking.service.ts:38-84 | With every Redis call failing a save of a known vehicle is never limited and still stores its row. |
| TrackingRuns.AloneIsAtomic | src/tracking/tracking.service.ts:35-90 | The four steps of a save (test, flag, row, cache) run back to back give exactly the specified service call, whatever Redis calls fail. |
| RateRuns.FlagsApartIff | src/tracking/tracking.service.ts:37-48 | Any interleaved run with working flag writes keeps the flags of a (tenant, vehicle) 5 seconds apart, in all states, if and only if whenever a save sets its flag the test, asked again, would still come back empty. |
| RateRuns.OneTestedIsUncontested | src/tracking/tracking.service.ts:37-48 | One save per vehicle at a time between its test and its flag is enough for that. |
| TrackingExamples.DoubleTestContests | src/tracking/tracking.service.ts:37-48 | Without it the limit fails: two saves that both test before either sets the flag get through at one instant. |
| RateRuns.RowsAreApart | src/tracking/tracking.service.ts:50-69 | In runs with working, uncontested flags rows are stamped at least 5 seconds apart less the time from flag to row of the one flagged first. |
| LatestRuns.LatestIsTheNewestRow | src/tracking/tracking.service.ts:35-119 | In any interleaved run with working Redis writes, uncontested flags and less than 5 seconds from flag to cache write: the newest row is unique and `getLatest` answers it whenever no save of the vehicle is about to write the cache. |
| LatestRuns.LatestIsNewestIff | src/tracking/tracking.service.ts:80-119 | In any interleaved run, whatever calls fail: `getLatest` answers a newest row if and only if the cache cannot be read or the last cache write for the vehicle was of such a row. |
| TrackingExamples.SlowCacheWriteOvertakes | src/tracking/tracking.service.ts:57-84 | With no failure and flags 5 seconds apart, a slow cache write lands after that of the next save, and `getLatest` answers the older row. |
| TrackingExamples.FailedCacheWriteHidesNewest | src/tracking/tracking.service.ts:80-105 | After one silently failing cache write it answers the older row for up to an hour. |
| RateRuns.RateBound | src/tracking/tracking.service.ts:37-48 | In runs with working, uncontested flags a closed window of W seconds holds at most floor(W/5) + 1 flags of saves of a vehicle. |
| RateRuns.RowRateBound | src/tracking/tracking.service.ts:37-69 | With at most d milliseconds from flag to row such a window holds at most floor((1000 W + d) / 5000) + 1 rows. |
| TrackingExamples.SlowLookupCrowdsRows | src/tracking/tracking.service.ts:45-69 | For rows the delay cannot be left out: after a look-up of one second, 9 seconds hold three rows. |
| LatestRuns.LatestIsNewestOrRecent | src/tracking/tracking.service.ts:80-119 | In any interleaved run, whatever calls fail: the answer is empty iff no row is stored, and otherwise a stored row that is newest or was cached less than 3600 seconds ago. |
| Tokens.KeyOutlivesToken | src/auth/auth.service.ts:173-178 | The key overshoots the `exp` second by exactly the fraction lost to the floor plus the delay of the write, hence by less than 1000 ms plus that delay, and never undershoots it. |
| SessionEffects.TokenPassesIff | src/common/guards/auth.guard.ts:38-58 | The guard lets exactly a present, signed, unexpired token through whose key cannot be read. |
| SessionEffects.LogoutTouchesOwnKey | src/auth/auth.service.ts:173-178 | A logout touches no key but the token's own, and none for an expired token. |
| Tokens.LogoutLeavesNoGap | src/common/guards/auth.guard.ts:41-54 | After any run of logouts and at any later millisecond a signed token passes if and only if it has not expired and either was never logged out or Redis cannot be asked. |
| Jobs.JobsService.RunOfflineDetection | src/jobs/jobs.service.ts:185-240 | The loop appends exactly one alert for each vehicle on a trip that is silent at the start and not warned about when its turn comes, and nothing else. |
| SessionEffects.DueMeans | src/jobs/jobs.service.ts:185-224 | Exactly which vehicles get an alert: live and ON_TRIP, no GPS row of the last 1800 seconds, no unread mention of the last 3600. |
| SessionEffects.AlertSays | src/jobs/jobs.service.ts:226-231 | The alert's tenant, type, status, stamp and text. |
| Jobs.EverySilentVehicleIsWarned | src/jobs/jobs.service.ts:203-239 | After each job run every silent vehicle on a trip has an UNREAD alert of the last hour whose message contains its registration. |
| Jobs.SilentVehicleHasOwnAlertIff | src/jobs/jobs.service.ts:213-224 | A silent vehicle ends up with an alert of its own if and only if it had one or no fresh unread alert about another plate contains its plate. |
| Jobs.MaskedRunLeavesSilent | src/jobs/jobs.service.ts:213-224 | Such masking happens: after a run of two jobs a vehicle with plate AB1 is on a trip and silent, and the only alert is about plate AB12. |
| Jobs.UnreadAlertsAreAnHourApart | src/jobs/jobs.service.ts:213-224 | Across runs of the job, marks and scans, unread alerts about one registration of a tenant were created more than an hour apart. |
| Workshop.WorkshopService.AddPart | src/workshop/workshop.service.ts:55-78 | Item and increment are written together unless the job is completed. |
| SessionEffects.ItemEffect | src/workshop/workshop.service.ts:55-78 | An item goes onto exactly the job cards of the tenant that are not completed, with its cost on the total. |
| Workshop.TotalIsTheBill | src/workshop/workshop.service.ts:55-78 | In every run the running total of each job equals the sum over the flat item table. |
| Accounting.AdjacentWindowsAddUp | src/accounting/accounting.service.ts:23-125 | For adjacent windows every breakdown field, both totals and the profit add up, with open outer ends too. |
| Accounting.SharedEndPointCountsTwice | src/accounting/accounting.service.ts:27-88 | Windows that share an end point overcount exactly the rows stamped with it. |
| BookEffects.OneMoreIncome | src/accounting/accounting.service.ts:34-43 | One more income record moves the income from records by its amount if it is the tenant's, undeleted and in the window, and nothing else. |
| BookEffects.OneMoreExpense | src/accounting/accounting.service.ts:58-67 | The same for an expense record. |
| BookEffects.OneMoreTrip | src/accounting/accounting.service.ts:44-53 | One more trip moves its three figures, each by its own column. |
| BookEffects.OneMoreFuelLog | src/accounting/accounting.service.ts:68-77 | One more fuel log moves the fuel costs. |
| BookEffects.OneMoreMaintenanceLog | src/accounting/accounting.service.ts:78-87 | One more maintenance log moves the maintenance costs. |
| BookEffects.ProfitMoves | src/accounting/accounting.service.ts:90-110 | One more income record raises the profit by its amount, one more fuel log lowers it by its cost. |
| Reports.GroupIsDirectSum | src/reports/reports.service.ts:156-202 | The grouped count and sums found for a vehicle equal the direct filtered ones over the table, zero when it has no rows. |
| Reports.SortedGroupsAreDirect | src/reports/reports.service.ts:33-65 | A sorted grouped query has one row per vehicle, each row holds the direct sums, and no vehicle with matching rows is missing. |
| Reports.MileageConserves | src/reports/reports.service.ts:28-66 | The mileage report counts every matching trip and all its distance, deleted vehicles included; longest first. |
| Reports.FuelConserves | src/reports/reports.service.ts:73-112 | The fuel report over a window sums exactly to the fuel costs of accounting; highest cost first. |
| Reports.ReportRowsAreDirect | src/reports/reports.service.ts:28-112 | Each mileage and fuel row holds the direct count and sums of its vehicle, which has no other row. |
| Reports.UsageIsDirect | src/reports/reports.service.ts:193-225 | Every figure of a usage row is the direct sum or count over that vehicle's matching rows. |
| BookEffects.OneMoreTripUsed | src/reports/reports.service.ts:156-214 | One more trip adds itself, its distance and its income to the usage of its own vehicle, if asked for, and to no other. |
| BookEffects.OneMoreFuelUsed | src/reports/reports.service.ts:168-219 | One more fuel log adds a fill-up, its cost and its litres. |
| BookEffects.OneMoreMaintenanceUsed | src/reports/reports.service.ts:180-223 | One more maintenance log adds a maintenance and its cost. |
| BookEffects.LinesAgreeWithUsage | src/reports/reports.service.ts:59-111 | The mileage and fuel lines of a vehicle agree with its usage and carry its plate, or Unknown unless it is a live vehicle of the tenant. |
| Reports.UsageReportConserves | src/reports/reports.service.ts:132-226 | For all tables: usage rows over all vehicles, plus the rows whose vehicle is not a live one of the tenant, sum to accounting's trip income, fuel cost and maintenance cost. |
| Reports.MissingTripsAreOfDeletedVehicles | src/trips/trips.service.ts:73-76 | For the trips of every run of the system those missing rows are exactly the ones of soft-deleted vehicles. |
| Reports.UsageReportMissesDeletedOnly | src/reports/reports.service.ts:132-226 | With every row on a vehicle of its tenant, the usage rows plus those of soft-deleted vehicles sum to accounting's figures. |
| Responses.StripData | src/common/interceptors/sensitive-fields.interceptor.ts:19-34 | The recursion with its loops computes the specified value on primitives, arrays and plain objects. |
| Responses.StripKeepsExactlyOpenPaths | src/common/interceptors/sensitive-fields.interceptor.ts:19-34 | At every depth, a path through a key `password` (hidden) or `__proto__` (an assignment to it stores no entry) leads nowhere in the result, and every other path leads to what it led to before, stripped. |
| Responses.PasswordsAreGone | src/common/interceptors/sensitive-fields.interceptor.ts:11-34 | Nothing is reachable through `password` in any response, at any depth. |
| Responses.StripIsIdempotent | src/common/interceptors/sensitive-fields.interceptor.ts:19-34 | Stripping twice is stripping once. |

## Where the code and its documentation differ

- src/jobs/jobs.service.ts:102 says the offline detection runs every 15 minutes; the code (line 119) and the
  repository's README say 60. The model does not fix an interval: the theorems hold for any.
- The repository's README promises tenant isolation on every query. Booking creation and re-assignment never
  check who owns the vehicle, so bookings are kept apart per (tenant, vehicle), not per vehicle:
  `BookingExamples.StrangerBooksTheSameVan` is an input, `BookingCommits.RequestKeepsOwnedIff` and
  `RunKeepsOwnedIff` give the exact condition, `NoVehicleIsBookedTwice` what holds under it.
- src/scheduling/scheduling.service.ts:19 speaks of an active trip; the code (lines 48-61) also treats every
  finished trip that overlaps the range as a conflict. The model follows the code.

## Left out

- Interleaving is modelled for bookings, trip starts, assignment creations and GPS saves; every other service call,
  and an assignment update, is one atomic step.
- Tracking.TrackingService.SaveLocation: the vehicle look-up, the timestamp and the insertion of the row are one step, so a row is visible from the instant it is stamped with.
- Jobs.JobsService.RunOfflineDetection: the tables stand still during a run of the job, and the 30 minutes are counted in elapsed time, not in the server's local clock across a daylight-saving change.
- Driver double booking across bookings is not claimed: the driver check looks at assignments and trips only.
- The texts of availability reasons and exceptions, except that an offline alert contains the registration.
- Columns without modelled behaviour (names, contacts, passwords, vehicle makes, document dates); an update
  request carries one flag for whether any of them was sent, and null in a required one of them is not modelled.
- Foreign keys to tenants are modelled for users only; rows of other tables take their tenant from a verified token.
- The order of equal totals in sorted reports and the order by registration number in the usage report.
- Rounding of money and distance, and sums over null amounts; amounts are integers and a missing sum is 0.
- Class instances such as dates in responses; only primitives, arrays and plain objects are stripped.
- Token extraction from cookie or header, signing, refresh-token issue and public routes.
- The contracts service apart from the vehicle it creates, and documents, expenses, income, fuel, maintenance,
  subscriptions, feature access, profile, audit and the alert scan, which are single-table operations.
- Controllers, input validation, the WebSocket gateway, job scheduling and logging.
