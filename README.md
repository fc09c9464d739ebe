# airflow central-backend — a verified model of the dispatch core

This project models the dispatch core of the airflow central backend. That core has four parts.

- **Trip service.** It schedules a truck toward the airport: it validates the driver and the truck, takes a route, reserves the first free parking slot from the airport mock and saves a trip. It also follows the trip's location updates, where traffic advice can re-route the trip or add a delay. It completes trips and reads them back.
- **Mock airport.** It holds a table of six parking slots, lists the free ones and reserves slots by id.
- **Daily assignment scheduler.** It caches the day's task assignments under fresh ids and plans a flight pickup as a chain of two driving legs.
- **Dispatch controller.** Its endpoints filter the assignments by truck and look an assignment up before planning its pickup.

It also models the per-trip intersection queue and the mock street-map client that numbers intersections.

Each part keeps the form it has in the Java code:

- Objects whose fields are updated in place are classes. These are `Trip`, `MockAirportClient` (its slot table is an `array`), `IntersectionCacheService`, `ScheduletoAirportServices` and `AssignmentSchedulerService`. Their methods carry `modifies` clauses and state their whole new state.
- Loops are `while` loops with invariants. Each is proved against a specification function on sequences:
  - `FreeSlots` and `FindReservable` for the slot table;
  - `NextBatch` and `AfterBatch` for the queue;
  - `Tagged` and `CacheOf` for the refresh.
- The controller's filter is a recursive function.

Modelling conventions:

- **Time.** Time is an integer count of seconds of local wall-clock time, and a day starts at every multiple of 86400.
- **Null and exceptions.** A Java `null` is `Option.None`. A thrown exception is a `Result.Failure` naming the cause. Where an error leaves no state change, the contract says so.
- **External calls.** Calls to outside systems are parameters of the operation: the route (or its failure), the traffic advice, the flight record, the routing durations, and the parking and dock reservations. So are the clock (`now`), fresh ids and the outcome of a database save.
- **The trip table.** It is a map from trip id to a `TripRecord` value, which holds only the persisted columns. A service call loads a fresh `Trip` object from it, changes it through its setters and writes it back. Reloading always drops the route and the advice, which the entity marks as transient.

Three points of the code's behaviour are worth noting:

- The trip service never calls the intersection queue, so the queue is modelled on its own.
- A location update never re-verifies the trip's reserved slot with the airport.
- The flight-pickup plan rolls the flight's arrival time, and separately the one-hour loading window, to the next day when they are past. `FlightChain` models both rolls.

## Model

| member | source | states |
|---|---|---|
| Domain.ContainsIffOccurs | src/main/java/com/airflow/centralbackend/Services/ScheduletoAirportServices.java:169 | the "message contains delay" test holds exactly when the word occurs at some position of the message |
| Domain.DelayAdviceRecognised | src/main/java/com/airflow/centralbackend/Services/MockDaliClient.java:18 | example: the mock's congestion advice contains "delay", so it triggers the five-minute penalty |
| Domain.WholeMinutes | src/main/java/com/airflow/centralbackend/Services/ScheduletoAirportServices.java:114 | the cast of the route's duration to whole minutes: the largest minute count whose seconds do not exceed the duration |
| TripModel.Restore | src/main/java/com/airflow/centralbackend/Model/Trip.java:44-48 | a trip reloaded from the table has neither a route nor a traffic advice |
| TripModel.Persist | src/main/java/com/airflow/centralbackend/Model/Trip.java:11-48 | saving keeps every column: reloading a saved trip gives it back with only the two transient fields cleared |
| TripModel.PersistRestore | src/main/java/com/airflow/centralbackend/Model/Trip.java:11-48 | saving a reloaded trip writes back exactly the stored row |
| TripModel.TransientNotPersisted | src/main/java/com/airflow/centralbackend/Model/Trip.java:44-48 | changing the route or the advice never changes what is saved |
| TripModel.Trip.constructor | src/main/java/com/airflow/centralbackend/Model/Trip.java:50-52 | a new trip has every reference unset and is active |
| TripModel.Trip.Create | src/main/java/com/airflow/centralbackend/Model/Trip.java:54-59 | the three-argument constructor sets id, driver and truck; the trip is active and nothing else is set |
| TripModel.Trip.Load | src/main/java/com/airflow/centralbackend/Model/Trip.java:44-48 | loading a row gives its columns, with no route and no advice |
| TripModel.Trip.SetTripId | src/main/java/com/airflow/centralbackend/Model/Trip.java:64-66 | sets the id; every other field is unchanged |
| TripModel.Trip.SetDriver | src/main/java/com/airflow/centralbackend/Model/Trip.java:71-73 | sets the driver; every other field is unchanged |
| TripModel.Trip.SetTruck | src/main/java/com/airflow/centralbackend/Model/Trip.java:78-80 | sets the truck; every other field is unchanged |
| TripModel.Trip.SetReservedParkingSlot | src/main/java/com/airflow/centralbackend/Model/Trip.java:85-87 | sets the reserved slot; every other field is unchanged |
| TripModel.Trip.SetCurrentLocation | src/main/java/com/airflow/centralbackend/Model/Trip.java:92-94 | sets the location; every other field is unchanged |
| TripModel.Trip.SetStartTime | src/main/java/com/airflow/centralbackend/Model/Trip.java:99-101 | sets the start time; every other field is unchanged |
| TripModel.Trip.SetEstimatedArrivalTime | src/main/java/com/airflow/centralbackend/Model/Trip.java:106-108 | sets the arrival estimate; every other field is unchanged |
| TripModel.Trip.SetActive | src/main/java/com/airflow/centralbackend/Model/Trip.java:113-115 | sets the active flag, with no guard; every other field is unchanged |
| TripModel.Trip.SetCurrentRoute | src/main/java/com/airflow/centralbackend/Model/Trip.java:120-122 | sets the route; every other field is unchanged |
| TripModel.Trip.SetLatestDaliAdvice | src/main/java/com/airflow/centralbackend/Model/Trip.java:127-129 | sets the advice; every other field is unchanged |
| TripModel.Trip.CompleteTrip | src/main/java/com/airflow/centralbackend/Model/Trip.java:131-133 | marks the trip inactive and changes nothing else |
| TripModel.ReactivateAfterCompletion | src/main/java/com/airflow/centralbackend/Model/Trip.java:113-115 | the unguarded setter can make a completed trip active again |
| AirportClient.FreeSlotsMembers | src/main/java/com/airflow/centralbackend/Services/MockAirportClient.java:30-38 | a slot is listed as available exactly when it is in the table and not reserved |
| AirportClient.FindFrom | src/main/java/com/airflow/centralbackend/Services/MockAirportClient.java:44-49 | the first index at or after the start whose slot has the id and is free; none when there is no such index |
| AirportClient.FindReservable | src/main/java/com/airflow/centralbackend/Services/MockAirportClient.java:43-51 | the first slot in table order with the id that is free; none exactly when no such slot exists |
| AirportClient.InitialIdsDistinct | src/main/java/com/airflow/centralbackend/Services/MockAirportClient.java:17-25 | the six seeded slot ids are pairwise distinct |
| AirportClient.AllFreeIsFreeList | src/main/java/com/airflow/centralbackend/Services/MockAirportClient.java:30-38 | when no slot is reserved the availability list is the whole table, in order |
| AirportClient.InitialAllFree | src/main/java/com/airflow/centralbackend/Services/MockAirportClient.java:17-25 | at start all six slots are available, in table order |
| AirportClient.ReserveShrinksFree | src/main/java/com/airflow/centralbackend/Services/MockAirportClient.java:43-51 | reserving a free slot shortens the availability list by exactly one |
| AirportClient.FirstFreeIsReservable | src/main/java/com/airflow/centralbackend/Services/ScheduletoAirportServices.java:83-93 | with distinct ids, the first available slot can always be reserved by its id, at its own position: the reservation-failed branch cannot fire |
| AirportClient.NeverGrantedTwice | src/main/java/com/airflow/centralbackend/Services/MockAirportClient.java:43-51 | with distinct ids, a slot id once granted is never granted again |
| AirportClient.MockAirportClient.constructor | src/main/java/com/airflow/centralbackend/Services/MockAirportClient.java:17-25 | the table holds the six seeded slots, all free, with distinct ids |
| AirportClient.MockAirportClient.GetAvailableSlots | src/main/java/com/airflow/centralbackend/Services/MockAirportClient.java:30-38 | returns the free slots in table order, without changing the table |
| AirportClient.MockAirportClient.ReserveSlot | src/main/java/com/airflow/centralbackend/Services/MockAirportClient.java:43-51 | reserves and returns the first free slot with the id; otherwise returns none and leaves the table as it was; no slot is ever freed |
| AirportClient.MockAirportClient.ConfirmArrival | src/main/java/com/airflow/centralbackend/Services/MockAirportClient.java:56-58 | acknowledges an arrival without touching the slot table |
| IntersectionCache.BatchCount | src/main/java/com/airflow/centralbackend/Services/IntersectionCacheService.java:28-30 | a poll never takes more than requested or more than is queued, and stops short of the request only when the queue runs out; none for a request at most 0 |
| IntersectionCache.PollSplitsQueue | src/main/java/com/airflow/centralbackend/Services/IntersectionCacheService.java:22-34 | one poll splits the queue: the batch is its prefix of the requested size, or the whole queue when shorter, and the rest stays queued |
| IntersectionCache.DrainPreservesOrder | src/main/java/com/airflow/centralbackend/Services/IntersectionCacheService.java:22-34 | successive polls return the queue in order: the batches followed by what is left are the original queue |
| IntersectionCache.DrainTakes | src/main/java/com/airflow/centralbackend/Services/IntersectionCacheService.java:22-34 | after polls of the given sizes exactly the queue length minus their total is left, or nothing |
| IntersectionCache.DrainComplete | src/main/java/com/airflow/centralbackend/Services/IntersectionCacheService.java:22-34 | polls whose sizes add up to the queue length or more return the whole queue |
| IntersectionCache.ExhaustedStaysEmpty | src/main/java/com/airflow/centralbackend/Services/IntersectionCacheService.java:28-30 | polling an empty queue returns empty batches |
| IntersectionCache.IntersectionCacheService.constructor | src/main/java/com/airflow/centralbackend/Services/IntersectionCacheService.java:14 | the cache starts empty |
| IntersectionCache.IntersectionCacheService.PutIntersections | src/main/java/com/airflow/centralbackend/Services/IntersectionCacheService.java:17-19 | replaces the trip's queue with the given list; other trips are untouched |
| IntersectionCache.IntersectionCacheService.GetNextIntersections | src/main/java/com/airflow/centralbackend/Services/IntersectionCacheService.java:22-34 | an unknown trip gives an empty batch and no change; otherwise returns the queue's next batch and keeps its remainder |
| IntersectionCache.IntersectionCacheService.RemoveIntersections | src/main/java/com/airflow/centralbackend/Services/IntersectionCacheService.java:37-39 | drops the trip's queue and nothing else |
| IntersectionCache.RemoveThenPoll | src/main/java/com/airflow/centralbackend/Services/IntersectionCacheService.java:22-39 | after removing a trip, polling it yields nothing |
| OsmClient.GetIntersections | src/main/java/com/airflow/centralbackend/Services/MockOSMClient.java:21-35 | returns as many intersections as requested (none for a count at most 0), numbered 1, 2, ... in order |
| OsmClient.NumbersIncrease | src/main/java/com/airflow/centralbackend/Services/MockOSMClient.java:26-31 | corollary of the numbering: sequence numbers increase strictly along the list, by exactly one per position |
| OsmClient.FirstBatchIsOneToThree | src/main/java/com/airflow/centralbackend/Services/MockOSMClient.java:26-33 | example: a first poll of three from a generated list returns intersections 1 to 3 and leaves 4 at the head |
| ScheduleService.RelocationKeepsIdentity | src/main/java/com/airflow/centralbackend/Services/ScheduletoAirportServices.java:141-175 | a location update keeps id, driver, truck, slot and start, and the trip stays active; only location and arrival estimate change in the table |
| ScheduleService.EstimateRules | src/main/java/com/airflow/centralbackend/Services/ScheduletoAirportServices.java:155-172 | a re-route puts the estimate between now and now plus the new route's duration; without one, delay advice adds exactly five minutes and any other advice keeps the estimate |
| ScheduleService.ScheduletoAirportServices.GetTrip | src/main/java/com/airflow/centralbackend/Services/ScheduletoAirportServices.java:210-221 | succeeds exactly for a stored id and returns the stored row with no route or advice; otherwise fails with trip-not-found |
| ScheduleService.ScheduletoAirportServices.Store | src/main/java/com/airflow/centralbackend/Model/Trip.java:11-13 | the store refuses a trip without an id and stores nothing; otherwise it writes the trip's persisted columns under its id, leaving the other rows |
| ScheduleService.ScheduletoAirportServices.SaveTrip | src/main/java/com/airflow/centralbackend/Services/ScheduletoAirportServices.java:118 | with the fresh id assigned first, the trip's persisted columns are written under that id and the other rows stay as they were |
| ScheduleService.ScheduletoAirportServices.BuildTrip | src/main/java/com/airflow/centralbackend/Services/ScheduletoAirportServices.java:101-114 | a fresh active trip with driver, truck, slot, location, route, advice, start now and arrival now plus the route's whole minutes |
| ScheduleService.ScheduletoAirportServices.ValidateAndReserve | src/main/java/com/airflow/centralbackend/Services/ScheduletoAirportServices.java:60-93 | failure order: driver, truck, route, no free slot, with the table unchanged; otherwise the first free slot is reserved and returned marked reserved, or the reservation fails with nothing changed |
| ScheduleService.ScheduletoAirportServices.ScheduleTruckAsWritten | src/main/java/com/airflow/centralbackend/Services/ScheduletoAirportServices.java:99-120 | as written, with the id never set: every request fails, the same validation failures apply, and one that reserved a slot fails at the save with the slot left reserved and no trip stored |
| ScheduleService.ScheduletoAirportServices.ScheduleTruck | src/main/java/com/airflow/centralbackend/Services/ScheduletoAirportServices.java:57-121 | failure order: driver, truck, route, no free slot, reservation, with nothing changed; otherwise reserves the first free slot and saves the trip built from it; a failed save leaves that slot reserved |
| ScheduleService.ScheduletoAirportServices.UpdateTripLocation | src/main/java/com/airflow/centralbackend/Services/ScheduletoAirportServices.java:127-178 | unknown and completed trips fail with no change; otherwise the stored trip is relocated and its arrival estimate follows the advice rules |
| ScheduleService.ScheduletoAirportServices.CompleteTrip | src/main/java/com/airflow/centralbackend/Services/ScheduletoAirportServices.java:183-203 | unknown and completed trips fail with no change; otherwise the stored trip becomes inactive and nothing else changes |
| ScheduleService.CompletionIsTerminal | src/main/java/com/airflow/centralbackend/Services/ScheduletoAirportServices.java:136-138 | once a trip is completed, both a location update and a second completion are refused as already completed |
| AssignmentScheduler.ParseHourMinute | src/main/java/com/airflow/centralbackend/Services/AssignmentSchedulerService.java:113 | accepts exactly two digits, a colon and two digits for 00:00-23:59, plus 24:00 read as midnight; the result is a whole minute within the day |
| AssignmentScheduler.ParseFormat | src/main/java/com/airflow/centralbackend/Services/AssignmentSchedulerService.java:113 | every time of day written as HH:mm reads back as itself |
| AssignmentScheduler.FormatParse | src/main/java/com/airflow/centralbackend/Services/AssignmentSchedulerService.java:113 | every accepted text other than 24:00 is the canonical HH:mm writing of the time it denotes |
| AssignmentScheduler.DayStart | src/main/java/com/airflow/centralbackend/Services/AssignmentSchedulerService.java:114-115 | today's midnight: a whole-day boundary at or before now, less than a day earlier |
| AssignmentScheduler.RollForward | src/main/java/com/airflow/centralbackend/Services/AssignmentSchedulerService.java:119-122 | the result is the same wall-clock time, and for a time less than a day before now it is the next occurrence at or after now, moved a day exactly when strictly before now |
| AssignmentScheduler.DepartureIsLatestOnTime | src/main/java/com/airflow/centralbackend/Services/AssignmentSchedulerService.java:183-188 | the computed departure is the latest one that arrives by the target: leaving at any time arrives on time exactly when it is not after it |
| AssignmentScheduler.DepartureMonotone | src/main/java/com/airflow/centralbackend/Services/AssignmentSchedulerService.java:183-188 | a later target or a shorter leg never makes the departure earlier |
| AssignmentScheduler.FlightChain | src/main/java/com/airflow/centralbackend/Services/AssignmentSchedulerService.java:113-147 | the planned landing lies in [now, now + 1 day) and is rolled exactly when the listed time is past; each leg's departure precedes its arrival by that leg's duration; the loading window is rolled exactly when it is past |
| AssignmentScheduler.RolledPickupFollowsDeparture | src/main/java/com/airflow/centralbackend/Services/AssignmentSchedulerService.java:132-137 | whenever the loading window is rolled, the truck is told to reach the pickup 23 hours after it is told to leave it |
| AssignmentScheduler.EveningLookupPlansTomorrow | src/main/java/com/airflow/centralbackend/Services/AssignmentSchedulerService.java:113-131 | example: a 14:00 flight looked up at 20:00 is planned for 14:00 the next day |
| AssignmentScheduler.CacheOfSound | src/main/java/com/airflow/centralbackend/Services/AssignmentSchedulerService.java:65-71 | every cached assignment carries its key as its id and is one of the tagged assignments |
| AssignmentScheduler.CacheOfExact | src/main/java/com/airflow/centralbackend/Services/AssignmentSchedulerService.java:65-71 | with distinct fresh ids the cache has one entry per fetched assignment, keyed by its id |
| AssignmentScheduler.AssignmentSchedulerService.constructor | src/main/java/com/airflow/centralbackend/Services/AssignmentSchedulerService.java:33-43 | no response yet and both caches empty |
| AssignmentScheduler.AssignmentSchedulerService.FetchAndCacheAssignments | src/main/java/com/airflow/centralbackend/Services/AssignmentSchedulerService.java:51-73 | a call that throws changes nothing; an unusable assignment body leaves no usable response and an empty cache, since the cache is cleared before the refresh throws; otherwise the response's assignments receive fresh ids in order and the cache maps each id to its assignment, replacing yesterday's entries |
| AssignmentScheduler.AssignmentSchedulerService.Refill | src/main/java/com/airflow/centralbackend/Services/AssignmentSchedulerService.java:63-71 | after the loop the response holds every assignment tagged with its fresh id, in order, and the cache maps exactly those ids to them |
| AssignmentScheduler.AssignmentSchedulerService.ClearAssignmentsCache | src/main/java/com/airflow/centralbackend/Services/AssignmentSchedulerService.java:79-81 | empties the cache and keeps the last response |
| AssignmentScheduler.AssignmentSchedulerService.GetCachedAssignments | src/main/java/com/airflow/centralbackend/Services/AssignmentSchedulerService.java:90-97 | null before the first refresh; afterwards a response holding every cached assignment, possibly stale |
| AssignmentScheduler.AssignmentSchedulerService.GetCachedFlightInfo | src/main/java/com/airflow/centralbackend/Services/AssignmentSchedulerService.java:160-162 | the plan stored under the id, or none |
| AssignmentScheduler.AssignmentSchedulerService.GetFlightInfo | src/main/java/com/airflow/centralbackend/Services/AssignmentSchedulerService.java:99-158 | failure order: the flight lookup, an unreadable arrival time, an assignment missing from the cache, a routing failure, then the parking and the dock reservation, each storing nothing; succeeds exactly when none of these fails, and then stores and returns the plan given by the flight chain |
| Controller.FilterByTruck | src/main/java/com/airflow/centralbackend/Controller/ScheduletoAirportController.java:83-85 | keeps exactly the assignments with the requested truck id, in order, each as often as it occurs; no truck id never matches |
| Controller.AssignmentsForTruck | src/main/java/com/airflow/centralbackend/Controller/ScheduletoAirportController.java:80-89 | fails before the first refresh; otherwise an ordered sub-list of the last response holding only that truck's assignments and every cached one of that truck |
| Controller.ClearKeepsTruckView | src/main/java/com/airflow/centralbackend/Controller/ScheduletoAirportController.java:80-85 | the nightly clear empties the cache but leaves every truck's assignment list unchanged |
| Controller.FlightInfo | src/main/java/com/airflow/centralbackend/Controller/ScheduletoAirportController.java:60-71 | an id missing from the cache fails; the call succeeds exactly when the id is cached and the flight lookup, the time, both legs, the parking and the dock all succeed; the plan carries that id and the assignment's flight number, and is stored under that id |

## Findings

| source | as written | input that shows it | evidently intended | confidence | as-written member | corrected member |
|---|---|---|---|---|---|---|
| src/main/java/com/airflow/centralbackend/Services/ScheduletoAirportServices.java:99-118 | the new trip's id is never set (the assignment at line 102 is commented out) and the id column has no generator (Model/Trip.java:11-13), so the save is refused and scheduling never returns a trip | any known driver and truck, a route, and a free slot | the store gives the trip a fresh id and saves it | not executed | ScheduleService.ScheduletoAirportServices.ScheduleTruckAsWritten | ScheduleService.ScheduletoAirportServices.ScheduleTruck |

## Left out

- Every HTTP endpoint wrapper, the JSON mapping and the token header are left out. Only the logic behind the endpoints is modelled.
- The Google Directions, DALI traffic, flight, manifest, parking and dock calls are parameters. Their own code is not part of this model: the route parser, the mock DALI selection and the transport mock controller.
- The random choice of advice, and the random offsets of the mock intersection coordinates, are left out. Coordinates are real numbers where they are kept, and an intersection's location is dropped.
- Parsing the current-position strings as doubles, and its number-format failure, are left out. So is a null assignment location.
- Time zones and daylight-saving shifts are left out, as are the text formats of the plan's times. Times are seconds of local wall-clock time.
- The separate clock reads within one call are treated as one instant `now`.
- Fresh UUIDs are a supplied list of ids. In the corrected scheduling the store assigns a supplied fresh trip id `newTripId`, as recorded under Findings. Other database failures of that save are the input `saveOk`; such a failure leaves the reserved slot reserved.
- `AssignmentScheduler.AssignmentSchedulerService.FetchAndCacheAssignments`: a null body and a body without an assignment list are both modelled as no usable response. The model does not tell them apart, though a caller reading the raw response would see the difference.
- `AssignmentScheduler.AssignmentSchedulerService.GetFlightInfo`: a parking reservation made before the dock reservation fails stays reserved with the outside service. That service is not modelled.
- `AssignmentScheduler.AssignmentSchedulerService.Refill`: the loop fills local copies of the response and the cache and writes both back when it ends. The code updates the shared map entry by entry, so the intermediate states a concurrent reader could see are not modelled.
- Concurrency is left out: the concurrent maps and queues, the cron triggers and request interleavings. Every operation runs to completion alone.
- Object identity of slots is left out. The airport returns the very slot objects it later marks reserved. The model states the resulting values, so the slot stored on a trip is the reserved one, but not the sharing.
- Sending the location to DALI and logging to the console are left out.
- The controller's debug departure calculation for a fixed address is left out. Its result is only printed, but its Directions call can throw. The truck endpoint would then fail after filtering, and the model does not capture that failure.
- `AssignmentScheduler.FlightChain`: the clock has whole seconds, so the roll tests do not capture the sub-second edge of `isBefore(now)`. A time equal to `now` up to its fraction of a second counts as not before it.
- `TripModel.Trip.SetTripId`, and the other setters, take only present values, while the Java setters also accept null. No caller in the core passes null.
- The scheduler's access to the raw cache map is a direct read of the `cachedAssignments` field.
- Driver and truck records are reduced to their ids, kept as the sets of known ids.
- Parking slots in the trip table are values, not rows of their own table.
