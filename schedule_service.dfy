/**
 * The trip lifecycle service: schedule a truck (validate, reserve the first
 * free slot, save an active trip), update a trip's location (re-route or
 * apply a delay), complete a trip, and read a trip back.
 *
 * The trip store is a map from trip id to the persisted record; each
 * operation loads a fresh trip object from its record, changes it through
 * its setters and saves it back. External calls are inputs: the traffic
 * advice, the route found (None when the routing call fails), the current
 * time `now` in seconds, and whether the save succeeds.
 */
module ScheduleService {
  import opened Wrappers
  import opened Domain
  import opened TripModel
  import opened AirportClient

  datatype ServiceError =
    | DriverNotFound
    | TruckNotFound
    | RouteFetchFailed
    | NoParkingSlots
    | SlotReservationFailed
    | SaveFailed
    | TripNotFound
    | TripAlreadyCompleted

  /** The fixed penalty a delay advice adds to the arrival estimate. */
  const DelayPenaltySeconds := 5 * SecondsPerMinute

  /** A stored record keyed by its own id, with its parties and times set. */
  ghost predicate WellFormed(id: string, r: TripRecord)
  {
    r.tripId == Some(id) && r.driver.Some? && r.truck.Some? &&
    r.startTime.Some? && r.estimatedArrivalTime.Some?
  }

  /** Completed trips are still stored, and exactly as they were. */
  ghost predicate CompletedKept(before: map<string, TripRecord>, after: map<string, TripRecord>)
  {
    forall id :: id in before && !before[id].active ==> id in after && after[id] == before[id]
  }

  /** The arrival estimate after an update: recomputed from now on a re-route, pushed back on a delay. */
  function EstimateAfter(eta: int, advice: DaliAdvice, updatedRoute: Option<Route>, now: int): int
    requires advice.routeChanged ==> updatedRoute.Some?
  {
    if advice.routeChanged then now + WholeMinutes(updatedRoute.value) * SecondsPerMinute
    else if Contains(advice.message, DelayWord) then eta + DelayPenaltySeconds
    else eta
  }

  /** The trip object after a successful location update of the active trip stored as `rec`. */
  function Relocated(rec: TripRecord, newLocation: Location, advice: DaliAdvice,
                     updatedRoute: Option<Route>, now: int): TripState
    requires rec.estimatedArrivalTime.Some?
    requires advice.routeChanged ==> updatedRoute.Some?
  {
    Restore(rec).(currentLocation := Some(newLocation),
                  latestDaliAdvice := Some(advice),
                  currentRoute := if advice.routeChanged then updatedRoute else None,
                  estimatedArrivalTime := Some(EstimateAfter(rec.estimatedArrivalTime.value, advice, updatedRoute, now)))
  }

  /**
   * A location update changes only the location and the arrival estimate of
   * what is stored: the trip stays active, with the same id, parties, slot
   * and start time.
   */
  lemma RelocationKeepsIdentity(rec: TripRecord, newLocation: Location, advice: DaliAdvice,
                                updatedRoute: Option<Route>, now: int)
    requires rec.estimatedArrivalTime.Some? && rec.active
    requires advice.routeChanged ==> updatedRoute.Some?
    ensures Persist(Relocated(rec, newLocation, advice, updatedRoute, now)) ==
            rec.(currentLocation := Some(newLocation),
                 estimatedArrivalTime := Relocated(rec, newLocation, advice, updatedRoute, now).estimatedArrivalTime)
    ensures Relocated(rec, newLocation, advice, updatedRoute, now).active
  {
  }

  /**
   * Without a re-route the estimate never moves earlier: it moves back by
   * exactly five minutes when the message mentions a delay, and stays put
   * otherwise. With a re-route it is now plus the new route's whole minutes.
   */
  lemma EstimateRules(eta: int, advice: DaliAdvice, updatedRoute: Option<Route>, now: int)
    requires advice.routeChanged ==> updatedRoute.Some?
    ensures advice.routeChanged ==>
              now <= EstimateAfter(eta, advice, updatedRoute, now) <= now + updatedRoute.value.durationSeconds
    ensures !advice.routeChanged ==>
              EstimateAfter(eta, advice, updatedRoute, now) - eta ==
                (if Contains(advice.message, DelayWord) then 300 else 0)
  {
  }

  class ScheduletoAirportServices {
    /** Ids the driver repository knows. */
    var drivers: set<string>
    /** Ids the truck repository knows. */
    var trucks: set<string>
    /** The trip repository. */
    var trips: map<string, TripRecord>
    const airport: MockAirportClient

    ghost predicate Valid()
      reads this, airport.slots
    {
      airport.Valid() && forall id :: id in trips ==> WellFormed(id, trips[id])
    }

    constructor (drivers: set<string>, trucks: set<string>, airport: MockAirportClient)
      requires airport.Valid()
      ensures Valid()
      ensures this.drivers == drivers && this.trucks == trucks && trips == map[] && this.airport == airport
    {
      this.drivers, this.trucks, trips := drivers, trucks, map[];
      this.airport := airport;
    }

    /** Reads a stored trip: the persisted fields, transient ones null; unknown ids fail. */
    function GetTrip(tripId: string): (r: Result<TripState, ServiceError>)
      reads this
      ensures r.Success? <==> tripId in trips
      ensures r.Success? ==> Persist(r.value) == trips[tripId] && r.value.currentRoute.None? && r.value.latestDaliAdvice.None?
      ensures r.Failure? ==> r.error == TripNotFound
    {
      if tripId in trips then Success(Restore(trips[tripId])) else Failure(TripNotFound)
    }

    /**
     * The repository's save of a trip entity. The id column has no
     * generator, so a trip whose id is unset is refused and nothing is
     * stored; otherwise its persisted fields are stored under its id.
     */
    method Store(trip: Trip) returns (stored: bool)
      modifies this
      ensures stored <==> trip.tripId.Some?
      ensures stored ==> trips == old(trips)[trip.tripId.value := Persist(trip.State())]
      ensures !stored ==> trips == old(trips)
      ensures drivers == old(drivers) && trucks == old(trucks)
    {
      if trip.tripId.None? {
        return false;
      }
      trips := trips[trip.tripId.value := Persist(trip.State())];
      return true;
    }

    /** Gives the trip the fresh id the store assigns, then saves it. */
    method SaveTrip(trip: Trip, id: string)
      modifies this, trip
      ensures trip.State() == old(trip.State()).(tripId := Some(id))
      ensures trips == old(trips)[id := Persist(trip.State())]
      ensures drivers == old(drivers) && trucks == old(trucks)
    {
      trip.SetTripId(id);
      var stored := Store(trip);
    }

    /** Builds the new trip entity field by field, as scheduling does before saving it. */
    static method BuildTrip(driverId: string, truckId: string, slot: ParkingSlot,
                            currentLocation: Location, route: Route, advice: DaliAdvice, now: int)
      returns (trip: Trip)
      ensures fresh(trip)
      ensures trip.State() ==
                TripState(None, Some(driverId), Some(truckId), Some(slot), Some(currentLocation),
                          Some(now), Some(now + WholeMinutes(route) * SecondsPerMinute),
                          true, Some(route), Some(advice))
    {
      trip := new Trip();
      trip.SetDriver(driverId);
      trip.SetTruck(truckId);
      trip.SetReservedParkingSlot(slot);
      trip.SetCurrentLocation(currentLocation);
      trip.SetCurrentRoute(route);
      trip.SetLatestDaliAdvice(advice);
      trip.SetActive(true);
      trip.SetStartTime(now);
      trip.SetEstimatedArrivalTime(now + WholeMinutes(route) * SecondsPerMinute);
    }

    /**
     * The first steps of scheduling: checks the driver, then the truck, then
     * the route, then that a slot is free, all before any slot is touched;
     * then reserves the first free slot and returns it, marked reserved.
     */
    method ValidateAndReserve(truckId: string, driverId: string, route: Option<Route>)
      returns (res: Result<ParkingSlot, ServiceError>)
      requires Valid()
      modifies airport.slots
      ensures Valid()
      ensures driverId !in drivers ==> res == Failure(DriverNotFound)
      ensures driverId in drivers && truckId !in trucks ==> res == Failure(TruckNotFound)
      ensures driverId in drivers && truckId in trucks && route.None? ==> res == Failure(RouteFetchFailed)
      ensures (driverId in drivers && truckId in trucks && route.Some? &&
               FreeSlots(old(airport.Table())) == []) ==> res == Failure(NoParkingSlots)
      ensures (driverId !in drivers || truckId !in trucks || route.None? ||
               FreeSlots(old(airport.Table())) == []) ==> airport.Table() == old(airport.Table())
      ensures (driverId in drivers && truckId in trucks && route.Some? &&
               FreeSlots(old(airport.Table())) != []) ==>
        var table := old(airport.Table());
        match FindReservable(table, FreeSlots(table)[0].slotId)
        case None => res == Failure(SlotReservationFailed) && airport.Table() == table
        case Some(k) => res == Success(table[k].(reserved := true)) && airport.Table() == ReserveAt(table, k)
    {
      if driverId !in drivers {
        return Failure(DriverNotFound);
      }
      if truckId !in trucks {
        return Failure(TruckNotFound);
      }
      if route.None? {
        return Failure(RouteFetchFailed);
      }
      var availableSlots := airport.GetAvailableSlots();
      if availableSlots == [] {
        return Failure(NoParkingSlots);
      }
      var chosenSlot := availableSlots[0];
      var reservedSlot := airport.ReserveSlot(chosenSlot.slotId);
      if reservedSlot.None? {
        return Failure(SlotReservationFailed);
      }
      // The chosen slot and the reserved slot are one object, now marked reserved.
      return Success(reservedSlot.value);
    }

    /**
     * Schedules a truck toward the airport: validates and reserves the first
     * free slot, builds an active trip whose arrival estimate is now plus
     * the route's whole minutes, and saves it under the fresh id the store
     * assigns. A failed save leaves the slot reserved.
     */
    method ScheduleTruck(truckId: string, driverId: string, currentLocation: Location,
                         advice: DaliAdvice, route: Option<Route>, now: int,
                         newTripId: string, saveOk: bool)
      returns (r: Result<Trip, ServiceError>)
      requires Valid()
      requires newTripId !in trips
      modifies this, airport.slots
      ensures Valid()
      ensures drivers == old(drivers) && trucks == old(trucks)
      ensures CompletedKept(old(trips), trips)
      ensures driverId !in old(drivers) ==> r == Failure(DriverNotFound)
      ensures driverId in old(drivers) && truckId !in old(trucks) ==> r == Failure(TruckNotFound)
      ensures driverId in old(drivers) && truckId in old(trucks) && route.None? ==> r == Failure(RouteFetchFailed)
      ensures (driverId in old(drivers) && truckId in old(trucks) && route.Some? &&
               FreeSlots(old(airport.Table())) == []) ==> r == Failure(NoParkingSlots)
      ensures (driverId !in old(drivers) || truckId !in old(trucks) || route.None? ||
               FreeSlots(old(airport.Table())) == []) ==>
              airport.Table() == old(airport.Table()) && trips == old(trips)
      ensures (driverId in old(drivers) && truckId in old(trucks) && route.Some? &&
               FreeSlots(old(airport.Table())) != []) ==>
        var table := old(airport.Table());
        match FindReservable(table, FreeSlots(table)[0].slotId)
        case None =>
          r == Failure(SlotReservationFailed) && airport.Table() == table && trips == old(trips)
        case Some(k) =>
          && airport.Table() == ReserveAt(table, k)
          && (!saveOk ==> r == Failure(SaveFailed) && trips == old(trips))
          && (saveOk ==>
                && r.Success? && fresh(r.value)
                && r.value.State() ==
                     TripState(Some(newTripId), Some(driverId), Some(truckId),
                               Some(table[k].(reserved := true)), Some(currentLocation),
                               Some(now), Some(now + WholeMinutes(route.value) * SecondsPerMinute),
                               true, route, Some(advice))
                && trips == old(trips)[newTripId := Persist(r.value.State())])
    {
      var reserved := ValidateAndReserve(truckId, driverId, route);
      if reserved.Failure? {
        return Failure(reserved.error);
      }
      var trip := BuildTrip(driverId, truckId, reserved.value, currentLocation, route.value, advice, now);
      if !saveOk {
        return Failure(SaveFailed);
      }
      SaveTrip(trip, newTripId);
      return Success(trip);
    }

    /**
     * Scheduling exactly as written: the trip is built without an id and
     * handed to the store, which refuses it. Every request that passes the
     * checks and reserves a slot therefore fails at the save, and the slot
     * it reserved stays reserved.
     */
    method ScheduleTruckAsWritten(truckId: string, driverId: string, currentLocation: Location,
                                  advice: DaliAdvice, route: Option<Route>, now: int)
      returns (r: Result<Trip, ServiceError>)
      requires Valid()
      modifies this, airport.slots
      ensures Valid()
      ensures drivers == old(drivers) && trucks == old(trucks) && trips == old(trips)
      ensures driverId !in old(drivers) ==> r == Failure(DriverNotFound)
      ensures driverId in old(drivers) && truckId !in old(trucks) ==> r == Failure(TruckNotFound)
      ensures driverId in old(drivers) && truckId in old(trucks) && route.None? ==> r == Failure(RouteFetchFailed)
      ensures (driverId in old(drivers) && truckId in old(trucks) && route.Some? &&
               FreeSlots(old(airport.Table())) == []) ==> r == Failure(NoParkingSlots)
      ensures (driverId in old(drivers) && truckId in old(trucks) && route.Some? &&
               FreeSlots(old(airport.Table())) != []) ==>
        var table := old(airport.Table());
        match FindReservable(table, FreeSlots(table)[0].slotId)
        case None => r == Failure(SlotReservationFailed) && airport.Table() == table
        case Some(k) => r == Failure(SaveFailed) && airport.Table() == ReserveAt(table, k)
      ensures r.Failure?
    {
      var reserved := ValidateAndReserve(truckId, driverId, route);
      if reserved.Failure? {
        return Failure(reserved.error);
      }
      var trip := BuildTrip(driverId, truckId, reserved.value, currentLocation, route.value, advice, now);
      var stored := Store(trip);
      r := if stored then Success(trip) else Failure(SaveFailed);
    }

    /**
     * Moves an active trip to `newLocation` and applies the advice: a
     * re-route recomputes the estimate from now, a delay message adds five
     * minutes. Unknown and completed trips fail before anything changes.
     */
    method UpdateTripLocation(tripId: string, newLocation: Location, advice: DaliAdvice,
                              updatedRoute: Option<Route>, now: int, saveOk: bool)
      returns (r: Result<Trip, ServiceError>)
      requires Valid()
      modifies this
      ensures Valid()
      ensures drivers == old(drivers) && trucks == old(trucks)
      ensures CompletedKept(old(trips), trips)
      ensures tripId !in old(trips) ==> r == Failure(TripNotFound) && trips == old(trips)
      ensures tripId in old(trips) && !old(trips)[tripId].active ==>
                r == Failure(TripAlreadyCompleted) && trips == old(trips)
      ensures tripId in old(trips) && old(trips)[tripId].active ==>
        if advice.routeChanged && updatedRoute.None? then
          r == Failure(RouteFetchFailed) && trips == old(trips)
        else if !saveOk then
          r == Failure(SaveFailed) && trips == old(trips)
        else
          && r.Success? && fresh(r.value)
          && r.value.State() == Relocated(old(trips)[tripId], newLocation, advice, updatedRoute, now)
          && trips == old(trips)[tripId := Persist(r.value.State())]
    {
      if tripId !in trips {
        return Failure(TripNotFound);
      }
      var trip := new Trip.Load(trips[tripId]);
      if !trip.active {
        return Failure(TripAlreadyCompleted);
      }
      trip.SetCurrentLocation(newLocation);
      // The new location is also sent to the traffic service, which returns nothing.
      trip.SetLatestDaliAdvice(advice);
      if advice.routeChanged {
        if updatedRoute.None? {
          return Failure(RouteFetchFailed);
        }
        trip.SetCurrentRoute(updatedRoute.value);
        trip.SetEstimatedArrivalTime(now + WholeMinutes(updatedRoute.value) * SecondsPerMinute);
      } else if Contains(advice.message, DelayWord) {
        trip.SetEstimatedArrivalTime(trip.estimatedArrivalTime.value + DelayPenaltySeconds);
      }
      if !saveOk {
        return Failure(SaveFailed);
      }
      SaveTrip(trip, tripId);
      return Success(trip);
    }

    /**
     * Completes an active trip: marks it inactive, notifies the airport and
     * saves it. Unknown and already-completed trips fail before anything changes.
     */
    method CompleteTrip(tripId: string, saveOk: bool) returns (r: Result<Trip, ServiceError>)
      requires Valid()
      modifies this
      ensures Valid()
      ensures drivers == old(drivers) && trucks == old(trucks)
      ensures CompletedKept(old(trips), trips)
      ensures tripId !in old(trips) ==> r == Failure(TripNotFound) && trips == old(trips)
      ensures tripId in old(trips) && !old(trips)[tripId].active ==>
                r == Failure(TripAlreadyCompleted) && trips == old(trips)
      ensures tripId in old(trips) && old(trips)[tripId].active ==>
        if !saveOk then
          r == Failure(SaveFailed) && trips == old(trips)
        else
          && r.Success? && fresh(r.value)
          && r.value.State() == Restore(old(trips)[tripId]).(active := false)
          && trips == old(trips)[tripId := old(trips)[tripId].(active := false)]
    {
      if tripId !in trips {
        return Failure(TripNotFound);
      }
      var trip := new Trip.Load(trips[tripId]);
      if !trip.active {
        return Failure(TripAlreadyCompleted);
      }
      trip.SetActive(false);
      airport.ConfirmArrival(trip.truck.value);
      if !saveOk {
        return Failure(SaveFailed);
      }
      SaveTrip(trip, tripId);
      return Success(trip);
    }
  }

  /** A client: once a trip is completed, updating or completing it again fails and changes nothing. */
  method CompletionIsTerminal(service: ScheduletoAirportServices, tripId: string,
                              newLocation: Location, advice: DaliAdvice,
                              updatedRoute: Option<Route>, now: int)
    returns (completed: Result<Trip, ServiceError>, updated: Result<Trip, ServiceError>,
             again: Result<Trip, ServiceError>)
    requires service.Valid()
    modifies service
    ensures completed.Success? ==>
              updated == Failure(TripAlreadyCompleted) && again == Failure(TripAlreadyCompleted)
    ensures completed.Success? ==> tripId in service.trips && !service.trips[tripId].active
  {
    completed := service.CompleteTrip(tripId, true);
    updated := service.UpdateTripLocation(tripId, newLocation, advice, updatedRoute, now, true);
    again := service.CompleteTrip(tripId, true);
  }
}
