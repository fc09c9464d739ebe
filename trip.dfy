/**
 * The trip entity: a mutable object whose setters and `completeTrip` update
 * its fields in place. Entity references (driver, truck) are held by id.
 * `currentRoute` and `latestDaliAdvice` are transient: they belong to the
 * object in memory but not to what the store persists.
 */
module TripModel {
  import opened Wrappers
  import opened Domain

  /** Every field of a trip object, persisted or transient. */
  datatype TripState = TripState(
    tripId: Option<string>,
    driver: Option<string>,
    truck: Option<string>,
    reservedParkingSlot: Option<ParkingSlot>,
    currentLocation: Option<Location>,
    startTime: Option<int>,
    estimatedArrivalTime: Option<int>,
    active: bool,
    currentRoute: Option<Route>,
    latestDaliAdvice: Option<DaliAdvice>)

  /** The persisted columns of a trip: the state without its transient fields. */
  datatype TripRecord = TripRecord(
    tripId: Option<string>,
    driver: Option<string>,
    truck: Option<string>,
    reservedParkingSlot: Option<ParkingSlot>,
    currentLocation: Option<Location>,
    startTime: Option<int>,
    estimatedArrivalTime: Option<int>,
    active: bool)

  /** A trip as the store reloads it: persisted columns restored, transient fields null. */
  function Restore(r: TripRecord): (s: TripState)
    ensures s.currentRoute.None? && s.latestDaliAdvice.None?
  {
    TripState(r.tripId, r.driver, r.truck, r.reservedParkingSlot, r.currentLocation,
              r.startTime, r.estimatedArrivalTime, r.active, None, None)
  }

  /** What saving a trip writes: every persisted column, and nothing transient. */
  function Persist(s: TripState): (r: TripRecord)
    ensures Restore(r) == s.(currentRoute := None, latestDaliAdvice := None)
  {
    TripRecord(s.tripId, s.driver, s.truck, s.reservedParkingSlot, s.currentLocation,
               s.startTime, s.estimatedArrivalTime, s.active)
  }

  /** Reloading a saved record gives back the same record. */
  lemma PersistRestore(r: TripRecord)
    ensures Persist(Restore(r)) == r
  {
  }

  /** The transient fields never reach the store. */
  lemma TransientNotPersisted(s: TripState, route: Option<Route>, advice: Option<DaliAdvice>)
    ensures Persist(s.(currentRoute := route, latestDaliAdvice := advice)) == Persist(s)
  {
  }

  class Trip {
    var tripId: Option<string>
    var driver: Option<string>
    var truck: Option<string>
    var reservedParkingSlot: Option<ParkingSlot>
    var currentLocation: Option<Location>
    var startTime: Option<int>
    var estimatedArrivalTime: Option<int>
    var active: bool
    var currentRoute: Option<Route>
    var latestDaliAdvice: Option<DaliAdvice>

    /** The object's fields, as one value. */
    function State(): TripState
      reads this
    {
      TripState(tripId, driver, truck, reservedParkingSlot, currentLocation, startTime,
                estimatedArrivalTime, active, currentRoute, latestDaliAdvice)
    }

    /** The no-argument constructor: every reference null, and the trip active. */
    constructor ()
      ensures State() == TripState(None, None, None, None, None, None, None, true, None, None)
    {
      tripId, driver, truck, reservedParkingSlot := None, None, None, None;
      currentLocation, startTime, estimatedArrivalTime := None, None, None;
      active := true;
      currentRoute, latestDaliAdvice := None, None;
    }

    /** The three-argument constructor: id, driver and truck set, and the trip active. */
    constructor Create(tripId: string, driver: string, truck: string)
      ensures State() == TripState(Some(tripId), Some(driver), Some(truck), None, None, None,
                                   None, true, None, None)
    {
      this.tripId, this.driver, this.truck := Some(tripId), Some(driver), Some(truck);
      reservedParkingSlot, currentLocation, startTime, estimatedArrivalTime := None, None, None, None;
      active := true;
      currentRoute, latestDaliAdvice := None, None;
    }

    /** A trip as the store hands it back: persisted columns only. */
    constructor Load(r: TripRecord)
      ensures State() == Restore(r)
    {
      tripId, driver, truck, reservedParkingSlot := r.tripId, r.driver, r.truck, r.reservedParkingSlot;
      currentLocation, startTime, estimatedArrivalTime := r.currentLocation, r.startTime, r.estimatedArrivalTime;
      active := r.active;
      currentRoute, latestDaliAdvice := None, None;
    }

    method SetTripId(id: string)
      modifies this
      ensures State() == old(State()).(tripId := Some(id))
    {
      tripId := Some(id);
    }

    method SetDriver(d: string)
      modifies this
      ensures State() == old(State()).(driver := Some(d))
    {
      driver := Some(d);
    }

    method SetTruck(t: string)
      modifies this
      ensures State() == old(State()).(truck := Some(t))
    {
      truck := Some(t);
    }

    method SetReservedParkingSlot(slot: ParkingSlot)
      modifies this
      ensures State() == old(State()).(reservedParkingSlot := Some(slot))
    {
      reservedParkingSlot := Some(slot);
    }

    method SetCurrentLocation(loc: Location)
      modifies this
      ensures State() == old(State()).(currentLocation := Some(loc))
    {
      currentLocation := Some(loc);
    }

    method SetStartTime(t: int)
      modifies this
      ensures State() == old(State()).(startTime := Some(t))
    {
      startTime := Some(t);
    }

    method SetEstimatedArrivalTime(t: int)
      modifies this
      ensures State() == old(State()).(estimatedArrivalTime := Some(t))
    {
      estimatedArrivalTime := Some(t);
    }

    /** No guard: a completed trip can be made active again through this setter. */
    method SetActive(a: bool)
      modifies this
      ensures State() == old(State()).(active := a)
    {
      active := a;
    }

    method SetCurrentRoute(r: Route)
      modifies this
      ensures State() == old(State()).(currentRoute := Some(r))
    {
      currentRoute := Some(r);
    }

    method SetLatestDaliAdvice(a: DaliAdvice)
      modifies this
      ensures State() == old(State()).(latestDaliAdvice := Some(a))
    {
      latestDaliAdvice := Some(a);
    }

    /** Marks the trip inactive and touches no other field. */
    method CompleteTrip()
      modifies this
      ensures State() == old(State()).(active := false)
    {
      active := false;
    }
  }

  /** A client of the setters: completing a trip and then re-activating it is accepted by the entity. */
  method ReactivateAfterCompletion(t: Trip)
    modifies t
    ensures t.State() == old(t.State()).(active := true)
  {
    t.CompleteTrip();
    assert !t.active;
    t.SetActive(true);
  }
}
