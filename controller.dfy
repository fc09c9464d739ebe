/**
 * The two dispatch endpoints that add logic of their own on top of the
 * assignment scheduler: the per-truck view of today's assignments and the
 * flight-pickup plan of one assignment.
 */
module Controller {
  import opened Wrappers
  import opened AssignmentScheduler

  /** `r` is `s` with some elements left out, the rest in their order. */
  predicate IsSubsequence<T(==)>(r: seq<T>, s: seq<T>)
    decreases |s|
  {
    if r == [] then true
    else if s == [] then false
    else if r[0] == s[0] then IsSubsequence(r[1..], s[1..])
    else IsSubsequence(r, s[1..])
  }

  /**
   * The assignments whose truck id equals `truckId`; an assignment without a
   * truck id never matches. The result keeps the order of the input and
   * every matching assignment as often as it occurs there.
   */
  function FilterByTruck(assignments: seq<Assignment>, truckId: string): (r: seq<Assignment>)
    ensures forall i :: 0 <= i < |r| ==> r[i].truckId == Some(truckId)
    ensures forall a: Assignment :: a.truckId == Some(truckId) ==> multiset(r)[a] == multiset(assignments)[a]
    ensures IsSubsequence(r, assignments)
  {
    if assignments == [] then []
    else
      var rest := FilterByTruck(assignments[1..], truckId);
      assert assignments == [assignments[0]] + assignments[1..];
      if assignments[0].truckId == Some(truckId) then
        assert ([assignments[0]] + rest)[1..] == rest;
        [assignments[0]] + rest
      else
        rest
  }

  /**
   * The driver-assignment endpoint: the last response filtered by truck.
   * None when no refresh has run yet (the endpoint then dereferences a null
   * response). Because the filter reads the response and not the cache, a
   * cleared cache does not hide an assignment from it.
   */
  function AssignmentsForTruck(scheduler: AssignmentSchedulerService, truckId: string): (r: Option<seq<Assignment>>)
    requires scheduler.Valid()
    reads scheduler
    ensures r.None? <==> scheduler.assignResp.None?
    ensures r.Some? ==> forall i :: 0 <= i < |r.value| ==> r.value[i].truckId == Some(truckId)
    ensures r.Some? ==> IsSubsequence(r.value, scheduler.assignResp.value)
    ensures r.Some? ==> forall k :: (k in scheduler.cachedAssignments &&
                                     scheduler.cachedAssignments[k].truckId == Some(truckId)) ==>
                                    scheduler.cachedAssignments[k] in r.value
  {
    var all := scheduler.GetCachedAssignments();
    if all.None? then None
    else
      var filtered := FilterByTruck(all.value, truckId);
      assert forall a :: a in all.value && a.truckId == Some(truckId) ==> a in filtered by {
        forall a | a in all.value && a.truckId == Some(truckId)
          ensures a in filtered
        {
          assert multiset(all.value)[a] > 0;
        }
      }
      Some(filtered)
  }

  /** The nightly clear leaves every truck's view of today's assignments as it was. */
  method ClearKeepsTruckView(scheduler: AssignmentSchedulerService, truckId: string)
    requires scheduler.Valid()
    modifies scheduler
    ensures scheduler.Valid()
    ensures scheduler.cachedAssignments == map[]
    ensures AssignmentsForTruck(scheduler, truckId) == old(AssignmentsForTruck(scheduler, truckId))
  {
    scheduler.ClearAssignmentsCache();
  }

  /**
   * The flight-info endpoint: looks the assignment up in the cache (an
   * unknown id dereferences null and fails), then plans its pickup with the
   * assignment's flight number, using the same id both to look the
   * assignment up again and to store the plan.
   */
  method FlightInfo(scheduler: AssignmentSchedulerService, assignmentId: string,
                    flight: Option<FlightInfoResponse>, now: int,
                    pickupLeg: Option<nat>, currentLeg: Option<nat>,
                    parking: Option<ParkingResponse>, dock: Option<DockResponse>)
    returns (r: Result<TimeDetails, FlightError>)
    modifies scheduler
    ensures scheduler.assignResp == old(scheduler.assignResp)
    ensures scheduler.cachedAssignments == old(scheduler.cachedAssignments)
    ensures assignmentId !in old(scheduler.cachedAssignments) ==>
              r == Failure(AssignmentMissing) && scheduler.flightInfoCache == old(scheduler.flightInfoCache)
    ensures r.Failure? ==> scheduler.flightInfoCache == old(scheduler.flightInfoCache)
    ensures r.Success? ==>
              && assignmentId in old(scheduler.cachedAssignments)
              && r.value.assignmentId == assignmentId
              && r.value.flightNumber == old(scheduler.cachedAssignments)[assignmentId].flightNumber
              && flight.Some? && r.value.flightTerminal == flight.value.terminal
              && scheduler.GetCachedFlightInfo(assignmentId) == Some(r.value)
    ensures r.Success? <==>
              assignmentId in old(scheduler.cachedAssignments) && flight.Some? &&
              ParseHourMinute(flight.value.arrivalTime).Some? && pickupLeg.Some? && currentLeg.Some? &&
              parking.Some? && dock.Some?
  {
    if assignmentId !in scheduler.cachedAssignments {
      return Failure(AssignmentMissing);
    }
    var currAssignment := scheduler.cachedAssignments[assignmentId];
    var flightNumber := currAssignment.flightNumber;
    r := scheduler.GetFlightInfo(flightNumber, assignmentId, assignmentId, flight, now,
                                 pickupLeg, currentLeg, parking, dock);
  }
}
