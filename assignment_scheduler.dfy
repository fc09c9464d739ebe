/**
 * The daily assignment cache and the flight-pickup departure chain.
 *
 * Local wall-clock time is an integer number of seconds; a day starts at
 * each multiple of 86400. The upstream calls (manifests and task
 * assignment, flight info, routing durations, parking and dock
 * reservations) are inputs; fresh UUIDs are a supplied list of ids.
 */
module AssignmentScheduler {
  import opened Wrappers
  import opened Domain

  const SecondsPerHour := 3600
  const SecondsPerDay := 86400

  /** One unit of dispatch work. `id` is null until the cache assigns one. */
  datatype Assignment = Assignment(
    id: Option<string>,
    truckId: Option<string>,
    flightNumber: Option<string>,
    companyName: string,
    dispatcherName: string,
    taskType: string,
    pickupTime: string,
    priority: string,
    truckerName: string)

  datatype FlightInfoResponse = FlightInfoResponse(arrivalTime: string, terminal: string)
  datatype ParkingResponse = ParkingResponse(parkingId: string, location: Location)
  datatype DockResponse = DockResponse(dockId: string, location: Location)

  /** The computed pickup plan of one assignment; the four times are in seconds. */
  datatype TimeDetails = TimeDetails(
    assignmentId: string,
    flightNumber: Option<string>,
    flightTerminal: string,
    estimatedEndTimeFromPickUp: int,
    estimatedStartTimeFromPickUp: int,
    estimatedEndTimeFromCurrent: int,
    estimatedStartTimeFromCurrent: int,
    parkingId: string,
    parkingLocation: Location,
    dockId: string,
    dockLocation: Location)

  /** Why planning a pickup fails, in the order the failures can happen. */
  datatype FlightError =
    | FlightLookupFailed
    | BadArrivalTime
    | AssignmentMissing
    | RoutingUnavailable
    | ParkingUnavailable
    | DockUnavailable

  /**
   * What the daily manifest and task-assignment calls yield: a call throws;
   * the call returns but its body is null or has no assignment list; or the
   * assignments.
   */
  datatype AssignOutcome = CallFailed | NoAssignments | Assigned(assignments: seq<Assignment>)

  // ---------------------------------------------------------------------------
  // The arrival time "HH:mm"

  predicate IsDigit(c: char)
  {
    '0' <= c <= '9'
  }

  function DigitValue(c: char): nat
    requires IsDigit(c)
  {
    c as int - '0' as int
  }

  function DigitChar(d: nat): (c: char)
    requires d < 10
    ensures IsDigit(c) && DigitValue(c) == d
  {
    ('0' as int + d) as char
  }

  /**
   * The arrival time read with the pattern "HH:mm" and the default (smart)
   * resolver, as seconds after midnight: exactly two digits, a colon and two
   * digits; hours 00-23 and minutes 00-59, plus "24:00", which that resolver
   * reads as midnight.
   */
  function ParseHourMinute(s: string): (r: Option<int>)
    ensures r.Some? ==> 0 <= r.value < SecondsPerDay && r.value % SecondsPerMinute == 0
    ensures r.Some? ==> |s| == 5 && s[2] == ':'
  {
    if |s| != 5 || s[2] != ':' || !IsDigit(s[0]) || !IsDigit(s[1]) || !IsDigit(s[3]) || !IsDigit(s[4]) then None
    else
      var h := DigitValue(s[0]) * 10 + DigitValue(s[1]);
      var m := DigitValue(s[3]) * 10 + DigitValue(s[4]);
      if m > 59 then None
      else if h < 24 then Some(h * SecondsPerHour + m * SecondsPerMinute)
      else if h == 24 && m == 0 then Some(0)
      else None
  }

  /** A time of day written as "HH:mm". */
  function FormatHourMinute(h: nat, m: nat): (s: string)
    requires h < 24 && m < 60
    ensures |s| == 5
  {
    [DigitChar(h / 10), DigitChar(h % 10), ':', DigitChar(m / 10), DigitChar(m % 10)]
  }

  /** Every time of day written as "HH:mm" reads back as itself. */
  lemma ParseFormat(h: nat, m: nat)
    requires h < 24 && m < 60
    ensures ParseHourMinute(FormatHourMinute(h, m)) == Some(h * SecondsPerHour + m * SecondsPerMinute)
  {
    var s := FormatHourMinute(h, m);
    assert DigitValue(s[0]) * 10 + DigitValue(s[1]) == h;
    assert DigitValue(s[3]) * 10 + DigitValue(s[4]) == m;
  }

  /** Every accepted text other than "24:00" is the canonical writing of the time it denotes. */
  lemma FormatParse(s: string)
    requires ParseHourMinute(s).Some? && s != "24:00"
    ensures var t := ParseHourMinute(s).value;
            s == FormatHourMinute(t / SecondsPerHour, (t % SecondsPerHour) / SecondsPerMinute)
  {
    var h := DigitValue(s[0]) * 10 + DigitValue(s[1]);
    var m := DigitValue(s[3]) * 10 + DigitValue(s[4]);
    if h == 24 {
      assert false;
    }
    var t := h * SecondsPerHour + m * SecondsPerMinute;
    assert t / SecondsPerHour == h && (t % SecondsPerHour) / SecondsPerMinute == m;
    var f := FormatHourMinute(h, m);
    assert f[0] == s[0] && f[1] == s[1] && f[3] == s[3] && f[4] == s[4];
  }

  // ---------------------------------------------------------------------------
  // Departure arithmetic

  /** Midnight of the day containing `now`. */
  function DayStart(now: int): (d: int)
    ensures d <= now < d + SecondsPerDay && d % SecondsPerDay == 0
  {
    now - now % SecondsPerDay
  }

  /**
   * The next occurrence of the wall-clock time `t` at or after `now`, for a
   * `t` less than a day before `now`: moved one day later exactly when it
   * is strictly before `now`.
   */
  function RollForward(t: int, now: int): (r: int)
    ensures r % SecondsPerDay == t % SecondsPerDay
    ensures now - SecondsPerDay <= t < now + SecondsPerDay ==> now <= r < now + SecondsPerDay
    ensures r - t == (if t < now then SecondsPerDay else 0)
  {
    if t < now then t + SecondsPerDay else t
  }

  /**
   * The latest departure that arrives at `targetArrival` when the leg takes
   * `trafficSeconds` (the routing source's traffic duration, whole seconds).
   */
  function CalculateDeparture(targetArrival: int, trafficSeconds: nat): int
  {
    targetArrival - trafficSeconds
  }

  /**
   * The departure is the latest one that is on time: leaving at `leave`
   * arrives by the target exactly when `leave` is not after it.
   */
  lemma DepartureIsLatestOnTime(targetArrival: int, trafficSeconds: nat, leave: int)
    ensures leave + trafficSeconds <= targetArrival <==> leave <= CalculateDeparture(targetArrival, trafficSeconds)
  {
  }

  /** A later target or a shorter leg never makes the departure earlier. */
  lemma DepartureMonotone(target1: int, target2: int, traffic1: nat, traffic2: nat)
    requires target1 <= target2 && traffic2 <= traffic1
    ensures CalculateDeparture(target1, traffic1) <= CalculateDeparture(target2, traffic2)
  {
  }

  /** The instants of the two-leg chain. */
  datatype LegTimes = LegTimes(listedArrival: int, targetArrival: int, pickupDeparture: int,
                               arrivalAtPickup: int, currentDeparture: int)

  /**
   * The flight-pickup chain for a flight landing at `timeOfDay`: the landing
   * today, rolled to tomorrow when already past; the departure from the
   * pickup that reaches the airport then; one hour of loading before it,
   * rolled to tomorrow when already past; the departure from the truck's
   * position that reaches the pickup then.
   */
  function FlightChain(timeOfDay: int, now: int, pickupLeg: nat, currentLeg: nat): (t: LegTimes)
    requires 0 <= timeOfDay < SecondsPerDay
    ensures t.listedArrival == DayStart(now) + timeOfDay
    ensures now <= t.targetArrival < now + SecondsPerDay
    ensures t.targetArrival - t.listedArrival == (if t.listedArrival < now then SecondsPerDay else 0)
    ensures t.targetArrival - t.pickupDeparture == pickupLeg
    ensures t.arrivalAtPickup - (t.pickupDeparture - SecondsPerHour) ==
              (if t.pickupDeparture - SecondsPerHour < now then SecondsPerDay else 0)
    ensures t.arrivalAtPickup - t.currentDeparture == currentLeg
  {
    var listed := DayStart(now) + timeOfDay;
    var target := RollForward(listed, now);
    var pickupDeparture := CalculateDeparture(target, pickupLeg);
    var arrivalAtPickup := RollForward(pickupDeparture - SecondsPerHour, now);
    LegTimes(listed, target, pickupDeparture, arrivalAtPickup, CalculateDeparture(arrivalAtPickup, currentLeg))
  }

  /**
   * Whenever the loading hour is rolled to the next day, the truck is told
   * to reach the pickup 23 hours after it was told to leave it.
   */
  lemma RolledPickupFollowsDeparture(timeOfDay: int, now: int, pickupLeg: nat, currentLeg: nat)
    requires 0 <= timeOfDay < SecondsPerDay
    requires FlightChain(timeOfDay, now, pickupLeg, currentLeg).pickupDeparture - SecondsPerHour < now
    ensures var t := FlightChain(timeOfDay, now, pickupLeg, currentLeg);
            t.arrivalAtPickup == t.pickupDeparture + 23 * SecondsPerHour
  {
  }

  /** Midnight of a time `r` seconds into day number `day`. */
  lemma DayStartOfDay(day: int, r: int)
    requires 0 <= r < SecondsPerDay
    ensures DayStart(day * SecondsPerDay + r) == day * SecondsPerDay
  {
    var now := day * SecondsPerDay + r;
    assert now % SecondsPerDay == r by {
      assert now == day * SecondsPerDay + r;
    }
  }

  /** A 14:00 flight looked up at 20:00 is planned for 14:00 the next day. */
  lemma EveningLookupPlansTomorrow(day: int, pickupLeg: nat, currentLeg: nat)
    ensures ParseHourMinute("14:00") == Some(14 * SecondsPerHour)
    ensures var t := FlightChain(14 * SecondsPerHour, day * SecondsPerDay + 20 * SecondsPerHour, pickupLeg, currentLeg);
            t.listedArrival == day * SecondsPerDay + 14 * SecondsPerHour &&
            t.targetArrival == (day + 1) * SecondsPerDay + 14 * SecondsPerHour &&
            t.pickupDeparture == t.targetArrival - pickupLeg
  {
    DayStartOfDay(day, 20 * SecondsPerHour);
  }

  // ---------------------------------------------------------------------------
  // The daily refresh

  /** The fetched assignments with the `i`-th given the `i`-th fresh id. */
  function Tagged(assignments: seq<Assignment>, ids: seq<string>): (r: seq<Assignment>)
    requires |ids| == |assignments|
  {
    seq(|assignments|, i requires 0 <= i < |assignments| => assignments[i].(id := Some(ids[i])))
  }

  /** The cache the refresh loop builds: each assignment under its fresh id, in fetch order. */
  function CacheOf(assignments: seq<Assignment>, ids: seq<string>): map<string, Assignment>
    requires |ids| == |assignments|
    decreases |assignments|
  {
    if assignments == [] then map[]
    else
      var n := |assignments| - 1;
      CacheOf(assignments[..n], ids[..n])[ids[n] := assignments[n].(id := Some(ids[n]))]
  }

  /** Every cached assignment carries its key as its id and is one of the tagged assignments. */
  lemma {:induction false} CacheOfSound(assignments: seq<Assignment>, ids: seq<string>)
    requires |ids| == |assignments|
    ensures forall k :: k in CacheOf(assignments, ids) ==>
              CacheOf(assignments, ids)[k].id == Some(k) && CacheOf(assignments, ids)[k] in Tagged(assignments, ids)
    decreases |assignments|
  {
    if assignments != [] {
      var n := |assignments| - 1;
      CacheOfSound(assignments[..n], ids[..n]);
      assert forall j :: 0 <= j < n ==> Tagged(assignments[..n], ids[..n])[j] == Tagged(assignments, ids)[j];
      assert Tagged(assignments, ids)[n] == assignments[n].(id := Some(ids[n]));
    }
  }

  /** One step of the refresh loop: tagging the `i`-th assignment extends both the response prefix and the cache. */
  lemma TagStep(assignments: seq<Assignment>, ids: seq<string>, i: nat)
    requires |ids| == |assignments| && i < |assignments|
    ensures (Tagged(assignments[..i], ids[..i]) + assignments[i..])[i := assignments[i].(id := Some(ids[i]))]
            == Tagged(assignments[..i + 1], ids[..i + 1]) + assignments[i + 1..]
    ensures CacheOf(assignments[..i + 1], ids[..i + 1])
            == CacheOf(assignments[..i], ids[..i])[ids[i] := assignments[i].(id := Some(ids[i]))]
  {
    assert assignments[..i + 1][..i] == assignments[..i];
    assert ids[..i + 1][..i] == ids[..i];
  }

  /**
   * Each cached assignment carries its key as its id and also appears in
   * the response; without a response the cache is empty.
   */
  ghost predicate CacheConsistent(resp: Option<seq<Assignment>>, cache: map<string, Assignment>)
  {
    (forall k :: k in cache ==> cache[k].id == Some(k)) &&
    (resp.None? ==> cache == map[]) &&
    (resp.Some? ==> forall k :: k in cache ==> cache[k] in resp.value)
  }

  /** A refill leaves the response and the cache consistent. */
  lemma RefillConsistent(assignments: seq<Assignment>, ids: seq<string>)
    requires |ids| == |assignments|
    ensures CacheConsistent(Some(Tagged(assignments, ids)), CacheOf(assignments, ids))
  {
    CacheOfSound(assignments, ids);
  }

  ghost predicate DistinctIds(ids: seq<string>)
  {
    forall i, j :: 0 <= i < j < |ids| ==> ids[i] != ids[j]
  }

  /**
   * With distinct fresh ids the cache holds exactly one entry per fetched
   * assignment: its keys are the ids, and the `i`-th id maps to the `i`-th
   * assignment carrying that id.
   */
  lemma {:induction false} CacheOfExact(assignments: seq<Assignment>, ids: seq<string>)
    requires |ids| == |assignments| && DistinctIds(ids)
    ensures |CacheOf(assignments, ids)| == |assignments|
    ensures forall k :: k in CacheOf(assignments, ids) <==> k in ids
    ensures forall i :: 0 <= i < |ids| ==> CacheOf(assignments, ids)[ids[i]] == Tagged(assignments, ids)[i]
    decreases |assignments|
  {
    if assignments != [] {
      var n := |assignments| - 1;
      CacheOfExact(assignments[..n], ids[..n]);
      assert ids[n] !in ids[..n];
      assert forall k :: k in ids <==> k in ids[..n] || k == ids[n] by {
        assert ids == ids[..n] + [ids[n]];
      }
      forall i | 0 <= i < |ids|
        ensures CacheOf(assignments, ids)[ids[i]] == Tagged(assignments, ids)[i]
      {
        if i < n {
          assert ids[i] != ids[n];
          assert Tagged(assignments[..n], ids[..n])[i] == Tagged(assignments, ids)[i];
        }
      }
    }
  }

  class AssignmentSchedulerService {
    /** The last task-assignment response, null before the first refresh. */
    var assignResp: Option<seq<Assignment>>
    var cachedAssignments: map<string, Assignment>
    var flightInfoCache: map<string, TimeDetails>

    /**
     * Each cached assignment carries its key as its id and also appears in
     * the last response; before the first refresh the cache is empty.
     */
    ghost predicate Valid()
      reads this
    {
      CacheConsistent(assignResp, cachedAssignments)
    }

    constructor ()
      ensures Valid()
      ensures assignResp.None? && cachedAssignments == map[] && flightInfoCache == map[]
    {
      assignResp, cachedAssignments, flightInfoCache := None, map[], map[];
    }

    /**
     * The daily refresh. When a call throws, nothing changes. When the
     * task-assignment body is unusable, the response is kept as unusable
     * and the cache is cleared before the refresh throws. Otherwise the
     * cache is cleared and refilled with each assignment under the next
     * fresh id, and the response keeps the same assignments, which now
     * carry their ids too.
     */
    method FetchAndCacheAssignments(fetched: AssignOutcome, ids: seq<string>)
      requires Valid()
      requires fetched.Assigned? ==> |ids| == |fetched.assignments|
      modifies this
      ensures Valid()
      ensures flightInfoCache == old(flightInfoCache)
      ensures fetched.CallFailed? ==> assignResp == old(assignResp) && cachedAssignments == old(cachedAssignments)
      ensures fetched.NoAssignments? ==> assignResp.None? && cachedAssignments == map[]
      ensures fetched.Assigned? ==>
                assignResp == Some(Tagged(fetched.assignments, ids)) &&
                cachedAssignments == CacheOf(fetched.assignments, ids)
    {
      if fetched.CallFailed? {
        return;
      }
      if fetched.NoAssignments? {
        assignResp := None;
        cachedAssignments := map[];
        return;
      }
      Refill(fetched.assignments, ids);
    }

    /**
     * The refill loop of the refresh: the cache is cleared, and each
     * assignment in turn gets the next fresh id in the response and in the
     * cache. The loop works on local copies that are written back once it
     * ends; with no concurrent reader the final state is the same.
     */
    method Refill(assignments: seq<Assignment>, ids: seq<string>)
      requires |ids| == |assignments|
      modifies this
      ensures Valid()
      ensures flightInfoCache == old(flightInfoCache)
      ensures assignResp == Some(Tagged(assignments, ids)) && cachedAssignments == CacheOf(assignments, ids)
    {
      var resp := assignments;
      var cache: map<string, Assignment> := map[];
      var i := 0;
      while i < |assignments|
        invariant 0 <= i <= |assignments|
        invariant resp == Tagged(assignments[..i], ids[..i]) + assignments[i..]
        invariant cache == CacheOf(assignments[..i], ids[..i])
        invariant flightInfoCache == old(flightInfoCache)
      {
        var uuid := ids[i];
        var assign := resp[i].(id := Some(uuid));
        TagStep(assignments, ids, i);
        resp := resp[i := assign];
        cache := cache[uuid := assign];
        i := i + 1;
      }
      assert assignments[..i] == assignments && ids[..i] == ids;
      assert resp == Tagged(assignments, ids);
      RefillConsistent(assignments, ids);
      assignResp := Some(resp);
      cachedAssignments := cache;
    }

    /** The nightly clear: empties the cache and leaves the last response as it was. */
    method ClearAssignmentsCache()
      requires Valid()
      modifies this
      ensures Valid()
      ensures cachedAssignments == map[]
      ensures assignResp == old(assignResp) && flightInfoCache == old(flightInfoCache)
    {
      cachedAssignments := map[];
    }

    /**
     * The last response, which may be stale: every assignment in the cache
     * is in it, but after a clear it still lists the cleared ones. Null
     * before the first refresh (the guard on the cache map never fires).
     */
    function GetCachedAssignments(): (r: Option<seq<Assignment>>)
      requires Valid()
      reads this
      ensures r.None? ==> cachedAssignments == map[]
      ensures r.Some? ==> forall k :: k in cachedAssignments ==> cachedAssignments[k] in r.value
    {
      assignResp
    }

    /** The plan last computed for an assignment, if any. */
    function GetCachedFlightInfo(assignmentId: string): (r: Option<TimeDetails>)
      reads this
      ensures r.Some? <==> assignmentId in flightInfoCache
      ensures r.Some? ==> r.value == flightInfoCache[assignmentId]
    {
      if assignmentId in flightInfoCache then Some(flightInfoCache[assignmentId]) else None
    }

    /**
     * Plans the pickup of assignment `assignmentId` for the flight looked up
     * as `flight`, and stores the plan under `assignmentKey`. The failures
     * come in order: the flight lookup, an arrival time that does not read
     * as "HH:mm", an assignment missing from the cache, either routing call,
     * then the parking and the dock reservation. A failure stores nothing.
     */
    method GetFlightInfo(flightNumber: Option<string>, assignmentId: string, assignmentKey: string,
                         flight: Option<FlightInfoResponse>, now: int,
                         pickupLeg: Option<nat>, currentLeg: Option<nat>,
                         parking: Option<ParkingResponse>, dock: Option<DockResponse>)
      returns (r: Result<TimeDetails, FlightError>)
      modifies this
      ensures assignResp == old(assignResp) && cachedAssignments == old(cachedAssignments)
      ensures r.Failure? ==> flightInfoCache == old(flightInfoCache)
      ensures flight.None? ==> r == Failure(FlightLookupFailed)
      ensures flight.Some? && ParseHourMinute(flight.value.arrivalTime).None? ==> r == Failure(BadArrivalTime)
      ensures (flight.Some? && ParseHourMinute(flight.value.arrivalTime).Some? &&
               assignmentId !in cachedAssignments) ==> r == Failure(AssignmentMissing)
      ensures (flight.Some? && ParseHourMinute(flight.value.arrivalTime).Some? && assignmentId in cachedAssignments &&
               (pickupLeg.None? || currentLeg.None?)) ==> r == Failure(RoutingUnavailable)
      ensures (flight.Some? && ParseHourMinute(flight.value.arrivalTime).Some? && assignmentId in cachedAssignments &&
               pickupLeg.Some? && currentLeg.Some? && parking.None?) ==> r == Failure(ParkingUnavailable)
      ensures (flight.Some? && ParseHourMinute(flight.value.arrivalTime).Some? && assignmentId in cachedAssignments &&
               pickupLeg.Some? && currentLeg.Some? && parking.Some? && dock.None?) ==> r == Failure(DockUnavailable)
      ensures r.Success? <==>
                flight.Some? && ParseHourMinute(flight.value.arrivalTime).Some? && assignmentId in cachedAssignments &&
                pickupLeg.Some? && currentLeg.Some? && parking.Some? && dock.Some?
      ensures r.Success? ==>
        var t := FlightChain(ParseHourMinute(flight.value.arrivalTime).value, now, pickupLeg.value, currentLeg.value);
        && r.value == TimeDetails(assignmentKey, flightNumber, flight.value.terminal,
                                  t.listedArrival, t.pickupDeparture, t.arrivalAtPickup, t.currentDeparture,
                                  parking.value.parkingId, parking.value.location,
                                  dock.value.dockId, dock.value.location)
        && flightInfoCache == old(flightInfoCache)[assignmentKey := r.value]
        && GetCachedFlightInfo(assignmentKey) == Some(r.value)
    {
      if flight.None? {
        return Failure(FlightLookupFailed);
      }
      var timeOfDay := ParseHourMinute(flight.value.arrivalTime);
      if timeOfDay.None? {
        return Failure(BadArrivalTime);
      }
      var targetArrival := DayStart(now) + timeOfDay.value;
      var estimatedEndTimeFromPickUp := targetArrival;
      if assignmentId !in cachedAssignments {
        return Failure(AssignmentMissing);
      }
      if targetArrival < now {
        targetArrival := targetArrival + SecondsPerDay;
      }
      if pickupLeg.None? {
        return Failure(RoutingUnavailable);
      }
      var departure := CalculateDeparture(targetArrival, pickupLeg.value);
      var arrivalAtPickupLocation := departure - SecondsPerHour;
      if arrivalAtPickupLocation < now {
        arrivalAtPickupLocation := arrivalAtPickupLocation + SecondsPerDay;
      }
      if currentLeg.None? {
        return Failure(RoutingUnavailable);
      }
      var departureFromCurr := CalculateDeparture(arrivalAtPickupLocation, currentLeg.value);
      if parking.None? {
        return Failure(ParkingUnavailable);
      }
      if dock.None? {
        return Failure(DockUnavailable);
      }
      var timeDetails := TimeDetails(assignmentKey, flightNumber, flight.value.terminal,
                                     estimatedEndTimeFromPickUp, departure,
                                     arrivalAtPickupLocation, departureFromCurr,
                                     parking.value.parkingId, parking.value.location,
                                     dock.value.dockId, dock.value.location);
      flightInfoCache := flightInfoCache[assignmentKey := timeDetails];
      return Success(timeDetails);
    }
  }
}
