/**
 * Value types shared by the services: locations, traffic advice, routes,
 * intersections and parking slots, plus the two small computations the
 * services apply to them (Java's `String.contains` and the truncation of a
 * route's duration to whole minutes).
 */
module Domain {
  import opened Wrappers

  /** A geographic position; the coordinates are carried, never computed with. */
  datatype Location = Location(latitude: real, longitude: real)

  /** Traffic advice for a location. */
  datatype DaliAdvice = DaliAdvice(message: string, routeChanged: bool, severity: string,
                                   relevantLocation: Option<Location>)

  /** A computed route, reduced to its travel time in whole seconds. */
  datatype Route = Route(durationSeconds: nat)

  /** A point along a route: its 1-based position, the owning trip and an attached advice. */
  datatype Intersection = Intersection(sequenceNumber: int, trip: Option<string>,
                                       daliAdvice: Option<DaliAdvice>)

  /** A parking slot of the airport's table. */
  datatype ParkingSlot = ParkingSlot(slotId: string, gateId: string, reserved: bool)

  /** `sub` occurs in `s` starting at index `i`. */
  ghost predicate OccursAt(s: string, sub: string, i: int)
  {
    0 <= i && i + |sub| <= |s| && s[i..i + |sub|] == sub
  }

  /** Java's `s.contains(sub)`: a case-sensitive substring test. */
  function Contains(s: string, sub: string): bool
    decreases |s|
  {
    if |sub| > |s| then false
    else if s[..|sub|] == sub then true
    else Contains(s[1..], sub)
  }

  /** `Contains` holds exactly when `sub` occurs somewhere in `s`. */
  lemma {:induction false} ContainsIffOccurs(s: string, sub: string)
    ensures Contains(s, sub) <==> exists i :: OccursAt(s, sub, i)
    decreases |s|
  {
    if |sub| > |s| {
      forall i | OccursAt(s, sub, i) ensures false { }
    } else if s[..|sub|] == sub {
      assert OccursAt(s, sub, 0);
    } else {
      ContainsIffOccurs(s[1..], sub);
      if exists i :: OccursAt(s[1..], sub, i) {
        var i :| OccursAt(s[1..], sub, i);
        assert s[1..][i..i + |sub|] == s[i + 1..i + 1 + |sub|];
        assert OccursAt(s, sub, i + 1);
      }
      if exists i :: OccursAt(s, sub, i) {
        var i :| OccursAt(s, sub, i);
        assert i != 0;
        assert s[1..][i - 1..i - 1 + |sub|] == s[i..i + |sub|];
        assert OccursAt(s[1..], sub, i - 1);
      }
    }
  }

  /** The word that makes an update push the arrival estimate back. */
  const DelayWord: string := "delay"

  /** The congestion advice of the traffic mock is recognised as a delay. */
  lemma DelayAdviceRecognised()
    ensures Contains("Traffic congestion ahead; expect 5 min delay.", DelayWord)
  {
    var m := "Traffic congestion ahead; expect 5 min delay.";
    assert OccursAt(m, DelayWord, 39);
    ContainsIffOccurs(m, DelayWord);
  }

  const SecondsPerMinute := 60

  /**
   * The route's duration in minutes as the service uses it: the minutes are
   * a double `seconds / 60.0` that a `(long)` cast truncates.
   */
  function WholeMinutes(r: Route): (m: nat)
    ensures m * SecondsPerMinute <= r.durationSeconds < (m + 1) * SecondsPerMinute
  {
    r.durationSeconds / SecondsPerMinute
  }
}
