/**
 * The intersection source: generates `totalCount` intersections along a route,
 * numbered from 1 in route order.
 */
module OsmClient {
  import opened Wrappers
  import opened Domain
  import IntersectionCache

  /** Intersections numbered 1, 2, ... in order, attached to no trip and carrying no advice. */
  ghost predicate NumberedFromOne(r: seq<Intersection>)
  {
    forall i :: 0 <= i < |r| ==> r[i] == Intersection(i + 1, None, None)
  }

  /** Builds `totalCount` intersections (none when the count is zero or negative) in a fresh list. */
  method GetIntersections(totalCount: int) returns (intersections: seq<Intersection>)
    ensures |intersections| == if totalCount > 0 then totalCount else 0
    ensures NumberedFromOne(intersections)
  {
    intersections := [];
    var i := 1;
    while i <= totalCount
      invariant 1 <= i <= (if totalCount > 0 then totalCount else 0) + 1
      invariant |intersections| == i - 1
      invariant NumberedFromOne(intersections)
    {
      var intersection := Intersection(0, None, None);
      intersection := intersection.(sequenceNumber := i);
      intersections := intersections + [intersection];
      i := i + 1;
    }
  }

  /** Sequence numbers are contiguous and strictly increasing. */
  lemma NumbersIncrease(r: seq<Intersection>, i: int, j: int)
    requires NumberedFromOne(r) && 0 <= i < j < |r|
    ensures r[i].sequenceNumber < r[j].sequenceNumber
    ensures r[j].sequenceNumber - r[i].sequenceNumber == j - i
  {
  }

  /**
   * A generated route of at least three intersections put into the cache
   * hands out intersections 1, 2 and 3 first, and then continues from 4.
   */
  lemma FirstBatchIsOneToThree(r: seq<Intersection>)
    requires NumberedFromOne(r) && |r| >= 3
    ensures |IntersectionCache.NextBatch(r, 3)| == 3
    ensures forall i :: 0 <= i < 3 ==> IntersectionCache.NextBatch(r, 3)[i].sequenceNumber == i + 1
    ensures |r| > 3 ==> IntersectionCache.AfterBatch(r, 3)[0].sequenceNumber == 4
  {
  }
}
