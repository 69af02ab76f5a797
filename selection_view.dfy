/**
 * The drag-rectangle overlay of area capture (SelectionView). A drag reports
 * its locations one by one; the first one fixes the start point, the latest
 * one is the end point, and the reported rectangle is spanned by the two.
 */
module Selection {
  import opened Wrappers
  import opened Geometry

  /** The rectangle spanned by two corner points: origin at the smaller coordinates, size the absolute differences. */
  function Normalize(a: Point, b: Point): (r: Rect)
    ensures r.width >= 0.0 && r.height >= 0.0
    ensures Contains(r, a) && Contains(r, b)
    ensures (r.x == a.x && r.x + r.width == b.x) || (r.x == b.x && r.x + r.width == a.x)
    ensures (r.y == a.y && r.y + r.height == b.y) || (r.y == b.y && r.y + r.height == a.y)
  {
    Rect(Min(a.x, b.x), Min(a.y, b.y), Abs(a.x - b.x), Abs(a.y - b.y))
  }

  /** Dragging from a to b selects the same rectangle as dragging from b to a. */
  lemma NormalizeSymmetric(a: Point, b: Point)
    ensures Normalize(a, b) == Normalize(b, a)
  {
  }

  /** The selected rectangle is the smallest one holding both drag points. */
  lemma NormalizeIsBoundingBox(a: Point, b: Point, q: Rect)
    requires Contains(q, a) && Contains(q, b)
    ensures Encloses(q, Normalize(a, b))
  {
  }

  /** The state of one SelectionView: its two optional points, and (ghost) every drag location seen. */
  class SelectionView {
    var startPoint: Option<Point>
    var endPoint: Option<Point>
    ghost var locations: seq<Point>

    /** The start point is the first drag location ever seen and the end point the latest. */
    ghost predicate Valid()
      reads this
    {
      (locations == [] ==> startPoint == None && endPoint == None) &&
      (locations != [] ==> startPoint == Some(locations[0]) && endPoint == Some(locations[|locations| - 1]))
    }

    constructor ()
      ensures Valid() && locations == []
      ensures startPoint == None && endPoint == None
    {
      startPoint, endPoint := None, None;
      locations := [];
    }

    /** The rectangle stroked while the drag is in progress, if both points are known. */
    function Drawn(): (r: Option<Rect>)
      reads this
      ensures r.Some? <==> startPoint.Some? && endPoint.Some?
      ensures r.Some? ==> r.value.width >= 0.0 && r.value.height >= 0.0
      ensures r.Some? ==> Contains(r.value, startPoint.value) && Contains(r.value, endPoint.value)
    {
      if startPoint.Some? && endPoint.Some? then Some(Normalize(startPoint.value, endPoint.value)) else None
    }

    /** The drag gesture's onChanged handler. */
    method OnChanged(location: Point)
      requires Valid()
      modifies this
      ensures Valid() && locations == old(locations) + [location]
      ensures startPoint == if old(startPoint) == None then Some(location) else old(startPoint)
      ensures endPoint == Some(location)
    {
      if startPoint == None {
        startPoint := Some(location);
      }
      endPoint := Some(location);
      locations := locations + [location];
    }

    /** The drag gesture's onEnded handler: the value handed to onSelectionComplete. */
    method OnEnded() returns (reported: Option<Rect>)
      requires Valid()
      ensures reported == Drawn()
      ensures reported == None <==> locations == []
      ensures locations != [] ==> reported == Some(Normalize(locations[0], locations[|locations| - 1]))
    {
      if startPoint.Some? && endPoint.Some? {
        var s, e := startPoint.value, endPoint.value;
        reported := Some(Rect(Min(s.x, e.x), Min(s.y, e.y), Abs(s.x - e.x), Abs(s.y - e.y)));
      } else {
        reported := None;
      }
    }
  }
}
