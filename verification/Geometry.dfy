/** Axis-aligned rectangles, as `Bounds<T>` of the UI framework.

    Coordinates are exact reals.  Nothing here asks for a non-negative size: every
    fact the spatial tree needs holds of "negative" rectangles as well.
 */
module Geometry {
  import opened Basics

  datatype Point = Point(x: real, y: real)

  datatype Size = Size(width: real, height: real)

  datatype Bounds = Bounds(origin: Point, size: Size) {

    function BottomRight(): Point {
      Point(origin.x + size.width, origin.y + size.height)
    }

    static function FromCorners(topLeft: Point, bottomRight: Point): Bounds {
      Bounds(topLeft, Size(bottomRight.x - topLeft.x, bottomRight.y - topLeft.y))
    }

    predicate Intersects(other: Bounds) {
      && origin.x < other.BottomRight().x
      && BottomRight().x > other.origin.x
      && origin.y < other.BottomRight().y
      && BottomRight().y > other.origin.y
    }

    function Union(other: Bounds): Bounds {
      var topLeft := Point(MinR(origin.x, other.origin.x), MinR(origin.y, other.origin.y));
      var bottomRight := Point(MaxR(BottomRight().x, other.BottomRight().x),
                               MaxR(BottomRight().y, other.BottomRight().y));
      FromCorners(topLeft, bottomRight)
    }

    function HalfPerimeter(): real {
      size.width + size.height
    }

    /** Every edge of `other` lies within the edges of this rectangle. */
    predicate Covers(other: Bounds) {
      && origin.x <= other.origin.x
      && origin.y <= other.origin.y
      && BottomRight().x >= other.BottomRight().x
      && BottomRight().y >= other.BottomRight().y
    }
  }

  /** `Union` is the least rectangle that covers both arguments. */
  lemma UnionIsLeastCover(a: Bounds, b: Bounds, box: Bounds)
    ensures a.Union(b).Covers(a) && a.Union(b).Covers(b)
    ensures box.Covers(a.Union(b)) <==> box.Covers(a) && box.Covers(b)
  {
  }

  /** The point lies strictly within all four edges of a rectangle. */
  ghost predicate Interior(b: Bounds, px: real, py: real) {
    && b.origin.x < px < b.origin.x + b.size.width
    && b.origin.y < py < b.origin.y + b.size.height
  }

  /** Rectangles that have an inside intersect exactly if their insides share a point: an edge or
      a corner in common is not enough. */
  lemma IntersectsIsCommonPoint(a: Bounds, b: Bounds)
    requires a.size.width > 0.0 && a.size.height > 0.0 && b.size.width > 0.0 && b.size.height > 0.0
    ensures a.Intersects(b) <==> exists px, py :: Interior(a, px, py) && Interior(b, px, py)
  {
    if a.Intersects(b) {
      var left, right := MaxR(a.origin.x, b.origin.x), MinR(a.origin.x + a.size.width, b.origin.x + b.size.width);
      var top, bottom := MaxR(a.origin.y, b.origin.y), MinR(a.origin.y + a.size.height, b.origin.y + b.size.height);
      var px, py := (left + right) / 2.0, (top + bottom) / 2.0;
      assert Interior(a, px, py) && Interior(b, px, py);
    }
  }

  /** Half the perimeter of a union, in terms of the edges it is made of. */
  lemma UnionHalfPerimeter(a: Bounds, b: Bounds)
    ensures a.Union(b).HalfPerimeter() ==
            MaxR(a.origin.x + a.size.width, b.origin.x + b.size.width) - MinR(a.origin.x, b.origin.x) +
            (MaxR(a.origin.y + a.size.height, b.origin.y + b.size.height) - MinR(a.origin.y, b.origin.y))
  {
  }

  /** Spatial pruning is sound: what misses the cover misses everything covered. */
  lemma IntersectsCover(query: Bounds, cover: Bounds, inner: Bounds)
    requires cover.Covers(inner) && query.Intersects(inner)
    ensures query.Intersects(cover)
  {
  }

  lemma IntersectsSymmetric(a: Bounds, b: Bounds)
    ensures a.Intersects(b) <==> b.Intersects(a)
  {
  }
}
