/** CameraComponent, variant with a viewport size and a zoom factor (camera/camera.go). */
module Camera {
  import opened Geometry

  class CameraComponent {
    var size: Point
    var zoom: real

    /**
     * The invariant the zoom setter enforces. It is a stated invariant only: New and SetZoom
     * establish it, NewWith stores its zoom unchecked, and no other contract depends on it.
     */
    ghost predicate Valid()
      reads this
    {
      zoom > 0.0
    }

    /** NewCameraComponent: size (0, 0), zoom 1. */
    constructor New()
      ensures size == Point(0.0, 0.0) && zoom == 1.0
      ensures Valid()
    {
      size := Point(0.0, 0.0);
      zoom := 1.0;
    }

    /** NewCameraComponentWith: both values stored as given; the zoom is not checked. */
    constructor NewWith(size: Point, zoom: real)
      ensures this.size == size && this.zoom == zoom
      ensures Valid() <==> zoom > 0.0
    {
      this.size := size;
      this.zoom := zoom;
    }

    function Size(): Point
      reads this
    {
      size
    }

    /** Stores a new size (a no-op when it equals the current one); the zoom is untouched. */
    method SetSize(s: Point)
      modifies this
      ensures old(size) == s ==> unchanged(this)
      ensures size == s && zoom == old(zoom)
    {
      if size.x == s.x && size.y == s.y {
        return;
      }
      size := s;
    }

    function Zoom(): real
      reads this
    {
      zoom
    }

    /** A non-positive zoom panics in the source, so the caller must pass a positive one. */
    method SetZoom(z: real)
      requires z > 0.0
      modifies this
      ensures Zoom() == z && size == old(size)
      ensures Valid()
    {
      zoom := z;
    }
  }
}
