/**
 * CameraComponent, variant with a zoom factor only (camera/camera_component.go). The
 * camera system also stores the published view matrix on the camera it drives, so this
 * variant carries that matrix as well.
 */
module CameraZoomOnly {
  import opened Affine

  class CameraComponent {
    var zoom: real
    var view: GeoM

    /**
     * The invariant the zoom setter enforces. It is a stated invariant only: New and SetZoom
     * establish it, NewWith stores its zoom unchecked, and no other contract depends on it.
     */
    ghost predicate Valid()
      reads this
    {
      zoom > 0.0
    }

    /** NewCameraComponent: zoom 1, no view published yet (the identity). */
    constructor New()
      ensures zoom == 1.0 && view == Identity()
      ensures Valid()
    {
      zoom := 1.0;
      view := Identity();
    }

    /** NewCameraComponentWith: the zoom is stored as given, without any check. */
    constructor NewWith(zoom: real)
      ensures this.zoom == zoom && view == Identity()
      ensures Valid() <==> zoom > 0.0
    {
      this.zoom := zoom;
      view := Identity();
    }

    function Zoom(): real
      reads this
    {
      zoom
    }

    /** A non-positive zoom panics in the source, so the caller must pass a positive one. */
    method SetZoom(z: real)
      requires z > 0.0
      modifies this
      ensures Zoom() == z && view == old(view)
      ensures Valid()
    {
      zoom := z;
    }

    /** Stores the view matrix published by the camera system; the zoom is untouched. */
    method SetView(m: GeoM)
      modifies this
      ensures view == m && zoom == old(zoom)
    {
      view := m;
    }
  }
}
