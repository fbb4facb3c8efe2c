/**
 * TransformComponent: an entity's position, scale, origin (pivot) and rotation, with a
 * local and a world matrix that are recomputed lazily, each guarded by a dirty flag.
 */
module Transform {
  import opened Geometry
  import opened Affine

  /** float64 pi, taken as an exact real. */
  const Pi: real := 3.141592653589793
  const DegToRad: real := Pi / 180.0

  /**
   * The wrap SetRotation applies to an angle in degrees: at most one +360 for a negative
   * angle and then at most one -360 for an angle of 360 or more. Inputs in [-360, 720)
   * land in [0, 360), and only those do.
   */
  function WrapDegrees(deg: real): (r: real)
    ensures 0.0 <= r < 360.0 <==> -360.0 <= deg < 720.0
    ensures r == deg - 360.0 || r == deg || r == deg + 360.0
    ensures 0.0 <= deg < 360.0 ==> r == deg
  {
    var d := if deg < 0.0 then deg + 360.0 else deg;
    if d >= 360.0 then d - 360.0 else d
  }

  /** The worked examples: 400 wraps to 40, -10 to 350, 360 to 0; 800 only to 440. */
  lemma WrapDegreesExamples()
    ensures WrapDegrees(400.0) == 40.0
    ensures WrapDegrees(-10.0) == 350.0
    ensures WrapDegrees(360.0) == 0.0
    ensures WrapDegrees(800.0) == 440.0
  {
  }

  /**
   * The local matrix of a transform: starting from the identity, translate by -origin,
   * scale, rotate by rad radians, then translate by position.
   */
  function LocalOf(position: Point, scale: Point, origin: Point, rad: real, trig: Trig): GeoM {
    var m := Translate(Identity(), -origin.x, -origin.y);
    var m := Scale(m, scale.x, scale.y);
    var m := Rotate(m, rad, trig);
    Translate(m, position.x, position.y)
  }

  /**
   * The local matrix maps a point q to position + R(rad) * S(scale) * (q - origin).
   */
  lemma ApplyLocal(position: Point, scale: Point, origin: Point, rad: real, trig: Trig, q: Point)
    ensures var c, s := trig.cos(rad), trig.sin(rad);
            var u, v := scale.x * (q.x - origin.x), scale.y * (q.y - origin.y);
            Apply(LocalOf(position, scale, origin, rad, trig), q)
              == Point(position.x + (c * u - s * v), position.y + (s * u + c * v))
  {
    var c, s := trig.cos(rad), trig.sin(rad);
    var m1 := Translate(Identity(), -origin.x, -origin.y);
    var m2 := Scale(m1, scale.x, scale.y);
    var m3 := Rotate(m2, rad, trig);
    assert Apply(m1, q) == Point(q.x - origin.x, q.y - origin.y);
    var p2 := Apply(m2, q);
    assert p2 == Point(scale.x * (q.x - origin.x), scale.y * (q.y - origin.y));
    ApplyConcat(m2, Rotation(c, s), q);
    assert Apply(m3, q) == Point(c * p2.x - s * p2.y, s * p2.x + c * p2.y);
  }

  /** Whatever the scale and rotation, the local matrix maps the origin (pivot) to the position. */
  lemma LocalMapsOriginToPosition(position: Point, scale: Point, origin: Point, rad: real, trig: Trig)
    ensures Apply(LocalOf(position, scale, origin, rad, trig), origin) == position
  {
    ApplyLocal(position, scale, origin, rad, trig, origin);
  }

  /**
   * With a genuine sine and cosine, the local matrix has determinant scale.x * scale.y, so it
   * can be inverted exactly when neither scale component is zero.
   */
  lemma DetLocal(position: Point, scale: Point, origin: Point, rad: real, trig: Trig)
    requires UnitCircle(trig)
    ensures Det(LocalOf(position, scale, origin, rad, trig)) == scale.x * scale.y
  {
    var m1 := Translate(Identity(), -origin.x, -origin.y);
    var m2 := Scale(m1, scale.x, scale.y);
    DetScale(m1, scale.x, scale.y);
    DetRotate(m2, rad, trig);
  }

  class TransformComponent {
    /** The sine and cosine the matrix library rotates with. */
    const trig: Trig

    var position: Point
    var scale: Point
    var origin: Point
    var deg: real
    var rad: real
    var localMatrix: GeoM
    var worldMatrix: GeoM
    var localDirty: bool
    var worldDirty: bool

    /** The local matrix the current fields describe. */
    function Local(): GeoM
      reads this
    {
      LocalOf(position, scale, origin, rad, trig)
    }

    /**
     * Cache validity: a clean cached matrix is the matrix of the current fields, and the
     * local matrix is never dirty while the world matrix is clean.
     */
    ghost predicate Valid()
      reads this
    {
      && UnitCircle(trig)
      && rad == deg * DegToRad
      && (localDirty ==> worldDirty)
      && (!localDirty ==> localMatrix == Local())
      && (!worldDirty ==> worldMatrix == Local())
    }

    /** NewTransformComponent: at (0, 0), unit scale, origin (0, 0), no rotation. */
    constructor New(trig: Trig)
      requires UnitCircle(trig)
      ensures Valid() && this.trig == trig
      ensures position == Point(0.0, 0.0) && scale == Point(1.0, 1.0) && origin == Point(0.0, 0.0)
      ensures deg == 0.0 && rad == 0.0
      ensures localDirty && worldDirty
      ensures localMatrix == Identity() && worldMatrix == Identity()
    {
      this.trig := trig;
      position := Point(0.0, 0.0);
      scale := Point(1.0, 1.0);
      origin := Point(0.0, 0.0);
      deg := 0.0;
      rad := 0.0 * DegToRad;
      localMatrix := Identity();
      worldMatrix := Identity();
      localDirty := true;
      worldDirty := true;
    }

    /** NewTransformComponentWith: the angle is stored as given, not wrapped. */
    constructor NewWith(position: Point, scale: Point, origin: Point, deg: real, trig: Trig)
      requires UnitCircle(trig)
      ensures Valid() && this.trig == trig
      ensures this.position == position && this.scale == scale && this.origin == origin
      ensures this.deg == deg && rad == deg * DegToRad
      ensures localDirty && worldDirty
      ensures localMatrix == Identity() && worldMatrix == Identity()
    {
      this.trig := trig;
      this.position := position;
      this.scale := scale;
      this.origin := origin;
      this.deg := deg;
      rad := deg * DegToRad;
      localMatrix := Identity();
      worldMatrix := Identity();
      localDirty := true;
      worldDirty := true;
    }

    function Position(): Point
      reads this
    {
      position
    }

    function Scale(): Point
      reads this
    {
      scale
    }

    function Origin(): Point
      reads this
    {
      origin
    }

    /** The angle in degrees and in radians. */
    function Rotation(): (real, real)
      reads this
    {
      (deg, rad)
    }

    method SetPosition(p: Point)
      requires Valid()
      modifies this
      ensures Valid()
      ensures old(position) == p ==> unchanged(this)
      ensures old(position) != p ==> position == p && localDirty && worldDirty
      ensures scale == old(scale) && origin == old(origin) && deg == old(deg) && rad == old(rad)
      ensures localMatrix == old(localMatrix) && worldMatrix == old(worldMatrix)
    {
      if position.x == p.x && position.y == p.y {
        return;
      }
      position := p;
      localDirty := true;
      worldDirty := true;
    }

    method SetScale(s: Point)
      requires Valid()
      modifies this
      ensures Valid()
      ensures old(scale) == s ==> unchanged(this)
      ensures old(scale) != s ==> scale == s && localDirty && worldDirty
      ensures position == old(position) && origin == old(origin) && deg == old(deg) && rad == old(rad)
      ensures localMatrix == old(localMatrix) && worldMatrix == old(worldMatrix)
    {
      if scale.x == s.x && scale.y == s.y {
        return;
      }
      scale := s;
      localDirty := true;
      worldDirty := true;
    }

    method SetOrigin(o: Point)
      requires Valid()
      modifies this
      ensures Valid()
      ensures old(origin) == o ==> unchanged(this)
      ensures old(origin) != o ==> origin == o && localDirty && worldDirty
      ensures position == old(position) && scale == old(scale) && deg == old(deg) && rad == old(rad)
      ensures localMatrix == old(localMatrix) && worldMatrix == old(worldMatrix)
    {
      if origin.x == o.x && origin.y == o.y {
        return;
      }
      origin := o;
      localDirty := true;
      worldDirty := true;
    }

    /**
     * Wraps the angle once in each direction; a no-op when the wrapped angle is the stored
     * one, otherwise stores it with its radians and marks both matrices dirty.
     */
    method SetRotation(d: real)
      requires Valid()
      modifies this
      ensures Valid()
      ensures deg == WrapDegrees(d)
      ensures WrapDegrees(d) == old(deg) ==> unchanged(this)
      ensures WrapDegrees(d) != old(deg) ==> rad == WrapDegrees(d) * DegToRad && localDirty && worldDirty
      ensures position == old(position) && scale == old(scale) && origin == old(origin)
      ensures localMatrix == old(localMatrix) && worldMatrix == old(worldMatrix)
    {
      var wrapped := d;
      if wrapped < 0.0 {
        wrapped := wrapped + 360.0;
      }
      if wrapped >= 360.0 {
        wrapped := wrapped - 360.0;
      }
      if wrapped == deg {
        return;
      }
      deg := wrapped;
      rad := wrapped * DegToRad;
      localDirty := true;
      worldDirty := true;
    }

    /**
     * Recomputes the local matrix only when it is dirty; the result is always the matrix
     * of the current fields, and a clean cache is returned without any change of state.
     */
    method LocalMatrix() returns (m: GeoM)
      requires Valid()
      modifies this
      ensures Valid()
      ensures m == localMatrix == Local()
      ensures !localDirty && worldDirty == old(worldDirty)
      ensures !old(localDirty) ==> unchanged(this)
      ensures position == old(position) && scale == old(scale) && origin == old(origin)
      ensures deg == old(deg) && rad == old(rad) && worldMatrix == old(worldMatrix)
    {
      if localDirty {
        localMatrix := Identity();
        localMatrix := Translate(localMatrix, -origin.x, -origin.y);
        localMatrix := Affine.Scale(localMatrix, scale.x, scale.y);
        localMatrix := Rotate(localMatrix, rad, trig);
        localMatrix := Translate(localMatrix, position.x, position.y);
        localDirty := false;
      }
      m := localMatrix;
    }

    /**
     * Recomputes the world matrix only when it is dirty, by concatenating the local matrix
     * onto the identity (there is no parent); afterwards both caches are clean and the
     * world matrix equals the local one.
     */
    method WorldMatrix() returns (m: GeoM)
      requires Valid()
      modifies this
      ensures Valid()
      ensures m == worldMatrix == localMatrix == Local()
      ensures !localDirty && !worldDirty
      ensures !old(worldDirty) ==> unchanged(this)
      ensures position == old(position) && scale == old(scale) && origin == old(origin)
      ensures deg == old(deg) && rad == old(rad)
    {
      if worldDirty {
        worldMatrix := Identity();
        var local := LocalMatrix();
        ConcatIdentityLeft(local);
        worldMatrix := Concat(worldMatrix, local);
        worldDirty := false;
      }
      m := worldMatrix;
    }
  }
}
