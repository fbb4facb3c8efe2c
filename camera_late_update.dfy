/**
 * CameraLateUpdate: the per-tick system that finds the single camera entity, caches its
 * camera and transform components, bakes the camera's zoom and the screen centre into the
 * transform, and publishes the inverse of the transform's world matrix as the view.
 */
module CameraSystem {
  import opened Geometry
  import opened Affine
  import opened Ecs
  import Transform
  import CameraZoomOnly

  /** The window configuration, reduced to the screen size in pixels. */
  datatype Window = Window(ScreenWidth: int, ScreenHeight: int)

  /** The system's cache: the last camera entity and the component references resolved from it. */
  datatype Cache = Cache(
    entity: Option<Entity>,
    camera: CameraZoomOnly.CameraComponent?,
    transform: Transform.TransformComponent?)

  /**
   * CacheOperationComponents on the cache. A nil entity fails and changes nothing. Any other
   * entity is recorded first; then the camera is looked up and recorded, then the transform.
   * A failed lookup returns at once, so what was recorded before it stays.
   */
  function Resolve(cache: Cache, entity: Option<Entity>): (r: (Cache, Option<Error>))
    ensures entity.None? ==> r == (cache, Some(NilEntity))
    ensures entity.Some? ==> r.0.entity == entity
    ensures r.1.None? <==> entity.Some? && CameraOf(entity.value).Some? && TransformOf(entity.value).Some?
    ensures entity.Some? && r.1.Some? ==> r.1 == Some(NotFound)
    ensures entity.Some? && CameraOf(entity.value).None? ==>
              r.0.camera == cache.camera && r.0.transform == cache.transform
    ensures entity.Some? && CameraOf(entity.value).Some? ==> r.0.camera == CameraOf(entity.value).value
    ensures entity.Some? && TransformOf(entity.value).None? ==> r.0.transform == cache.transform
    ensures r.1.None? ==> r.0.transform == TransformOf(entity.value).value
  {
    match entity
    case None => (cache, Some(NilEntity))
    case Some(e) =>
      var recorded := cache.(entity := entity);
      match CameraOf(e)
      case None => (recorded, Some(NotFound))
      case Some(c) =>
        match TransformOf(e)
        case None => (recorded.(camera := c), Some(NotFound))
        case Some(t) => (recorded.(camera := c, transform := t), None)
  }

  /**
   * Whether a tick must re-resolve: nothing is cached yet, or the cached entity's identity
   * differs from the queried one.
   */
  predicate Stale(cache: Cache, entity: Option<Entity>)
    requires cache.entity.Some? ==> entity.Some?
  {
    cache.entity.None? || cache.entity.value.id != entity.value.id
  }

  /** What a tick does once its preliminaries are settled. */
  datatype Outcome =
    | Idle
    | Failed(error: Error)
    | Operate(camera: CameraZoomOnly.CameraComponent, transform: Transform.TransformComponent)

  /**
   * The decision part of Update: the cache after the tick and whether the tick stays idle,
   * fails, or goes on to operate on a camera and a transform.
   */
  function Plan(cache: Cache, entities: seq<Option<Entity>>): (r: (Cache, Outcome))
    requires |entities| == 1 && cache.entity.Some? ==> entities[0].Some?
    ensures |entities| == 0 ==> r == (cache, Idle)
    ensures |entities| > 1 ==> r == (cache, Failed(Ambiguous))
    ensures |entities| == 1 && !Stale(cache, entities[0]) ==> r.0 == cache
    ensures |entities| == 1 && Stale(cache, entities[0]) ==> r.0 == Resolve(cache, entities[0]).0
    ensures r.1.Operate? <==>
              |entities| == 1 && r.0.camera != null && r.0.transform != null
              && (Stale(cache, entities[0]) ==> Resolve(cache, entities[0]).1.None?)
    ensures r.1.Operate? ==>
              r.1.camera == r.0.camera && r.1.transform == r.0.transform
              && r.0.entity.Some? && r.0.entity.value.id == entities[0].value.id
    ensures r.1.Operate? && Stale(cache, entities[0]) ==>
              r.1.camera == CameraOf(entities[0].value).value
              && r.1.transform == TransformOf(entities[0].value).value
    ensures r.1.Failed? && |entities| == 1 ==> r.1.error in {NotFound, NilEntity}
    ensures |entities| == 1 && !r.1.Operate? ==>
              r.1 == Failed(if Stale(cache, entities[0]) && Resolve(cache, entities[0]).1.Some?
                            then Resolve(cache, entities[0]).1.value
                            else NotFound)
  {
    if |entities| == 0 then (cache, Idle)
    else if |entities| > 1 then (cache, Failed(Ambiguous))
    else
      var resolved := if Stale(cache, entities[0]) then Resolve(cache, entities[0]) else (cache, None);
      var c := resolved.0;
      if resolved.1.Some? then (c, Failed(resolved.1.value))
      else if c.camera == null || c.transform == null then (c, Failed(NotFound))
      else (c, Operate(c.camera, c.transform))
  }

  /**
   * A tick that operated leaves a cache the next tick with the same entity list reuses
   * as it is, and that next tick operates on the same two components.
   */
  lemma PlanReusesCache(cache: Cache, entities: seq<Option<Entity>>)
    requires |entities| == 1 && cache.entity.Some? ==> entities[0].Some?
    requires Plan(cache, entities).1.Operate?
    ensures var (next, outcome) := Plan(cache, entities);
            !Stale(next, entities[0]) && Plan(next, entities) == (next, outcome)
  {
    var (next, outcome) := Plan(cache, entities);
    assert next.entity.Some? && next.entity.value.id == entities[0].value.id;
    assert !Stale(next, entities[0]);
  }

  /**
   * A lookup failure leaves the cache half updated: the entity is recorded but the other
   * references are not. If the camera was found and the transform was not, the next tick
   * with the same entity does not re-resolve and operates on the new camera together with
   * the transform cached from the previous camera entity.
   */
  lemma PartialResolveIsReused(cache: Cache, e: Entity)
    requires Stale(cache, Some(e))
    requires CameraOf(e).Some? && TransformOf(e).None? && cache.transform != null
    ensures Plan(cache, [Some(e)]).1 == Failed(NotFound)
    ensures var next := Plan(cache, [Some(e)]).0;
            Plan(next, [Some(e)]).1 == Operate(CameraOf(e).value, cache.transform)
  {
    var next := Plan(cache, [Some(e)]).0;
    assert next == Resolve(cache, Some(e)).0;
    assert next.entity == Some(e) && !Stale(next, Some(e));
  }

  /** The transform an entity offers the system keeps its cache invariant. */
  ghost predicate Operable(e: Entity)
    reads Objects(e)
  {
    TransformOf(e).Some? ==> TransformOf(e).value.Valid()
  }

  class CameraLateUpdate {
    const world: World
    const window: Window
    var cameraEntity: Option<Entity>
    var cameraComponent: CameraZoomOnly.CameraComponent?
    var transformComponent: Transform.TransformComponent?

    function Snapshot(): Cache
      reads this
    {
      Cache(cameraEntity, cameraComponent, transformComponent)
    }

    /** The cached component objects. */
    ghost function Cached(): set<object>
      reads this
    {
      (if cameraComponent != null then {cameraComponent as object} else {})
      + (if transformComponent != null then {transformComponent as object} else {})
    }

    /** Everything a tick over these entities may touch besides this system and the world. */
    ghost function Reach(entities: seq<Option<Entity>>): set<object>
      reads this
    {
      Cached() + (if |entities| == 1 && entities[0].Some? then Objects(entities[0].value) else {})
    }

    /** The cached transform keeps its cache invariant. */
    ghost predicate Valid()
      reads this, Cached()
    {
      transformComponent != null ==> transformComponent.Valid()
    }

    /** NewCameraLateUpdate: nothing cached yet. */
    constructor New(world: World, window: Window)
      ensures this.world == world && this.window == window
      ensures cameraEntity.None? && cameraComponent == null && transformComponent == null
      ensures Valid()
    {
      this.world := world;
      this.window := window;
      cameraEntity := None;
      cameraComponent := null;
      transformComponent := null;
    }

    /** Re-resolves the cached entity and components; the new cache and the error are Resolve's. */
    method CacheOperationComponents(entity: Option<Entity>) returns (err: Option<Error>)
      requires Valid()
      requires entity.Some? ==> Operable(entity.value)
      modifies this
      ensures Valid()
      ensures (Snapshot(), err) == Resolve(old(Snapshot()), entity)
    {
      if entity.None? {
        return Some(NilEntity);
      }
      cameraEntity := entity;
      var e := entity.value;
      var component := GetComponent(e, CameraComponentType);
      if component.None? {
        return Some(NotFound);
      }
      if !component.value.CameraRef? {
        return Some(NotFound);
      }
      cameraComponent := component.value.camera;
      component := GetComponent(e, TransformComponentType);
      if component.None? {
        return Some(NotFound);
      }
      if !component.value.TransformRef? {
        return Some(NotFound);
      }
      transformComponent := component.value.transform;
      return None;
    }

    /**
     * The operating part of a tick: the zoom becomes the transform's uniform scale, the
     * screen centre its origin, and the inverse of its world matrix is published to the
     * world and to the camera. Position and rotation stay; the camera's zoom stays.
     */
    method ApplyCamera(t: Transform.TransformComponent, c: CameraZoomOnly.CameraComponent)
      requires t.Valid() && c.zoom != 0.0
      modifies t, c, world
      ensures t.Valid()
      ensures t.scale == Point(old(c.zoom), old(c.zoom))
      ensures t.origin == Point(window.ScreenWidth as real / 2.0, window.ScreenHeight as real / 2.0)
      ensures t.position == old(t.position) && t.deg == old(t.deg) && t.rad == old(t.rad)
      ensures !t.localDirty && !t.worldDirty && t.worldMatrix == t.Local()
      ensures Det(t.worldMatrix) == c.zoom * c.zoom && Det(t.worldMatrix) != 0.0
      ensures world.view == Invert(t.worldMatrix) && c.view == world.view
      ensures c.zoom == old(c.zoom)
      ensures Concat(t.worldMatrix, world.view) == Identity()
      ensures Apply(world.view, t.position) == t.origin
    {
      var zoom := c.Zoom();
      var scale := t.Scale();
      var origin := t.Origin();
      scale := scale.(x := zoom, y := zoom);
      origin := origin.(x := window.ScreenWidth as real / 2.0, y := window.ScreenHeight as real / 2.0);
      t.SetScale(scale);
      t.SetOrigin(origin);
      var invWorldMatrix := t.WorldMatrix();
      Transform.DetLocal(t.position, t.scale, t.origin, t.rad, t.trig);
      assert Det(invWorldMatrix) == zoom * zoom;
      assert Det(invWorldMatrix) != 0.0;
      InvertIsInverse(invWorldMatrix);
      Transform.LocalMapsOriginToPosition(t.position, t.scale, t.origin, t.rad, t.trig);
      ApplyInvert(invWorldMatrix, t.origin);
      invWorldMatrix := Invert(invWorldMatrix);
      world.SetView(invWorldMatrix);
      c.SetView(invWorldMatrix);
    }

    /**
     * One tick. Zero entities: success, nothing touched. More than one: Ambiguous, nothing
     * touched. Otherwise the cache is re-resolved if stale; a failed resolution or a missing
     * cached component fails before the transform is touched. On success the effects are
     * those of ApplyCamera on the cached transform and camera, and nothing else changes.
     */
    method Update(entities: seq<Option<Entity>>) returns (err: Option<Error>)
      requires Valid()
      requires |entities| == 1 && cameraEntity.Some? ==> entities[0].Some?
      requires |entities| == 1 && entities[0].Some? ==> Operable(entities[0].value)
      requires var o := Plan(Snapshot(), entities).1; o.Operate? ==> o.camera.zoom != 0.0
      modifies this, world, Reach(entities)
      ensures Valid()
      ensures Snapshot() == Plan(old(Snapshot()), entities).0
      ensures var outcome := Plan(old(Snapshot()), entities).1;
              !outcome.Operate? ==>
                && err == (if outcome.Failed? then Some(outcome.error) else None)
                && unchanged(world) && unchanged(old(Reach(entities)))
      ensures var outcome := Plan(old(Snapshot()), entities).1;
              outcome.Operate? ==>
                var t, c := outcome.transform, outcome.camera;
                && err.None?
                && t.scale == Point(old(c.zoom), old(c.zoom))
                && t.origin == Point(window.ScreenWidth as real / 2.0, window.ScreenHeight as real / 2.0)
                && t.position == old(t.position) && t.deg == old(t.deg) && t.rad == old(t.rad)
                && !t.localDirty && !t.worldDirty && t.worldMatrix == t.Local()
                && Det(t.worldMatrix) != 0.0
                && world.view == Invert(t.worldMatrix) && c.view == world.view
                && c.zoom == old(c.zoom)
                && Concat(t.worldMatrix, world.view) == Identity()
                && Apply(world.view, t.position) == t.origin
                && unchanged(old(Reach(entities)) - {t, c})
    {
      if |entities| == 0 {
        return None;
      }
      if |entities| > 1 {
        return Some(Ambiguous);
      }
      if cameraEntity.None? || cameraEntity.value.id != entities[0].value.id {
        var e := CacheOperationComponents(entities[0]);
        if e.Some? {
          return e;
        }
      }
      if cameraComponent == null || transformComponent == null {
        return Some(NotFound);
      }
      ApplyCamera(transformComponent, cameraComponent);
      return None;
    }
  }

  /**
   * A client of the contracts above: a camera entity at (100, 200) with zoom 2 on a
   * 640x480 screen. An empty tick and an ambiguous tick change nothing; the third tick
   * bakes the zoom into the scale and publishes a view that puts the camera's position
   * at the centre of the screen.
   */
  method TickScenario(trig: Trig)
    requires UnitCircle(trig)
  {
    var t := new Transform.TransformComponent.NewWith(Point(100.0, 200.0), Point(1.0, 1.0), Point(0.0, 0.0), 0.0, trig);
    var c := new CameraZoomOnly.CameraComponent.New();
    c.SetZoom(2.0);
    var e := Entity(7, map[TransformComponentType := TransformRef(t), CameraComponentType := CameraRef(c)]);
    var w := new World.New();
    var system := new CameraLateUpdate.New(w, Window(640, 480));

    var err := system.Update([]);
    assert err.None? && w.view == Identity() && t.scale == Point(1.0, 1.0);
    err := system.Update([Some(e), Some(e)]);
    assert err == Some(Ambiguous) && system.cameraEntity.None?;

    assert CameraOf(e) == Some(c) && TransformOf(e) == Some(t);
    err := system.Update([Some(e)]);
    assert err.None? && system.cameraComponent == c && system.transformComponent == t;
    assert t.scale == Point(2.0, 2.0) && t.origin == Point(320.0, 240.0) && t.position == Point(100.0, 200.0);
    assert Apply(w.view, Point(100.0, 200.0)) == Point(320.0, 240.0) && c.view == w.view;
  }
}
