/**
 * The parts of the entity-component store the camera system relies on: entities with an
 * identity and their components keyed by component type, the two component lookups with
 * their type assertions, the world's view slot, and the error kinds.
 */
module Ecs {
  import opened Affine
  import Transform
  import CameraZoomOnly

  datatype Option<+T> = None | Some(value: T)

  type EntityId = nat

  /** Component type identifiers; the store derives them from type hashes. */
  datatype ComponentType = TransformComponentType | CameraComponentType | OtherComponentType(hash: nat)

  /** A component as stored: the two the camera system knows, or one of any other type. */
  datatype Component =
    | TransformRef(transform: Transform.TransformComponent)
    | CameraRef(camera: CameraZoomOnly.CameraComponent)
    | OtherComponent(hash: nat)

  /** An entity as the camera system sees it: its identity and its components by type. */
  datatype Entity = Entity(id: EntityId, components: map<ComponentType, Component>)

  /** The error kinds the camera system returns. */
  datatype Error = Ambiguous | NotFound | NilEntity

  /** Entity.GetComponent: the component registered under a type, if any. */
  function GetComponent(e: Entity, t: ComponentType): (r: Option<Component>)
    ensures r.Some? <==> t in e.components
    ensures r.Some? ==> r.value == e.components[t]
  {
    if t in e.components then Some(e.components[t]) else None
  }

  /** The camera lookup followed by the assertion that it really is a CameraComponent. */
  function CameraOf(e: Entity): Option<CameraZoomOnly.CameraComponent> {
    match GetComponent(e, CameraComponentType)
    case Some(CameraRef(c)) => Some(c)
    case _ => None
  }

  /** The transform lookup followed by the assertion that it really is a TransformComponent. */
  function TransformOf(e: Entity): Option<Transform.TransformComponent> {
    match GetComponent(e, TransformComponentType)
    case Some(TransformRef(t)) => Some(t)
    case _ => None
  }

  /** The objects of an entity that the camera system may reach. */
  ghost function Objects(e: Entity): set<object> {
    (if CameraOf(e).Some? then {CameraOf(e).value as object} else {})
    + (if TransformOf(e).Some? then {TransformOf(e).value as object} else {})
  }

  /** The world's "current view" slot, read later by the renderers. */
  class World {
    var view: GeoM

    constructor New()
      ensures view == Identity()
    {
      view := Identity();
    }

    method SetView(m: GeoM)
      modifies this
      ensures view == m
    {
      view := m;
    }
  }
}
