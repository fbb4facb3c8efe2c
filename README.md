# Camera and transform core, modelled in Dafny

This project models the state-keeping core of a 2D game's camera/transform subsystem, written
in Go on top of an entity-component store and the ebiten matrix type `GeoM`.

- **TransformComponent** (`transform.dfy`). This class holds position, scale, origin (the pivot)
  and rotation. Rotation is kept both in degrees and in radians. The class also caches a local
  matrix and a world matrix, each guarded by a dirty flag.
  - Every setter is a no-op when the new value equals the stored one. Otherwise it stores the
    value and marks both matrices dirty.
  - `SetRotation` wraps the angle once in each direction.
  - `LocalMatrix` and `WorldMatrix` recompute only when their flag is set.
  - The class invariant `Valid()` states cache validity: a clean cached matrix is the matrix of
    the current fields, and the local flag is never set while the world flag is clear.
- **CameraComponent**. The source has two alternative declarations of this type in the same
  package, so they are modelled as two modules.
  - `Camera` (`camera.dfy`) has a viewport size and a zoom.
  - `CameraZoomOnly` (`camera_zoom_only.dfy`) has only a zoom. The camera system drives this
    variant. The system calls `SetView` on its camera, which neither source variant declares,
    so this variant also carries a `view` matrix and a `SetView` method.
- **CameraLateUpdate** (`camera_late_update.dfy`). This is the per-tick system.
  - It enforces a single camera entity.
  - It caches the camera entity and its two component references. It re-resolves them only
    when the entity's identity changes.
  - It writes the zoom into the transform's scale and the screen centre into its origin.
  - It publishes the inverse of the world matrix to the world's view slot and to the camera.
  - The decision logic is the function `Plan`, and `CacheOperationComponents` is modelled by
    the function `Resolve`. The methods are proved against both.
- **Matrices** (`affine.dfy`). `GeoM` is six exact real coefficients. Identity, Translate,
  Scale, Rotate, Concat and Invert follow the library's conventions. The module proves that
  `Concat` is associative, that `Invert` is a two-sided inverse and an involution, and how
  determinants behave.
  - cos and sin are a foreign library, so the model does not define them. A `Trig` pair of
    functions is passed to each transform when it is built. Only `cos² + sin² = 1` is assumed
    of it, and only to show that the view matrix is invertible.
- **Entities** (`ecs.dfy`). An entity is an identity plus a map from component type to
  component. The world is reduced to its view slot.

Behaviours of the code worth knowing:

- `SetRotation` wraps only once each way. Only inputs in [-360, 720) end in [0, 360), so
  800 becomes 440, not 80.
- `CacheOperationComponents` records the entity before either lookup. A failed lookup has
  therefore already recorded the entity, and possibly the camera. The next tick with the
  same entity does not re-resolve, and it operates on whatever component references are
  cached (`PartialResolveIsReused`).
- `SetZoom` has no equality check. It always assigns, which leaves the same state when the
  value is unchanged.

## Model

| member | source | states |
|---|---|---|
| `Transform.WrapDegrees` | transform/transform.go:98-103 | the wrapped angle differs from the input by -360, 0 or +360; it lies in [0, 360) exactly when the input lies in [-360, 720); angles already in [0, 360) are kept |
| `Transform.WrapDegreesExamples` | transform/transform.go:97-103 | 400 wraps to 40, -10 to 350, 360 to 0, and 800 only to 440 |
| `Transform.ApplyLocal` | transform/transform.go:115-119 | the local matrix maps a point q to position + R(rad)·S(scale)·(q − origin) |
| `Transform.LocalMapsOriginToPosition` | transform/transform.go:115-119 | whatever the scale and rotation, the local matrix maps the origin (pivot) to the position |
| `Transform.DetLocal` | transform/transform.go:115-119 | the local matrix's determinant is scale.x·scale.y, so it is invertible exactly when both scale components are non-zero |
| `Transform.TransformComponent.New` | transform/transform.go:27-34 | a new transform is at (0,0) with scale (1,1), origin (0,0), angle 0, both flags dirty, and satisfies the cache invariant |
| `Transform.TransformComponent.NewWith` | transform/transform.go:36-48 | stores position, scale, origin and the angle as given (unwrapped), rad = deg·DegToRad, both flags dirty, invariant established |
| `Transform.TransformComponent.SetPosition` | transform/transform.go:58-65 | an equal value changes nothing at all; a different one is stored and raises both flags; no other field changes; the invariant is kept |
| `Transform.TransformComponent.SetScale` | transform/transform.go:71-78 | an equal value changes nothing at all; a different one is stored and raises both flags; no other field changes; the invariant is kept |
| `Transform.TransformComponent.SetOrigin` | transform/transform.go:84-91 | an equal value changes nothing at all; a different one is stored and raises both flags; no other field changes; the invariant is kept |
| `Transform.TransformComponent.SetRotation` | transform/transform.go:97-111 | the stored angle becomes the wrapped input; if that equals the old angle nothing changes, otherwise rad follows it and both flags are raised; position, scale, origin and cached matrices are untouched |
| `Transform.TransformComponent.LocalMatrix` | transform/transform.go:113-123 | returns and caches the matrix of the current fields, clears the local flag only, and changes nothing when the cache was clean (so a second call returns the same value) |
| `Transform.TransformComponent.WorldMatrix` | transform/transform.go:125-132 | returns the world matrix, which equals the local matrix of the current fields; both flags end clear; nothing changes when the world cache was clean |
| `Affine.ConcatIdentityLeft` | transform/transform.go:127-128 | concatenating a matrix onto a reset one yields that matrix, so with no parent the world matrix is the local one |
| `Affine.InvertIsInverse` | camera/camera_late_update.go:77-78 | for a non-singular matrix, Invert is a two-sided inverse under Concat (view · world = identity) |
| `Affine.ApplyInvert` | camera/camera_late_update.go:77-78 | the inverse undoes the matrix on every point and vice versa |
| `Affine.InvertInvolutive` | camera/camera_late_update.go:77-78 | the inverse is again invertible, and inverting it gives back the original matrix |
| `Camera.CameraComponent.New` | camera/camera.go:16-21 | size (0,0) and zoom 1, which satisfies the zoom > 0 invariant |
| `Camera.CameraComponent.NewWith` | camera/camera.go:23-28 | stores size and zoom as given, unchecked; the invariant holds exactly when the given zoom is positive |
| `Camera.CameraComponent.SetSize` | camera/camera.go:38-43 | an equal size changes nothing; otherwise the size is stored; the zoom never changes |
| `Camera.CameraComponent.SetZoom` | camera/camera.go:45-54 | callers must pass a positive zoom (the source panics otherwise); afterwards Zoom() returns it, the size is unchanged, and zoom > 0 holds |
| `CameraZoomOnly.CameraComponent.New` | camera/camera_component.go:14-18 | zoom 1, which satisfies the zoom > 0 invariant |
| `CameraZoomOnly.CameraComponent.NewWith` | camera/camera_component.go:20-24 | stores the zoom unchecked; the invariant holds exactly when it is positive |
| `CameraZoomOnly.CameraComponent.SetZoom` | camera/camera_component.go:30-39 | callers must pass a positive zoom; afterwards Zoom() returns it and zoom > 0 holds, whatever the zoom was before |
| `CameraZoomOnly.CameraComponent.SetView` | camera/camera_late_update.go:81 | stores the published view and leaves the zoom alone |
| `Ecs.GetComponent` | camera/camera_late_update.go:93-96 | a component is found exactly when the entity has one registered under that type, and the component found is the one registered there |
| `Ecs.World.SetView` | camera/camera_late_update.go:80 | the world's view slot holds the published matrix |
| `CameraSystem.Resolve` | camera/camera_late_update.go:86-118 | a nil entity gives a Nil error and leaves the cache unchanged; any other entity is recorded even on failure; success happens exactly when both lookups succeed, and then both references are the entity's; a failed camera lookup keeps both old references; a failed transform lookup keeps the old transform but records the new camera |
| `CameraSystem.Plan` | camera/camera_late_update.go:43-59 | no entities: idle with the cache unchanged; more than one: Ambiguous with the cache unchanged; the cache is re-resolved only when it is empty or holds another identity; the tick operates exactly when resolution (if any) succeeded and both cached references are non-nil; a one-entity tick that does not operate fails, with the resolution error when a resolution ran and failed, and with NotFound otherwise; freshly resolved components are the entity's own |
| `CameraSystem.PlanReusesCache` | camera/camera_late_update.go:51-55 | after a tick that operated, the next tick with the same entity does not re-resolve and operates on the same components |
| `CameraSystem.PartialResolveIsReused` | camera/camera_late_update.go:91-115 | if the camera is found but the transform is not, the tick fails with NotFound; the next tick with that entity then operates on the new camera and the previously cached transform |
| `CameraSystem.CameraLateUpdate.New` | camera/camera_late_update.go:28-33 | a new system has nothing cached |
| `CameraSystem.CameraLateUpdate.CacheOperationComponents` | camera/camera_late_update.go:86-118 | the new cache and the returned error are those of Resolve on the old cache |
| `CameraSystem.CameraLateUpdate.ApplyCamera` | camera/camera_late_update.go:63-81 | the transform's scale becomes (zoom, zoom) and its origin the screen centre; position, angle and zoom stay; both caches end clean; world and camera view are both the inverse of the new world matrix; view · world = identity, and the view maps the camera's position to the screen centre |
| `CameraSystem.CameraLateUpdate.Update` | camera/camera_late_update.go:43-84 | the cache ends as Plan says; an idle or failing tick returns success or Plan's error and changes no component and not the world; an operating tick has ApplyCamera's effects on the planned components, and no other reachable object changes; only the operated camera must have a non-zero zoom |

## Left out

- float64 is modelled as exact reals. Rounding, NaN, infinities and the distinction between -0 and +0 are not modelled. Each setter's exact-equality no-op test therefore becomes equality of reals.
- ebiten's matrix type is modelled by its mathematics only. The library stores a−1 and d−1 and rounds at every step; the model does not.
- cos and sin are not modelled. A transform is built with a `Trig` pair that stands for them, and the model assumes only cos² + sin² = 1 of it.
- The conversion factor from degrees to radians is π/180, with π taken as the exact real 3.141592653589793.
- Component and system type identifiers are derived from type hashes in the source. Here they are fixed constructors of `Ecs.ComponentType`.
- The query engine of the entity store and `Filter()` are outside this model. `Update` receives the entity list, and `Type()` and `Filter()` are constant getters.
- `Update`'s time parameter is unused by the source and is dropped.
- The error that the store's `GetComponent` returns for a missing type is modelled as NotFound.
- The window configuration is reduced to its two screen dimensions. The window is fixed for the life of the system.
- `ebiten.GeoM.Invert` panics on a singular matrix, so `Affine.Invert` requires a non-zero determinant.
- CameraSystem.CameraLateUpdate.Update: requires that the camera the tick operates on, as `Plan` decides it, has a non-zero zoom. A zero zoom makes the world matrix singular, and inverting it panics in the source. Cameras that are only looked up or cached may have any zoom.
- CameraSystem.CameraLateUpdate.Update and CacheOperationComponents: require that the queried entity's transform and the cached transform satisfy the transform cache invariant. Every transform constructor and method establishes or keeps it.
- CameraSystem.CameraLateUpdate.Update: requires that the queried entity is not nil when an entity is already cached. The source would read the ID of a nil entity there and panic.
- Transform.TransformComponent.SetPosition, SetScale, SetOrigin, SetRotation, LocalMatrix and WorldMatrix: each requires the cache invariant `Valid()`. Every constructor and every method establishes or keeps it.
- The size-and-zoom camera variant (camera/camera.go) is not driven by the camera system. The system is modelled with the zoom-only variant.
- Viewport rectangles, interactive zoom from scroll input and parent/child transform hierarchies are not part of this code, so they are not modelled.
- renderers/sprite_renderer.go only draws an image through the library. It has no state logic and is not part of this model.
