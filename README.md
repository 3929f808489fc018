# Physics integration layer of the legs engine, in Dafny

This project models the layer of the legs engine that sits between its entities and the
Jolt rigid-body library. It covers five pieces:

- **Collision layers** (`layers.dfy`): the two object layers (non-moving 0, moving 1) and the
  table that maps each to its broad-phase layer. It also holds the object-vs-object and
  object-vs-broad-phase filters. Each filter returns a `Verdict`: whether the pair may collide,
  and whether the filter went through its `JPH_ASSERT(false)` branch.
  `BPLayerInterface` is a class whose constructor fills its table array in place.
- **Step scheduler** (`step_scheduler.dfy`): the number of collision steps for one tick is
  `ceil(DeltaTick / maxDeltaTime)`. Times are exact reals, and `Ceil` is the least integer
  not below its argument.
- **Transform bridge** (`transform_bridge.dfy`): how the components of a body's position and
  quaternion are copied into and out of the engine's `STransform`.
- **Body table** (`body_interface.dfy`): the library's physics system, seen through the calls
  the layer makes. It is a map from body id to body state, bounded by the capacity given at
  initialisation. Ids are slot numbers below that capacity, so none of them is the invalid
  sentinel `0xffffffff`.
- **Physics object and physics entity** (`physics.dfy`, `physics_entity.dfy`): the engine's
  `Physics` class, and the entity that creates, adds, removes and destroys its body. The entity
  also copies the body's pose into its transform every tick. A ghost `Journal` records the state-changing
  calls on the physics object and the runs of the base entity's handlers, in order. The ordering
  properties are stated over this record.

The clock value `Time::DeltaTick` and the global `g_engine->GetWorld()->GetPhysics()` are
parameters: `deltaTick` and the entity's `physics` field. The simulation step itself belongs to
the library. It is the `integrate` parameter of `Update`, applied to every body in the broad
phase.

Three facts about the code shape what the model states:

- **Set-then-Get is not the identity.** `SetBodyTransform` builds the library quaternion as
  `(x, y, w, z)` (src/physics.cpp:377-382), while `GetBodyTransform` reads it back as
  `(x, y, z, w)` (src/physics.cpp:366-369), so the round trip exchanges z and w.
  `TransformBridge.SetThenGet`, `SetThenGetIdentityIff` and `SetThenGetNotIdentity` state this.
  `Physics.SetThenGetOnBody` states it for a body in the table.
- **Unknown first layer.** Both filters reach `JPH_ASSERT(false)` on a first layer that is
  neither non-moving nor moving (src/physics.cpp:67-69, 143-145); only the first argument is
  checked. In builds with asserts enabled, the installed assert handler logs and returns true,
  which asks for a breakpoint (src/physics.cpp:35-38). In builds without asserts the filter
  just answers "no collision". `Verdict.assertFailed` marks that branch.
- **Remove-before-destroy.** The physics layer never checks that a body is removed before it
  is destroyed. Any such check is inside the library and is not claimed.

## Model

| member | source | states |
|---|---|---|
| `Layers.ObjectPairShouldCollide` | src/physics.cpp:58-71 | the assertion fails exactly when the first layer is neither non-moving nor moving, and a failed assertion always answers "no collision" |
| `Layers.ObjectVsBroadPhaseShouldCollide` | src/physics.cpp:134-147 | the same for the object-vs-broad-phase filter: it asserts exactly on an unknown first layer and then refuses |
| `Layers.ObjectToBroadPhase` | src/physics.cpp:94-96 | the table maps each known object layer to the broad-phase layer of the same number, below the broad-phase layer count |
| `Layers.BPLayerInterface.constructor` | src/physics.cpp:92-97 | the constructor fills a fresh two-entry array with the table: non-moving to broad-phase non-moving, moving to broad-phase moving |
| `Layers.BPLayerInterface.GetNumBroadPhaseLayers` | src/physics.cpp:99-102 | the count is two: every broad-phase layer the table maps to is below it, and every broad-phase layer below it is the image of a known object layer |
| `Layers.BPLayerInterface.GetBroadPhaseLayer` | src/physics.cpp:104-108 | only for a layer below the layer count (the source's assertion), it returns that layer's table entry, the broad-phase layer of the same number |
| `Layers.ObjectPairTruthTable` | src/physics.cpp:58-66 | non-moving/non-moving does not collide, non-moving/moving does, and moving collides with every layer |
| `Layers.ObjectPairSymmetric` | src/physics.cpp:58-66 | on the two known layers the object-pair answer does not depend on argument order |
| `Layers.OnlyFirstLayerChecked` | src/physics.cpp:61-69 | an unknown first layer gives (false, assertion failed) in both filters; with non-moving first, any second layer other than moving gives false without an assertion |
| `Layers.ObjectPairAsymmetricOffTable` | src/physics.cpp:61-69 | outside the known layers the object-pair filter is not symmetric: moving accepts an unknown layer, which refuses moving |
| `Layers.FiltersAgree` | src/physics.cpp:134-147 | for any first layer and a known second layer, the broad-phase filter on the second layer's broad-phase layer gives the object-pair filter's verdict |
| `Layers.FiltersAgreeThroughInterface` | src/physics.cpp:104-107 | the same agreement through a constructed layer interface's `GetBroadPhaseLayer` |
| `StepScheduler.Ceil` | src/physics.cpp:325 | `ceil` gives an integer not below its argument and less than one above it |
| `StepScheduler.StepCount` | src/physics.cpp:325 | the step count times `maxDeltaTime` covers the delta time, and one step fewer would not |
| `StepScheduler.StepCountPositive` | src/physics.cpp:325 | a positive delta time takes at least one step |
| `StepScheduler.StepCountZero` | src/physics.cpp:325 | a zero delta time takes no step |
| `StepScheduler.StepCountMinimal` | src/physics.cpp:325 | any count whose steps cover the delta time is at least the step count |
| `StepScheduler.StepCountExample` | src/physics.cpp:241 | with the bound of a sixtieth of a second, a tick of 0.0183 s takes two steps |
| `TransformBridge.FromJoltInjective` | src/physics.cpp:362-369 | reading a pose is one-to-one: equal transforms come only from equal library positions and quaternions |
| `TransformBridge.SetThenGet` | src/physics.cpp:376-382 | writing a transform and reading it back keeps the position and exchanges the quaternion's z and w |
| `TransformBridge.GetThenSet` | src/physics.cpp:362-382 | reading a pose and writing it back gives the same position and the library quaternion with z and w exchanged |
| `TransformBridge.SetThenGetIdentityIff` | src/physics.cpp:377-382 | the write-then-read round trip returns the transform exactly when its quaternion's z equals its w |
| `TransformBridge.SetThenGetNotIdentity` | src/physics.cpp:377-382 | some transform does not survive a write-then-read round trip |
| `TransformBridge.SetThenGetTwice` | src/physics.cpp:377-382 | two write-then-read round trips give the transform back |
| `BodyInterface.SlotsCardinality` | src/physics.cpp:246 | a table of capacity n has exactly n ids, and the invalid sentinel is none of them |
| `BodyInterface.Advanced` | src/physics.cpp:326 | a simulation update keeps every body's id, broad-phase membership, motion type and layer, and moves no body outside the broad phase |
| `BodyInterface.BodySystem.Init` | src/physics.cpp:282-290 | the system starts with an empty table and keeps the capacities and the layer interface it is given |
| `BodyInterface.BodySystem.CreateBody` | src/physics.cpp:331-336 | no body exactly when the table is at capacity; otherwise a new id that is not the sentinel, holding a body posed by the settings and not yet added |
| `BodyInterface.BodySystem.AddBody` | src/physics.cpp:339-342 | the body with that id is in the broad phase afterwards; nothing else changes |
| `BodyInterface.BodySystem.RemoveBody` | src/physics.cpp:344-347 | the body leaves the broad phase but stays in the table; nothing else changes |
| `BodyInterface.BodySystem.DestroyBody` | src/physics.cpp:349-352 | the id leaves the table; nothing else changes |
| `BodyInterface.BodySystem.GetPositionAndRotation` | src/physics.cpp:360 | returns the stored pose of a body in the table, and the origin with the identity rotation for any other id |
| `BodyInterface.BodySystem.SetPositionAndRotation` | src/physics.cpp:384-385 | the body's pose becomes the given position and rotation; nothing else changes |
| `BodyInterface.BodySystem.Update` | src/physics.cpp:326 | the table after a step is the old table advanced by the simulation with the given delta time and step count |
| `Physics.Physics.constructor` | src/physics.cpp:234-303 | a step bound of 1/60 s, a system of 1024 bodies, 0 body mutexes (the library's default number), 1024 body pairs and 1024 contact constraints over the two-layer table, starting empty |
| `Physics.Physics.Update` | src/physics.cpp:323-327 | the library is passed the whole tick and `StepCount(deltaTick, maxDeltaTime)` steps, not a per-step time; the bodies move by that step |
| `Physics.Physics.CreateBody` | src/physics.cpp:329-337 | the new body's id when the library creates one; the invalid id exactly when the table is full, and then the table is unchanged |
| `Physics.Physics.AddBody` | src/physics.cpp:339-342 | passes the id on: the body is in the broad phase and the call is recorded |
| `Physics.Physics.RemoveBody` | src/physics.cpp:344-347 | passes the id on: the body leaves the broad phase and the call is recorded |
| `Physics.Physics.DestroyBody` | src/physics.cpp:349-352 | passes the id on: the id leaves the table and the call is recorded |
| `Physics.Physics.GetBodyTransform` | src/physics.cpp:354-372 | the transform is the body's library pose read component for component; it changes nothing |
| `Physics.Physics.SetBodyTransform` | src/physics.cpp:374-386 | the body's pose becomes the transform's position and the quaternion (x, y, w, z) |
| `Physics.SetThenGetOnBody` | src/physics.cpp:374-386 | for a body in the table, writing a transform and reading it back gives the transform with z and w exchanged, and the same position |
| `PhysicsEntity.PhysicsEntity.constructor` | src/public/legs/entity/physics_entity.hpp:16-18 | a new entity holds the default, invalid body id and a fresh transform |
| `PhysicsEntity.PhysicsEntity.OnSpawn` | src/public/legs/entity/physics_entity.hpp:27-32 | base handler first, then create with default settings, then add on the returned id, which is kept even when it is the invalid sentinel |
| `PhysicsEntity.PhysicsEntity.OnDestroy` | src/public/legs/entity/physics_entity.hpp:34-39 | base handler first, then remove strictly before destroy, both on the kept id; the id leaves the table and the entity keeps the stale id |
| `PhysicsEntity.PhysicsEntity.OnFrame` | src/public/legs/entity/physics_entity.hpp:41-44 | only the base handler runs |
| `PhysicsEntity.PhysicsEntity.OnTick` | src/public/legs/entity/physics_entity.hpp:46-52 | base handler first, then the transform's position and rotation become exactly what a read of the body gives; the body table and the entity's id are untouched |
| `PhysicsEntity.SpawnDestroyCallsOn` | src/public/legs/entity/physics_entity.hpp:30-38 | in a spawn followed by a destroy, the calls naming the body are create, add, remove, destroy, in that order |
| `PhysicsEntity.SpawnThenDestroy` | src/public/legs/entity/physics_entity.hpp:27-39 | a spawn then a destroy makes exactly the calls create, add, remove, destroy on one id, with each base handler first, and leaves the body table as it was |

## Left out

- `Physics::Register` and `~Physics`: they only set and clear the library's global allocator, factory and type registry, and `Register` installs the trace and assert callbacks.
- Contact and activation listeners: they only print, and they run on the library's worker threads.
- Trace and assert callbacks: these are logging output. A failed filter assertion shows up only as `Verdict.assertFailed`, which stands both for the breakpoint an assert build asks for and for the plain "no collision" answer of a build without asserts.
- Job system, thread count and the 10 MiB temporary allocator: these are concurrency and memory management inside the library.
- `Physics::Optimize`: it rebuilds the library's broad-phase tree, which has no visible effect on the body table.
- `GetBroadPhaseLayerName`: it exists only in profiling builds.
- `BodyInterface.BodySystem.Init`: the library's `Init` also receives the two filter objects (src/physics.cpp:282-290). The filters are pure functions here (`Layers.ObjectVsBroadPhaseShouldCollide`, `Layers.ObjectPairShouldCollide`), so the system does not hold them.
- The object lifetimes in the constructor: the layer interface, the filters and the listeners are stack locals, and the library keeps references to them after the constructor returns. The model holds them by reference and cannot express that they go out of scope.
- The library's own checks on bodies (double add, destroy before remove, use of a destroyed id) are not claimed. In the model, an id that is not in the table leaves the table unchanged. A read of such an id gives the origin and the identity rotation.
- Body ids carry no sequence number, and which free slot a new body takes is left open.
- Body activation and sleeping are not modelled. The `Activate` flag passed by `AddBody` and `SetBodyTransform` has no effect in the model.
- Shapes, velocities and the other creation settings: `{}` is modelled as the origin, the identity rotation, dynamic motion and object layer 0.
- `STransform` fields other than position and rotation: src/public/legs/components/transform.hpp is not part of this model. The entity's initial transform is a constructor parameter.
- `MeshEntity`'s handlers: only the fact that each one runs first is recorded.
- Floating point: times and pose components are exact reals.
- `StepScheduler.StepCount`: it requires a non-negative delta time. It does not model the float rounding of `1.0f / 60.0f`. It does not model converting the ceiling to `unsigned int`, which overflows for ticks longer than about 2^32/60 seconds. A tick in (-maxDeltaTime, 0) has ceiling -0.0 and converts to 0 steps; only ticks whose ceiling is -1 or less convert with undefined behaviour. The requirement of a non-negative tick excludes both kinds of negative tick.
- `Physics.Physics.Update`: a zero tick passes zero collision steps to the library. What the library then does is left to the `integrate` parameter.
- examples/03_physics/main.cpp: windowing, camera and renderer set-up.
