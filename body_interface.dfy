/** The simulation library's body table, seen only through the calls the physics layer makes:
    a map from body id to body state, bounded by the capacity given at initialisation.
    Nothing of the library's own checks is claimed; an id that is not in the table leaves
    the table as it is. */
module BodyInterface {
  import opened Layers
  import opened TransformBridge

  datatype Option<T> = None | Some(value: T)

  newtype uint32 = x: int | 0 <= x < 0x1_0000_0000

  /** A body id: a 32-bit value minted by the library. */
  datatype BodyId = BodyId(value: uint32)

  /** The sentinel for "no body", also the value of a default-constructed id. */
  const InvalidBodyId: BodyId := BodyId(0xffff_ffff)

  /** The largest slot index an id can carry. */
  const MaxBodyIndex: nat := 0x7f_ffff

  datatype MotionType = Static | Kinematic | Dynamic

  /** What a body is created from. */
  datatype BodyCreationSettings = BodyCreationSettings(
    position: RVec3, rotation: Quat, motionType: MotionType, objectLayer: ObjectLayer)

  /** The settings of `{}`: at the origin, unrotated, dynamic, in object layer 0. */
  const DefaultSettings: BodyCreationSettings := BodyCreationSettings(RVec3Zero, QuatIdentity, Dynamic, 0)

  datatype Pose = Pose(position: RVec3, rotation: Quat)

  /** A body in the table, and whether it is in the broad phase (added). */
  datatype Body = Body(pose: Pose, motionType: MotionType, objectLayer: ObjectLayer, inBroadPhase: bool)

  /** A freshly created body: posed and configured as its settings say, not yet added. */
  function NewBody(settings: BodyCreationSettings): Body {
    Body(Pose(settings.position, settings.rotation), settings.motionType, settings.objectLayer, false)
  }

  /** The ids of the first `n` slots of the table. */
  function Slots(n: nat): set<BodyId>
    requires n <= MaxBodyIndex + 1
  {
    set i: uint32 | (i as int) < n :: BodyId(i)
  }

  /** There are exactly `n` ids in the first `n` slots, and the sentinel is none of them. */
  lemma {:induction false} SlotsCardinality(n: nat)
    requires n <= MaxBodyIndex + 1
    ensures |Slots(n)| == n
    ensures InvalidBodyId !in Slots(n)
  {
    if n > 0 {
      SlotsCardinality(n - 1);
      var last := BodyId((n - 1) as uint32);
      assert Slots(n) == Slots(n - 1) + {last};
      assert last !in Slots(n - 1);
    } else {
      assert Slots(n) == {};
    }
  }

  /** A table of fewer than `n` bodies, all in the first `n` slots, leaves a slot free. */
  lemma FreeSlotExists(used: set<BodyId>, n: nat)
    requires n <= MaxBodyIndex + 1
    requires used <= Slots(n) && |used| < n
    ensures exists id :: id in Slots(n) && id !in used
  {
    SlotsCardinality(n);
    var free := Slots(n) - used;
    assert Slots(n) == free + used;
    assert free !! used;
    assert |free| > 0;
  }

  /** A table whose ids are slots holds at most as many bodies as there are slots. */
  lemma TableSize(used: set<BodyId>, n: nat)
    requires n <= MaxBodyIndex + 1
    requires used <= Slots(n)
    ensures |used| <= n
  {
    SlotsCardinality(n);
    assert Slots(n) == (Slots(n) - used) + used;
  }

  /** The table after one simulation update: every body in the broad phase is moved as the
      simulation says, every other body keeps its pose. */
  function Advanced(bodies: map<BodyId, Body>, integrate: (real, nat, BodyId, Pose) -> Pose,
                    deltaTime: real, collisionSteps: nat): (r: map<BodyId, Body>)
    ensures r.Keys == bodies.Keys
    ensures forall id :: id in r ==>
      r[id].inBroadPhase == bodies[id].inBroadPhase &&
      r[id].motionType == bodies[id].motionType &&
      r[id].objectLayer == bodies[id].objectLayer
    ensures forall id :: id in r && !bodies[id].inBroadPhase ==> r[id] == bodies[id]
  {
    map id | id in bodies ::
      if bodies[id].inBroadPhase
      then bodies[id].(pose := integrate(deltaTime, collisionSteps, id, bodies[id].pose))
      else bodies[id]
  }

  /** The library's physics system together with its body interface. */
  class BodySystem {
    const maxBodies: nat
    const numBodyMutexes: nat
    const maxBodyPairs: nat
    const maxContactConstraints: nat
    /** The layer table and filters are held by reference, not owned. */
    const broadPhaseLayerInterface: BPLayerInterface
    var bodies: map<BodyId, Body>

    ghost predicate Valid()
      reads this
    {
      maxBodies <= MaxBodyIndex + 1 && bodies.Keys <= Slots(maxBodies)
    }

    constructor Init(maxBodies: nat, numBodyMutexes: nat, maxBodyPairs: nat, maxContactConstraints: nat,
                     broadPhaseLayerInterface: BPLayerInterface)
      requires maxBodies <= MaxBodyIndex + 1
      ensures Valid() && bodies == map[]
      ensures this.maxBodies == maxBodies && this.numBodyMutexes == numBodyMutexes
      ensures this.maxBodyPairs == maxBodyPairs && this.maxContactConstraints == maxContactConstraints
      ensures this.broadPhaseLayerInterface == broadPhaseLayerInterface
    {
      this.maxBodies := maxBodies;
      this.numBodyMutexes := numBodyMutexes;
      this.maxBodyPairs := maxBodyPairs;
      this.maxContactConstraints := maxContactConstraints;
      this.broadPhaseLayerInterface := broadPhaseLayerInterface;
      bodies := map[];
    }

    /** Creates a body in a free slot, or gives no body when the table is at capacity.
        The body is not added to the broad phase. */
    method CreateBody(settings: BodyCreationSettings) returns (body: Option<BodyId>)
      requires Valid()
      modifies this
      ensures Valid()
      ensures body.None? <==> |old(bodies)| == maxBodies
      ensures body.Some? ==> body.value !in old(bodies) && body.value != InvalidBodyId
      ensures body.Some? ==> bodies == old(bodies)[body.value := NewBody(settings)]
      ensures body.None? ==> bodies == old(bodies)
    {
      TableSize(bodies.Keys, maxBodies);
      if |bodies| == maxBodies {
        return None;
      }
      FreeSlotExists(bodies.Keys, maxBodies);
      SlotsCardinality(maxBodies);
      var id :| id in Slots(maxBodies) && id !in bodies;
      bodies := bodies[id := NewBody(settings)];
      body := Some(id);
    }

    /** Puts a body into the broad phase. */
    method AddBody(id: BodyId)
      requires Valid()
      modifies this
      ensures Valid()
      ensures bodies == if id in old(bodies) then old(bodies)[id := old(bodies)[id].(inBroadPhase := true)]
                        else old(bodies)
    {
      if id in bodies {
        bodies := bodies[id := bodies[id].(inBroadPhase := true)];
      }
    }

    /** Takes a body out of the broad phase; it stays in the table and can be added again. */
    method RemoveBody(id: BodyId)
      requires Valid()
      modifies this
      ensures Valid()
      ensures bodies == if id in old(bodies) then old(bodies)[id := old(bodies)[id].(inBroadPhase := false)]
                        else old(bodies)
    {
      if id in bodies {
        bodies := bodies[id := bodies[id].(inBroadPhase := false)];
      }
    }

    /** Frees a body's slot. */
    method DestroyBody(id: BodyId)
      requires Valid()
      modifies this
      ensures Valid()
      ensures bodies == old(bodies) - {id}
    {
      bodies := bodies - {id};
    }

    /** A body's position and rotation; the origin and the identity rotation for an id the
        table does not hold. */
    method GetPositionAndRotation(id: BodyId) returns (position: RVec3, rotation: Quat)
      ensures id in bodies ==> Pose(position, rotation) == bodies[id].pose
      ensures id !in bodies ==> position == RVec3Zero && rotation == QuatIdentity
    {
      if id in bodies {
        position, rotation := bodies[id].pose.position, bodies[id].pose.rotation;
      } else {
        position, rotation := RVec3Zero, QuatIdentity;
      }
    }

    /** Overwrites a body's position and rotation. */
    method SetPositionAndRotation(id: BodyId, position: RVec3, rotation: Quat)
      requires Valid()
      modifies this
      ensures Valid()
      ensures bodies == if id in old(bodies) then old(bodies)[id := old(bodies)[id].(pose := Pose(position, rotation))]
                        else old(bodies)
    {
      if id in bodies {
        bodies := bodies[id := bodies[id].(pose := Pose(position, rotation))];
      }
    }

    /** Advances the simulation by `deltaTime` in `collisionSteps` steps; what the simulation
        does to a body in the broad phase is the `integrate` parameter. */
    method Update(deltaTime: real, collisionSteps: nat, integrate: (real, nat, BodyId, Pose) -> Pose)
      requires Valid()
      modifies this
      ensures Valid()
      ensures bodies == Advanced(old(bodies), integrate, deltaTime, collisionSteps)
    {
      bodies := Advanced(bodies, integrate, deltaTime, collisionSteps);
    }
  }
}
