/** The engine's physics object: it owns the simulation library's physics system, sets it up
    with the layer table and filters, splits each tick into collision steps, and turns body
    requests and pose reads and writes into library calls. */
module Physics {
  import opened Layers
  import opened StepScheduler
  import opened TransformBridge
  import opened BodyInterface

  /** The hooks an entity has; the base entity's own handler runs as an event of its own. */
  datatype Hook = Spawn | Destroy | Frame | Tick

  /** What the physics object and the entities driving it do, in order. */
  datatype Event =
    | BaseHook(hook: Hook)
    | Created(settings: BodyCreationSettings, id: BodyId)
    | Added(id: BodyId)
    | Removed(id: BodyId)
    | Destroyed(id: BodyId)
    | PoseSet(id: BodyId, trans: STransform)
    | Stepped(deltaTime: real, collisionSteps: nat)

  /** Whether an event is a call on the body `id`. */
  predicate Names(e: Event, id: BodyId) {
    !e.BaseHook? && !e.Stepped? && e.id == id
  }

  /** The events that name a given body, in order. */
  function CallsOn(events: seq<Event>, id: BodyId): (r: seq<Event>)
    ensures |r| <= |events|
  {
    if events == [] then []
    else
      var rest := CallsOn(events[1..], id);
      if Names(events[0], id) then [events[0]] + rest else rest
  }

  /** Picking out one body's events commutes with putting event sequences together. */
  lemma {:induction false} CallsOnAppend(a: seq<Event>, b: seq<Event>, id: BodyId)
    ensures CallsOn(a + b, id) == CallsOn(a, id) + CallsOn(b, id)
  {
    if a != [] {
      CallsOnAppend(a[1..], b, id);
      assert (a + b)[1..] == a[1..] + b;
    } else {
      assert a + b == b;
    }
  }

  /** A record of events, shared by the physics object and the entities that use it. */
  class Journal {
    ghost var events: seq<Event>

    constructor ()
      ensures events == []
    {
      events := [];
    }
  }

  const MaxBodies: nat := 1024
  /** Zero asks the library for its default number of body mutexes. */
  const NumBodyMutexes: nat := 0
  const MaxBodyPairs: nat := 1024
  const MaxContactConstraints: nat := 1024

  class Physics {
    const system: BodySystem
    const maxDeltaTime: real
    const journal: Journal

    ghost predicate Valid()
      reads this, system, system.broadPhaseLayerInterface, system.broadPhaseLayerInterface.objectToBroadPhase
    {
      system.Valid() && system.broadPhaseLayerInterface.Valid() && maxDeltaTime > 0.0
    }

    /** The transform a read of `id` yields in the current state. */
    ghost function CurrentTransform(id: BodyId): STransform
      reads this, system
    {
      if id in system.bodies
      then FromJolt(system.bodies[id].pose.position, system.bodies[id].pose.rotation)
      else FromJolt(RVec3Zero, QuatIdentity)
    }

    /** Sets up a system of 1024 bodies, 1024 body pairs and 1024 contact constraints over
        the two-layer table, with steps of at most a sixtieth of a second. */
    constructor ()
      ensures Valid() && fresh(system) && fresh(journal)
      ensures maxDeltaTime == DefaultMaxDeltaTime
      ensures system.maxBodies == MaxBodies && system.numBodyMutexes == NumBodyMutexes
      ensures system.maxBodyPairs == MaxBodyPairs && system.maxContactConstraints == MaxContactConstraints
      ensures system.bodies == map[] && journal.events == []
    {
      var broadPhaseLayerInterface := new BPLayerInterface();
      system := new BodySystem.Init(MaxBodies, NumBodyMutexes, MaxBodyPairs, MaxContactConstraints,
                                    broadPhaseLayerInterface);
      maxDeltaTime := DefaultMaxDeltaTime;
      journal := new Journal();
    }

    /** Advances the simulation by the whole tick `deltaTick`, split into as many collision
        steps as it takes to keep each at most `maxDeltaTime`. */
    method Update(deltaTick: real, integrate: (real, nat, BodyId, Pose) -> Pose)
      requires Valid() && deltaTick >= 0.0
      modifies system, journal
      ensures Valid()
      ensures system.bodies == Advanced(old(system.bodies), integrate, deltaTick, StepCount(deltaTick, maxDeltaTime))
      ensures journal.events == old(journal.events) + [Stepped(deltaTick, StepCount(deltaTick, maxDeltaTime))]
    {
      var steps := StepCount(deltaTick, maxDeltaTime);
      system.Update(deltaTick, steps, integrate);
      journal.events := journal.events + [Stepped(deltaTick, steps)];
    }

    /** The new body's id, or the invalid id when the table is full. */
    method CreateBody(settings: BodyCreationSettings) returns (id: BodyId)
      requires Valid()
      modifies system, journal
      ensures Valid()
      ensures id == InvalidBodyId <==> |old(system.bodies)| == system.maxBodies
      ensures id != InvalidBodyId ==> id !in old(system.bodies) && system.bodies == old(system.bodies)[id := NewBody(settings)]
      ensures id == InvalidBodyId ==> system.bodies == old(system.bodies)
      ensures journal.events == old(journal.events) + [Created(settings, id)]
    {
      var body := system.CreateBody(settings);
      if body.Some? {
        id := body.value;
      } else {
        id := InvalidBodyId;
      }
      journal.events := journal.events + [Created(settings, id)];
    }

    /** Adds a body to the broad phase, activating it. */
    method AddBody(id: BodyId)
      requires Valid()
      modifies system, journal
      ensures Valid()
      ensures system.bodies == if id in old(system.bodies)
                               then old(system.bodies)[id := old(system.bodies)[id].(inBroadPhase := true)]
                               else old(system.bodies)
      ensures journal.events == old(journal.events) + [Added(id)]
    {
      system.AddBody(id);
      journal.events := journal.events + [Added(id)];
    }

    method RemoveBody(id: BodyId)
      requires Valid()
      modifies system, journal
      ensures Valid()
      ensures system.bodies == if id in old(system.bodies)
                               then old(system.bodies)[id := old(system.bodies)[id].(inBroadPhase := false)]
                               else old(system.bodies)
      ensures journal.events == old(journal.events) + [Removed(id)]
    {
      system.RemoveBody(id);
      journal.events := journal.events + [Removed(id)];
    }

    method DestroyBody(id: BodyId)
      requires Valid()
      modifies system, journal
      ensures Valid()
      ensures system.bodies == old(system.bodies) - {id}
      ensures journal.events == old(journal.events) + [Destroyed(id)]
    {
      system.DestroyBody(id);
      journal.events := journal.events + [Destroyed(id)];
    }

    /** Reads a body's pose into a transform, component by component. */
    method GetBodyTransform(id: BodyId) returns (trans: STransform)
      ensures trans == CurrentTransform(id)
    {
      var joltPos, joltRot := system.GetPositionAndRotation(id);
      trans := STransform(
        Vec3(joltPos.x, joltPos.y, joltPos.z),
        Rotation(Quaternion(joltRot.x, joltRot.y, joltRot.z, joltRot.w)));
    }

    /** Writes a transform into a body's pose, passing the quaternion as (x, y, w, z). */
    method SetBodyTransform(id: BodyId, trans: STransform)
      requires Valid()
      modifies system, journal
      ensures Valid()
      ensures system.bodies == if id in old(system.bodies)
                               then old(system.bodies)[id := old(system.bodies)[id].(pose := Pose(ToJoltPosition(trans), ToJoltRotation(trans)))]
                               else old(system.bodies)
      ensures journal.events == old(journal.events) + [PoseSet(id, trans)]
    {
      var joltPos := RVec3(trans.position.x, trans.position.y, trans.position.z);
      var q := trans.rotation.quaternion;
      var joltRot := Quat(q.x, q.y, q.w, q.z);
      system.SetPositionAndRotation(id, joltPos, joltRot);
      journal.events := journal.events + [PoseSet(id, trans)];
    }
  }

  /** Writing a transform to a body and reading it straight back gives the transform with
      its quaternion's z and w exchanged, not the transform itself. */
  method SetThenGetOnBody(physics: Physics, id: BodyId, trans: STransform) returns (got: STransform)
    requires physics.Valid()
    modifies physics.system, physics.journal
    ensures id in old(physics.system.bodies) ==> got == SwapZW(trans)
    ensures id in old(physics.system.bodies) ==> got.position == trans.position
  {
    physics.SetBodyTransform(id, trans);
    got := physics.GetBodyTransform(id);
    SetThenGet(trans);
  }
}
