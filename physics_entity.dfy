/** An entity backed by a physics body: it creates and adds its body when it spawns, removes
    and destroys it when it is destroyed, and copies the body's pose into its own transform
    every tick. Each handler first runs the base entity's handler. */
module PhysicsEntity {
  import opened TransformBridge
  import opened BodyInterface
  import opened Physics

  /** The entity's transform, an object shared with whoever renders the entity. */
  class SharedTransform {
    var position: Vec3
    var rotation: Rotation

    constructor (initial: STransform)
      ensures position == initial.position && rotation == initial.rotation
    {
      position := initial.position;
      rotation := initial.rotation;
    }
  }

  class PhysicsEntity {
    var joltBody: BodyId
    const transform: SharedTransform
    /** The world's physics object the entity talks to. */
    const physics: Physics

    ghost predicate Valid()
      reads this, physics, physics.system, physics.system.broadPhaseLayerInterface,
            physics.system.broadPhaseLayerInterface.objectToBroadPhase
    {
      physics.Valid()
    }

    /** A new entity holds no body yet: its id is the default, invalid one. */
    constructor (physics: Physics, initial: STransform)
      requires physics.Valid()
      ensures Valid() && this.physics == physics && fresh(transform)
      ensures joltBody == InvalidBodyId
      ensures transform.position == initial.position && transform.rotation == initial.rotation
    {
      joltBody := InvalidBodyId;
      transform := new SharedTransform(initial);
      this.physics := physics;
    }

    /** Runs the base handler, creates a body with default settings, keeps its id and adds
        that id to the broad phase, whether or not creation succeeded. */
    method OnSpawn()
      requires Valid()
      modifies this, physics.system, physics.journal
      ensures Valid()
      ensures physics.journal.events == old(physics.journal.events)
        + [BaseHook(Spawn), Created(DefaultSettings, joltBody), Added(joltBody)]
      ensures joltBody == InvalidBodyId <==> |old(physics.system.bodies)| == physics.system.maxBodies
      ensures joltBody != InvalidBodyId ==>
        && joltBody !in old(physics.system.bodies)
        && physics.system.bodies == old(physics.system.bodies)[joltBody := NewBody(DefaultSettings).(inBroadPhase := true)]
      ensures joltBody == InvalidBodyId ==> physics.system.bodies == old(physics.system.bodies)
    {
      physics.journal.events := physics.journal.events + [BaseHook(Spawn)];
      joltBody := physics.CreateBody(DefaultSettings);
      physics.AddBody(joltBody);
    }

    /** Runs the base handler, then removes the body from the broad phase and destroys it.
        The entity keeps the now stale id. */
    method OnDestroy()
      requires Valid()
      modifies physics.system, physics.journal
      ensures Valid()
      ensures joltBody == old(joltBody)
      ensures physics.journal.events == old(physics.journal.events)
        + [BaseHook(Destroy), Removed(joltBody), Destroyed(joltBody)]
      ensures physics.system.bodies == old(physics.system.bodies) - {joltBody}
    {
      physics.journal.events := physics.journal.events + [BaseHook(Destroy)];
      physics.RemoveBody(joltBody);
      physics.DestroyBody(joltBody);
    }

    /** Only the base handler runs. */
    method OnFrame()
      requires Valid()
      modifies physics.journal
      ensures physics.journal.events == old(physics.journal.events) + [BaseHook(Frame)]
    {
      physics.journal.events := physics.journal.events + [BaseHook(Frame)];
    }

    /** Runs the base handler, then overwrites the transform's position and rotation with the
        body's current pose; the body and the entity's id are left alone. */
    method OnTick()
      requires Valid()
      modifies transform, physics.journal
      ensures joltBody == old(joltBody)
      ensures transform.position == old(physics.CurrentTransform(joltBody)).position
      ensures transform.rotation == old(physics.CurrentTransform(joltBody)).rotation
      ensures physics.journal.events == old(physics.journal.events) + [BaseHook(Tick)]
    {
      physics.journal.events := physics.journal.events + [BaseHook(Tick)];
      var trans := physics.GetBodyTransform(joltBody);
      transform.position := trans.position;
      transform.rotation := trans.rotation;
    }
  }

  /** The events of one spawn followed by one destroy of an entity whose body is `id`. */
  function SpawnDestroyEvents(id: BodyId): seq<Event> {
    [BaseHook(Spawn), Created(DefaultSettings, id), Added(id), BaseHook(Destroy), Removed(id), Destroyed(id)]
  }

  /** Of those events, the ones naming the body are create, add, remove and destroy, in that
      order, whatever came before. */
  lemma SpawnDestroyCallsOn(before: seq<Event>, id: BodyId)
    ensures CallsOn(before + SpawnDestroyEvents(id), id)
         == CallsOn(before, id) + [Created(DefaultSettings, id), Added(id), Removed(id), Destroyed(id)]
  {
    var added := SpawnDestroyEvents(id);
    CallsOnAppend(before, added, id);
    assert CallsOn(added[5..], id) == [Destroyed(id)];
    assert CallsOn(added[4..], id) == [Removed(id), Destroyed(id)];
    assert CallsOn(added[3..], id) == [Removed(id), Destroyed(id)];
    assert CallsOn(added[2..], id) == [Added(id), Removed(id), Destroyed(id)];
    assert CallsOn(added[1..], id) == [Created(DefaultSettings, id), Added(id), Removed(id), Destroyed(id)];
  }

  /** Putting a body under a fresh id and then dropping that id gives the table back. */
  lemma InsertThenRemove(bodies: map<BodyId, Body>, id: BodyId, body: Body)
    requires id !in bodies
    ensures bodies[id := body] - {id} == bodies
  {
  }

  /** Spawning an entity and then destroying it makes exactly four calls naming its body:
      create, add, remove, destroy, each on the one id it was given; and the body table is
      left as it was. */
  method SpawnThenDestroy(entity: PhysicsEntity) returns (id: BodyId)
    requires entity.Valid()
    modifies entity, entity.physics.system, entity.physics.journal
    ensures id == entity.joltBody
    ensures entity.physics.journal.events == old(entity.physics.journal.events) + SpawnDestroyEvents(id)
    ensures CallsOn(entity.physics.journal.events, id)
         == CallsOn(old(entity.physics.journal.events), id)
          + [Created(DefaultSettings, id), Added(id), Removed(id), Destroyed(id)]
    ensures entity.physics.system.bodies == old(entity.physics.system.bodies)
  {
    ghost var before := entity.physics.journal.events;
    ghost var bodies := entity.physics.system.bodies;
    entity.OnSpawn();
    id := entity.joltBody;
    entity.OnDestroy();
    SpawnDestroyCallsOn(before, id);
    if id != InvalidBodyId {
      InsertThenRemove(bodies, id, NewBody(DefaultSettings).(inBroadPhase := true));
    }
  }
}
