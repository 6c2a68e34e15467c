/** `engine.world`: the world the physics engine owns and the game adds
    fruits to and removes them from. Only its set of bodies and the engine's
    body-id counter are modelled. */
module Engine {
  import opened Bodies
  import opened Merge

  class World {
    var bodies: map<nat, Body>
    var nextId: nat

    function State(): WorldState
      reads this
    {
      WorldState(bodies, nextId)
    }

    ghost predicate Valid()
      reads this
    {
      WellFormed(State())
    }

    constructor ()
      ensures Valid() && bodies == map[] && nextId == 0
    {
      bodies, nextId := map[], 0;
    }

    /** `Common.nextId()`: the id a newly created body receives. */
    method NewId() returns (id: nat)
      requires Valid()
      modifies this
      ensures Valid()
      ensures id == old(nextId) && nextId == old(nextId) + 1 && bodies == old(bodies)
    {
      id := nextId;
      nextId := nextId + 1;
    }

    /** `World.remove(world, [a, b])`: bodies are matched by id; one that
        is no longer in the world is ignored. */
    method Remove(a: Body, b: Body)
      requires Valid()
      modifies this
      ensures Valid()
      ensures bodies == old(bodies) - {a.id, b.id} && nextId == old(nextId)
    {
      bodies := bodies - {a.id, b.id};
    }

    /** `World.add(world, n)` */
    method Add(n: Body)
      requires Valid() && n.id < nextId && WellTagged(n)
      modifies this
      ensures Valid()
      ensures bodies == old(bodies)[n.id := n] && nextId == old(nextId)
    {
      bodies := bodies[n.id := n];
    }
  }
}
