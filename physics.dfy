/**
 * The rigid-body state of the physics system (`PhysicsObject`) and a
 * contact between one object and another object or the world (`Contact`).
 */
module Physics {
  import opened Common

  /** A physics material, standing for the enumerator the material header declares. */
  type PhysicsMaterial = nat

  class PhysicsObject {
    var accumulatedForce: Vec3
    var id: int
    const inverseMass: real
    const material: PhysicsMaterial
    var position: Vec3
    var previousPosition: Option<Vec3>
    var sleeping: bool
    var velocity: Vec3
    /** The forces applied since the accumulated force was last cleared, in order. */
    ghost var appliedForces: seq<Vec3>

    /** The accumulated force is the sum of the forces applied since it was last cleared. */
    ghost predicate Valid()
      reads this
    {
      accumulatedForce == Sum(appliedForces)
    }

    /**
     * The constructor: no id yet (-1), awake, no force accumulated and no
     * previous position.
     */
    constructor(inverseMass: real, material: PhysicsMaterial, position: Vec3, velocity: Vec3)
      ensures this.inverseMass == inverseMass && this.material == material
      ensures this.position == position && this.velocity == velocity
      ensures id == -1 && !sleeping && accumulatedForce == Zero3 && previousPosition.None?
      ensures appliedForces == [] && Valid()
    {
      this.inverseMass := inverseMass;
      this.material := material;
      this.position := position;
      this.velocity := velocity;
      id := -1;
      sleeping := false;
      accumulatedForce := Zero3;
      previousPosition := None;
      appliedForces := [];
    }

    /** `apply_force`: the force is added to the accumulated force, so a run of calls accumulates their sum. */
    method ApplyForce(force: Vec3)
      modifies this
      ensures accumulatedForce == Add(old(accumulatedForce), force)
      ensures appliedForces == old(appliedForces) + [force]
      ensures old(Valid()) ==> Valid()
      ensures id == old(id) && position == old(position) && previousPosition == old(previousPosition)
      ensures sleeping == old(sleeping) && velocity == old(velocity)
    {
      accumulatedForce := Add(accumulatedForce, force);
      appliedForces := appliedForces + [force];
      assert appliedForces[..|appliedForces| - 1] == old(appliedForces);
    }

    /** `cache_previous_position`: the previous position becomes the current one. */
    method CachePreviousPosition()
      modifies this
      ensures previousPosition == Some(position)
      ensures accumulatedForce == old(accumulatedForce) && appliedForces == old(appliedForces) && id == old(id)
      ensures position == old(position) && sleeping == old(sleeping) && velocity == old(velocity)
    {
      previousPosition := Some(position);
    }

    /** `clear_accumulated_force`: back to no force. */
    method ClearAccumulatedForce()
      modifies this
      ensures accumulatedForce == Zero3 && appliedForces == [] && Valid()
      ensures id == old(id) && position == old(position) && previousPosition == old(previousPosition)
      ensures sleeping == old(sleeping) && velocity == old(velocity)
    {
      accumulatedForce := Zero3;
      appliedForces := [];
    }

    /** `set_position`: only the position changes. */
    method SetPosition(position: Vec3)
      modifies this
      ensures this.position == position
      ensures accumulatedForce == old(accumulatedForce) && appliedForces == old(appliedForces) && id == old(id)
      ensures previousPosition == old(previousPosition) && sleeping == old(sleeping) && velocity == old(velocity)
    {
      this.position := position;
    }

    /** `set_sleeping`: only the sleeping flag changes. */
    method SetSleeping(sleeping: bool)
      modifies this
      ensures this.sleeping == sleeping
      ensures accumulatedForce == old(accumulatedForce) && appliedForces == old(appliedForces) && id == old(id)
      ensures position == old(position) && previousPosition == old(previousPosition) && velocity == old(velocity)
    {
      this.sleeping := sleeping;
    }

    /** `set_velocity`: only the velocity changes. */
    method SetVelocity(velocity: Vec3)
      modifies this
      ensures this.velocity == velocity
      ensures accumulatedForce == old(accumulatedForce) && appliedForces == old(appliedForces) && id == old(id)
      ensures position == old(position) && previousPosition == old(previousPosition) && sleeping == old(sleeping)
    {
      this.velocity := velocity;
    }

    /** `set_id`: only the id changes. */
    method SetId(id: int)
      modifies this
      ensures this.id == id
      ensures accumulatedForce == old(accumulatedForce) && appliedForces == old(appliedForces)
      ensures position == old(position) && previousPosition == old(previousPosition)
      ensures sleeping == old(sleeping) && velocity == old(velocity)
    {
      this.id := id;
    }
  }

  /** Adding one more vector to a sum. */
  lemma SumSnoc(vs: seq<Vec3>, v: Vec3)
    ensures Sum(vs + [v]) == Add(Sum(vs), v)
  {
    assert (vs + [v])[..|vs|] == vs;
  }

  /** The sum of two runs of forces is the sum of their sums. */
  lemma {:induction false} SumAppend(a: seq<Vec3>, b: seq<Vec3>)
    ensures Sum(a + b) == Add(Sum(a), Sum(b))
    decreases |b|
  {
    if |b| == 0 {
      assert a + b == a;
    } else {
      var c := b[..|b| - 1];
      var v := b[|b| - 1];
      assert a + b == (a + c) + [v];
      assert b == c + [v];
      SumSnoc(a + c, v);
      SumSnoc(c, v);
      SumAppend(a, c);
    }
  }

  //#################### CONTACT ####################

  /**
   * A contact: the contact points relative to the two objects' positions,
   * the normal, the time within the frame, the first object and the second
   * one, which is absent for a contact with the world.
   */
  datatype Contact = Contact(relativePointA: Vec3, relativePointB: Vec3, normal: Vec3, time: real,
                             objectA: PhysicsObject, objectB: Option<PhysicsObject>)

  /** The objects whose positions the contact's points depend on. */
  function Objects(c: Contact): set<object>
  {
    if c.objectB.Some? then {c.objectA, c.objectB.value} else {c.objectA}
  }

  /** The position the second point is relative to: the second object's, or the origin for the world. */
  function PositionB(c: Contact): Vec3
    reads Objects(c)
  {
    if c.objectB.Some? then c.objectB.value.position else Zero3
  }

  /** The penetration depth for the objects at posA and posB: (pointB - pointA) . normal. */
  function DepthAt(c: Contact, posA: Vec3, posB: Vec3): real
  {
    Dot(Sub(Add(c.relativePointB, posB), Add(c.relativePointA, posA)), c.normal)
  }

  /** `pointA`: the first object's position offset by the relative point, so subtracting the position gives it back. */
  function PointA(c: Contact): (p: Vec3)
    reads c.objectA
    ensures Sub(p, c.objectA.position) == c.relativePointA
  {
    Add(c.relativePointA, c.objectA.position)
  }

  /** `pointB`: the same for the second object, and the relative point itself for a contact with the world. */
  function PointB(c: Contact): (p: Vec3)
    reads Objects(c)
    ensures Sub(p, PositionB(c)) == c.relativePointB
    ensures c.objectB.None? ==> p == c.relativePointB
  {
    if c.objectB.Some? then Add(c.relativePointB, c.objectB.value.position) else c.relativePointB
  }

  /** `penetration_depth`: (pointB - pointA) . normal, the depth at the objects' current positions. */
  function PenetrationDepth(c: Contact): (d: real)
    reads Objects(c)
    ensures d == DepthAt(c, c.objectA.position, PositionB(c))
  {
    Dot(Sub(PointB(c), PointA(c)), c.normal)
  }

  /** Moving both objects by the same vector leaves the penetration depth unchanged. */
  lemma DepthTranslationInvariant(c: Contact, posA: Vec3, posB: Vec3, t: Vec3)
    ensures DepthAt(c, Add(posA, t), Add(posB, t)) == DepthAt(c, posA, posB)
  {
  }

  /** Moving only the first object by t changes the depth by -t . normal. */
  lemma DepthOfMovingA(c: Contact, posA: Vec3, posB: Vec3, t: Vec3)
    ensures DepthAt(c, Add(posA, t), posB) == DepthAt(c, posA, posB) - Dot(t, c.normal)
  {
  }
}
