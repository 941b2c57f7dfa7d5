/**
 * `AbsorbProjectileContactResolver`: when a projectile touches another
 * object, the projectile is destroyed unless the other object fired it;
 * when an object touches the world, it is destroyed.
 */
module ContactResolver {
  import opened Common
  import opened ObjectProperties
  import opened Physics

  const InappropriateResolver := "Inappropriate contact resolver: Neither of the objects involved in the contact had the specified projectile type"

  /** The part of the object manager the resolver uses: its queue of objects to destroy. */
  class ObjectManager {
    var destructionQueue: seq<ObjectID>

    constructor()
      ensures destructionQueue == []
    {
      destructionQueue := [];
    }

    /** `queue_for_destruction`: the object joins the end of the queue. */
    method QueueForDestruction(id: ObjectID)
      modifies this
      ensures destructionQueue == old(destructionQueue) + [id]
    {
      destructionQueue := destructionQueue + [id];
    }
  }

  /**
   * Which object is the projectile, and which the other one: the first
   * object when its material is the projectile material (whatever the
   * second's), otherwise the second when its material is; an error when
   * neither is.
   */
  function SelectProjectile(projectileMaterial: PhysicsMaterial, materialA: PhysicsMaterial, ownerA: ObjectID,
                            materialB: PhysicsMaterial, ownerB: ObjectID): (r: Result<(ObjectID, ObjectID)>)
    ensures r.Err? <==> materialA != projectileMaterial && materialB != projectileMaterial
    ensures r.Err? ==> r.error == InappropriateResolver
    ensures r.Ok? && materialA == projectileMaterial ==> r.value == (ownerA, ownerB)
    ensures r.Ok? && materialA != projectileMaterial ==> r.value == (ownerB, ownerA)
  {
    if materialA == projectileMaterial then Ok((ownerA, ownerB))
    else if materialB == projectileMaterial then Ok((ownerB, ownerA))
    else Err(InappropriateResolver)
  }

  /**
   * Whether the projectile is destroyed: it must have a projectile
   * component (firer is its firer, None without one), and the firer must be
   * invalid or differ from the other object.
   */
  function Destroys(firer: Option<ObjectID>, other: ObjectID): (b: bool)
    ensures b ==> firer.Some?
    ensures firer.Some? && firer.value.IsValid() && firer.value == other ==> !b
    ensures firer.Some? && (!firer.value.IsValid() || firer.value != other) ==> b
  {
    match firer
    case None => false
    case Some(f) => !f.IsValid() || f != other
  }

  /** What an object-object contact queues: the projectile or nothing, or the error. */
  function AbsorbedBy(projectileMaterial: PhysicsMaterial, materialA: PhysicsMaterial, ownerA: ObjectID,
                      materialB: PhysicsMaterial, ownerB: ObjectID, firerOf: ObjectID -> Option<ObjectID>): (r: Result<seq<ObjectID>>)
    ensures r.Err? <==> SelectProjectile(projectileMaterial, materialA, ownerA, materialB, ownerB).Err?
    ensures r.Ok? ==> |r.value| <= 1
  {
    var (projectile, other) :- SelectProjectile(projectileMaterial, materialA, ownerA, materialB, ownerB);
    if Destroys(firerOf(projectile), other) then Ok([projectile]) else Ok([])
  }

  /** Only the projectile is ever queued: the object whose material matched, the first one first. */
  lemma OnlyProjectileQueued(projectileMaterial: PhysicsMaterial, materialA: PhysicsMaterial, ownerA: ObjectID,
                             materialB: PhysicsMaterial, ownerB: ObjectID, firerOf: ObjectID -> Option<ObjectID>)
    ensures var r := AbsorbedBy(projectileMaterial, materialA, ownerA, materialB, ownerB, firerOf);
      r.Ok? && |r.value| == 1 ==> r.value[0] == if materialA == projectileMaterial then ownerA else ownerB
  {
  }

  /** A projectile that hits the object that fired it is never destroyed. */
  lemma FirerKeepsProjectile(projectileMaterial: PhysicsMaterial, materialA: PhysicsMaterial, ownerA: ObjectID,
                             materialB: PhysicsMaterial, ownerB: ObjectID, firerOf: ObjectID -> Option<ObjectID>)
    requires materialA == projectileMaterial
    requires firerOf(ownerA) == Some(ownerB) && ownerB.IsValid()
    ensures AbsorbedBy(projectileMaterial, materialA, ownerA, materialB, ownerB, firerOf) == Ok([])
  {
  }

  /** When only one object is a projectile, the order of the two objects does not matter. */
  lemma AbsorbedSymmetric(projectileMaterial: PhysicsMaterial, materialA: PhysicsMaterial, ownerA: ObjectID,
                          materialB: PhysicsMaterial, ownerB: ObjectID, firerOf: ObjectID -> Option<ObjectID>)
    requires (materialA == projectileMaterial) != (materialB == projectileMaterial)
    ensures AbsorbedBy(projectileMaterial, materialA, ownerA, materialB, ownerB, firerOf)
         == AbsorbedBy(projectileMaterial, materialB, ownerB, materialA, ownerA, firerOf)
  {
  }

  /**
   * The resolver. The owner of each physics object and the firer recorded by
   * each object's projectile component are what the object manager would
   * report; they are parameters.
   */
  class AbsorbProjectileContactResolver {
    const objectManager: ObjectManager
    const projectileMaterial: PhysicsMaterial

    constructor(objectManager: ObjectManager, projectileMaterial: PhysicsMaterial)
      ensures this.objectManager == objectManager && this.projectileMaterial == projectileMaterial
    {
      this.objectManager := objectManager;
      this.projectileMaterial := projectileMaterial;
    }

    /**
     * `resolve_object_object`: an object-object contact (the second object is
     * present) queues the projectile for destruction when it should go, and
     * queues nothing when neither object is a projectile, which is an error.
     */
    method ResolveObjectObject(contact: Contact, ownerOf: PhysicsObject -> ObjectID,
                               firerOf: ObjectID -> Option<ObjectID>) returns (r: Result<()>)
      requires contact.objectB.Some?
      modifies objectManager
      ensures var absorbed := AbsorbedBy(projectileMaterial, contact.objectA.material, ownerOf(contact.objectA),
                                        contact.objectB.value.material, ownerOf(contact.objectB.value), firerOf);
        (r.Ok? <==> absorbed.Ok?)
        && (r.Err? ==> r.error == InappropriateResolver)
        && objectManager.destructionQueue == old(objectManager.destructionQueue) + (if absorbed.Ok? then absorbed.value else [])
    {
      var a, b := contact.objectA, contact.objectB.value;
      var projectile, other;
      if a.material == projectileMaterial {
        projectile, other := ownerOf(a), ownerOf(b);
      } else if b.material == projectileMaterial {
        projectile, other := ownerOf(b), ownerOf(a);
      } else {
        return Err(InappropriateResolver);
      }
      var firer := firerOf(projectile);
      if firer.Some? && (!firer.value.IsValid() || firer.value != other) {
        objectManager.QueueForDestruction(projectile);
      }
      r := Ok(());
    }

    /** `resolve_object_world`: an object touching the world is always queued for destruction. */
    method ResolveObjectWorld(contact: Contact, ownerOf: PhysicsObject -> ObjectID)
      modifies objectManager
      ensures objectManager.destructionQueue == old(objectManager.destructionQueue) + [ownerOf(contact.objectA)]
    {
      objectManager.QueueForDestruction(ownerOf(contact.objectA));
    }
  }
}
