/**
 * `CmdBipedChangePosture`: the command that makes a biped crouch when it
 * is standing and stand otherwise, raising or lowering its centre so that
 * its feet stay put, unless that would put it in a wall.
 */
module Posture {
  import opened Common
  import opened Movement

  const Stand := "stand"
  const Crouch := "crouch"

  /** The posture after the change: crouching from standing, standing from anything else. */
  function NewPosture(cur: string): (p: string)
    ensures p == Crouch <==> cur == Stand
    ensures p == Crouch || p == Stand
  {
    if cur == Stand then Crouch else Stand
  }

  /** Changing posture twice from either known posture comes back to it. */
  lemma NewPostureTwice(cur: string)
    requires cur == Stand || cur == Crouch
    ensures NewPosture(NewPosture(cur)) == cur
  {
  }

  /** The centre after the change: the height difference of the two bounds halved, along z only. */
  function PostureTarget(source: Vec3, curHeight: real, newHeight: real): (dest: Vec3)
    ensures dest.x == source.x && dest.y == source.y
    ensures dest.z - newHeight / 2.0 == source.z - curHeight / 2.0
  {
    Add(source, Vec3(0.0, 0.0, (newHeight - curHeight) / 2.0))
  }

  /** Changing back with the heights swapped returns to the starting centre. */
  lemma PostureTargetBack(source: Vec3, curHeight: real, newHeight: real)
    ensures PostureTarget(PostureTarget(source, curHeight, newHeight), newHeight, curHeight) == source
  {
  }

  /**
   * The bounds manager's lookups and the tree's solidity test, which this
   * model takes as given: the bounds index for a bounds group and posture,
   * the height of those bounds, and whether the leaf containing a point is
   * solid for a bounds index.
   */
  datatype World = World(boundsIndex: (string, string) -> int, height: int -> real, solidAt: (Vec3, int) -> bool)

  /**
   * `execute`: nothing happens during a link traversal, or when the biped's
   * new centre would be in solid space for the new bounds; otherwise the
   * posture toggles, the centre moves by half the height difference along z
   * and the current nav polygon is forgotten (-1).
   */
  method Execute(movement: CmpMovement, world: World)
    modifies movement, movement.simulation
    ensures var sim := movement.simulation;
      var newPosture := NewPosture(old(sim.posture));
      var newIndex := world.boundsIndex(sim.boundsGroup, newPosture);
      var dest := PostureTarget(old(sim.position), world.height(world.boundsIndex(sim.boundsGroup, old(sim.posture))),
                                world.height(newIndex));
      if old(movement.curTraversal).Some? || world.solidAt(dest, newIndex) then
        sim.posture == old(sim.posture) && sim.position == old(sim.position)
        && movement.curNavPolyIndex == old(movement.curNavPolyIndex)
      else
        sim.posture == newPosture && sim.position == dest && movement.curNavPolyIndex == -1
    ensures movement.curTraversal == old(movement.curTraversal)
  {
    var sim := movement.simulation;
    if movement.curTraversal.Some? {
      return;
    }
    var source := sim.position;
    var curPosture := sim.posture;
    var newPosture := if curPosture == Stand then Crouch else Stand;
    var curMapIndex := world.boundsIndex(sim.boundsGroup, curPosture);
    var newMapIndex := world.boundsIndex(sim.boundsGroup, newPosture);
    var deltaZ := (world.height(newMapIndex) - world.height(curMapIndex)) / 2.0;
    var dest := Add(source, Vec3(0.0, 0.0, deltaZ));
    if world.solidAt(dest, newMapIndex) {
      return;
    }
    sim.posture := newPosture;
    sim.position := dest;
    movement.SetCurNavPolyIndex(-1);
  }
}
