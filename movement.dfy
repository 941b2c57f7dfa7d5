/**
 * `CmpMovement`: moving an object over the navigation mesh of its level.
 * A move spends the frame's time walking inside the current nav polygon,
 * crossing into a nav link when the walk hits one, and traversing links,
 * which may take time of their own.
 */
module Movement {
  import opened Common
  import opened NavSection
  import opened ObjectProperties

  /** The object's simulation component: where it is and how it stands. */
  class CmpSimulation {
    var position: Vec3
    var posture: string
    const boundsGroup: string

    constructor(position: Vec3, posture: string, boundsGroup: string)
      ensures this.position == position && this.posture == posture && this.boundsGroup == boundsGroup
    {
      this.position := position;
      this.posture := posture;
      this.boundsGroup := boundsGroup;
    }
  }

  /** A link traversal in progress: the link, where it started, and how far along it is (0 to 1). */
  datatype Traversal = Traversal(linkIndex: int, source: Vec3, t: real)

  /** The state of one call of `move`: the direction, the bounds index and the time left, in seconds. */
  datatype MoveState = MoveState(dir: Vec3, mapIndex: int, timeRemaining: real)

  /** What every kind of nav link provides (its virtual functions). */
  datatype LinkOps<!L> = LinkOps(destPoly: L -> int, hitTest: (L, Vec3, Vec3) -> Option<Vec3>,
                                 traversalTime: (L, real) -> real, traverse: (L, Vec3, real) -> Vec3)

  /**
   * The geometry the movement code calls on: `NavMeshUtil::find_nav_polygon`,
   * projecting a vector onto the plane of a collision polygon, normalising it
   * when it is not tiny, point-in-polygon and the distance between points.
   */
  datatype Geometry = Geometry(findNavPolygon: (Vec3, int) -> int, project: (Vec3, int) -> Vec3,
                               normalize: Vec3 -> Vec3, pointInPolygon: (Vec3, int) -> bool,
                               distance: (Vec3, Vec3) -> real)

  const DirectMoveNotImplemented := "do_direct_move is not implemented"

  /** The links a nav polygon points at and the polygons a link leads to exist. */
  ghost predicate MeshIndicesValid<L>(mesh: NavMesh<L>, ops: LinkOps<L>)
  {
    (forall i, k :: 0 <= i < |mesh.polygons| && 0 <= k < |mesh.polygons[i].outLinks| ==>
       0 <= mesh.polygons[i].outLinks[k] < |mesh.links|)
    && (forall j :: 0 <= j < |mesh.links| ==> 0 <= ops.destPoly(mesh.links[j]) < |mesh.polygons|)
  }

  /** No link takes negative time to traverse at the given speed. */
  ghost predicate TimesNonNegative<L>(mesh: NavMesh<L>, ops: LinkOps<L>, speed: real)
  {
    forall j :: 0 <= j < |mesh.links| ==> ops.traversalTime(mesh.links[j], speed) >= 0.0
  }

  /** `find_nav_polygon` yields a polygon of the mesh or -1. */
  ghost predicate FinderValid<L>(mesh: NavMesh<L>, geometry: Geometry)
  {
    forall p, i :: -1 <= geometry.findNavPolygon(p, i) < |mesh.polygons|
  }

  /** The first of the links whose hit test succeeds, with the point it returns. */
  function FirstHit<L>(mesh: NavMesh<L>, ops: LinkOps<L>, links: seq<int>, source: Vec3, dest: Vec3): (h: Option<(int, Vec3)>)
    requires forall k :: 0 <= k < |links| ==> 0 <= links[k] < |mesh.links|
    ensures h.Some? ==> h.value.0 in links && ops.hitTest(mesh.links[h.value.0], source, dest) == Some(h.value.1)
    ensures h.None? <==> forall k :: 0 <= k < |links| ==> ops.hitTest(mesh.links[links[k]], source, dest).None?
  {
    if |links| == 0 then None
    else
      var hit := ops.hitTest(mesh.links[links[0]], source, dest);
      if hit.Some? then Some((links[0], hit.value))
      else FirstHit(mesh, ops, links[1..], source, dest)
  }

  /**
   * The progress along a link after spending the time available on it:
   * t grows by (available / remainingTime) * (1 - t).
   */
  function Progressed(t: real, available: real, remainingTime: real): real
    requires remainingTime != 0.0
  {
    t + (available / remainingTime) * (1.0 - t)
  }

  /** Spending less time than the rest of the link needs moves forward, but not past its end. */
  lemma ProgressStaysBelowOne(t: real, available: real, remainingTime: real)
    requires 0.0 <= t < 1.0 && 0.0 <= available < remainingTime
    ensures t <= Progressed(t, available, remainingTime) < 1.0
  {
    var q := available / remainingTime;
    assert 0.0 <= q < 1.0 by {
      assert q * remainingTime == available;
    }
    ShareOfRest(q, t, Progressed(t, available, remainingTime));
  }

  /** Adding a share q < 1 of what is left of [t, 1] stays in [t, 1). */
  lemma ShareOfRest(q: real, t: real, p: real)
    requires 0.0 <= q < 1.0 && 0.0 <= t < 1.0 && p == t + q * (1.0 - t)
    ensures t <= p < 1.0
  {
    var x, y := 1.0 - q, 1.0 - t;
    ProductPositive(x, y);
    ProductNonNegative(q, y);
    assert x * y == 1.0 - t - q + q * t;
    assert p == t + q - q * t;
  }

  lemma ProductPositive(x: real, y: real)
    requires x > 0.0 && y > 0.0
    ensures x * y > 0.0
  {
  }

  lemma ProductNonNegative(x: real, y: real)
    requires x >= 0.0 && y > 0.0
    ensures x * y >= 0.0
  {
  }

  class CmpMovement {
    var curNavPolyIndex: int
    var curTraversal: Option<Traversal>
    /** The simulation component of the same object. */
    const simulation: CmpSimulation

    /** The current polygon and the link being traversed belong to the mesh, and progress is short of the end. */
    ghost predicate Valid<L>(mesh: NavMesh<L>)
      reads this
    {
      -1 <= curNavPolyIndex < |mesh.polygons|
      && (curTraversal.Some? ==> 0 <= curTraversal.value.linkIndex < |mesh.links| && 0.0 <= curTraversal.value.t < 1.0)
    }

    /** The constructor: no current nav polygon (-1) and no traversal. */
    constructor(simulation: CmpSimulation)
      ensures this.simulation == simulation && curNavPolyIndex == -1 && curTraversal.None?
    {
      this.simulation := simulation;
      curNavPolyIndex := -1;
      curTraversal := None;
    }

    /** `set_cur_nav_poly_index`. */
    method SetCurNavPolyIndex(index: int)
      modifies this
      ensures curNavPolyIndex == index && curTraversal == old(curTraversal)
    {
      curNavPolyIndex := index;
    }

    /**
     * `attempt_navmesh_acquisition`: the current polygon becomes the one
     * found from the object's position, starting at the last one known, and
     * the result says whether one was found.
     */
    method AttemptNavmeshAcquisition(geometry: Geometry) returns (found: bool)
      modifies this
      ensures curNavPolyIndex == geometry.findNavPolygon(simulation.position, old(curNavPolyIndex))
      ensures found <==> curNavPolyIndex != -1
      ensures curTraversal == old(curTraversal)
    {
      curNavPolyIndex := geometry.findNavPolygon(simulation.position, curNavPolyIndex);
      found := curNavPolyIndex != -1;
    }

    /**
     * `do_navmesh_move`: the direction is projected onto the current
     * polygon's plane; the object then walks from its position for the time
     * remaining, unless one of the polygon's out links is hit first. With no
     * hit and the end point inside the polygon, the object moves there and
     * all the time is spent; with no hit and the end point outside, the
     * direct move (not implemented) is reached. On a hit, the object moves to
     * the hit point, the time taken to walk there is spent and a traversal of
     * the link starts at t = 0.
     */
    method DoNavmeshMove<L>(move: MoveState, speed: real, geometry: Geometry, mesh: NavMesh<L>, ops: LinkOps<L>)
      returns (move': MoveState, r: Result<()>)
      requires speed != 0.0 && MeshIndicesValid(mesh, ops) && Valid(mesh) && curNavPolyIndex != -1
      modifies this, simulation
      ensures Valid(mesh)
      ensures var poly := mesh.polygons[old(curNavPolyIndex)];
        var dir := geometry.normalize(geometry.project(move.dir, poly.colIndex));
        var source := old(simulation.position);
        var dest := Add(source, Scale(Scale(dir, speed), move.timeRemaining));
        var hit := FirstHit(mesh, ops, poly.outLinks, source, dest);
        move'.dir == dir && move'.mapIndex == move.mapIndex && curNavPolyIndex == old(curNavPolyIndex)
        && (hit.None? && geometry.pointInPolygon(dest, poly.colIndex) ==>
              (r.Ok? && simulation.position == dest && move'.timeRemaining == 0.0 && curTraversal == old(curTraversal)))
        && (hit.None? && !geometry.pointInPolygon(dest, poly.colIndex) ==> r == Err(DirectMoveNotImplemented))
        && (hit.Some? ==> (r.Ok? && simulation.position == hit.value.1
              && move'.timeRemaining == move.timeRemaining - geometry.distance(source, hit.value.1) / speed
              && curTraversal == Some(Traversal(hit.value.0, hit.value.1, 0.0))))
    {
      var poly := mesh.polygons[curNavPolyIndex];
      var dir := geometry.normalize(geometry.project(move.dir, poly.colIndex));
      move' := move.(dir := dir);
      var source := simulation.position;
      var dest := Add(source, Scale(Scale(dir, speed), move.timeRemaining));
      ghost var links := poly.outLinks;
      var hit: Option<Vec3> := None;
      var hitNavlink := -1;
      var i := 0;
      while i < |poly.outLinks|
        invariant 0 <= i <= |links|
        invariant FirstHit(mesh, ops, links, source, dest) == FirstHit(mesh, ops, links[i..], source, dest)
      {
        var link := mesh.links[poly.outLinks[i]];
        hit := ops.hitTest(link, source, dest);
        if hit.Some? {
          hitNavlink := poly.outLinks[i];
          break;
        }
        assert links[i..][1..] == links[i + 1..];
        i := i + 1;
      }
      if hitNavlink == -1 {
        if geometry.pointInPolygon(dest, poly.colIndex) {
          simulation.position := dest;
          move' := move'.(timeRemaining := 0.0);
          r := Ok(());
        } else {
          r := Err(DirectMoveNotImplemented);
        }
        return;
      }
      simulation.position := hit.value;
      var moveLength := geometry.distance(source, hit.value);
      var timeTaken := moveLength / speed;
      move' := move'.(timeRemaining := move'.timeRemaining - timeTaken);
      curTraversal := Some(Traversal(hitNavlink, hit.value, 0.0));
      r := Ok(());
    }

    /**
     * `do_traverse_move`: nothing without a traversal. Otherwise, when the
     * rest of the link can be traversed in the time remaining, the object
     * ends up on the link's destination polygon at the link's exit point
     * (nudged slightly along the projected direction when that stays in the
     * polygon), the traversal ends and its time is spent. When it cannot, it
     * gets as far along the link as the time allows and all the time is
     * spent.
     */
    method DoTraverseMove<L>(move: MoveState, speed: real, geometry: Geometry, mesh: NavMesh<L>, ops: LinkOps<L>) returns (move': MoveState)
      requires move.timeRemaining >= 0.0 && MeshIndicesValid(mesh, ops) && TimesNonNegative(mesh, ops, speed) && Valid(mesh)
      modifies this, simulation
      ensures Valid(mesh)
      ensures move'.dir == move.dir && move'.mapIndex == move.mapIndex
      ensures old(curTraversal).None? ==>
        move' == move && curTraversal.None? && curNavPolyIndex == old(curNavPolyIndex) && simulation.position == old(simulation.position)
      ensures old(curTraversal).Some? ==>
        var tr := old(curTraversal).value;
        var link := mesh.links[tr.linkIndex];
        var remainingTime := (1.0 - tr.t) * ops.traversalTime(link, speed);
        if remainingTime <= move.timeRemaining then
          var exit := ops.traverse(link, tr.source, 1.0);
          var col := mesh.polygons[ops.destPoly(link)].colIndex;
          var nudged := Add(exit, Scale(geometry.project(move.dir, col), 0.001));
          curNavPolyIndex == ops.destPoly(link) && curTraversal.None?
          && move'.timeRemaining == move.timeRemaining - remainingTime
          && simulation.position == (if geometry.pointInPolygon(nudged, col) then nudged else exit)
        else
          var t' := Progressed(tr.t, move.timeRemaining, remainingTime);
          curTraversal == Some(Traversal(tr.linkIndex, tr.source, t')) && tr.t <= t' < 1.0
          && curNavPolyIndex == old(curNavPolyIndex) && move'.timeRemaining == 0.0
          && simulation.position == ops.traverse(link, tr.source, t')
    {
      move' := move;
      var traversal := curTraversal;
      if traversal.None? {
        return;
      }
      var link := mesh.links[traversal.value.linkIndex];
      var remaining := 1.0 - traversal.value.t;
      var remainingTraversalTime := remaining * ops.traversalTime(link, speed);
      var availableTraversalTime := if remainingTraversalTime <= move.timeRemaining then remainingTraversalTime else move.timeRemaining;
      if availableTraversalTime >= remainingTraversalTime {
        curNavPolyIndex := ops.destPoly(link);
        curTraversal := None;
        var dest := ops.traverse(link, traversal.value.source, 1.0);
        simulation.position := dest;
        move' := move'.(timeRemaining := move'.timeRemaining - remainingTraversalTime);
        var destColPolyIndex := mesh.polygons[ops.destPoly(link)].colIndex;
        var destDir := geometry.project(move.dir, destColPolyIndex);
        dest := Add(dest, Scale(destDir, 0.001));
        if geometry.pointInPolygon(dest, destColPolyIndex) {
          simulation.position := dest;
        }
      } else {
        ProgressStaysBelowOne(traversal.value.t, availableTraversalTime, remainingTraversalTime);
        var deltaT := (availableTraversalTime / remainingTraversalTime) * remaining;
        assert traversal.value.t + deltaT == Progressed(traversal.value.t, move.timeRemaining, remainingTraversalTime);
        var newTraversal := Traversal(traversal.value.linkIndex, traversal.value.source, traversal.value.t + deltaT);
        curTraversal := Some(newTraversal);
        var dest := ops.traverse(link, newTraversal.source, newTraversal.t);
        simulation.position := dest;
        move' := move'.(timeRemaining := 0.0);
      }
    }

    /**
     * `move`: repeated passes, each traversing the current link if there is
     * one and, while time remains, walking on the nav mesh; the passes stop
     * once no time remains or a pass spends no more than 0.0001 s. Reaching a
     * point where the object is off the nav mesh, or walks out of its
     * polygon, needs the direct move, which is not implemented.
     */
    method Move<L>(dir: Vec3, speed: real, milliseconds: int, geometry: Geometry, boundsIndex: (string, string) -> int,
                   navMeshes: seq<NavMesh<L>>, ops: LinkOps<L>)
      returns (r: Result<()>, final: MoveState, lastPass: real)
      requires speed != 0.0 && milliseconds >= 0
      requires 0 <= boundsIndex(simulation.boundsGroup, simulation.posture) < |navMeshes|
      requires var mesh := navMeshes[boundsIndex(simulation.boundsGroup, simulation.posture)];
        MeshIndicesValid(mesh, ops) && TimesNonNegative(mesh, ops, speed) && FinderValid(mesh, geometry) && Valid(mesh)
      modifies this, simulation
      ensures Valid(navMeshes[old(boundsIndex(simulation.boundsGroup, simulation.posture))])
      ensures final.mapIndex == old(boundsIndex(simulation.boundsGroup, simulation.posture))
      ensures r.Err? ==> r.error == DirectMoveNotImplemented
      ensures r.Ok? ==> final.timeRemaining <= 0.0 || lastPass <= 0.0001
    {
      var mapIndex := boundsIndex(simulation.boundsGroup, simulation.posture);
      var move := MoveState(dir, mapIndex, milliseconds as real / 1000.0);
      var mesh := navMeshes[mapIndex];
      lastPass := 0.0;
      while true
        invariant move.timeRemaining >= 0.0 && move.mapIndex == mapIndex && Valid(mesh)
        decreases (move.timeRemaining * 10000.0).Floor
      {
        var oldTimeRemaining := move.timeRemaining;
        if curTraversal.Some? {
          move := DoTraverseMove(move, speed, geometry, mesh, ops);
        }
        if move.timeRemaining == 0.0 {
          lastPass := oldTimeRemaining - move.timeRemaining;
          break;
        }
        var found := AttemptNavmeshAcquisition(geometry);
        if !found {
          return Err(DirectMoveNotImplemented), move, lastPass;
        }
        var err: Result<()>;
        move, err := DoNavmeshMove(move, speed, geometry, mesh, ops);
        if err.Err? {
          return err, move, lastPass;
        }
        lastPass := oldTimeRemaining - move.timeRemaining;
        if !(move.timeRemaining > 0.0 && lastPass > 0.0001) {
          break;
        }
        PassShrinksBudget(oldTimeRemaining, move.timeRemaining);
      }
      r, final := Ok(()), move;
    }
  }

  /** A pass that spends more than 0.0001 s lowers the time left, counted in 0.0001 s steps. */
  lemma PassShrinksBudget(before: real, after: real)
    requires after > 0.0 && before - after > 0.0001
    ensures 0 <= (after * 10000.0).Floor < (before * 10000.0).Floor
  {
    assert after * 10000.0 + 1.0 < before * 10000.0;
  }

  /** `CmpMovement::save`: no properties. */
  function SaveMovement(): (props: Properties)
    ensures props == map[]
  {
    map[]
  }
}
