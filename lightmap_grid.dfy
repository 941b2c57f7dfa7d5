/**
 * `LightmapGrid`: the grid of sample points a polygon's lightmap is built
 * on. The polygon is projected onto the axis plane most nearly parallel to
 * it, a 2D box is put around the projected vertices, the box is cut into
 * lumels (8 to 64 per side, no larger than 0.5 where that many suffice),
 * and each vertex gets lightmap coordinates relative to the box.
 */
module LightmapGrid {
  import opened Common

  //#################### AXIS PLANES ####################

  datatype AxisPlane = YzPlane | XzPlane | XyPlane

  function Abs(r: real): real { if r < 0.0 then -r else r }

  /**
   * `find_best_axis_plane`: the plane perpendicular to the largest
   * component of the normal, by magnitude. The comparisons are strict, so
   * ties go to YZ, then XZ.
   */
  function BestAxisPlane(n: Vec3): (a: AxisPlane)
    ensures a == YzPlane <==> Abs(n.y) <= Abs(n.x) && Abs(n.z) <= Abs(n.x)
    ensures a == XzPlane <==> Abs(n.x) < Abs(n.y) && Abs(n.z) <= Abs(n.y)
    ensures a == XyPlane <==> Abs(n.x) < Abs(n.z) && Abs(n.y) < Abs(n.z)
  {
    var absX, absY, absZ := Abs(n.x), Abs(n.y), Abs(n.z);
    var (best, absLargest) := if absY > absX then (XzPlane, absY) else (YzPlane, absX);
    if absZ > absLargest then XyPlane else best
  }

  /** The coordinate that projecting onto the plane drops. */
  function Dropped(v: Vec3, a: AxisPlane): real
  {
    match a
    case YzPlane => v.x
    case XzPlane => v.y
    case XyPlane => v.z
  }

  /** The chosen plane drops the component of largest magnitude. */
  lemma BestPlaneDropsLargest(n: Vec3)
    ensures var d := Abs(Dropped(n, BestAxisPlane(n)));
      Abs(n.x) <= d && Abs(n.y) <= d && Abs(n.z) <= d
  {
  }

  /** `project_vertex_onto`: drops x, y or z for the YZ, XZ or XY plane. */
  function ProjectVertexOnto(v: Vec3, a: AxisPlane): Vec2
  {
    match a
    case YzPlane => Vec2(v.y, v.z)
    case XzPlane => Vec2(v.x, v.z)
    case XyPlane => Vec2(v.x, v.y)
  }

  /** `planar_to_real`: puts 0 back in the dropped coordinate. */
  function PlanarToReal(v: Vec2, a: AxisPlane): (r: Vec3)
    ensures Dropped(r, a) == 0.0
  {
    match a
    case YzPlane => Vec3(0.0, v.x, v.y)
    case XzPlane => Vec3(v.x, 0.0, v.y)
    case XyPlane => Vec3(v.x, v.y, 0.0)
  }

  /** Projecting a planar point brought back into 3D gives the planar point. */
  lemma ProjectPlanarToReal(v: Vec2, a: AxisPlane)
    ensures ProjectVertexOnto(PlanarToReal(v, a), a) == v
  {
  }

  /** A point on the axis plane is the planar point of its projection. */
  lemma PlanarToRealProject(v: Vec3, a: AxisPlane)
    requires Dropped(v, a) == 0.0
    ensures PlanarToReal(ProjectVertexOnto(v, a), a) == v
  {
  }

  //#################### BOUNDS ####################

  /** The smallest of start and the xs, comparing from the left as `if(x < min) min = x` does. */
  function Least(xs: seq<real>, start: real): real
  {
    if |xs| == 0 then start
    else
      var r := Least(xs[..|xs| - 1], start);
      if xs[|xs| - 1] < r then xs[|xs| - 1] else r
  }

  /** The same for the largest, as `if(x > max) max = x` does. */
  function Greatest(xs: seq<real>, start: real): real
  {
    if |xs| == 0 then start
    else
      var r := Greatest(xs[..|xs| - 1], start);
      if xs[|xs| - 1] > r then xs[|xs| - 1] else r
  }

  /** Least is a lower bound of start and the xs, and is one of them. */
  lemma {:induction false} LeastIsLeast(xs: seq<real>, start: real, i: int)
    requires 0 <= i < |xs|
    ensures Least(xs, start) <= start && Least(xs, start) <= xs[i]
    ensures Least(xs, start) == start || exists k :: 0 <= k < |xs| && Least(xs, start) == xs[k]
  {
    var n := |xs|;
    var init := xs[..n - 1];
    if i < n - 1 {
      LeastIsLeast(init, start, i);
      assert init[i] == xs[i];
    } else if n > 1 {
      LeastIsLeast(init, start, 0);
    }
    if n > 1 && Least(init, start) != start {
      var k :| 0 <= k < n - 1 && Least(init, start) == init[k];
      assert Least(init, start) == xs[k];
    }
  }

  /** Greatest is an upper bound of start and the xs, and is one of them. */
  lemma {:induction false} GreatestIsGreatest(xs: seq<real>, start: real, i: int)
    requires 0 <= i < |xs|
    ensures start <= Greatest(xs, start) && xs[i] <= Greatest(xs, start)
    ensures Greatest(xs, start) == start || exists k :: 0 <= k < |xs| && Greatest(xs, start) == xs[k]
  {
    var n := |xs|;
    var init := xs[..n - 1];
    if i < n - 1 {
      GreatestIsGreatest(init, start, i);
      assert init[i] == xs[i];
    } else if n > 1 {
      GreatestIsGreatest(init, start, 0);
    }
    if n > 1 && Greatest(init, start) != start {
      var k :| 0 <= k < n - 1 && Greatest(init, start) == init[k];
      assert Greatest(init, start) == xs[k];
    }
  }

  function Xs(vs: seq<Vec2>): (r: seq<real>)
    ensures |r| == |vs| && forall i :: 0 <= i < |vs| ==> r[i] == vs[i].x
  {
    seq(|vs|, i requires 0 <= i < |vs| => vs[i].x)
  }

  function Ys(vs: seq<Vec2>): (r: seq<real>)
    ensures |r| == |vs| && forall i :: 0 <= i < |vs| ==> r[i] == vs[i].y
  {
    seq(|vs|, i requires 0 <= i < |vs| => vs[i].y)
  }

  /** The box starts from minima INT_MAX and maxima INT_MIN. */
  const BoxStartMin: real := IntMax as real
  const BoxStartMax: real := IntMin as real

  /** The box around the projected vertices. */
  datatype Box = Box(minX: real, minY: real, maxX: real, maxY: real)

  function BoxOf(vs: seq<Vec2>): Box
  {
    Box(Least(Xs(vs), BoxStartMin), Least(Ys(vs), BoxStartMin),
        Greatest(Xs(vs), BoxStartMax), Greatest(Ys(vs), BoxStartMax))
  }

  /** Every projected vertex lies in the box. */
  lemma VerticesInBox(vs: seq<Vec2>, i: int)
    requires 0 <= i < |vs|
    ensures var b := BoxOf(vs);
      b.minX <= vs[i].x <= b.maxX && b.minY <= vs[i].y <= b.maxY
  {
    LeastIsLeast(Xs(vs), BoxStartMin, i);
    LeastIsLeast(Ys(vs), BoxStartMin, i);
    GreatestIsGreatest(Xs(vs), BoxStartMax, i);
    GreatestIsGreatest(Ys(vs), BoxStartMax, i);
  }

  /** The first loop of `make_planar_grid`: the box around the vertices. */
  method FindBox(vs: seq<Vec2>) returns (b: Box)
    ensures b == BoxOf(vs)
  {
    var minX, minY, maxX, maxY := BoxStartMin, BoxStartMin, BoxStartMax, BoxStartMax;
    for i := 0 to |vs|
      invariant minX == Least(Xs(vs[..i]), BoxStartMin) && minY == Least(Ys(vs[..i]), BoxStartMin)
      invariant maxX == Greatest(Xs(vs[..i]), BoxStartMax) && maxY == Greatest(Ys(vs[..i]), BoxStartMax)
    {
      var x, y := vs[i].x, vs[i].y;
      assert Xs(vs[..i + 1]) == Xs(vs[..i]) + [x] && Ys(vs[..i + 1]) == Ys(vs[..i]) + [y];
      if x < minX { minX := x; }
      if x > maxX { maxX := x; }
      if y < minY { minY := y; }
      if y > maxY { maxY := y; }
    }
    assert vs[..|vs|] == vs;
    b := Box(minX, minY, maxX, maxY);
  }

  //#################### LUMELS ####################

  const MaxLumelSize: real := 0.5
  const InitialLumels: int := 8
  const MaxLumels: int := 64

  /**
   * One of `make_planar_grid`'s doubling loops: start with 8 lumels and
   * halve the lumel size while it exceeds 0.5 and there are fewer than 64.
   * The count is the smallest of 8, 16, 32 and 64 whose lumels are no
   * larger than 0.5, or 64 when none is.
   */
  method LumelCount(extent: real) returns (count: int, size: real)
    ensures count == 8 || count == 16 || count == 32 || count == 64
    ensures size == extent / count as real
    ensures count == MaxLumels || size <= MaxLumelSize
    ensures count == InitialLumels || extent / (count / 2) as real > MaxLumelSize
  {
    count := InitialLumels;
    size := extent / count as real;
    while size > MaxLumelSize && count < MaxLumels
      invariant count == 8 || count == 16 || count == 32 || count == 64
      invariant size == extent / count as real
      invariant count == InitialLumels || extent / (count / 2) as real > MaxLumelSize
      decreases MaxLumels - count
    {
      ghost var previous := count;
      size := size / 2.0;
      count := count * 2;
      assert count / 2 == previous;
    }
  }

  //#################### THE GRID ####################

  /** A grid point: column j and row i of the lumel lattice, brought back into 3D. */
  function GridPoint(b: Box, lumelWidth: real, lumelHeight: real, i: nat, j: nat, a: AxisPlane): Vec3
  {
    PlanarToReal(Vec2(b.minX + j as real * lumelWidth, b.minY + i as real * lumelHeight), a)
  }

  /** Row i of the grid: its lumelsX + 1 points from left to right. */
  function GridRow(b: Box, lumelWidth: real, lumelHeight: real, i: nat, lumelsX: nat, a: AxisPlane): (r: seq<Vec3>)
    ensures |r| == lumelsX + 1
    ensures forall j :: 0 <= j <= lumelsX ==> r[j] == GridPoint(b, lumelWidth, lumelHeight, i, j, a)
  {
    seq(lumelsX + 1, j requires 0 <= j <= lumelsX => GridPoint(b, lumelWidth, lumelHeight, i, j, a))
  }

  /** Every grid point lies on the axis plane and projects to its lattice position. */
  lemma GridPointOnPlane(b: Box, lumelWidth: real, lumelHeight: real, i: nat, j: nat, a: AxisPlane)
    ensures var p := GridPoint(b, lumelWidth, lumelHeight, i, j, a);
      Dropped(p, a) == 0.0
      && ProjectVertexOnto(p, a) == Vec2(b.minX + j as real * lumelWidth, b.minY + i as real * lumelHeight)
  {
    ProjectPlanarToReal(Vec2(b.minX + j as real * lumelWidth, b.minY + i as real * lumelHeight), a);
  }

  /** `std::vector::resize(n)`: the first n rows kept, empty rows added as needed. */
  function Resized(rows: seq<seq<Vec3>>, n: nat): (r: seq<seq<Vec3>>)
    ensures |r| == n
    ensures forall i :: 0 <= i < n ==> r[i] == if i < |rows| then rows[i] else []
  {
    if n <= |rows| then rows[..n] else rows + seq(n - |rows|, _ => [])
  }

  //#################### LIGHTMAP COORDINATES ####################

  /** A double quotient: a real number, or the infinity or NaN that dividing by zero gives. */
  datatype Quotient = Finite(value: real) | NotFinite

  function Divide(a: real, b: real): (q: Quotient)
    ensures q.Finite? <==> b != 0.0
    ensures q.Finite? ==> q.value * b == a
  {
    if b == 0.0 then NotFinite else Finite(a / b)
  }

  datatype TexCoords = TexCoords(u: Quotient, v: Quotient)

  /** A vertex's lightmap coordinates: its offset in the box over the box's width and height. */
  function LightmapCoord(p: Vec2, b: Box): TexCoords
  {
    TexCoords(Divide(p.x - b.minX, b.maxX - b.minX), Divide(p.y - b.minY, b.maxY - b.minY))
  }

  /** A value in a nonempty interval is a fraction between 0 and 1 of the way along it. */
  lemma FractionInUnit(x: real, lo: real, hi: real)
    requires lo <= x <= hi && lo < hi
    ensures Divide(x - lo, hi - lo).Finite? && 0.0 <= Divide(x - lo, hi - lo).value <= 1.0
  {
    FractionBounds(x - lo, hi - lo, (x - lo) / (hi - lo));
  }

  lemma FractionBounds(n: real, d: real, q: real)
    requires 0.0 <= n <= d && 0.0 < d && q == n / d
    ensures 0.0 <= q <= 1.0
  {
    assert q * d == n;
  }

  /** When the box has positive width and height, every vertex's lightmap coordinates lie in [0, 1]. */
  lemma CoordsInUnitSquare(vs: seq<Vec2>, i: int)
    requires 0 <= i < |vs|
    requires BoxOf(vs).minX < BoxOf(vs).maxX && BoxOf(vs).minY < BoxOf(vs).maxY
    ensures var c := LightmapCoord(vs[i], BoxOf(vs));
      c.u.Finite? && 0.0 <= c.u.value <= 1.0 && c.v.Finite? && 0.0 <= c.v.value <= 1.0
  {
    var b := BoxOf(vs);
    VerticesInBox(vs, i);
    FractionInUnit(vs[i].x, b.minX, b.maxX);
    FractionInUnit(vs[i].y, b.minY, b.maxY);
  }

  //#################### THE COMPONENT ####################

  class LightmapGrid {
    /** `m_grid`: the rows of grid points. */
    var grid: seq<seq<Vec3>>

    /**
     * `make_planar_grid`: finds the box, the lumel counts and sizes, then
     * resizes the grid to lumelsY + 1 rows and appends to row i the
     * lumelsX + 1 points of that row; appends one lightmap coordinate pair
     * per vertex, in order, to the caller's vector.
     */
    method MakePlanarGrid(vs: seq<Vec2>, a: AxisPlane, vertexLightmapCoords: seq<TexCoords>)
      returns (coords: seq<TexCoords>, ghost lumelsX: int, ghost lumelsY: int, ghost lumelWidth: real, ghost lumelHeight: real)
      modifies this
      ensures lumelsX in {8, 16, 32, 64} && lumelsY in {8, 16, 32, 64}
      ensures var b := BoxOf(vs);
        lumelWidth == (b.maxX - b.minX) / lumelsX as real && lumelHeight == (b.maxY - b.minY) / lumelsY as real
      ensures lumelsX == MaxLumels || lumelWidth <= MaxLumelSize
      ensures lumelsY == MaxLumels || lumelHeight <= MaxLumelSize
      ensures |grid| == lumelsY + 1
      ensures forall i :: 0 <= i <= lumelsY ==>
        grid[i] == (if i < |old(grid)| then old(grid)[i] else []) + GridRow(BoxOf(vs), lumelWidth, lumelHeight, i, lumelsX, a)
      ensures |coords| == |vertexLightmapCoords| + |vs|
      ensures coords[..|vertexLightmapCoords|] == vertexLightmapCoords
      ensures forall i :: 0 <= i < |vs| ==> coords[|vertexLightmapCoords| + i] == LightmapCoord(vs[i], BoxOf(vs))
    {
      var b := FindBox(vs);
      var width, height := b.maxX - b.minX, b.maxY - b.minY;
      var countX, sizeX := LumelCount(width);
      var countY, sizeY := LumelCount(height);
      lumelsX, lumelsY, lumelWidth, lumelHeight := countX, countY, sizeX, sizeY;
      FillGrid(b, countX, countY, sizeX, sizeY, a);
      coords := vertexLightmapCoords;
      for i := 0 to |vs|
        invariant |coords| == |vertexLightmapCoords| + i
        invariant coords[..|vertexLightmapCoords|] == vertexLightmapCoords
        invariant forall k :: 0 <= k < i ==> coords[|vertexLightmapCoords| + k] == LightmapCoord(vs[k], b)
      {
        var lu := Divide(vs[i].x - b.minX, width);
        var lv := Divide(vs[i].y - b.minY, height);
        coords := coords + [TexCoords(lu, lv)];
      }
    }

    /** The grid loops of `make_planar_grid`. */
    method FillGrid(b: Box, lumelsX: nat, lumelsY: nat, lumelWidth: real, lumelHeight: real, a: AxisPlane)
      modifies this
      ensures |grid| == lumelsY + 1
      ensures forall i :: 0 <= i <= lumelsY ==>
        grid[i] == (if i < |old(grid)| then old(grid)[i] else []) + GridRow(b, lumelWidth, lumelHeight, i, lumelsX, a)
    {
      ghost var start := Resized(grid, lumelsY + 1);
      grid := Resized(grid, lumelsY + 1);
      for i := 0 to lumelsY + 1
        invariant |grid| == lumelsY + 1
        invariant forall k :: 0 <= k < i ==> grid[k] == start[k] + GridRow(b, lumelWidth, lumelHeight, k, lumelsX, a)
        invariant forall k :: i <= k <= lumelsY ==> grid[k] == start[k]
      {
        var y := b.minY + i as real * lumelHeight;
        for j := 0 to lumelsX + 1
          invariant |grid| == lumelsY + 1
          invariant forall k :: 0 <= k < i ==> grid[k] == start[k] + GridRow(b, lumelWidth, lumelHeight, k, lumelsX, a)
          invariant forall k :: i < k <= lumelsY ==> grid[k] == start[k]
          invariant grid[i] == start[i] + GridRow(b, lumelWidth, lumelHeight, i, lumelsX, a)[..j]
        {
          var x := b.minX + j as real * lumelWidth;
          grid := grid[i := grid[i] + [PlanarToReal(Vec2(x, y), a)]];
          assert GridRow(b, lumelWidth, lumelHeight, i, lumelsX, a)[..j + 1]
              == GridRow(b, lumelWidth, lumelHeight, i, lumelsX, a)[..j] + [GridPoint(b, lumelWidth, lumelHeight, i, j, a)];
        }
        assert GridRow(b, lumelWidth, lumelHeight, i, lumelsX, a)[..lumelsX + 1] == GridRow(b, lumelWidth, lumelHeight, i, lumelsX, a);
      }
    }
  }
}
