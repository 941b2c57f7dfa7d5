/**
 * `WalkLink`: a nav link between two adjacent nav polygons that share an
 * edge. It is crossed instantly: traversing it takes no time and does not
 * move the traverser.
 */
module WalkLinks {
  import opened Common

  datatype LineSegment = LineSegment(e1: Vec3, e2: Vec3)

  datatype WalkLink = WalkLink(sourcePoly: int, destPoly: int, edge: LineSegment)

  const WalkKeyword := "Walk"
  const BadWalkLink := "Bad walk link data"

  /** (e1 + e2) / 2. */
  function Midpoint(s: LineSegment): Vec3
  {
    Vec3((s.e1.x + s.e2.x) / 2.0, (s.e1.y + s.e2.y) / 2.0, (s.e1.z + s.e2.z) / 2.0)
  }

  /** `source_position`: the midpoint of the edge, as far from one end as from the other. */
  function SourcePosition(l: WalkLink): (p: Vec3)
    ensures Sub(p, l.edge.e1) == Sub(l.edge.e2, p)
  {
    Midpoint(l.edge)
  }

  /** `dest_position`: the midpoint of the edge too, so the link starts where it ends. */
  function DestPosition(l: WalkLink): (p: Vec3)
    ensures Sub(p, l.edge.e1) == Sub(l.edge.e2, p)
    ensures p == SourcePosition(l)
  {
    Midpoint(l.edge)
  }

  /** `traversal_time`: no time at any speed. */
  function TraversalTime(l: WalkLink, traversalSpeed: real): (t: real)
    ensures t == 0.0
  {
    0.0
  }

  /** `traverse`: the traverser stays where it is, however far along it is. */
  function Traverse(l: WalkLink, source: Vec3, t: real): (p: Vec3)
    ensures p == source
  {
    source
  }

  /**
   * How a line segment is written with `operator<<` and read with
   * `operator>>` from the words that follow; both are outside this model.
   */
  datatype SegmentCodec = SegmentCodec(write: LineSegment -> string, read: seq<string> -> Option<LineSegment>)

  /** What follows the keyword in `output`: the two polygon indices and the edge, separated by spaces. */
  function OutputData(l: WalkLink, codec: SegmentCodec): string
  {
    IntToString(l.sourcePoly) + " " + IntToString(l.destPoly) + " " + codec.write(l.edge)
  }

  /** `output`: `Walk`, then the data `load` reads. */
  function Output(l: WalkLink, codec: SegmentCodec): (s: string)
    ensures |s| > |WalkKeyword| && s[..|WalkKeyword| + 1] == WalkKeyword + " "
    ensures s[|WalkKeyword| + 1..] == OutputData(l, codec)
  {
    WalkKeyword + " " + OutputData(l, codec)
  }

  /**
   * `load`: `ss >> sourcePoly >> destPoly >> edge` on the data after the
   * keyword. The two polygon indices are extracted as `operator>>` extracts
   * an `int`, white space skipped; the edge is read from the words left in
   * the stream. The source does not check the stream afterwards; the model
   * reports a failed extraction as an error.
   */
  function Load(data: string, codec: SegmentCodec): (r: Result<WalkLink>)
    ensures r.Ok? <==> (ExtractTwoInts(data).Some? && codec.read(StreamWords(ExtractTwoInts(data).value.2)).Some?)
    ensures r.Ok? ==> (var (s, d, rest) := ExtractTwoInts(data).value;
      r.value == WalkLink(s, d, codec.read(StreamWords(rest)).value) && IsInt32(s) && IsInt32(d))
    ensures r.Err? ==> r.error == BadWalkLink
  {
    match ExtractTwoInts(data)
    case None => Err(BadWalkLink)
    case Some((s, d, rest)) =>
      match codec.read(StreamWords(rest))
      case None => Err(BadWalkLink)
      case Some(e) => Ok(WalkLink(s, d, e))
  }

  /**
   * What `output` writes after the keyword, `load` reads back as the same
   * link, when the polygon indices are 32-bit and the edge reads back as
   * written.
   */
  lemma LoadOutput(l: WalkLink, codec: SegmentCodec)
    requires IsInt32(l.sourcePoly) && IsInt32(l.destPoly)
    requires codec.read(StreamWords(codec.write(l.edge))) == Some(l.edge)
    ensures Load(OutputData(l, codec), codec) == Ok(l)
  {
    var s, d, w := IntToString(l.sourcePoly), IntToString(l.destPoly), codec.write(l.edge);
    var rest := " " + w;
    ParseIntToString(l.sourcePoly);
    ParseIntToString(l.destPoly);
    assert OutputData(l, codec) == s + " " + d + rest;
    ExtractTwoWords(s, d, rest);
    WordsSkip(rest, IsSpace);
    assert rest[1..] == w;
  }

  /** The indices may run into each other as `operator>>` reads them: `3-4` is the polygons 3 and -4. */
  lemma LoadGluedIndices(s: int, d: int, w: string, codec: SegmentCodec)
    requires IsInt32(s) && IsInt32(d) && d < 0
    requires codec.read(StreamWords(w)).Some?
    ensures Load(IntToString(s) + IntToString(d) + (" " + w), codec) == Ok(WalkLink(s, d, codec.read(StreamWords(w)).value))
  {
    var rest := " " + w;
    GluedSignHead(s, d, rest);
    WordsSkip(rest, IsSpace);
    assert rest[1..] == w;
  }
}
