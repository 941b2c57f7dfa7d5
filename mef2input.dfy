/**
 * The `mef2input` tool: reading a map-editor file (MEF version 3) into the
 * brushes and lights the level compiler takes as input. The file is read
 * line by line; each top-level section is introduced by a line naming it.
 */
module Mef2Input {
  import opened Common
  import opened LineIO

  /** `SCALE`: a 32-unit grid square of the editor is one metre of the world. */
  const GridScale: real := 1.0 / 32.0

  //#################### DATA ####################

  datatype Bounds = Bounds(lo: Vec3, hi: Vec3)

  /** A polygon as the editor stores it: its vertices, its texture and its texture plane. */
  datatype TexturePlane = TexturePlane(offsetU: real, offsetV: real, scaleU: real, scaleV: real, angleDegrees: real)
  datatype MefPolygon = MefPolygon(vertices: seq<Vec3>, texture: string, plane: TexturePlane)

  /** A vertex of the compiler's input: a position in metres and its texture coordinates. */
  datatype TexVertex = TexVertex(position: Vec3, u: real, v: real)
  datatype Face = Face(vertices: seq<TexVertex>, texture: string)
  datatype Brush = Brush(bounds: Bounds, faces: seq<Face>)
  datatype Light = Light(position: Vec3, colour: Vec3)

  /** What the converter has collected: the brushes and the lights, each in file order. */
  datatype Level = Level(brushes: seq<Brush>, lights: seq<Light>)

  /**
   * The readers the converter relies on and this model does not look
   * inside: `read_aabb` applied to the text after `Bounds` (with the scale),
   * `FileSectionUtil::load_polygon`, the texture plane's coordinates of a
   * vertex, and `FieldIO::read_typed_field` for the light's Position and
   * Colour lines.
   */
  datatype Collaborators = Collaborators(
    aabb: string -> Result<Bounds>,
    polygon: string -> Result<MefPolygon>,
    coords: (MefPolygon, Vec3) -> Vec2,
    position: string -> Result<Vec3>,
    colour: string -> Result<Vec3>)

  //#################### SKIPPING A SECTION ####################

  const SkipEof := "Unexpected EOF whilst trying to skip section"

  /** How a line changes the bracket count. */
  function Delta(line: string): int
  {
    if line == "{" then 1 else if line == "}" then -1 else 0
  }

  /** The bracket count after the lines ls. */
  function Net(ls: seq<string>): int
  {
    if |ls| == 0 then 0 else Net(ls[..|ls| - 1]) + Delta(ls[|ls| - 1])
  }

  /** The do-while of `skip_section`, at `pos` with the count so far. */
  function SkipFrom(lines: seq<string>, pos: nat, count: int): (r: Result<nat>)
    decreases |lines| - pos
  {
    if pos >= |lines| then Err(SkipEof)
    else
      var k := count + Delta(lines[pos]);
      if k > 0 then SkipFrom(lines, pos + 1, k) else Ok(pos + 1)
  }

  /**
   * `skip_section`: the position after the section starting at `pos`. It
   * always consumes a line, and only that line when it is not `{`.
   */
  function SkipAt(lines: seq<string>, pos: nat): (r: Result<nat>)
    ensures pos >= |lines| ==> r == Err(SkipEof)
    ensures pos < |lines| && lines[pos] != "{" ==> r == Ok(pos + 1)
  {
    SkipFrom(lines, pos, 0)
  }

  /** The count of the lines from `start` up to `n` is the first to drop to zero or below. */
  predicate ClosesAt(lines: seq<string>, start: nat, n: nat)
  {
    start < n <= |lines| && Net(lines[start..n]) <= 0 && forall k :: start < k < n ==> Net(lines[start..k]) > 0
  }

  /** The count of the lines from `start` stays above zero up to the end of the input. */
  predicate NeverCloses(lines: seq<string>, start: nat)
  {
    forall k :: start < k <= |lines| ==> Net(lines[start..k]) > 0
  }

  /**
   * What `SkipFrom` computes: the first position after `start` at which the
   * count of the lines since `start` drops to zero or below, or the EOF
   * error exactly when there is none.
   */
  lemma {:induction false} SkipFromMeaning(lines: seq<string>, start: nat, pos: nat, count: int)
    requires start <= pos <= |lines| && count == Net(lines[start..pos])
    requires forall k :: start < k <= pos ==> Net(lines[start..k]) > 0
    ensures var r := SkipFrom(lines, pos, count);
      (r.Ok? ==> pos < r.value && ClosesAt(lines, start, r.value)) && (r.Err? ==> r.error == SkipEof && NeverCloses(lines, start))
    decreases |lines| - pos
  {
    if pos < |lines| {
      assert lines[start..pos + 1][..pos - start] == lines[start..pos];
      assert Net(lines[start..pos + 1]) == count + Delta(lines[pos]);
      if count + Delta(lines[pos]) > 0 {
        SkipFromMeaning(lines, start, pos + 1, count + Delta(lines[pos]));
      }
    }
  }

  /** `skip_section` stops exactly where the count first drops to zero or below; it fails exactly when that never happens. */
  lemma SkipMeaning(lines: seq<string>, pos: nat)
    requires pos <= |lines|
    ensures var r := SkipAt(lines, pos);
      (r.Ok? ==> ClosesAt(lines, pos, r.value)) && (r.Err? ==> r.error == SkipEof && NeverCloses(lines, pos))
  {
    assert lines[pos..pos] == [];
    SkipFromMeaning(lines, pos, pos, 0);
  }

  lemma {:induction false} NetCons(l: string, ls: seq<string>)
    ensures Net([l] + ls) == Delta(l) + Net(ls)
    decreases |ls|
  {
    if |ls| > 0 {
      assert ([l] + ls)[..|ls|] == [l] + ls[..|ls| - 1];
      NetCons(l, ls[..|ls| - 1]);
    }
  }

  /** Lines whose brackets are balanced and never close more than they opened. */
  predicate Nested(body: seq<string>)
  {
    Net(body) == 0 && forall k :: 0 <= k <= |body| ==> Net(body[..k]) >= 0
  }

  /** A section `{`, a nested body, `}` is skipped exactly. */
  lemma SkipNested(lines: seq<string>, pos: nat, body: seq<string>)
    requires At(lines, pos, ["{"] + body + ["}"]) && Nested(body)
    ensures SkipAt(lines, pos) == Ok(pos + |body| + 2)
  {
    var w := ["{"] + body + ["}"];
    var end := pos + |body| + 2;
    forall k | pos < k <= pos + |body| + 1
      ensures Net(lines[pos..k]) == 1 + Net(body[..k - pos - 1])
    {
      assert lines[pos..k] == w[..k - pos];
      assert w[..k - pos] == ["{"] + body[..k - pos - 1];
      NetCons("{", body[..k - pos - 1]);
    }
    assert lines[pos..end] == w;
    assert w[..|w| - 1] == ["{"] + body;
    NetCons("{", body);
    assert body[..|body|] == body;
    assert Net(lines[pos..end]) == 0;
    SkipMeaning(lines, pos);
  }

  //#################### POLYHEDRAL BRUSHES ####################

  const BrushDesc := "read PolyhedralBrush"
  const BoundsDesc := "read bounds"
  const CountDesc := "read polygon count"
  const PolygonDesc := "read polygon"
  const BrushNoOpen := "PolyhedralBrush: Expected {"
  const BrushNoBounds := "PolyhedralBrush: Expected Bounds"
  const BrushNoCount := "PolyhedralBrush: Expected PolyCount"
  const BrushCountNotInt := "PolyhedralBrush: Polygon count is not an integer"
  const BrushNoPolygon := "PolyhedralBrush: Expected Polygon"
  const BrushNoClose := "PolyhedralBrush: Expected }"

  const BoundsTag := "Bounds"
  const PolyCountTag := "PolyCount"
  const PolygonTag := "Polygon"

  /**
   * A field line: its first |tag| characters are `tag` and at least two more
   * follow; the field's text starts one character after the tag.
   */
  predicate Tagged(line: string, tag: string)
  {
    Prefix(line, |tag|) == tag && |line| >= |tag| + 2
  }

  function Payload(line: string, tag: string): string
    requires Tagged(line, tag)
  {
    line[|tag| + 1..]
  }

  /** `tag`, a space and a non-empty text form a field line carrying that text. */
  lemma TaggedLine(tag: string, text: string)
    requires |text| > 0
    ensures Tagged(tag + " " + text, tag) && Payload(tag + " " + text, tag) == text
  {
    var line := tag + " " + text;
    assert line[..|tag|] == tag;
    assert line[|tag| + 1..] == text;
  }

  /** A vertex converted to the compiler's form: scaled to metres, textured from the unscaled position. */
  function ConvertVertex(c: Collaborators, poly: MefPolygon, p: Vec3): (t: TexVertex)
    ensures Scale(t.position, 32.0) == p
    ensures Vec2(t.u, t.v) == c.coords(poly, p)
  {
    var tc := c.coords(poly, p);
    TexVertex(Scale(p, GridScale), tc.x, tc.y)
  }

  /** The face a polygon becomes: one vertex per vertex, in order, and the same texture. */
  function ConvertFace(c: Collaborators, poly: MefPolygon): Face
  {
    Face(seq(|poly.vertices|, j requires 0 <= j < |poly.vertices| => ConvertVertex(c, poly, poly.vertices[j])), poly.texture)
  }

  /** The vertex loop of `read_polyhedral_brush`. */
  method ConvertPolygon(c: Collaborators, poly: MefPolygon) returns (face: Face)
    ensures face == ConvertFace(c, poly)
    ensures |face.vertices| == |poly.vertices| && face.texture == poly.texture
    ensures forall j :: 0 <= j < |poly.vertices| ==> Scale(face.vertices[j].position, 32.0) == poly.vertices[j]
  {
    var vertices: seq<TexVertex> := [];
    var j := 0;
    while j < |poly.vertices|
      invariant 0 <= j <= |poly.vertices|
      invariant vertices == ConvertFace(c, poly).vertices[..j]
    {
      var tc := c.coords(poly, poly.vertices[j]);
      vertices := vertices + [TexVertex(Scale(poly.vertices[j], GridScale), tc.x, tc.y)];
      j := j + 1;
    }
    face := Face(vertices, poly.texture);
  }

  /** The `n` polygon lines of a brush, each a face (a count below 1 reads none). */
  function FacesAt(c: Collaborators, lines: seq<string>, pos: nat, n: int): (r: Result<Parsed<seq<Face>>>)
    ensures r.Ok? ==> |r.value.value| == (if n <= 0 then 0 else n) && r.value.next == pos + |r.value.value|
    decreases if n <= 0 then 0 else n
  {
    if n <= 0 then Ok(Parsed([], pos))
    else
      var l :- ReadLineAt(lines, pos, PolygonDesc);
      if !Tagged(l.value, PolygonTag) then Err(BrushNoPolygon)
      else
        var poly :- c.polygon(Payload(l.value, PolygonTag));
        Prefixed([ConvertFace(c, poly)], FacesAt(c, lines, l.next, n - 1))
  }

  /** After the count: the faces, then the closing brace. */
  function BrushFacesAt(c: Collaborators, lines: seq<string>, pos: nat, bounds: Bounds, n: int): (r: Result<Parsed<Brush>>)
    ensures r.Ok? ==> r.value.value.bounds == bounds && |r.value.value.faces| == (if n <= 0 then 0 else n)
    ensures r.Ok? ==> r.value.next == pos + |r.value.value.faces| + 1
  {
    var faces :- FacesAt(c, lines, pos, n);
    var close :- ReadLineAt(lines, faces.next, BrushDesc);
    if close.value != "}" then Err(BrushNoClose) else Ok(Parsed(Brush(bounds, faces.value), close.next))
  }

  /** After the bounds: the polygon count line, whose text must be an integer. */
  function BrushCountAt(c: Collaborators, lines: seq<string>, pos: nat, bounds: Bounds): (r: Result<Parsed<Brush>>)
    ensures r.Ok? ==> r.value.value.bounds == bounds && r.value.next == pos + |r.value.value.faces| + 2
  {
    var l :- ReadLineAt(lines, pos, CountDesc);
    if !Tagged(l.value, PolyCountTag) then Err(BrushNoCount)
    else
      match ParseInt(Payload(l.value, PolyCountTag))
      case None => Err(BrushCountNotInt)
      case Some(n) => BrushFacesAt(c, lines, l.next, bounds, n)
  }

  /** After the opening brace: the bounds line. */
  function BrushBoundsAt(c: Collaborators, lines: seq<string>, pos: nat): (r: Result<Parsed<Brush>>)
    ensures r.Ok? ==> r.value.next == pos + |r.value.value.faces| + 3
  {
    var l :- ReadLineAt(lines, pos, BoundsDesc);
    if !Tagged(l.value, BoundsTag) then Err(BrushNoBounds)
    else
      var bounds :- c.aabb(Payload(l.value, BoundsTag));
      BrushCountAt(c, lines, l.next, bounds)
  }

  /** `read_polyhedral_brush`: `{`, Bounds, PolyCount, the polygons, `}`. */
  function PolyBrushAt(c: Collaborators, lines: seq<string>, pos: nat): (r: Result<Parsed<Brush>>)
    ensures r.Ok? ==> r.value.next == pos + |r.value.value.faces| + 4 <= |lines|
    ensures pos >= |lines| ==> r == Err(EofMessage(BrushDesc))
    ensures pos < |lines| && lines[pos] != "{" ==> r == Err(BrushNoOpen)
  {
    var l :- ReadLineAt(lines, pos, BrushDesc);
    if l.value != "{" then Err(BrushNoOpen) else BrushBoundsAt(c, lines, l.next)
  }

  function PolyBrushReader(c: Collaborators): BlockParse<Brush>
  {
    (lines: seq<string>, pos: nat) => PolyBrushAt(c, lines, pos)
  }

  lemma PolyBrushReaderIs(c: Collaborators, lines: seq<string>, pos: nat)
    ensures PolyBrushReader(c)(lines, pos) == PolyBrushAt(c, lines, pos)
  {
  }

  /** The polygon lines of a brush: `Polygon`, a space and each polygon's text. */
  function PolygonLines(texts: seq<string>): (ls: seq<string>)
    ensures |ls| == |texts|
  {
    if |texts| == 0 then [] else [PolygonTag + " " + texts[0]] + PolygonLines(texts[1..])
  }

  /** The faces of polygons, in order. */
  function Faces(c: Collaborators, polys: seq<MefPolygon>): (fs: seq<Face>)
    ensures |fs| == |polys| && forall i :: 0 <= i < |polys| ==> fs[i] == ConvertFace(c, polys[i])
  {
    if |polys| == 0 then [] else [ConvertFace(c, polys[0])] + Faces(c, polys[1..])
  }

  /** Each text is non-empty and `load_polygon` reads it as the matching polygon. */
  predicate PolygonsRead(c: Collaborators, texts: seq<string>, polys: seq<MefPolygon>)
  {
    |texts| == |polys| && forall i :: 0 <= i < |texts| ==> |texts[i]| > 0 && c.polygon(texts[i]) == Ok(polys[i])
  }

  /** Polygon lines are read as their faces, in order. */
  lemma {:induction false} FacesOfText(c: Collaborators, lines: seq<string>, pos: nat, texts: seq<string>, polys: seq<MefPolygon>)
    requires At(lines, pos, PolygonLines(texts)) && PolygonsRead(c, texts, polys)
    ensures FacesAt(c, lines, pos, |texts|) == Ok(Parsed(Faces(c, polys), pos + |texts|))
    decreases |texts|
  {
    if |texts| > 0 {
      AtSplit(lines, pos, [PolygonTag + " " + texts[0]], PolygonLines(texts[1..]));
      AtIndex(lines, pos, [PolygonTag + " " + texts[0]], 0);
      TaggedLine(PolygonTag, texts[0]);
      assert PolygonsRead(c, texts[1..], polys[1..]);
      FacesOfText(c, lines, pos + 1, texts[1..], polys[1..]);
    }
  }

  /** The brush block written with bounds text `b` and polygon texts `texts`. */
  function BrushLines(b: string, texts: seq<string>): seq<string>
  {
    BrushHead(b, |texts|) + PolygonLines(texts) + ["}"]
  }

  /** The three lines in front of the polygons: `{`, the bounds line and the count line of n. */
  function BrushHead(b: string, n: int): (h: seq<string>)
    ensures |h| == 3
  {
    ["{", BoundsTag + " " + b, PolyCountTag + " " + IntToString(n)]
  }

  /** The head of a brush block: `{`, the bounds line and the count line of n. */
  lemma {:induction false} BrushHeadOfText(c: Collaborators, b: string, bounds: Bounds, n: int, h: seq<string>, lines: seq<string>, pos: nat)
    requires |b| > 0 && c.aabb(b) == Ok(bounds) && IsInt32(n)
    requires h == BrushHead(b, n) && At(lines, pos, h)
    ensures PolyBrushAt(c, lines, pos) == BrushFacesAt(c, lines, pos + 3, bounds, n)
  {
    AtIndex(lines, pos, h, 0);
    AtIndex(lines, pos, h, 1);
    AtIndex(lines, pos, h, 2);
    TaggedLine(BoundsTag, b);
    TaggedLine(PolyCountTag, IntToString(n));
    ParseIntToString(n);
  }

  /** Faces read up to `close`, where the closing brace is. */
  lemma {:induction false} BrushCloseOfText(c: Collaborators, bounds: Bounds, n: int, fs: seq<Face>, lines: seq<string>, pos: nat, close: nat)
    requires FacesAt(c, lines, pos, n) == Ok(Parsed(fs, close))
    requires At(lines, close, ["}"])
    ensures BrushFacesAt(c, lines, pos, bounds, n) == Ok(Parsed(Brush(bounds, fs), close + 1))
  {
    AtIndex(lines, close, ["}"], 0);
  }

  /** The faces of a brush block, then its closing brace. */
  lemma {:induction false} BrushTailOfText(c: Collaborators, bounds: Bounds, texts: seq<string>, polys: seq<MefPolygon>, lines: seq<string>, pos: nat)
    requires PolygonsRead(c, texts, polys) && At(lines, pos, PolygonLines(texts) + ["}"])
    ensures BrushFacesAt(c, lines, pos, bounds, |texts|) == Ok(Parsed(Brush(bounds, Faces(c, polys)), pos + |texts| + 1))
  {
    AtSplit(lines, pos, PolygonLines(texts), ["}"]);
    assert At(lines, pos + |texts|, ["}"]);
    FacesOfText(c, lines, pos, texts, polys);
    assert FacesAt(c, lines, pos, |texts|) == Ok(Parsed(Faces(c, polys), pos + |texts|));
    BrushCloseOfText(c, bounds, |texts|, Faces(c, polys), lines, pos, pos + |texts|);
  }

  /**
   * A well-formed PolyhedralBrush block reads as the brush with its bounds
   * and one face per polygon line, in order, and reading stops right after it.
   */
  lemma {:induction false} PolyBrushOfText(c: Collaborators, b: string, bounds: Bounds, texts: seq<string>, polys: seq<MefPolygon>, w: seq<string>, lines: seq<string>, pos: nat)
    requires |b| > 0 && c.aabb(b) == Ok(bounds) && PolygonsRead(c, texts, polys) && IsInt32(|texts|)
    requires w == BrushLines(b, texts) && At(lines, pos, w)
    ensures PolyBrushAt(c, lines, pos) == Ok(Parsed(Brush(bounds, Faces(c, polys)), pos + |w|))
  {
    var head := BrushHead(b, |texts|);
    var tail := PolygonLines(texts) + ["}"];
    assert w == head + tail;
    AtSplit(lines, pos, head, tail);
    BrushHeadOfText(c, b, bounds, |texts|, head, lines, pos);
    BrushTailOfText(c, bounds, texts, polys, lines, pos + 3);
  }

  lemma PolyBrushBlockReads(c: Collaborators, b: string, bounds: Bounds, texts: seq<string>, polys: seq<MefPolygon>, w: seq<string>)
    requires |b| > 0 && c.aabb(b) == Ok(bounds) && PolygonsRead(c, texts, polys) && IsInt32(|texts|)
    requires w == BrushLines(b, texts)
    ensures BlockReads(PolyBrushReader(c), w, Brush(bounds, Faces(c, polys)))
  {
    forall lines: seq<string>, pos: nat | At(lines, pos, w)
      ensures PolyBrushReader(c)(lines, pos) == Ok(Parsed(Brush(bounds, Faces(c, polys)), pos + |w|))
    {
      PolyBrushOfText(c, b, bounds, texts, polys, w, lines, pos);
      PolyBrushReaderIs(c, lines, pos);
    }
  }

  //#################### LIGHTS ####################

  const LightDesc := "read LightBrush"
  const LightNoOpen := "LightBrush: Expected {"
  const LightNoClose := "LightBrush: Expected }"
  const PositionField := "Position"
  const ColourField := "Colour"

  /** `read_light_brush`: `{`, the Position field (scaled), the Colour field, `}`. */
  function LightAt(c: Collaborators, lines: seq<string>, pos: nat): (r: Result<Parsed<Light>>)
    ensures r.Ok? ==> r.value.next == pos + 4 <= |lines|
    ensures r.Ok? ==> c.position(lines[pos + 1]) == Ok(Scale(r.value.value.position, 32.0))
    ensures r.Ok? ==> c.colour(lines[pos + 2]) == Ok(r.value.value.colour)
  {
    var l :- ReadLineAt(lines, pos, LightDesc);
    if l.value != "{" then Err(LightNoOpen)
    else
      var p :- ReadLineAt(lines, l.next, PositionField);
      var position :- c.position(p.value);
      var q :- ReadLineAt(lines, p.next, ColourField);
      var colour :- c.colour(q.value);
      var e :- ReadLineAt(lines, q.next, LightDesc);
      if e.value != "}" then Err(LightNoClose) else Ok(Parsed(Light(Scale(position, GridScale), colour), e.next))
  }

  /** A light block with readable fields reads as the light at the scaled position. */
  lemma LightOfText(c: Collaborators, pl: string, cl: string, p: Vec3, col: Vec3, lines: seq<string>, pos: nat)
    requires c.position(pl) == Ok(p) && c.colour(cl) == Ok(col)
    requires At(lines, pos, ["{", pl, cl, "}"])
    ensures LightAt(c, lines, pos) == Ok(Parsed(Light(Scale(p, GridScale), col), pos + 4))
  {
    AtIndex(lines, pos, ["{", pl, cl, "}"], 0);
    AtIndex(lines, pos, ["{", pl, cl, "}"], 1);
    AtIndex(lines, pos, ["{", pl, cl, "}"], 2);
    AtIndex(lines, pos, ["{", pl, cl, "}"], 3);
  }

  //#################### COMPOSITES ####################

  const CompositeDesc := "read ArchitectureBrushComposite"
  const CompositeNoOpen := "ArchitectureBrushComposite: Expected {"
  const CompositeName := "ArchitectureBrushComposite"
  const PolyBrushName := "PolyhedralBrush"
  const LightBrushName := "LightBrush"

  /** `read_architecture_brush_composite`: `{`, then its subsections up to `}`. */
  function CompositeAt(c: Collaborators, lines: seq<string>, pos: nat): (r: Result<Parsed<seq<Brush>>>)
    ensures r.Ok? ==> pos < r.value.next <= |lines|
    decreases |lines| - pos, 1
  {
    if pos >= |lines| then Err(EofMessage(CompositeDesc))
    else if lines[pos] != "{" then Err(CompositeNoOpen)
    else CompositeItemsAt(c, lines, pos + 1)
  }

  /**
   * The loop of a composite: a nested composite or a PolyhedralBrush adds
   * its brushes in order; any other subsection is skipped.
   */
  function CompositeItemsAt(c: Collaborators, lines: seq<string>, pos: nat): (r: Result<Parsed<seq<Brush>>>)
    ensures r.Ok? ==> pos < r.value.next <= |lines|
    decreases |lines| - pos, 0
  {
    if pos >= |lines| then Err(EofMessage(CompositeDesc))
    else if lines[pos] == "}" then Ok(Parsed([], pos + 1))
    else if lines[pos] == CompositeName then
      var sub :- CompositeAt(c, lines, pos + 1);
      Prefixed(sub.value, CompositeItemsAt(c, lines, sub.next))
    else if lines[pos] == PolyBrushName then
      var b :- PolyBrushAt(c, lines, pos + 1);
      Prefixed([b.value], CompositeItemsAt(c, lines, b.next))
    else
      var next :- SkipAt(lines, pos + 1);
      SkipMeaning(lines, pos + 1);
      CompositeItemsAt(c, lines, next)
  }

  /** An unknown subsection with a nested body is skipped: the composite reads on after it. */
  lemma UnknownSubsectionSkipped(c: Collaborators, lines: seq<string>, pos: nat, body: seq<string>)
    requires pos < |lines| && lines[pos] != "}" && lines[pos] != CompositeName && lines[pos] != PolyBrushName
    requires At(lines, pos + 1, ["{"] + body + ["}"]) && Nested(body)
    ensures CompositeItemsAt(c, lines, pos) == CompositeItemsAt(c, lines, pos + |body| + 3)
  {
    SkipNested(lines, pos + 1, body);
  }

  /** A PolyhedralBrush subsection contributes its brush ahead of those after it. */
  lemma PolyBrushSubsection(c: Collaborators, lines: seq<string>, pos: nat, b: Brush, next: nat)
    requires pos < |lines| && lines[pos] == PolyBrushName
    requires PolyBrushAt(c, lines, pos + 1) == Ok(Parsed(b, next))
    ensures next <= |lines| && CompositeItemsAt(c, lines, pos) == Prefixed([b], CompositeItemsAt(c, lines, next))
  {
  }

  //#################### THE WHOLE FILE ####################

  const IdDesc := "read MEF ID"
  const TexturesDesc := "read Textures"
  const BadId := "Bad MEF ID or unexpected file version"
  const NoTextures := "Textures section is missing"
  const MefId := "MEF 3"
  const TexturesName := "Textures"

  /** What was collected so far in front of what a later read collects. */
  function Then(acc: Level, r: Result<Level>): (q: Result<Level>)
    ensures q.Ok? <==> r.Ok?
    ensures r.Ok? ==> q.value == Level(acc.brushes + r.value.brushes, acc.lights + r.value.lights)
    ensures r.Err? ==> q == Err(r.error)
  {
    match r
    case Ok(l) => Ok(Level(acc.brushes + l.brushes, acc.lights + l.lights))
    case Err(e) => Err(e)
  }

  lemma ThenThen(a: Level, b: Level, r: Result<Level>)
    ensures Then(a, Then(b, r)) == Then(Level(a.brushes + b.brushes, a.lights + b.lights), r)
  {
    if r.Ok? {
      assert a.brushes + (b.brushes + r.value.brushes) == a.brushes + b.brushes + r.value.brushes;
      assert a.lights + (b.lights + r.value.lights) == a.lights + b.lights + r.value.lights;
    }
  }

  /** The section loop of `run_converter`: it ends at the end of the input. */
  function SectionsAt(c: Collaborators, lines: seq<string>, pos: nat): (r: Result<Level>)
    decreases |lines| - pos
  {
    if pos >= |lines| then Ok(Level([], []))
    else if lines[pos] == CompositeName then
      var bs :- CompositeAt(c, lines, pos + 1);
      Then(Level(bs.value, []), SectionsAt(c, lines, bs.next))
    else if lines[pos] == LightBrushName then
      var l :- LightAt(c, lines, pos + 1);
      Then(Level([], [l.value]), SectionsAt(c, lines, l.next))
    else if lines[pos] == PolyBrushName then
      var b :- PolyBrushAt(c, lines, pos + 1);
      Then(Level([b.value], []), SectionsAt(c, lines, b.next))
    else
      var next :- SkipAt(lines, pos + 1);
      SkipMeaning(lines, pos + 1);
      SectionsAt(c, lines, next)
  }

  /** `run_converter` up to the writing of its outputs: the ID line, the skipped texture section, then the sections. */
  function ConvertAt(c: Collaborators, lines: seq<string>): (r: Result<Level>)
    ensures |lines| > 0 && lines[0] != MefId ==> r == Err(BadId)
    ensures |lines| > 1 && lines[0] == MefId && lines[1] != TexturesName ==> r == Err(NoTextures)
  {
    var id :- ReadLineAt(lines, 0, IdDesc);
    if id.value != MefId then Err(BadId)
    else
      var t :- ReadLineAt(lines, id.next, TexturesDesc);
      if t.value != TexturesName then Err(NoTextures)
      else
        var next :- SkipAt(lines, t.next);
        SkipMeaning(lines, t.next);
        SectionsAt(c, lines, next)
  }

  /** After the ID line and a skipped texture section, the file is read as its sections. */
  lemma ConvertAfterTextures(c: Collaborators, lines: seq<string>, next: nat)
    requires |lines| >= 2 && lines[0] == MefId && lines[1] == TexturesName && SkipAt(lines, 2) == Ok(next)
    ensures ConvertAt(c, lines) == SectionsAt(c, lines, next)
  {
    assert ReadLineAt(lines, 0, IdDesc) == Ok(Parsed(MefId, 1));
    assert ReadLineAt(lines, 1, TexturesDesc) == Ok(Parsed(TexturesName, 2));
  }

  /** A file of one light section after the textures yields that light alone. */
  lemma OneLightFile(c: Collaborators, body: seq<string>, pl: string, cl: string, p: Vec3, col: Vec3)
    requires c.position(pl) == Ok(p) && c.colour(cl) == Ok(col) && Nested(body)
    ensures ConvertAt(c, [MefId, TexturesName] + (["{"] + body + ["}"]) + [LightBrushName, "{", pl, cl, "}"])
      == Ok(Level([], [Light(Scale(p, GridScale), col)]))
  {
    var textures := ["{"] + body + ["}"];
    var light := [LightBrushName, "{", pl, cl, "}"];
    var lines := [MefId, TexturesName] + textures + light;
    assert lines[0] == MefId && lines[1] == TexturesName;
    assert At(lines, 2, textures) by {
      assert lines[2..2 + |textures|] == textures;
    }
    SkipNested(lines, 2, body);
    var q := 2 + |textures|;
    assert lines[q..] == light;
    assert |lines| == q + 5 && lines[q] == LightBrushName;
    assert At(lines, q + 1, ["{", pl, cl, "}"]) by {
      assert lines[q + 1..q + 5] == light[1..];
    }
    LightOfText(c, pl, cl, p, col, lines, q + 1);
    assert SectionsAt(c, lines, q + 5) == Ok(Level([], []));
    var light1 := Light(Scale(p, GridScale), col);
    assert SectionsAt(c, lines, q) == Ok(Level([] + [], [light1] + []));
    assert [light1] + [] == [light1];
    var none: seq<Brush> := [];
    assert none + none == none;
    ConvertAfterTextures(c, lines, q);
  }

  //#################### THE CONVERTER, STEP BY STEP ####################

  /** The vectors `brushes` and `lights` the readers append to. */
  class Collected {
    var brushes: seq<Brush>
    var lights: seq<Light>

    constructor ()
      ensures brushes == [] && lights == []
    {
      brushes := [];
      lights := [];
    }
  }

  /** A method's outcome agrees with the read `s` of the values it appended to `before`, giving `after`. */
  predicate Appended<T(==)>(r: Result<()>, s: Result<Parsed<seq<T>>>, pos: nat, before: seq<T>, after: seq<T>)
  {
    (r.Ok? <==> s.Ok?) && (s.Err? ==> r == Err(s.error)) && (s.Ok? ==> pos == s.value.next && after == before + s.value.value)
  }

  /** One read value as a read of a one-element sequence. */
  function Single<T>(s: Result<Parsed<T>>): (q: Result<Parsed<seq<T>>>)
    ensures q.Ok? <==> s.Ok?
    ensures s.Ok? ==> q.value == Parsed([s.value.value], s.value.next)
    ensures s.Err? ==> q == Err(s.error)
  {
    match s
    case Ok(p) => Ok(Parsed([p.value], p.next))
    case Err(e) => Err(e)
  }

  /** `skip_section`, step by step over the stream. */
  method SkipSection(input: LineStream) returns (r: Result<()>)
    requires input.Valid()
    modifies input
    ensures input.Valid()
    ensures var s := SkipAt(input.lines, old(input.pos));
      (r.Ok? <==> s.Ok?) && (s.Ok? ==> input.pos == s.value) && (s.Err? ==> r == Err(s.error))
  {
    ghost var start := input.pos;
    var bracketCount := 0;
    while true
      invariant input.Valid() && start <= input.pos
      invariant SkipAt(input.lines, start) == SkipFrom(input.lines, input.pos, bracketCount)
      decreases |input.lines| - input.pos
    {
      if input.pos >= |input.lines| {
        return Err(SkipEof);
      }
      var line := input.GetLine();
      if line == "{" {
        bracketCount := bracketCount + 1;
      }
      if line == "}" {
        bracketCount := bracketCount - 1;
      }
      if bracketCount <= 0 {
        return Ok(());
      }
    }
  }

  lemma FacesStep(c: Collaborators, lines: seq<string>, pos: nat, n: int, line: string, poly: MefPolygon, next: nat)
    requires n > 0 && pos < |lines| && lines[pos] == line && next == pos + 1
    requires Tagged(line, PolygonTag) && c.polygon(Payload(line, PolygonTag)) == Ok(poly)
    ensures FacesAt(c, lines, pos, n) == Prefixed([ConvertFace(c, poly)], FacesAt(c, lines, next, n - 1))
  {
  }

  /** The polygon loop of `read_polyhedral_brush`. */
  method ReadFaces(c: Collaborators, input: LineStream, n: int) returns (r: Result<seq<Face>>)
    requires input.Valid()
    modifies input
    ensures input.Valid()
    ensures Agrees(r, FacesAt(c, input.lines, old(input.pos), n), input.pos)
  {
    ghost var whole := FacesAt(c, input.lines, input.pos, n);
    var faces: seq<Face> := [];
    var i := 0;
    PrefixedNil(whole);
    while i < n
      invariant input.Valid()
      invariant whole == Prefixed(faces, FacesAt(c, input.lines, input.pos, n - i))
      decreases n - i
    {
      ghost var here := input.pos;
      var line := input.ReadLine(PolygonDesc);
      if line.Err? {
        return Err(line.error);
      }
      if !Tagged(line.value, PolygonTag) {
        return Err(BrushNoPolygon);
      }
      var poly := c.polygon(Payload(line.value, PolygonTag));
      if poly.Err? {
        return Err(poly.error);
      }
      var face := ConvertPolygon(c, poly.value);
      FacesStep(c, input.lines, here, n - i, line.value, poly.value, input.pos);
      PrefixedStep(whole, faces, FacesAt(c, input.lines, here, n - i), face, FacesAt(c, input.lines, input.pos, n - i - 1));
      faces := faces + [face];
      i := i + 1;
    }
    assert FacesAt(c, input.lines, input.pos, n - i) == Ok(Parsed([], input.pos));
    assert faces + [] == faces;
    r := Ok(faces);
  }

  /** `read_polyhedral_brush`: reads one brush block and appends the brush. */
  method ReadPolyhedralBrush(c: Collaborators, input: LineStream, out: Collected) returns (r: Result<()>)
    requires input.Valid()
    modifies input, out
    ensures input.Valid() && out.lights == old(out.lights)
    ensures Appended(r, Single(PolyBrushAt(c, input.lines, old(input.pos))), input.pos, old(out.brushes), out.brushes)
  {
    var open := input.ReadLine(BrushDesc);
    if open.Err? {
      return Err(open.error);
    }
    if open.value != "{" {
      return Err(BrushNoOpen);
    }
    var line := input.ReadLine(BoundsDesc);
    if line.Err? {
      return Err(line.error);
    }
    if !Tagged(line.value, BoundsTag) {
      return Err(BrushNoBounds);
    }
    var bounds := c.aabb(Payload(line.value, BoundsTag));
    if bounds.Err? {
      return Err(bounds.error);
    }
    var count := input.ReadLine(CountDesc);
    if count.Err? {
      return Err(count.error);
    }
    if !Tagged(count.value, PolyCountTag) {
      return Err(BrushNoCount);
    }
    var polyCount := ParseInt(Payload(count.value, PolyCountTag));
    if polyCount.None? {
      return Err(BrushCountNotInt);
    }
    var faces := ReadFaces(c, input, polyCount.value);
    if faces.Err? {
      return Err(faces.error);
    }
    out.brushes := out.brushes + [Brush(bounds.value, faces.value)];
    var close := input.ReadLine(BrushDesc);
    if close.Err? {
      return Err(close.error);
    }
    if close.value != "}" {
      return Err(BrushNoClose);
    }
    r := Ok(());
  }

  /** `read_light_brush`: reads one light block and appends the light. */
  method ReadLightBrush(c: Collaborators, input: LineStream, out: Collected) returns (r: Result<()>)
    requires input.Valid()
    modifies input, out
    ensures input.Valid() && out.brushes == old(out.brushes)
    ensures Appended(r, Single(LightAt(c, input.lines, old(input.pos))), input.pos, old(out.lights), out.lights)
  {
    var open := input.ReadLine(LightDesc);
    if open.Err? {
      return Err(open.error);
    }
    if open.value != "{" {
      return Err(LightNoOpen);
    }
    var p := input.ReadLine(PositionField);
    if p.Err? {
      return Err(p.error);
    }
    var position := c.position(p.value);
    if position.Err? {
      return Err(position.error);
    }
    var q := input.ReadLine(ColourField);
    if q.Err? {
      return Err(q.error);
    }
    var colour := c.colour(q.value);
    if colour.Err? {
      return Err(colour.error);
    }
    out.lights := out.lights + [Light(Scale(position.value, GridScale), colour.value)];
    var close := input.ReadLine(LightDesc);
    if close.Err? {
      return Err(close.error);
    }
    if close.value != "}" {
      return Err(LightNoClose);
    }
    r := Ok(());
  }

  /** The composite loop of `read_architecture_brush_composite` as a block reader. */
  function ItemsReader(c: Collaborators): BlockParse<seq<Brush>>
  {
    (lines: seq<string>, pos: nat) => CompositeItemsAt(c, lines, pos)
  }

  lemma ItemsReaderIs(c: Collaborators, lines: seq<string>, pos: nat)
    ensures ItemsReader(c)(lines, pos) == CompositeItemsAt(c, lines, pos)
  {
  }

  lemma CompositeOpenStep(c: Collaborators, lines: seq<string>, pos: nat, next: nat)
    requires pos < |lines| && lines[pos] == "{" && next == pos + 1
    ensures CompositeAt(c, lines, pos) == ItemsReader(c)(lines, next)
  {
  }

  lemma CompositeCloseStep(c: Collaborators, lines: seq<string>, pos: nat, whole: Result<Parsed<seq<Brush>>>, acc: seq<Brush>, next: nat)
    requires pos < |lines| && lines[pos] == "}" && next == pos + 1
    requires whole == Prefixed(acc, ItemsReader(c)(lines, pos))
    ensures whole == Ok(Parsed(acc, next))
  {
    assert acc + [] == acc;
  }

  lemma CompositeSubStep(c: Collaborators, lines: seq<string>, pos: nat, whole: Result<Parsed<seq<Brush>>>, acc: seq<Brush>, sub: seq<Brush>, next: nat)
    requires pos < |lines| && lines[pos] == CompositeName && CompositeAt(c, lines, pos + 1) == Ok(Parsed(sub, next))
    requires whole == Prefixed(acc, ItemsReader(c)(lines, pos))
    ensures pos + 1 < next <= |lines| && whole == Prefixed(acc + sub, ItemsReader(c)(lines, next))
  {
    PrefixedPrefixed(acc, sub, CompositeItemsAt(c, lines, next));
  }

  lemma CompositeBrushStep(c: Collaborators, lines: seq<string>, pos: nat, whole: Result<Parsed<seq<Brush>>>, acc: seq<Brush>, b: Brush, next: nat)
    requires pos < |lines| && lines[pos] == PolyBrushName && PolyBrushAt(c, lines, pos + 1) == Ok(Parsed(b, next))
    requires whole == Prefixed(acc, ItemsReader(c)(lines, pos))
    ensures pos + 1 < next <= |lines| && whole == Prefixed(acc + [b], ItemsReader(c)(lines, next))
  {
    PrefixedPrefixed(acc, [b], CompositeItemsAt(c, lines, next));
  }

  lemma CompositeSkipStep(c: Collaborators, lines: seq<string>, pos: nat, whole: Result<Parsed<seq<Brush>>>, acc: seq<Brush>, next: nat)
    requires pos < |lines| && lines[pos] != "}" && lines[pos] != CompositeName && lines[pos] != PolyBrushName
    requires SkipAt(lines, pos + 1) == Ok(next)
    requires whole == Prefixed(acc, ItemsReader(c)(lines, pos))
    ensures pos + 1 < next <= |lines| && whole == Prefixed(acc, ItemsReader(c)(lines, next))
  {
    SkipMeaning(lines, pos + 1);
  }

  /** One subsection of a composite: its brushes are appended, or it is skipped. */
  method ReadCompositeItem(c: Collaborators, input: LineStream, out: Collected, name: string, ghost whole: Result<Parsed<seq<Brush>>>, ghost acc: seq<Brush>)
    returns (r: Result<()>, ghost added: seq<Brush>)
    requires input.Valid() && 0 < input.pos && input.lines[input.pos - 1] == name && name != "}"
    requires whole == Prefixed(acc, ItemsReader(c)(input.lines, input.pos - 1))
    modifies input, out
    ensures input.Valid() && out.lights == old(out.lights)
    ensures r.Err? ==> whole == Err(r.error)
    ensures r.Ok? ==> old(input.pos) < input.pos && out.brushes == old(out.brushes) + added
    ensures r.Ok? ==> whole == Prefixed(acc + added, ItemsReader(c)(input.lines, input.pos))
    decreases |input.lines| - input.pos, 2
  {
    ghost var here := input.pos - 1;
    added := [];
    if name == CompositeName {
      r := ReadComposite(c, input, out);
      if r.Err? {
        return;
      }
      added := out.brushes[|old(out.brushes)|..];
      CompositeSubStep(c, input.lines, here, whole, acc, added, input.pos);
    } else if name == PolyBrushName {
      r := ReadPolyhedralBrush(c, input, out);
      if r.Err? {
        return;
      }
      added := [out.brushes[|out.brushes| - 1]];
      CompositeBrushStep(c, input.lines, here, whole, acc, out.brushes[|out.brushes| - 1], input.pos);
    } else {
      r := SkipSection(input);
      if r.Err? {
        return;
      }
      CompositeSkipStep(c, input.lines, here, whole, acc, input.pos);
      assert out.brushes == old(out.brushes) + added;
      assert acc + added == acc;
    }
  }

  /** `read_architecture_brush_composite`: appends the brushes of the composite in file order. */
  method ReadComposite(c: Collaborators, input: LineStream, out: Collected) returns (r: Result<()>)
    requires input.Valid()
    modifies input, out
    ensures input.Valid() && out.lights == old(out.lights)
    ensures Appended(r, CompositeAt(c, input.lines, old(input.pos)), input.pos, old(out.brushes), out.brushes)
    decreases |input.lines| - input.pos, 1
  {
    ghost var whole := CompositeAt(c, input.lines, input.pos);
    ghost var before := out.brushes;
    ghost var start := input.pos;
    var open := input.ReadLine(CompositeDesc);
    if open.Err? {
      return Err(open.error);
    }
    if open.value != "{" {
      return Err(CompositeNoOpen);
    }
    CompositeOpenStep(c, input.lines, start, input.pos);
    ghost var acc: seq<Brush> := [];
    PrefixedNil(whole);
    while true
      invariant input.Valid() && start < input.pos
      invariant out.lights == old(out.lights) && out.brushes == before + acc
      invariant whole == Prefixed(acc, ItemsReader(c)(input.lines, input.pos))
      decreases |input.lines| - input.pos
    {
      ghost var here := input.pos;
      var line := input.ReadLine(CompositeDesc);
      if line.Err? {
        ItemsReaderIs(c, input.lines, here);
        return Err(line.error);
      }
      if line.value == "}" {
        CompositeCloseStep(c, input.lines, here, whole, acc, input.pos);
        return Ok(());
      }
      ghost var added;
      r, added := ReadCompositeItem(c, input, out, line.value, whole, acc);
      if r.Err? {
        return;
      }
      acc := acc + added;
    }
  }

  /** The section loop of `run_converter` as a reader. */
  function SectionsReader(c: Collaborators): (seq<string>, nat) -> Result<Level>
  {
    (lines: seq<string>, pos: nat) => SectionsAt(c, lines, pos)
  }

  /** A section that adds `add` ahead of those from `next` on. */
  lemma SectionStep(c: Collaborators, lines: seq<string>, pos: nat, whole: Result<Level>, acc: Level, add: Level, next: nat)
    requires whole == Then(acc, SectionsReader(c)(lines, pos))
    requires SectionsAt(c, lines, pos) == Then(add, SectionsAt(c, lines, next))
    ensures whole == Then(Level(acc.brushes + add.brushes, acc.lights + add.lights), SectionsReader(c)(lines, next))
  {
    ThenThen(acc, add, SectionsAt(c, lines, next));
  }

  lemma SectionSkipStep(c: Collaborators, lines: seq<string>, pos: nat, whole: Result<Level>, acc: Level, next: nat)
    requires pos < |lines| && lines[pos] != CompositeName && lines[pos] != LightBrushName && lines[pos] != PolyBrushName
    requires SkipAt(lines, pos + 1) == Ok(next)
    requires whole == Then(acc, SectionsReader(c)(lines, pos))
    ensures pos + 1 < next <= |lines| && whole == Then(acc, SectionsReader(c)(lines, next))
  {
    SkipMeaning(lines, pos + 1);
  }

  /** One top-level section: its brushes or its light are appended, or it is skipped. */
  method ReadSection(c: Collaborators, input: LineStream, out: Collected, name: string, ghost whole: Result<Level>)
    returns (r: Result<()>)
    requires input.Valid() && 0 < input.pos && input.lines[input.pos - 1] == name
    requires whole == Then(Level(out.brushes, out.lights), SectionsReader(c)(input.lines, input.pos - 1))
    modifies input, out
    ensures input.Valid()
    ensures r.Err? ==> whole == Err(r.error)
    ensures r.Ok? ==> old(input.pos) < input.pos && whole == Then(Level(out.brushes, out.lights), SectionsReader(c)(input.lines, input.pos))
  {
    ghost var here := input.pos - 1;
    ghost var acc := Level(out.brushes, out.lights);
    ghost var lines := input.lines;
    if name == CompositeName {
      r := ReadComposite(c, input, out);
      if r.Err? {
        return;
      }
      SectionStep(c, lines, here, whole, acc, Level(out.brushes[|acc.brushes|..], []), input.pos);
      assert out.brushes == acc.brushes + out.brushes[|acc.brushes|..];
      assert out.lights == acc.lights + [];
    } else if name == LightBrushName {
      r := ReadLightBrush(c, input, out);
      if r.Err? {
        return;
      }
      SectionStep(c, lines, here, whole, acc, Level([], [out.lights[|out.lights| - 1]]), input.pos);
      assert out.brushes == acc.brushes + [];
    } else if name == PolyBrushName {
      r := ReadPolyhedralBrush(c, input, out);
      if r.Err? {
        return;
      }
      SectionStep(c, lines, here, whole, acc, Level([out.brushes[|out.brushes| - 1]], []), input.pos);
      assert out.lights == acc.lights + [];
    } else {
      r := SkipSection(input);
      if r.Err? {
        return;
      }
      SectionSkipStep(c, lines, here, whole, acc, input.pos);
    }
  }

  /** The section loop of `run_converter`, from an empty collection to the end of the input. */
  method ReadSections(c: Collaborators, input: LineStream, out: Collected) returns (r: Result<Level>)
    requires input.Valid() && out.brushes == [] && out.lights == []
    modifies input, out
    ensures r == SectionsAt(c, input.lines, old(input.pos))
  {
    ghost var whole := SectionsAt(c, input.lines, input.pos);
    assert Then(Level([], []), whole) == whole by {
      if whole.Ok? {
        assert [] + whole.value.brushes == whole.value.brushes;
        assert [] + whole.value.lights == whole.value.lights;
      }
    }
    while input.pos < |input.lines|
      invariant input.Valid()
      invariant whole == Then(Level(out.brushes, out.lights), SectionsReader(c)(input.lines, input.pos))
      decreases |input.lines| - input.pos
    {
      var line := input.GetLine();
      var added := ReadSection(c, input, out, line, whole);
      if added.Err? {
        return Err(added.error);
      }
    }
    assert SectionsAt(c, input.lines, input.pos) == Ok(Level([], []));
    assert out.brushes + [] == out.brushes && out.lights + [] == out.lights;
    r := Ok(Level(out.brushes, out.lights));
  }

  /** `run_converter` before the outputs are written: the brushes and lights of the file, in file order. */
  method RunConverter(c: Collaborators, lines: seq<string>) returns (r: Result<Level>)
    ensures r == ConvertAt(c, lines)
  {
    var input := new LineStream(lines);
    var out := new Collected();
    var id := input.ReadLine(IdDesc);
    if id.Err? {
      return Err(id.error);
    }
    if id.value != MefId {
      return Err(BadId);
    }
    var t := input.ReadLine(TexturesDesc);
    if t.Err? {
      return Err(t.error);
    }
    if t.value != TexturesName {
      return Err(NoTextures);
    }
    var skipped := SkipSection(input);
    if skipped.Err? {
      return Err(skipped.error);
    }
    r := ReadSections(c, input, out);
  }
}
