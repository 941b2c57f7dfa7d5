/**
 * The map editor's translatable brushes (`TranslatableBrush`) and the one
 * such brush in this model, the point light (`LightBrush`): its bounding
 * box, colour and ghost flag, its state, its file block, and translation as
 * commands that can be undone.
 */
module Brushes {
  import opened Common
  import opened LineIO
  import opened JavaIO
  import opened MapFileMef

  //#################### BOXES AND COLOURS ####################

  /** `HALF_BOX_SIZE`: a light is drawn as a box 32 units across. */
  const HalfBoxSize: real := 16.0

  /** A bounding box by its two corners. */
  datatype Box = Box(mins: Vec3, maxs: Vec3)

  /** `centre()`: the midpoint of the corners. */
  function Centre(b: Box): Vec3 { Scale(Add(b.mins, b.maxs), 0.5) }

  /** `translate(t)`: both corners moved by t. */
  function Translated(b: Box, t: Vec3): Box { Box(Add(b.mins, t), Add(b.maxs, t)) }

  /** `construct_bounding_box`: the box reaching `HALF_BOX_SIZE` from the position along every axis. */
  function BoundingBoxAround(position: Vec3): (b: Box)
    ensures Centre(b) == position
    ensures Sub(b.maxs, b.mins) == Vec3(2.0 * HalfBoxSize, 2.0 * HalfBoxSize, 2.0 * HalfBoxSize)
  {
    var half := Vec3(HalfBoxSize, HalfBoxSize, HalfBoxSize);
    Box(Sub(position, half), Add(position, half))
  }

  /** Translating a box translates its centre. */
  lemma CentreOfTranslated(b: Box, t: Vec3)
    ensures Centre(Translated(b, t)) == Add(Centre(b), t)
  {
  }

  /** Translating by an offset and then by its negation gives the box back. */
  lemma TranslatedBack(b: Box, t: Vec3)
    ensures Translated(Translated(b, t), Neg(t)) == b
  {
  }

  /** A colour by its red, green and blue components. */
  datatype Colour = Colour(r: real, g: real, b: real)

  const White := Colour(1.0, 1.0, 1.0)

  /** What `java.awt.Color` accepts: every component in [0, 1]. */
  predicate InRange(c: Colour)
  {
    0.0 <= c.r <= 1.0 && 0.0 <= c.g <= 1.0 && 0.0 <= c.b <= 1.0
  }

  /** A component stored in 8 bits: `(int)(x * 255 + 0.5)`. */
  function Level8(x: real): (k: int)
    requires 0.0 <= x <= 1.0
    ensures 0 <= k <= 255
  {
    (x * 255.0 + 0.5).Floor
  }

  /** `new Color(c.getRGB())`: each component rounded to the nearest multiple of 1/255. */
  function Quantized(c: Colour): (q: Colour)
    requires InRange(c)
    ensures InRange(q)
  {
    Colour(Level8(c.r) as real / 255.0, Level8(c.g) as real / 255.0, Level8(c.b) as real / 255.0)
  }

  /** Rounding moves a component by at most half a step. */
  lemma Level8Close(x: real)
    requires 0.0 <= x <= 1.0
    ensures -0.5 <= Level8(x) as real - x * 255.0 <= 0.5
  {
  }

  /** A component that is already a multiple of 1/255 is kept. */
  lemma Level8OfStep(k: int)
    requires 0 <= k <= 255
    ensures Level8(k as real / 255.0) == k
  {
    assert (k as real / 255.0) * 255.0 + 0.5 == k as real + 0.5;
  }

  /** Copying a copy changes nothing more. */
  lemma QuantizedIdempotent(c: Colour)
    requires InRange(c)
    ensures Quantized(Quantized(c)) == Quantized(c)
  {
    Level8OfStep(Level8(c.r));
    Level8OfStep(Level8(c.g));
    Level8OfStep(Level8(c.b));
  }

  //#################### THE BRUSH ####################

  /** `TranslatableBrush.State`. */
  datatype State = Idle | Initial | Transforming

  /**
   * A light brush: the bounding box, the box cached at the start of a
   * transformation (null until then), the colour, the ghost flag (the user
   * is still placing it) and the state.
   */
  class LightBrush {
    var box: Box
    var cachedBox: Option<Box>
    var colour: Colour
    var isGhost: bool
    var state: State

    /** The colour is a `java.awt.Color`, whose components always lie in [0, 1]. */
    predicate Valid()
      reads this
    {
      InRange(colour)
    }

    /**
     * `LightBrush(position, colour, ghost, isNew)`: the box around the
     * position; a new brush starts in the initial state, any other one idle.
     */
    constructor Make(position: Vec3, colour: Colour, isGhost: bool, isNew: bool)
      requires InRange(colour)
      ensures box == BoundingBoxAround(position) && Centre(box) == position
      ensures this.colour == colour && this.isGhost == isGhost && cachedBox == None
      ensures state == if isNew then Initial else Idle
      ensures Valid()
    {
      box := BoundingBoxAround(position);
      cachedBox := None;
      this.colour := colour;
      this.isGhost := isGhost;
      state := if isNew then Initial else Idle;
    }

    /** `LightBrush(position)`: a white ghost the user has just started to create. */
    constructor (position: Vec3)
      ensures box == BoundingBoxAround(position) && colour == White && isGhost && state == Initial && cachedBox == None
      ensures Valid()
    {
      box := BoundingBoxAround(position);
      cachedBox := None;
      colour := White;
      isGhost := true;
      state := Initial;
    }

    /** `LightBrush()` for internal use, with the box its caller assigns straight after. */
    constructor Internal(box: Box, colour: Colour)
      requires InRange(colour)
      ensures this.box == box && this.colour == colour && !isGhost && state == Idle && cachedBox == None
      ensures Valid()
    {
      this.box := box;
      cachedBox := None;
      this.colour := colour;
      isGhost := false;
      state := Idle;
    }

    function IsGhost(): bool
      reads this
    {
      isGhost
    }

    /** `is_copyable`: only a brush that is no longer a ghost can be copied. */
    function IsCopyable(): (r: bool)
      reads this
      ensures r <==> !isGhost
    {
      !IsGhost()
    }

    /**
     * `copy`: a new brush, not a ghost and idle, with an equal box of its
     * own and the colour as 8-bit components.
     */
    method Copy() returns (c: LightBrush)
      requires Valid()
      ensures fresh(c) && c.Valid()
      ensures c.box == box && c.colour == Quantized(colour) && !c.isGhost && c.state == Idle && c.cachedBox == None
      ensures c.IsCopyable()
    {
      c := new LightBrush.Internal(box, Quantized(colour));
    }

    /** `begin_transform`: the current box is cached; nothing else changes. */
    method BeginTransform()
      requires Valid()
      modifies this
      ensures Valid()
      ensures cachedBox == Some(box)
      ensures box == old(box) && colour == old(colour) && isGhost == old(isGhost) && state == old(state)
    {
      cachedBox := Some(box);
    }

    /**
     * `translate(t)`: the box becomes the cached box moved by t, so a
     * second translation replaces the first rather than adding to it.
     */
    method Translate(t: Vec3)
      requires cachedBox.Some?
      requires Valid()
      modifies this
      ensures Valid()
      ensures box == Translated(old(cachedBox.value), t)
      ensures cachedBox == old(cachedBox) && colour == old(colour) && isGhost == old(isGhost) && state == old(state)
    {
      box := Translated(cachedBox.value, t);
    }

    /** The translation command's `execute`: cache the box, then translate by the offset. */
    method ExecuteTranslation(c: TranslationCommand)
      requires Valid()
      modifies this
      ensures Valid()
      ensures cachedBox == Some(old(box)) && box == Translated(old(box), c.offset)
      ensures colour == old(colour) && isGhost == old(isGhost) && state == old(state)
    {
      BeginTransform();
      Translate(c.offset);
    }

    /** The translation command's `undo`: cache the box, then translate by the negated offset. */
    method UndoTranslation(c: TranslationCommand)
      requires Valid()
      modifies this
      ensures Valid()
      ensures cachedBox == Some(old(box)) && box == Translated(old(box), c.negOffset)
      ensures colour == old(colour) && isGhost == old(isGhost) && state == old(state)
    {
      BeginTransform();
      Translate(c.negOffset);
    }

    /** `save_MEF3`: a line end, then the block of `LightLines` with no final line end. */
    method SaveMef3(doubles: NumberText, floats: NumberText, pw: PrintWriter)
      modifies pw
      ensures pw.text == old(pw.text) + BrushText(LightLines(doubles, floats, Light(Centre(box), colour)))
    {
      var pos := Centre(box);
      var p := PositionLine(doubles, pos);
      var q := ColourLine(floats, colour);
      ghost var start := pw.text;
      pw.Println("");
      ghost var head := pw.text;
      ghost var done: seq<string> := [];
      ghost var before := pw.text;
      pw.Println(LightBrushName);
      PrintedLine(head, done, LightBrushName, before, pw.text);
      done, before := done + [LightBrushName], pw.text;
      pw.Println("{");
      PrintedLine(head, done, "{", before, pw.text);
      done, before := done + ["{"], pw.text;
      pw.Println(p);
      PrintedLine(head, done, p, before, pw.text);
      done, before := done + [p], pw.text;
      pw.Println(q);
      PrintedLine(head, done, q, before, pw.text);
      done, before := done + [q], pw.text;
      pw.Print("}");
      PrintedLast(head, done, "}", before, pw.text);
      assert done + ["}"] == LightLines(doubles, floats, Light(pos, colour));
      Extend(pw.text, head, start, "\n", JoinLines(done + ["}"]), BrushText(done + ["}"]));
    }
  }

  //#################### TRANSLATION COMMANDS ####################

  /** The command `generate_translation_command` returns: the offset, and its negation for undo. */
  datatype TranslationCommand = TranslationCommand(offset: Vec3, negOffset: Vec3)

  /** `generate_translation_command(offset)`: undoing it moves by exactly the opposite offset. */
  function TranslationCommandOf(offset: Vec3): (c: TranslationCommand)
    ensures c.offset == offset && Add(c.offset, c.negOffset) == Zero3
  {
    TranslationCommand(offset, Neg(offset))
  }

  /** Executing a translation command and then undoing it restores the box. */
  lemma UndoRestores(b: Box, offset: Vec3)
    ensures var c := TranslationCommandOf(offset); Translated(Translated(b, c.offset), c.negOffset) == b
  {
    TranslatedBack(b, offset);
  }

  /**
   * What the canvas supplies and this model does not look inside: the box
   * corner handle nearest a point, the nearest grid intersection, and the
   * 3D offset a 2D canvas offset stands for.
   */
  datatype Canvas = Canvas(nearestCorner: (Box, Vec2) -> Vec2, snap: Vec2 -> Vec2, lift: Vec2 -> Vec3)

  /** `NullTransformation`: constructing it only sets the state. */
  class NullTransformation {
    const brush: LightBrush

    constructor (brush: LightBrush)
      requires brush.Valid()
      modifies brush
      ensures brush.Valid()
      ensures this.brush == brush && brush.state == Transforming
      ensures brush.box == old(brush.box) && brush.cachedBox == old(brush.cachedBox)
      ensures brush.colour == old(brush.colour) && brush.isGhost == old(brush.isGhost)
    {
      this.brush := brush;
      new;
      brush.state := Transforming;
    }
  }

  /** `TranslationTransformation`: dragging a brush across a canvas. */
  class TranslationTransformation {
    const brush: LightBrush
    var anchor: Vec2
    var dragOffset: Vec2
    var fixedCorner: Vec2
    var offset: Vec3

    /**
     * A transformation starts by entering the transforming state and caching
     * the box; the nearest corner handle to the click is the fixed corner the
     * drag is measured from.
     */
    constructor (brush: LightBrush, canvas: Canvas, p: Vec2)
      requires brush.Valid()
      modifies brush
      ensures brush.Valid()
      ensures this.brush == brush && brush.state == Transforming
      ensures brush.cachedBox == Some(old(brush.box)) && brush.box == old(brush.box)
      ensures brush.colour == old(brush.colour) && brush.isGhost == old(brush.isGhost)
      ensures fixedCorner == canvas.nearestCorner(old(brush.box), p) && dragOffset == Sub2(p, fixedCorner)
      ensures anchor == fixedCorner && offset == Zero3
    {
      this.brush := brush;
      var corner := canvas.nearestCorner(brush.box, p);
      fixedCorner := corner;
      dragOffset := Sub2(p, corner);
      anchor := corner;
      offset := Zero3;
      new;
      brush.state := Transforming;
      brush.BeginTransform();
    }

    /**
     * `transform(p)`: the fixed corner follows the point at the drag offset
     * (snapped to the grid if that option is set); the anchor moves there and
     * the brush is translated from its cached box by the corresponding offset.
     */
    method Transform(canvas: Canvas, p: Vec2, snapToGrid: bool)
      requires brush.cachedBox.Some? && brush.Valid()
      modifies this, brush
      ensures brush.Valid()
      ensures var corner := if snapToGrid then canvas.snap(Sub2(p, dragOffset)) else Sub2(p, dragOffset);
        anchor == corner && offset == canvas.lift(Sub2(corner, fixedCorner))
      ensures brush.box == Translated(old(brush.cachedBox.value), offset)
      ensures fixedCorner == old(fixedCorner) && dragOffset == old(dragOffset)
      ensures brush.cachedBox == old(brush.cachedBox) && brush.colour == old(brush.colour)
      ensures brush.isGhost == old(brush.isGhost) && brush.state == old(brush.state)
    {
      var corner := Sub2(p, dragOffset);
      if snapToGrid {
        corner := canvas.snap(corner);
      }
      var trans := Sub2(corner, fixedCorner);
      anchor := corner;
      offset := canvas.lift(trans);
      brush.Translate(offset);
    }

    /**
     * `execute_command`: nothing when the offset is zero; otherwise the brush
     * is reset to its cached box and the translation command is executed (the
     * command manager runs it), so the offset is applied exactly once.
     */
    method ExecuteCommand() returns (issued: Option<TranslationCommand>)
      requires brush.cachedBox.Some? && brush.Valid()
      modifies brush
      ensures brush.Valid()
      ensures offset == Zero3 ==> issued == None && brush.box == old(brush.box) && brush.cachedBox == old(brush.cachedBox)
      ensures offset != Zero3 ==> (issued == Some(TranslationCommandOf(offset))
        && brush.box == Translated(old(brush.cachedBox.value), offset) && brush.cachedBox == old(brush.cachedBox))
      ensures brush.colour == old(brush.colour) && brush.isGhost == old(brush.isGhost) && brush.state == old(brush.state)
    {
      if offset == Zero3 {
        return None;
      }
      brush.Translate(Zero3);
      ResetIsCached(old(brush.cachedBox.value));
      var c := TranslationCommandOf(offset);
      brush.ExecuteTranslation(c);
      issued := Some(c);
    }
  }

  /** Translating by zero gives the box itself. */
  lemma ResetIsCached(b: Box)
    ensures Translated(b, Zero3) == b
  {
  }

  //#################### THE FILE BLOCK ####################

  const LightBrushName := "LightBrush"
  const PositionName := "Position"
  const ColourName := "Colour"
  const PositionMissing := "Light position not found"
  const ColourMissing := "Light colour not found"
  /** What splitting the null that `readLine` returns at the end of the input throws. */
  const EndOfInput := "NullPointerException"
  const NotANumber := "NumberFormatException"
  const ColourOutOfRange := "Color parameter outside of expected range"

  /** A light as its file block describes it. */
  datatype Light = Light(position: Vec3, colour: Colour)

  /** Tokens 3, 4 and 5 of a seven-token line, each read as a number. */
  function Triple(f: NumberText, tokens: seq<string>): (r: Result<Vec3>)
    requires |tokens| == 7
    ensures r.Ok? <==> f.read(tokens[3]).Some? && f.read(tokens[4]).Some? && f.read(tokens[5]).Some?
    ensures r.Ok? ==> r.value == Vec3(f.read(tokens[3]).value, f.read(tokens[4]).value, f.read(tokens[5]).value)
    ensures r.Err? ==> r.error == NotANumber
  {
    match (f.read(tokens[3]), f.read(tokens[4]), f.read(tokens[5]))
    case (Some(x), Some(y), Some(z)) => Ok(Vec3(x, y, z))
    case _ => Err(NotANumber)
  }

  /** A field line: exactly seven tokens between single spaces, the first of them the field's name. */
  function FieldAt(f: NumberText, line: string, name: string, missing: string): (r: Result<Vec3>)
    ensures var tokens := JavaSplit(line); !(|tokens| == 7 && tokens[0] == name) ==> r == Err(missing)
    ensures var tokens := JavaSplit(line); |tokens| == 7 && tokens[0] == name ==> r == Triple(f, tokens)
  {
    var tokens := JavaSplit(line);
    if |tokens| != 7 || tokens[0] != name then Err(missing) else Triple(f, tokens)
  }

  /** `new Color(r, g, b)`: refuses components outside [0, 1]. */
  function ColourOf(v: Vec3): (r: Result<Colour>)
    ensures r.Ok? <==> InRange(Colour(v.x, v.y, v.z))
    ensures r.Ok? ==> r.value == Colour(v.x, v.y, v.z)
  {
    var c := Colour(v.x, v.y, v.z);
    if InRange(c) then Ok(c) else Err(ColourOutOfRange)
  }

  /**
   * `load_MEF3`, from the line after `LightBrush`: the opening brace and the
   * closing brace are read without being looked at; in between, a Position
   * line (doubles) and a Colour line (floats).
   */
  function LightAt(doubles: NumberText, floats: NumberText, lines: seq<string>, pos: nat): (r: Result<Parsed<Light>>)
    ensures r.Err? ==> r.error in {EndOfInput, PositionMissing, ColourMissing, NotANumber, ColourOutOfRange}
    ensures r.Ok? ==> pos + 3 <= r.value.next <= pos + 4 && r.value.next <= |lines|
    ensures r.Ok? ==> InRange(r.value.value.colour)
  {
    var p := GetLineAt(lines, pos).next;
    if p >= |lines| then Err(EndOfInput)
    else
      var position :- FieldAt(doubles, lines[p], PositionName, PositionMissing);
      if p + 1 >= |lines| then Err(EndOfInput)
      else
        var rgb :- FieldAt(floats, lines[p + 1], ColourName, ColourMissing);
        var colour :- ColourOf(rgb);
        Ok(Parsed(Light(position, colour), GetLineAt(lines, p + 2).next))
  }

  /** `load_MEF3` as a block reader. */
  function LightReader(doubles: NumberText, floats: NumberText): BlockParse<Light>
  {
    (lines: seq<string>, pos: nat) => LightAt(doubles, floats, lines, pos)
  }

  /** `Position = ( x y z )`, as `save_MEF3` concatenates it: the tokens between single spaces. */
  function PositionLine(doubles: NumberText, p: Vec3): string
  {
    Join([PositionName, "=", "(", doubles.show(p.x), doubles.show(p.y), doubles.show(p.z), ")"])
  }

  /** `Colour = [ r g b ]`, as `save_MEF3` concatenates it. */
  function ColourLine(floats: NumberText, c: Colour): string
  {
    Join([ColourName, "=", "[", floats.show(c.r), floats.show(c.g), floats.show(c.b), "]"])
  }

  /** The lines of a light's block, its class name first. */
  function LightLines(doubles: NumberText, floats: NumberText, l: Light): seq<string>
  {
    [LightBrushName, "{", PositionLine(doubles, l.position), ColourLine(floats, l.colour), "}"]
  }

  /** Printing line k after lines 0 … k−1 with a line end each. */
  lemma PrintedLine(head: string, done: seq<string>, l: string, before: string, after: string)
    requires before == head + Unlines(done) && after == before + l + "\n"
    ensures after == head + Unlines(done + [l])
  {
    UnlinesSnoc(done, l);
  }

  /** Printing the last line without a line end completes the lines. */
  lemma PrintedLast(head: string, done: seq<string>, last: string, before: string, after: string)
    requires before == head + Unlines(done) && after == before + last
    ensures after == head + JoinLines(done + [last])
  {
    assert (done + [last])[..|done|] == done;
  }

  /** `load_MEF3` over the stream: a new brush, not a ghost and idle, centred on the position read. */
  method LoadMef3(doubles: NumberText, floats: NumberText, input: LineStream) returns (r: Result<LightBrush>)
    requires input.Valid()
    modifies input
    ensures input.Valid()
    ensures var s := LightAt(doubles, floats, input.lines, old(input.pos));
      (r.Ok? <==> s.Ok?) && (s.Err? ==> r.error == s.error)
      && (s.Ok? ==> (input.pos == s.value.next && fresh(r.value) && r.value.box == BoundingBoxAround(s.value.value.position)
          && Centre(r.value.box) == s.value.value.position && r.value.colour == s.value.value.colour
          && !r.value.isGhost && r.value.state == Idle && r.value.Valid()))
  {
    var _ := input.GetLine();
    if input.pos >= |input.lines| {
      return Err(EndOfInput);
    }
    var line := input.GetLine();
    var position := FieldAt(doubles, line, PositionName, PositionMissing);
    if position.Err? {
      return Err(position.error);
    }
    if input.pos >= |input.lines| {
      return Err(EndOfInput);
    }
    line := input.GetLine();
    var rgb := FieldAt(floats, line, ColourName, ColourMissing);
    if rgb.Err? {
      return Err(rgb.error);
    }
    var colour := ColourOf(rgb.value);
    if colour.Err? {
      return Err(colour.error);
    }
    var _ := input.GetLine();
    var b := new LightBrush.Make(position.value, colour.value, false, false);
    r := Ok(b);
  }

  //#################### READING A SAVED LIGHT BACK ####################

  /** A number written as one token without spaces and read back as itself. */
  predicate Shown(f: NumberText, x: real)
  {
    IsToken(f.show(x)) && f.read(f.show(x)) == Some(x)
  }

  /** A light whose block reads back as itself: its numbers survive their text, and its colour is in range. */
  predicate Writable(doubles: NumberText, floats: NumberText, l: Light)
  {
    Shown(doubles, l.position.x) && Shown(doubles, l.position.y) && Shown(doubles, l.position.z)
    && Shown(floats, l.colour.r) && Shown(floats, l.colour.g) && Shown(floats, l.colour.b) && InRange(l.colour)
  }

  lemma TokenHasNoSpace(t: string)
    requires IsToken(t)
    ensures NoSep(t, IsBlank)
  {
    assert forall k :: 0 <= k < |t| ==> !IsSpace(t[k]);
  }

  /** A field line as written splits back into its seven tokens and reads back as its numbers. */
  lemma FieldRead(f: NumberText, name: string, open: string, close: string, v: Vec3, missing: string)
    requires Shown(f, v.x) && Shown(f, v.y) && Shown(f, v.z)
    requires name != "" && NoSep(name, IsBlank) && NoSep(open, IsBlank) && close != "" && NoSep(close, IsBlank)
    requires |open| == 1
    ensures FieldAt(f, Join([name, "=", open, f.show(v.x), f.show(v.y), f.show(v.z), close]), name, missing) == Ok(v)
  {
    var ts := [name, "=", open, f.show(v.x), f.show(v.y), f.show(v.z), close];
    TokenHasNoSpace(f.show(v.x));
    TokenHasNoSpace(f.show(v.y));
    TokenHasNoSpace(f.show(v.z));
    assert NoSep("=", IsBlank);
    JavaSplitOfJoin(ts);
  }

  lemma PositionRead(doubles: NumberText, p: Vec3)
    requires Shown(doubles, p.x) && Shown(doubles, p.y) && Shown(doubles, p.z)
    ensures FieldAt(doubles, PositionLine(doubles, p), PositionName, PositionMissing) == Ok(p)
  {
    assert NoSep(PositionName, IsBlank) && NoSep("(", IsBlank) && NoSep(")", IsBlank);
    FieldRead(doubles, PositionName, "(", ")", p, PositionMissing);
  }

  lemma ColourRead(floats: NumberText, c: Colour)
    requires Shown(floats, c.r) && Shown(floats, c.g) && Shown(floats, c.b)
    ensures FieldAt(floats, ColourLine(floats, c), ColourName, ColourMissing) == Ok(Vec3(c.r, c.g, c.b))
  {
    assert NoSep(ColourName, IsBlank) && NoSep("[", IsBlank) && NoSep("]", IsBlank);
    FieldRead(floats, ColourName, "[", "]", Vec3(c.r, c.g, c.b), ColourMissing);
  }

  /** The block `save_MEF3` writes for a light is read by `load_MEF3` as that light. */
  lemma LightBlockReads(doubles: NumberText, floats: NumberText, l: Light, w: seq<string>)
    requires Writable(doubles, floats, l) && w == LightLines(doubles, floats, l)[1..]
    ensures BlockReads(LightReader(doubles, floats), w, l)
  {
    PositionRead(doubles, l.position);
    ColourRead(floats, l.colour);
    forall lines: seq<string>, pos: nat | At(lines, pos, w)
      ensures LightReader(doubles, floats)(lines, pos) == Ok(Parsed(l, pos + |w|))
    {
      LightReadAt(doubles, floats, l, w, lines, pos);
    }
  }

  lemma LightReadAt(doubles: NumberText, floats: NumberText, l: Light, w: seq<string>, lines: seq<string>, pos: nat)
    requires FieldAt(doubles, PositionLine(doubles, l.position), PositionName, PositionMissing) == Ok(l.position)
    requires FieldAt(floats, ColourLine(floats, l.colour), ColourName, ColourMissing) == Ok(Vec3(l.colour.r, l.colour.g, l.colour.b))
    requires InRange(l.colour)
    requires w == ["{", PositionLine(doubles, l.position), ColourLine(floats, l.colour), "}"] && At(lines, pos, w)
    ensures LightAt(doubles, floats, lines, pos) == Ok(Parsed(l, pos + |w|))
  {
    AtIndex(lines, pos, w, 0);
    AtIndex(lines, pos, w, 1);
    AtIndex(lines, pos, w, 2);
    AtIndex(lines, pos, w, 3);
  }

  /** How a light is saved, as the brush texts of a map file take it. */
  function LightSave(doubles: NumberText, floats: NumberText): Light -> seq<string>
  {
    l => LightLines(doubles, floats, l)
  }

  /** The class `LightBrush`, as reflection finds it, is the loader above. */
  ghost predicate LightClass(cls: BrushClasses<Light>, doubles: NumberText, floats: NumberText)
  {
    cls.missing(3, LightBrushName).None?
    && forall lines: seq<string>, pos: nat :: cls.load(3, LightBrushName, lines, pos) == LightAt(doubles, floats, lines, pos)
  }

  lemma LightSavesAs(cls: BrushClasses<Light>, doubles: NumberText, floats: NumberText, l: Light)
    requires LightClass(cls, doubles, floats) && Writable(doubles, floats, l)
    ensures SavesAs(cls, LightSave(doubles, floats), l)
  {
    var ls := LightLines(doubles, floats, l);
    assert LightSave(doubles, floats)(l) == ls;
    LightBlockReads(doubles, floats, l, ls[1..]);
    PositionRead(doubles, l.position);
    ColourRead(floats, l.colour);
    LightLinesAreLines(doubles, floats, l);
    forall lines: seq<string>, pos: nat ensures ClassReader(cls, 3, ls[0])(lines, pos) == LightReader(doubles, floats)(lines, pos) {
    }
  }

  lemma LightLinesAreLines(doubles: NumberText, floats: NumberText, l: Light)
    requires Shown(doubles, l.position.x) && Shown(doubles, l.position.y) && Shown(doubles, l.position.z)
    requires Shown(floats, l.colour.r) && Shown(floats, l.colour.g) && Shown(floats, l.colour.b)
    ensures AllLines(LightLines(doubles, floats, l))
  {
    var p := [PositionName, "=", "(", doubles.show(l.position.x), doubles.show(l.position.y), doubles.show(l.position.z), ")"];
    var c := [ColourName, "=", "[", floats.show(l.colour.r), floats.show(l.colour.g), floats.show(l.colour.b), "]"];
    assert AllLines(p) by {
      forall i | 0 <= i < 7 ensures IsLine(p[i]) {
        assert IsToken(p[i]) || i < 3 || i == 6;
      }
    }
    assert AllLines(c) by {
      forall i | 0 <= i < 7 ensures IsLine(c[i]) {
        assert IsToken(c[i]) || i < 3 || i == 6;
      }
    }
    JoinOfLines(p);
    JoinOfLines(c);
  }

  /**
   * A map of lights saved by `save_MEF3` loads back as the same lights in
   * order, with the saved textures registered.
   */
  lemma LightMapRoundTrip(cls: BrushClasses<Light>, doubles: NumberText, floats: NumberText, present: string -> bool,
                          ts: seq<(string, string)>, lights: seq<Light>, textures: map<string, string>)
    requires Forward(cls) && LightClass(cls, doubles, floats)
    requires forall i :: 0 <= i < |ts| ==> CleanTexture(ts[i])
    requires forall i :: 0 <= i < |lights| ==> Writable(doubles, floats, lights[i])
    ensures LoadAt(cls, present, SplitLines(SaveText(ts, LightSave(doubles, floats), lights)), textures)
      == Run(Done(lights), Registered(present, map[], ts))
  {
    forall i | 0 <= i < |lights| ensures SavesAs(cls, LightSave(doubles, floats), lights[i]) {
      LightSavesAs(cls, doubles, floats, lights[i]);
    }
    LoadOfSave(cls, present, ts, LightSave(doubles, floats), lights, textures);
  }
}
