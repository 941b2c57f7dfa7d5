/**
 * `MapFileMEF`: the map editor's own file format. A file starts with a
 * version line `MEF 0` … `MEF 3`; after it, each line either names the
 * brush class whose loader reads the block that follows, or (from version 1
 * on) is `Textures`, which starts the list of texture names and files.
 * Saving always writes version 3.
 */
module MapFileMef {
  import opened Common
  import opened LineIO
  import opened JavaIO

  //#################### OUTCOMES ####################

  /**
   * What `load` can throw: an `IOException` (its message may be null), a
   * `java.lang.Error` (the same), or the `NullPointerException` of an
   * empty file.
   */
  datatype Failure = IOException(message: Option<string>) | JavaError(message: Option<string>) | NullPointer

  datatype Outcome<T> = Done(value: T) | Thrown(failure: Failure)

  const InvalidFileType := "Invalid file type"
  const TextureDetails := "Error reading texture details"
  const TexturesName := "Textures"
  const ClosingBrace := "}"
  const Mef0 := "MEF 0"
  const Mef1 := "MEF 1"
  const Mef2 := "MEF 2"
  const Mef3 := "MEF 3"

  //#################### BRUSH CLASSES ####################

  /**
   * The brush classes, as reflection finds them: `missing(v, name)` is the
   * message of the exception raised when `MapEditor.Brushes.<name>` or its
   * `load_MEF<v>` method does not exist, and `load(v, name, lines, pos)` is
   * that method reading from line `pos`. A loader that fails is reported
   * through the wrapping `InvocationTargetException`, whose own message is
   * null.
   */
  datatype BrushClasses<B> = BrushClasses(
    missing: (nat, string) -> Option<string>,
    load: (nat, string, seq<string>, nat) -> Result<Parsed<B>>)

  /** A reader never moves backwards or past the end of the input. */
  ghost predicate Forward<B>(cls: BrushClasses<B>)
  {
    forall v: nat, name: string, lines: seq<string>, pos: nat {:trigger cls.load(v, name, lines, pos)} ::
      pos <= |lines| && cls.load(v, name, lines, pos).Ok? ==> pos <= cls.load(v, name, lines, pos).value.next <= |lines|
  }

  /** The loader of one class, as a block reader. */
  function ClassReader<B>(cls: BrushClasses<B>, v: nat, name: string): BlockParse<B>
  {
    (lines: seq<string>, pos: nat) => cls.load(v, name, lines, pos)
  }

  //#################### TEXTURES ####################

  /**
   * `TextureManager.load_texture`, whose code is not part of this model: a
   * texture whose file exists is registered under its name (replacing an
   * earlier one); a missing file registers nothing.
   */
  function LoadTexture(textures: map<string, string>, present: string -> bool, name: string, file: string): (r: map<string, string>)
    ensures present(file) ==> r == textures[name := file]
    ensures !present(file) ==> r == textures
  {
    if present(file) then textures[name := file] else textures
  }

  /** The singleton texture manager: texture names and the files they were loaded from. */
  class TextureManager {
    var textures: map<string, string>

    constructor ()
      ensures textures == map[]
    {
      textures := map[];
    }

    method UnloadAll()
      modifies this
      ensures textures == map[]
    {
      textures := map[];
    }

    /** Whether the file was found (the source reports a missing one as null). */
    method Load(name: string, file: string, present: string -> bool) returns (found: bool)
      modifies this
      ensures found == present(file)
      ensures textures == LoadTexture(old(textures), present, name, file)
    {
      found := present(file);
      if found {
        textures := textures[name := file];
      }
    }
  }

  /** How a texture segment ended: its error if any, the position after it, and the textures registered. */
  datatype Segment = Segment(error: Option<string>, next: nat, textures: map<string, string>)

  /** The texture lines from `pos` up to the first `}` or the end of the input. */
  function TextureLinesAt(present: string -> bool, lines: seq<string>, pos: nat, textures: map<string, string>): (s: Segment)
    requires pos <= |lines|
    ensures pos <= s.next <= |lines|
    ensures s.error.Some? ==> s.error == Some(TextureDetails)
    decreases |lines| - pos
  {
    if pos == |lines| then Segment(None, pos, textures)
    else if lines[pos] == ClosingBrace then Segment(None, pos + 1, textures)
    else
      var t := Trim(lines[pos]);
      match IndexOf(t, ' ')
      case None => Segment(Some(TextureDetails), pos + 1, textures)
      case Some(i) => TextureLinesAt(present, lines, pos + 1, LoadTexture(textures, present, t[..i], t[i + 1..]))
  }

  /**
   * `load_texture_segment`, from the line after `Textures`: every texture is
   * unloaded first, and the opening-brace line is consumed without being
   * looked at (at the end of the input, nothing is consumed).
   */
  function TextureSegmentAt(present: string -> bool, lines: seq<string>, pos: nat): (s: Segment)
    requires pos <= |lines|
    ensures pos <= s.next <= |lines|
    ensures pos < |lines| ==> pos < s.next
    ensures pos == |lines| ==> s == Segment(None, pos, map[])
  {
    TextureLinesAt(present, lines, if pos < |lines| then pos + 1 else pos, map[])
  }

  /** No `}` line between `from` (inclusive) and `to` (exclusive). */
  predicate Unclosed(lines: seq<string>, from: nat, to: nat)
    requires from <= to <= |lines|
  {
    forall k :: from <= k < to ==> lines[k] != ClosingBrace
  }

  /** Where a texture segment that did not fail ended: at the first `}` from `pos` (consumed), or at the end of the input. */
  predicate EndsAtBrace(lines: seq<string>, pos: nat, next: nat)
    requires pos <= next <= |lines|
  {
    (next == |lines| && Unclosed(lines, pos, |lines|)) || (pos < next && lines[next - 1] == ClosingBrace && Unclosed(lines, pos, next - 1))
  }

  lemma EndsAtBraceCons(lines: seq<string>, pos: nat, next: nat)
    requires pos < |lines| && lines[pos] != ClosingBrace && pos + 1 <= next <= |lines| && EndsAtBrace(lines, pos + 1, next)
    ensures EndsAtBrace(lines, pos, next)
  {
  }

  /** The texture lines stop at the first `}` (which is consumed), or at the end of the input. */
  lemma {:induction false} TextureLinesEnd(present: string -> bool, lines: seq<string>, pos: nat, textures: map<string, string>)
    requires pos <= |lines|
    ensures var s := TextureLinesAt(present, lines, pos, textures);
      s.error.None? ==> EndsAtBrace(lines, pos, s.next)
    decreases |lines| - pos
  {
    var s := TextureLinesAt(present, lines, pos, textures);
    if pos < |lines| && lines[pos] != ClosingBrace {
      var t := Trim(lines[pos]);
      if IndexOf(t, ' ').Some? {
        var i := IndexOf(t, ' ').value;
        var more := LoadTexture(textures, present, t[..i], t[i + 1..]);
        assert s == TextureLinesAt(present, lines, pos + 1, more);
        TextureLinesEnd(present, lines, pos + 1, more);
        if s.error.None? {
          EndsAtBraceCons(lines, pos, s.next);
        }
      }
    }
  }

  /** A texture line with no space after trimming ends the segment with an error. */
  lemma TextureLineWithoutSpace(present: string -> bool, lines: seq<string>, pos: nat, textures: map<string, string>)
    requires pos < |lines| && lines[pos] != ClosingBrace && IndexOf(Trim(lines[pos]), ' ').None?
    ensures TextureLinesAt(present, lines, pos, textures) == Segment(Some(TextureDetails), pos + 1, textures)
  {
  }

  /** A texture whose file is missing is skipped: the rest of the segment is read as if the line were not there. */
  lemma MissingTextureSkipped(present: string -> bool, lines: seq<string>, pos: nat, textures: map<string, string>, i: nat)
    requires pos < |lines| && lines[pos] != ClosingBrace && IndexOf(Trim(lines[pos]), ' ') == Some(i)
    requires !present(Trim(lines[pos])[i + 1..])
    ensures TextureLinesAt(present, lines, pos, textures) == TextureLinesAt(present, lines, pos + 1, textures)
  {
  }

  //#################### THE BRUSH LOOP ####################

  /** What a load leaves behind: its outcome, and the textures registered by then. */
  datatype Run<B> = Run(outcome: Outcome<seq<B>>, textures: map<string, string>)

  /** The brushes `acc` loaded before the run `r`. */
  function Prepended<B>(acc: seq<B>, r: Run<B>): (q: Run<B>)
    ensures q.textures == r.textures
    ensures q.outcome.Done? <==> r.outcome.Done?
    ensures r.outcome.Done? ==> q.outcome.value == acc + r.outcome.value
    ensures r.outcome.Thrown? ==> q == r
  {
    match r.outcome
    case Done(bs) => Run(Done(acc + bs), r.textures)
    case Thrown(_) => r
  }

  lemma PrependedPrepended<B>(a: seq<B>, b: seq<B>, r: Run<B>)
    ensures Prepended(a, Prepended(b, r)) == Prepended(a + b, r)
  {
    if r.outcome.Done? {
      assert a + (b + r.outcome.value) == (a + b) + r.outcome.value;
    }
  }

  /**
   * The `while` loop of `load_MEF<v>` from the line at `pos`: a `Textures`
   * line (from version 1 on) starts a texture segment, any other line names
   * the brush class whose loader reads what follows.
   */
  function LoadLoopAt<B>(v: nat, cls: BrushClasses<B>, present: string -> bool, lines: seq<string>, pos: nat, textures: map<string, string>): (r: Run<B>)
    requires Forward(cls) && pos <= |lines|
    decreases |lines| - pos
  {
    if pos == |lines| then Run(Done([]), textures)
    else if v > 0 && lines[pos] == TexturesName then
      var s := TextureSegmentAt(present, lines, pos + 1);
      if s.error.Some? then Run(Thrown(IOException(s.error)), s.textures)
      else LoadLoopAt(v, cls, present, lines, s.next, s.textures)
    else
      match cls.missing(v, lines[pos])
      case Some(m) => Run(Thrown(JavaError(if v >= 2 then Some(m) else None)), textures)
      case None =>
        match cls.load(v, lines[pos], lines, pos + 1)
        case Err(_) => Run(Thrown(IOException(None)), textures)
        case Ok(b) => Prepended([b.value], LoadLoopAt(v, cls, present, lines, b.next, textures))
  }

  /** The version a first line announces: exactly `MEF 0` … `MEF 3` are known. */
  function Version(header: string): (r: Option<nat>)
    ensures r.Some? <==> header == Mef0 || header == Mef1 || header == Mef2 || header == Mef3
    ensures r.Some? ==> r.value <= 3 && header == "MEF " + [DigitChar(r.value)]
  {
    if header == Mef0 then Some(0)
    else if header == Mef1 then Some(1)
    else if header == Mef2 then Some(2)
    else if header == Mef3 then Some(3)
    else None
  }

  /** `load`: the header line picks the version; an empty file fails on the missing first line. */
  function LoadAt<B>(cls: BrushClasses<B>, present: string -> bool, lines: seq<string>, textures: map<string, string>): (r: Run<B>)
    requires Forward(cls)
    ensures |lines| == 0 ==> r == Run(Thrown(NullPointer), textures)
    ensures |lines| > 0 && Version(lines[0]).None? ==> r == Run(Thrown(IOException(Some(InvalidFileType))), textures)
  {
    if |lines| == 0 then Run(Thrown(NullPointer), textures)
    else
      match Version(lines[0])
      case None => Run(Thrown(IOException(Some(InvalidFileType))), textures)
      case Some(v) => LoadLoopAt(v, cls, present, lines, 1, textures)
  }

  /** In version 0 a `Textures` line is just another class name. */
  lemma TexturesIsAClassInVersion0<B>(cls: BrushClasses<B>, present: string -> bool, lines: seq<string>, pos: nat, textures: map<string, string>, m: string)
    requires Forward(cls) && pos < |lines| && lines[pos] == TexturesName && cls.missing(0, TexturesName) == Some(m)
    ensures LoadLoopAt(0, cls, present, lines, pos, textures) == Run(Thrown(JavaError(None)), textures)
  {
  }

  /** From version 1 on, a `Textures` line starts a segment that replaces every texture loaded before. */
  lemma TexturesReplaced<B>(v: nat, cls: BrushClasses<B>, present: string -> bool, lines: seq<string>, pos: nat, textures: map<string, string>)
    requires Forward(cls) && v > 0 && pos < |lines| && lines[pos] == TexturesName
    ensures var s := TextureSegmentAt(present, lines, pos + 1);
      s.error.None? ==> LoadLoopAt(v, cls, present, lines, pos, textures) == LoadLoopAt(v, cls, present, lines, s.next, s.textures)
    ensures LoadLoopAt(v, cls, present, lines, pos, textures) == LoadLoopAt(v, cls, present, lines, pos, map[])
  {
  }

  //#################### LOADING, STEP BY STEP ####################

  /** The texture lines as a reader over any position. */
  function TextureReader(present: string -> bool): (seq<string>, nat, map<string, string>) -> Segment
  {
    (lines: seq<string>, pos: nat, textures: map<string, string>) =>
      if pos <= |lines| then TextureLinesAt(present, lines, pos, textures) else Segment(None, pos, textures)
  }

  lemma TextureStep(present: string -> bool, lines: seq<string>, pos: nat, textures: map<string, string>, line: string, i: nat, next: nat,
                    name: string, file: string)
    requires pos < |lines| && lines[pos] == line && next == pos + 1 && line != ClosingBrace
    requires IndexOf(Trim(line), ' ') == Some(i) && name == Trim(line)[..i] && file == Trim(line)[i + 1..]
    ensures TextureReader(present)(lines, pos, textures) == TextureReader(present)(lines, next, LoadTexture(textures, present, name, file))
  {
    var more := LoadTexture(textures, present, name, file);
    assert TextureLinesAt(present, lines, pos, textures) == TextureLinesAt(present, lines, next, more);
    assert TextureReader(present)(lines, next, more) == TextureLinesAt(present, lines, next, more);
  }

  lemma TextureSegmentStart(present: string -> bool, lines: seq<string>, pos: nat, next: nat)
    requires pos <= |lines| && next == (if pos < |lines| then pos + 1 else pos)
    ensures TextureSegmentAt(present, lines, pos) == TextureReader(present)(lines, next, map[])
  {
  }

  /** `load_texture_segment` over the stream, updating the texture manager. */
  method ReadTextureSegment(input: LineStream, present: string -> bool, tm: TextureManager) returns (r: Result<()>)
    requires input.Valid()
    modifies input, tm
    ensures input.Valid()
    ensures var s := TextureSegmentAt(present, input.lines, old(input.pos));
      (r.Err? <==> s.error.Some?) && (r.Err? ==> r.error == s.error.value) && input.pos == s.next && tm.textures == s.textures
  {
    ghost var whole := TextureSegmentAt(present, input.lines, input.pos);
    ghost var start := input.pos;
    tm.UnloadAll();
    var _ := input.GetLine();
    TextureSegmentStart(present, input.lines, start, input.pos);
    while input.pos < |input.lines|
      invariant input.Valid()
      invariant whole == TextureReader(present)(input.lines, input.pos, tm.textures)
      decreases |input.lines| - input.pos
    {
      ghost var here := input.pos;
      var line := input.GetLine();
      if line == ClosingBrace {
        return Ok(());
      }
      var t := Trim(line);
      var space := IndexOf(t, ' ');
      if space.None? {
        return Err(TextureDetails);
      }
      var name, file := t[..space.value], t[space.value + 1..];
      TextureStep(present, input.lines, here, tm.textures, line, space.value, input.pos, name, file);
      var found := tm.Load(name, file, present);
    }
    r := Ok(());
  }

  /** The brush loop as a reader over any position. */
  ghost function LoopReader<B>(v: nat, cls: BrushClasses<B>, present: string -> bool): (seq<string>, nat, map<string, string>) -> Run<B>
  {
    (lines: seq<string>, pos: nat, textures: map<string, string>) =>
      if Forward(cls) && pos <= |lines| then LoadLoopAt(v, cls, present, lines, pos, textures) else Run(Done([]), textures)
  }

  lemma LoadTexturesStep<B>(v: nat, cls: BrushClasses<B>, present: string -> bool, lines: seq<string>, pos: nat, textures: map<string, string>, next: nat, s: Segment)
    requires Forward(cls) && v > 0 && pos < |lines| && lines[pos] == TexturesName && next == pos + 1
    requires s == TextureSegmentAt(present, lines, next) && s.error.None?
    ensures LoadLoopAt(v, cls, present, lines, pos, textures) == LoadLoopAt(v, cls, present, lines, s.next, s.textures)
  {
  }

  lemma LoadBrushStep<B>(v: nat, cls: BrushClasses<B>, present: string -> bool, lines: seq<string>, pos: nat, textures: map<string, string>, next: nat, b: Parsed<B>)
    requires Forward(cls) && pos < |lines| && next == pos + 1 && !(v > 0 && lines[pos] == TexturesName)
    requires cls.missing(v, lines[pos]).None? && cls.load(v, lines[pos], lines, next) == Ok(b)
    ensures pos < b.next <= |lines|
    ensures LoadLoopAt(v, cls, present, lines, pos, textures) == Prepended([b.value], LoadLoopAt(v, cls, present, lines, b.next, textures))
  {
  }

  /** The outcome of one step of the brush loop, ahead of the rest. */
  lemma LoadStepCombine<B>(whole: Run<B>, acc: seq<B>, here: Run<B>, added: seq<B>, rest: Run<B>)
    requires whole == Prepended(acc, here) && here == Prepended(added, rest)
    ensures whole == Prepended(acc + added, rest)
  {
    PrependedPrepended(acc, added, rest);
  }

  /**
   * One pass of the loop of `load_MEF<v>`, after its line `line` was read:
   * a texture segment, or one brush appended to `brushes`.
   */
  method LoadStep<B>(v: nat, cls: BrushClasses<B>, present: string -> bool, input: LineStream, tm: TextureManager, line: string,
                     brushes: seq<B>, ghost whole: Run<B>)
    returns (thrown: Option<Failure>, more: seq<B>)
    requires Forward(cls) && input.Valid() && 0 < input.pos && input.lines[input.pos - 1] == line
    requires whole == Prepended(brushes, LoopReader(v, cls, present)(input.lines, input.pos - 1, tm.textures))
    modifies input, tm
    ensures input.Valid() && old(input.pos) <= input.pos
    ensures thrown.Some? ==> whole == Run(Thrown(thrown.value), tm.textures)
    ensures thrown.None? ==> whole == Prepended(more, LoopReader(v, cls, present)(input.lines, input.pos, tm.textures))
  {
    ghost var here := input.pos - 1;
    ghost var before := tm.textures;
    more := brushes;
    if v > 0 && line == TexturesName {
      ghost var s := TextureSegmentAt(present, input.lines, input.pos);
      var t := ReadTextureSegment(input, present, tm);
      if t.Err? {
        return Some(IOException(Some(t.error))), more;
      }
      LoadTexturesStep(v, cls, present, input.lines, here, before, here + 1, s);
      return None, more;
    }
    var m := cls.missing(v, line);
    if m.Some? {
      return Some(JavaError(if v >= 2 then Some(m.value) else None)), more;
    }
    var b := cls.load(v, line, input.lines, input.pos);
    if b.Err? {
      return Some(IOException(None)), more;
    }
    LoadBrushStep(v, cls, present, input.lines, here, tm.textures, input.pos, b.value);
    LoadStepCombine(whole, brushes, LoadLoopAt(v, cls, present, input.lines, here, tm.textures), [b.value.value],
      LoopReader(v, cls, present)(input.lines, b.value.next, tm.textures));
    input.SkipTo(b.value.next);
    more := brushes + [b.value.value];
    thrown := None;
  }

  /** The loop of `load_MEF<v>` over the stream: brushes gathered in file order. */
  method LoadBrushes<B>(v: nat, cls: BrushClasses<B>, present: string -> bool, input: LineStream, tm: TextureManager) returns (r: Outcome<seq<B>>)
    requires Forward(cls) && input.Valid()
    modifies input, tm
    ensures Run(r, tm.textures) == LoadLoopAt(v, cls, present, input.lines, old(input.pos), old(tm.textures))
  {
    ghost var whole := LoadLoopAt(v, cls, present, input.lines, input.pos, tm.textures);
    var brushes: seq<B> := [];
    assert Prepended(brushes, whole) == whole by {
      if whole.outcome.Done? {
        assert brushes + whole.outcome.value == whole.outcome.value;
      }
    }
    while input.pos < |input.lines|
      invariant input.Valid()
      invariant whole == Prepended(brushes, LoopReader(v, cls, present)(input.lines, input.pos, tm.textures))
      decreases |input.lines| - input.pos
    {
      var line := input.GetLine();
      var thrown;
      thrown, brushes := LoadStep(v, cls, present, input, tm, line, brushes, whole);
      if thrown.Some? {
        return Thrown(thrown.value);
      }
    }
    assert brushes + [] == brushes;
    r := Done(brushes);
  }

  /** `load`: the version line, then the loop of that version. */
  method Load<B>(cls: BrushClasses<B>, present: string -> bool, lines: seq<string>, tm: TextureManager) returns (r: Outcome<seq<B>>)
    requires Forward(cls)
    modifies tm
    ensures Run(r, tm.textures) == LoadAt(cls, present, lines, old(tm.textures))
  {
    var input := new LineStream(lines);
    if |lines| == 0 {
      return Thrown(NullPointer);
    }
    var header := input.GetLine();
    var v := Version(header);
    if v.None? {
      return Thrown(IOException(Some(InvalidFileType)));
    }
    r := LoadBrushes(v.value, cls, present, input, tm);
  }

  //#################### SAVING ####################

  const HeaderLines := [Mef3, TexturesName, "{"]

  function TextureLine(name: string, file: string): string { name + " " + file }

  function TextureLines(ts: seq<(string, string)>): (ls: seq<string>)
    ensures |ls| == |ts|
    ensures forall i :: 0 <= i < |ts| ==> ls[i] == TextureLine(ts[i].0, ts[i].1)
  {
    seq(|ts|, i requires 0 <= i < |ts| => TextureLine(ts[i].0, ts[i].1))
  }

  /** What a brush's `save_MEF3` writes: a line end, then its lines with no final line end. */
  function BrushText(ls: seq<string>): string { "\n" + JoinLines(ls) }

  function BrushTexts<B>(save: B -> seq<string>, bs: seq<B>): string
  {
    if |bs| == 0 then "" else BrushTexts(save, bs[..|bs| - 1]) + BrushText(save(bs[|bs| - 1]))
  }

  /**
   * `save_MEF3`: `MEF 3`, `Textures`, `{`, a `name file` line per texture,
   * `}` with no line end, then each brush in order.
   */
  function SaveText<B>(ts: seq<(string, string)>, save: B -> seq<string>, bs: seq<B>): string
  {
    Unlines(HeaderLines + TextureLines(ts)) + ClosingBrace + BrushTexts(save, bs)
  }

  /** The lines a saved file consists of. */
  function SavedLines<B>(ts: seq<(string, string)>, save: B -> seq<string>, bs: seq<B>): seq<string>
  {
    HeaderLines + TextureLines(ts) + [ClosingBrace] + ConcatLines(save, bs)
  }

  /** `save_MEF3`, one `print` after another. */
  method SaveMef3<B>(ts: seq<(string, string)>, save: B -> seq<string>, bs: seq<B>, pw: PrintWriter)
    modifies pw
    ensures pw.text == old(pw.text) + SaveText(ts, save, bs)
  {
    SaveTextures(ts, pw);
    pw.Print(ClosingBrace);
    SaveBrushes(save, bs, pw);
  }

  /** The header and the texture lines of `save_MEF3`. */
  method SaveTextures(ts: seq<(string, string)>, pw: PrintWriter)
    modifies pw
    ensures pw.text == old(pw.text) + Unlines(HeaderLines + TextureLines(ts))
  {
    ghost var start := pw.text;
    pw.Println(Mef3);
    pw.Println(TexturesName);
    pw.Println("{");
    HeaderText(ts);
    for i := 0 to |ts|
      invariant pw.text == start + Unlines(HeaderLines + TextureLines(ts)[..i])
    {
      ghost var before := pw.text;
      pw.Println(ts[i].0 + " " + ts[i].1);
      UnlinesStep(HeaderLines, TextureLines(ts), i, Unlines(HeaderLines + TextureLines(ts)[..i]));
      Extend(pw.text, before, start, Unlines(HeaderLines + TextureLines(ts)[..i]), TextureLines(ts)[i] + "\n",
        Unlines(HeaderLines + TextureLines(ts)[..i + 1]));
    }
    assert TextureLines(ts)[..|ts|] == TextureLines(ts);
  }

  /** The brush loop of `save_MEF3`. */
  method SaveBrushes<B>(save: B -> seq<string>, bs: seq<B>, pw: PrintWriter)
    modifies pw
    ensures pw.text == old(pw.text) + BrushTexts(save, bs)
  {
    ghost var start := pw.text;
    assert bs[..0] == [] && start + "" == start;
    for j := 0 to |bs|
      invariant pw.text == start + BrushTexts(save, bs[..j])
    {
      ghost var before := pw.text;
      BrushStep(pw, save(bs[j]));
      BrushTextsStep(save, bs, j);
      Extend(pw.text, before, start, BrushTexts(save, bs[..j]), BrushText(save(bs[j])), BrushTexts(save, bs[..j + 1]));
    }
    assert bs[..|bs|] == bs;
  }

  /** Text written after `start + a` is `start + ab` when ab = a + b. */
  lemma Extend(text: string, before: string, start: string, a: string, b: string, ab: string)
    requires before == start + a && text == before + b && ab == a + b
    ensures text == start + ab
  {
  }

  lemma HeaderText(ts: seq<(string, string)>)
    ensures Mef3 + "\n" + TexturesName + "\n" + "{" + "\n" == Unlines(HeaderLines + TextureLines(ts)[..0])
  {
    assert HeaderLines + TextureLines(ts)[..0] == HeaderLines;
    assert Unlines(HeaderLines[2..]) == "{\n";
    assert Unlines(HeaderLines[1..]) == TexturesName + "\n{\n";
  }

  lemma BrushTextsStep<B>(save: B -> seq<string>, bs: seq<B>, j: nat)
    requires j < |bs|
    ensures BrushTexts(save, bs[..j + 1]) == BrushTexts(save, bs[..j]) + BrushText(save(bs[j]))
  {
    assert bs[..j + 1][..j] == bs[..j];
  }

  /** A brush's `save_MEF3` as the brushes this model is generic in call it. */
  method BrushStep(pw: PrintWriter, ls: seq<string>)
    modifies pw
    ensures pw.text == old(pw.text) + BrushText(ls)
  {
    pw.Println("");
    if |ls| > 0 {
      PrintLines(pw, ls[..|ls| - 1]);
      pw.Print(ls[|ls| - 1]);
    }
  }

  /** The lines of a brush before its last, each followed by a line end. */
  method PrintLines(pw: PrintWriter, ls: seq<string>)
    modifies pw
    ensures pw.text == old(pw.text) + Unlines(ls)
  {
    ghost var start := pw.text;
    assert start + Unlines(ls[..0]) == start;
    for k := 0 to |ls|
      invariant pw.text == start + Unlines(ls[..k])
    {
      ghost var before := pw.text;
      pw.Println(ls[k]);
      UnlinesTake(ls, k, Unlines(ls[..k]));
      Extend(pw.text, before, start, Unlines(ls[..k]), ls[k] + "\n", Unlines(ls[..k + 1]));
    }
    assert ls[..|ls|] == ls;
  }

  //#################### READING A SAVED FILE BACK ####################

  /** The textures registered, one `load_texture` after another. */
  function Registered(present: string -> bool, textures: map<string, string>, ts: seq<(string, string)>): map<string, string>
    decreases |ts|
  {
    if |ts| == 0 then textures else Registered(present, LoadTexture(textures, present, ts[0].0, ts[0].1), ts[1..])
  }

  /**
   * A texture whose line reads back as itself: a name that begins with a
   * visible character and has no space, a file name that ends with one,
   * neither holding a line end.
   */
  predicate CleanTexture(t: (string, string))
  {
    |t.0| > 0 && t.0[0] > ' ' && NoSep(t.0, IsBlank) && IsLine(t.0) && |t.1| > 0 && t.1[|t.1| - 1] > ' ' && IsLine(t.1)
  }

  /**
   * A brush whose saved lines are its class name and a block its class's
   * version-3 loader reads back as the brush; they are lines, and the last
   * is not empty.
   */
  ghost predicate SavesAs<B>(cls: BrushClasses<B>, save: B -> seq<string>, b: B)
  {
    var ls := save(b);
    |ls| > 0 && AllLines(ls) && ls[|ls| - 1] != "" && ls[0] != TexturesName && cls.missing(3, ls[0]).None?
    && BlockReads(ClassReader(cls, 3, ls[0]), ls[1..], b)
  }

  lemma CleanTextureLine(t: (string, string))
    requires CleanTexture(t)
    ensures var line := TextureLine(t.0, t.1);
      IsLine(line) && line != ClosingBrace && Trim(line) == line
      && IndexOf(line, ' ') == Some(|t.0|) && line[..|t.0|] == t.0 && line[|t.0| + 1..] == t.1
  {
    var line := TextureLine(t.0, t.1);
    IndexOfSpaced(t.0, t.1);
    SpacedLine(t.0, t.1);
    CleanTextureTrim(t.0, t.1, line);
  }

  lemma CleanTextureTrim(name: string, file: string, line: string)
    requires |name| > 0 && name[0] > ' ' && |file| > 0 && file[|file| - 1] > ' ' && line == name + " " + file
    ensures Trim(line) == line && line != ClosingBrace
  {
    assert line[0] == name[0] && line[|line| - 1] == file[|file| - 1];
    TrimClean(line);
  }

  lemma TextureLineRead(present: string -> bool, lines: seq<string>, pos: nat, textures: map<string, string>, t: (string, string))
    requires CleanTexture(t) && pos < |lines| && lines[pos] == TextureLine(t.0, t.1)
    ensures TextureLinesAt(present, lines, pos, textures) == TextureLinesAt(present, lines, pos + 1, LoadTexture(textures, present, t.0, t.1))
  {
    CleanTextureLine(t);
  }

  /** Texture lines as saved, then `}`, register the textures in order. */
  lemma {:induction false} TexturesRead(present: string -> bool, lines: seq<string>, pos: nat, textures: map<string, string>, ts: seq<(string, string)>)
    requires forall i :: 0 <= i < |ts| ==> CleanTexture(ts[i])
    requires At(lines, pos, TextureLines(ts) + [ClosingBrace])
    ensures TextureLinesAt(present, lines, pos, textures) == Segment(None, pos + |ts| + 1, Registered(present, textures, ts))
    decreases |ts|
  {
    AtIndex(lines, pos, TextureLines(ts) + [ClosingBrace], 0);
    if |ts| > 0 {
      TextureLineRead(present, lines, pos, textures, ts[0]);
      assert TextureLines(ts) + [ClosingBrace] == [TextureLine(ts[0].0, ts[0].1)] + (TextureLines(ts[1..]) + [ClosingBrace]);
      AtSplit(lines, pos, [TextureLine(ts[0].0, ts[0].1)], TextureLines(ts[1..]) + [ClosingBrace]);
      TexturesRead(present, lines, pos + 1, LoadTexture(textures, present, ts[0].0, ts[0].1), ts[1..]);
    }
  }

  lemma BrushRead<B>(cls: BrushClasses<B>, present: string -> bool, save: B -> seq<string>, lines: seq<string>, pos: nat, textures: map<string, string>, b: B)
    requires Forward(cls) && SavesAs(cls, save, b) && At(lines, pos, save(b))
    ensures pos + |save(b)| <= |lines|
    ensures LoadLoopAt(3, cls, present, lines, pos, textures) == Prepended([b], LoadLoopAt(3, cls, present, lines, pos + |save(b)|, textures))
  {
    var ls := save(b);
    assert ls == [ls[0]] + ls[1..];
    AtSplit(lines, pos, [ls[0]], ls[1..]);
    AtIndex(lines, pos, ls, 0);
    UseBlockReads(ClassReader(cls, 3, ls[0]), ls[1..], b, lines, pos + 1);
    LoadBrushStep(3, cls, present, lines, pos, textures, pos + 1, Parsed(b, pos + 1 + |ls[1..]|));
  }

  /** A saved brush followed by lines that load as `rest` loads as the brush, then `rest`. */
  lemma {:induction false} BrushThenRest<B>(cls: BrushClasses<B>, present: string -> bool, save: B -> seq<string>, lines: seq<string>, pos: nat,
                                            textures: map<string, string>, bs: seq<B>, k: nat)
    requires Forward(cls) && k < |bs| && SavesAs(cls, save, bs[k]) && At(lines, pos, save(bs[k]))
    requires pos + |save(bs[k])| <= |lines|
    requires LoadLoopAt(3, cls, present, lines, pos + |save(bs[k])|, textures) == Run(Done(bs[k + 1..]), textures)
    ensures LoadLoopAt(3, cls, present, lines, pos, textures) == Run(Done(bs[k..]), textures)
  {
    SliceCons(bs, k);
    BrushRead(cls, present, save, lines, pos, textures, bs[k]);
  }

  lemma SliceCons<B>(bs: seq<B>, k: nat)
    requires k < |bs|
    ensures [bs[k]] + bs[k + 1..] == bs[k..]
  {
    assert ([bs[k]] + bs[k + 1..])[0] == bs[k..][0];
  }

  /** Brushes k, k+1, … each save as their class reads them back. */
  ghost predicate SaveFrom<B>(cls: BrushClasses<B>, save: B -> seq<string>, bs: seq<B>, k: nat)
    decreases |bs| - k
  {
    k >= |bs| || (SavesAs(cls, save, bs[k]) && SaveFrom(cls, save, bs, k + 1))
  }

  lemma {:induction false} AllSaveFrom<B>(cls: BrushClasses<B>, save: B -> seq<string>, bs: seq<B>, k: nat)
    requires forall i :: 0 <= i < |bs| ==> SavesAs(cls, save, bs[i])
    ensures SaveFrom(cls, save, bs, k)
    decreases |bs| - k
  {
    if k < |bs| {
      AllSaveFrom(cls, save, bs, k + 1);
    }
  }

  /** Brushes k, k+1, … as saved, up to the end of the input, load back as themselves in order. */
  lemma {:induction false} BrushesRead<B>(cls: BrushClasses<B>, present: string -> bool, save: B -> seq<string>, lines: seq<string>, pos: nat,
                                          textures: map<string, string>, bs: seq<B>, k: nat)
    requires Forward(cls) && k <= |bs| && SaveFrom(cls, save, bs, k)
    requires At(lines, pos, ConcatLines(save, bs[k..])) && pos + |ConcatLines(save, bs[k..])| == |lines|
    ensures LoadLoopAt(3, cls, present, lines, pos, textures) == Run(Done(bs[k..]), textures)
    decreases |bs| - k
  {
    if k == |bs| {
      assert ConcatLines(save, bs[k..]) == [];
    } else {
      var here := save(bs[k]);
      BrushesSplit(cls, save, lines, pos, bs, k);
      BrushesRead(cls, present, save, lines, pos + |here|, textures, bs, k + 1);
      BrushThenRest(cls, present, save, lines, pos, textures, bs, k);
    }
  }

  /** Where brush k's lines end, the lines of the brushes after it start. */
  lemma {:induction false} BrushesSplit<B>(cls: BrushClasses<B>, save: B -> seq<string>, lines: seq<string>, pos: nat, bs: seq<B>, k: nat)
    requires k < |bs| && SaveFrom(cls, save, bs, k)
    requires At(lines, pos, ConcatLines(save, bs[k..])) && pos + |ConcatLines(save, bs[k..])| == |lines|
    ensures SavesAs(cls, save, bs[k]) && SaveFrom(cls, save, bs, k + 1) && At(lines, pos, save(bs[k]))
    ensures At(lines, pos + |save(bs[k])|, ConcatLines(save, bs[k + 1..]))
    ensures pos + |save(bs[k])| + |ConcatLines(save, bs[k + 1..])| == |lines|
  {
    ConcatFrom(save, bs, k);
    AtSplit(lines, pos, save(bs[k]), ConcatLines(save, bs[k + 1..]));
  }

  lemma ConcatFrom<X>(g: X -> seq<string>, xs: seq<X>, k: nat)
    requires k < |xs|
    ensures ConcatLines(g, xs[k..]) == g(xs[k]) + ConcatLines(g, xs[k + 1..])
  {
    assert xs[k..][1..] == xs[k + 1..];
  }

  /** The saved text is the saved lines, separated by line ends. */
  lemma {:induction false} SaveTextLines<B>(ts: seq<(string, string)>, save: B -> seq<string>, bs: seq<B>)
    requires forall i :: 0 <= i < |bs| ==> |save(bs[i])| > 0
    ensures SaveText(ts, save, bs) == JoinLines(SavedLines(ts, save, bs))
    decreases |bs|
  {
    if |bs| == 0 {
      SaveTextEmpty(ts, save, bs);
    } else {
      var n := |bs|;
      var front := bs[..n - 1];
      SaveTextLines(ts, save, front);
      SaveTextSnoc(ts, save, bs);
      SavedLinesSnoc(ts, save, bs);
      JoinLinesAppend(SavedLines(ts, save, front), save(bs[n - 1]));
      JoinStep(SaveText(ts, save, bs), SaveText(ts, save, front), JoinLines(SavedLines(ts, save, front)), JoinLines(save(bs[n - 1])),
        JoinLines(SavedLines(ts, save, front) + save(bs[n - 1])));
    }
  }

  lemma JoinStep(whole: string, front: string, a: string, b: string, ab: string)
    requires whole == front + "\n" + b && front == a && ab == a + "\n" + b
    ensures whole == ab
  {
  }

  lemma SaveTextEmpty<B>(ts: seq<(string, string)>, save: B -> seq<string>, bs: seq<B>)
    requires |bs| == 0
    ensures SaveText(ts, save, bs) == JoinLines(SavedLines(ts, save, bs))
  {
    var head := HeaderLines + TextureLines(ts);
    assert SavedLines(ts, save, bs) == head + [ClosingBrace];
    assert (head + [ClosingBrace])[..|head|] == head;
  }

  lemma SaveTextSnoc<B>(ts: seq<(string, string)>, save: B -> seq<string>, bs: seq<B>)
    requires |bs| > 0
    ensures SaveText(ts, save, bs) == SaveText(ts, save, bs[..|bs| - 1]) + "\n" + JoinLines(save(bs[|bs| - 1]))
  {
  }

  lemma SavedLinesSnoc<B>(ts: seq<(string, string)>, save: B -> seq<string>, bs: seq<B>)
    requires |bs| > 0
    ensures SavedLines(ts, save, bs) == SavedLines(ts, save, bs[..|bs| - 1]) + save(bs[|bs| - 1])
  {
    ConcatLinesSnoc(save, bs);
  }

  lemma SavedLinesAreLines<B>(ts: seq<(string, string)>, save: B -> seq<string>, bs: seq<B>)
    requires forall i :: 0 <= i < |ts| ==> CleanTexture(ts[i])
    requires forall i :: 0 <= i < |bs| ==> AllLines(save(bs[i])) && |save(bs[i])| > 0 && save(bs[i])[|save(bs[i])| - 1] != ""
    ensures AllLines(SavedLines(ts, save, bs))
    ensures SavedLines(ts, save, bs)[|SavedLines(ts, save, bs)| - 1] != ""
  {
    forall i | 0 <= i < |ts| ensures IsLine(TextureLines(ts)[i]) {
      CleanTextureLine(ts[i]);
    }
    ConcatLinesAreLines(save, bs);
    AllLinesAppend(HeaderLines, TextureLines(ts));
    AllLinesAppend(HeaderLines + TextureLines(ts), [ClosingBrace]);
    AllLinesAppend(HeaderLines + TextureLines(ts) + [ClosingBrace], ConcatLines(save, bs));
    if |bs| > 0 {
      ConcatLinesSnoc(save, bs);
    }
  }

  /**
   * Version 3 round trip: loading what `save_MEF3` wrote gives back the
   * brushes in order and registers the saved textures (those whose files
   * exist) in order, whatever textures were loaded before.
   */
  lemma LoadOfSave<B>(cls: BrushClasses<B>, present: string -> bool, ts: seq<(string, string)>, save: B -> seq<string>, bs: seq<B>, textures: map<string, string>)
    requires Forward(cls)
    requires forall i :: 0 <= i < |ts| ==> CleanTexture(ts[i])
    requires forall i :: 0 <= i < |bs| ==> SavesAs(cls, save, bs[i])
    ensures LoadAt(cls, present, SplitLines(SaveText(ts, save, bs)), textures) == Run(Done(bs), Registered(present, map[], ts))
  {
    SavedTextLines(ts, save, bs);
    AllSaveFrom(cls, save, bs, 0);
    LoadSavedLines(cls, present, ts, save, bs, textures, SavedLines(ts, save, bs));
  }

  /** What `save_MEF3` wrote is read back line by line as the saved lines. */
  lemma SavedTextLines<B>(ts: seq<(string, string)>, save: B -> seq<string>, bs: seq<B>)
    requires forall i :: 0 <= i < |ts| ==> CleanTexture(ts[i])
    requires forall i :: 0 <= i < |bs| ==> AllLines(save(bs[i])) && |save(bs[i])| > 0 && save(bs[i])[|save(bs[i])| - 1] != ""
    ensures SplitLines(SaveText(ts, save, bs)) == SavedLines(ts, save, bs)
  {
    SaveTextLines(ts, save, bs);
    SavedLinesAreLines(ts, save, bs);
    SplitLinesOfJoinLines(SavedLines(ts, save, bs));
  }

  lemma {:induction false} LoadSavedLines<B>(cls: BrushClasses<B>, present: string -> bool, ts: seq<(string, string)>, save: B -> seq<string>, bs: seq<B>,
                          textures: map<string, string>, lines: seq<string>)
    requires Forward(cls) && lines == SavedLines(ts, save, bs)
    requires forall i :: 0 <= i < |ts| ==> CleanTexture(ts[i])
    requires SaveFrom(cls, save, bs, 0)
    ensures LoadAt(cls, present, lines, textures) == Run(Done(bs), Registered(present, map[], ts))
  {
    SavedHeader(ts, save, bs, lines);
    SavedLoop(cls, present, ts, save, bs, textures, lines);
    LoadAtVersion3(cls, present, lines, textures);
  }

  /** After the version line: the texture segment, then the brushes. */
  lemma {:induction false} SavedLoop<B>(cls: BrushClasses<B>, present: string -> bool, ts: seq<(string, string)>, save: B -> seq<string>, bs: seq<B>,
                                        textures: map<string, string>, lines: seq<string>)
    requires Forward(cls) && lines == SavedLines(ts, save, bs)
    requires forall i :: 0 <= i < |ts| ==> CleanTexture(ts[i])
    requires SaveFrom(cls, save, bs, 0)
    ensures 1 <= |lines| && LoadLoopAt(3, cls, present, lines, 1, textures) == Run(Done(bs), Registered(present, map[], ts))
  {
    var s := SavedSegment(present, ts, save, bs, lines);
    SavedHeader(ts, save, bs, lines);
    LoadTexturesStep(3, cls, present, lines, 1, textures, 2, s);
    SavedBrushesRead(cls, present, ts, save, bs, s.textures, lines);
  }

  /** The brushes after the texture segment are read back in order. */
  lemma {:induction false} SavedBrushesRead<B>(cls: BrushClasses<B>, present: string -> bool, ts: seq<(string, string)>, save: B -> seq<string>,
                                               bs: seq<B>, textures: map<string, string>, lines: seq<string>)
    requires Forward(cls) && lines == SavedLines(ts, save, bs)
    requires SaveFrom(cls, save, bs, 0)
    ensures 4 + |ts| <= |lines| && LoadLoopAt(3, cls, present, lines, 4 + |ts|, textures) == Run(Done(bs), textures)
  {
    SavedBrushes(ts, save, bs, lines);
    assert bs[0..] == bs;
    BrushesRead(cls, present, save, lines, 4 + |ts|, textures, bs, 0);
  }

  lemma LoadAtVersion3<B>(cls: BrushClasses<B>, present: string -> bool, lines: seq<string>, textures: map<string, string>)
    requires Forward(cls) && |lines| > 0 && lines[0] == Mef3
    ensures LoadAt(cls, present, lines, textures) == LoadLoopAt(3, cls, present, lines, 1, textures)
  {
  }

  lemma SavedHeader<B>(ts: seq<(string, string)>, save: B -> seq<string>, bs: seq<B>, lines: seq<string>)
    requires lines == SavedLines(ts, save, bs)
    ensures |lines| > 3 && lines[0] == Mef3 && lines[1] == TexturesName
  {
  }

  lemma SavedBrushes<B>(ts: seq<(string, string)>, save: B -> seq<string>, bs: seq<B>, lines: seq<string>)
    requires lines == SavedLines(ts, save, bs)
    ensures At(lines, 4 + |ts|, ConcatLines(save, bs)) && 4 + |ts| + |ConcatLines(save, bs)| == |lines|
  {
    var front := HeaderLines + TextureLines(ts) + [ClosingBrace];
    assert |front| == 4 + |ts|;
    AtSplit(lines, 0, front, ConcatLines(save, bs));
  }

  /** The texture segment of a saved file. */
  lemma SavedSegment<B>(present: string -> bool, ts: seq<(string, string)>, save: B -> seq<string>, bs: seq<B>, lines: seq<string>) returns (s: Segment)
    requires lines == SavedLines(ts, save, bs)
    requires forall i :: 0 <= i < |ts| ==> CleanTexture(ts[i])
    ensures s == TextureSegmentAt(present, lines, 2) && s == Segment(None, 4 + |ts|, Registered(present, map[], ts))
  {
    var body := TextureLines(ts) + [ClosingBrace];
    assert lines == HeaderLines + body + ConcatLines(save, bs);
    AtSplit(lines, 0, HeaderLines + body, ConcatLines(save, bs));
    AtSplit(lines, 0, HeaderLines, body);
    TexturesRead(present, lines, 3, map[], ts);
    s := TextureSegmentAt(present, lines, 2);
  }

  /** With every file present and no name repeated, exactly the saved textures are registered. */
  lemma {:induction false} RegisteredAll(present: string -> bool, textures: map<string, string>, ts: seq<(string, string)>)
    requires forall i :: 0 <= i < |ts| ==> present(ts[i].1)
    requires forall i, j :: 0 <= i < j < |ts| ==> ts[i].0 != ts[j].0
    ensures var r := Registered(present, textures, ts);
      (forall i :: 0 <= i < |ts| ==> ts[i].0 in r && r[ts[i].0] == ts[i].1)
      && forall name :: name in r ==> name in textures || exists i :: 0 <= i < |ts| && ts[i].0 == name
    decreases |ts|
  {
    if |ts| > 0 {
      var next := textures[ts[0].0 := ts[0].1];
      RegisteredAll(present, next, ts[1..]);
      var r := Registered(present, textures, ts);
      assert r == Registered(present, next, ts[1..]);
      forall i | 0 <= i < |ts| ensures ts[i].0 in r && r[ts[i].0] == ts[i].1 {
        if i > 0 {
          assert ts[1..][i - 1] == ts[i];
        } else if |ts| > 1 {
          RegisteredKeeps(present, next, ts[1..], ts[0].0);
        } else {
          assert r == next;
        }
      }
      forall name | name in r && name !in textures ensures exists i :: 0 <= i < |ts| && ts[i].0 == name {
        if name == ts[0].0 {
        } else {
          assert name !in next;
          var j :| 0 <= j < |ts[1..]| && ts[1..][j].0 == name;
          assert ts[j + 1].0 == name;
        }
      }
    }
  }

  /** A name none of the textures uses keeps its entry. */
  lemma {:induction false} RegisteredKeeps(present: string -> bool, textures: map<string, string>, ts: seq<(string, string)>, name: string)
    requires name in textures && forall i :: 0 <= i < |ts| ==> ts[i].0 != name
    ensures var r := Registered(present, textures, ts); name in r && r[name] == textures[name]
    decreases |ts|
  {
    if |ts| > 0 {
      assert ts[0].0 != name;
      RegisteredKeeps(present, LoadTexture(textures, present, ts[0].0, ts[0].1), ts[1..], name);
      forall i | 0 <= i < |ts[1..]| ensures ts[1..][i].0 != name {
        assert ts[1..][i] == ts[i + 1];
      }
    }
  }
}
