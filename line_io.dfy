/**
 * Line-oriented input as the level-file sections use it. A text stream is
 * seen as the lines `std::getline` returns one after another (see
 * `Common.SplitLines`) plus a cursor counting how many have been consumed.
 *
 * Every reader of the model comes in two forms: a function over
 * (lines, position) that says what reading yields and where it stops, and a
 * method on a `LineStream` that performs the read step by step and is proved
 * to agree with the function.
 */
module LineIO {
  import opened Common

  /** A value read from the stream and the position of the first line after it. */
  datatype Parsed<T> = Parsed(value: T, next: nat)

  /** The value part of a read, as the caller of the C++ reader sees it. */
  function Drop<T>(s: Result<Parsed<T>>): (r: Result<T>)
    ensures r.Ok? <==> s.Ok?
    ensures s.Ok? ==> r.value == s.value.value
    ensures s.Err? ==> r.error == s.error
  {
    match s
    case Ok(p) => Ok(p.value)
    case Err(e) => Err(e)
  }

  /** A method's result and final position agree with the read `s`. */
  predicate Agrees<T(==)>(r: Result<T>, s: Result<Parsed<T>>, pos: nat)
  {
    r == Drop(s) && (s.Ok? ==> pos == s.value.next)
  }

  /** A successful method result that agrees with a read is that read's value. */
  lemma AgreesOk<T>(r: Result<T>, s: Result<Parsed<T>>, pos: nat)
    requires Agrees(r, s, pos) && r.Ok?
    ensures s == Ok(Parsed(r.value, pos))
  {
  }

  /** Values gathered so far in front of those a later read yields. */
  function Prefixed<T>(acc: seq<T>, s: Result<Parsed<seq<T>>>): (q: Result<Parsed<seq<T>>>)
    ensures q.Ok? <==> s.Ok?
    ensures s.Ok? ==> q.value == Parsed(acc + s.value.value, s.value.next)
    ensures s.Err? ==> q == Err(s.error)
  {
    match s
    case Ok(p) => Ok(Parsed(acc + p.value, p.next))
    case Err(e) => Err(e)
  }

  lemma PrefixedNil<T>(s: Result<Parsed<seq<T>>>)
    ensures Prefixed([], s) == s
  {
    if s.Ok? {
      assert [] + s.value.value == s.value.value;
    }
  }

  lemma PrefixedPrefixed<T>(a: seq<T>, b: seq<T>, s: Result<Parsed<seq<T>>>)
    ensures Prefixed(a, Prefixed(b, s)) == Prefixed(a + b, s)
  {
    if s.Ok? {
      assert a + (b + s.value.value) == a + b + s.value.value;
    }
  }

  /** A loop step that reads one more value: what is gathered so far, then `v`, then the rest. */
  lemma PrefixedStep<T>(whole: Result<Parsed<seq<T>>>, acc: seq<T>, here: Result<Parsed<seq<T>>>, v: T, rest: Result<Parsed<seq<T>>>)
    requires whole == Prefixed(acc, here) && here == Prefixed([v], rest)
    ensures whole == Prefixed(acc + [v], rest)
  {
    PrefixedPrefixed(acc, [v], rest);
  }

  /** The lines from `pos` on begin with `w`. */
  predicate At(lines: seq<string>, pos: nat, w: seq<string>)
  {
    pos + |w| <= |lines| && lines[pos..pos + |w|] == w
  }

  lemma AtSplit(lines: seq<string>, pos: nat, a: seq<string>, b: seq<string>)
    requires At(lines, pos, a + b)
    ensures At(lines, pos, a) && At(lines, pos + |a|, b)
  {
    assert lines[pos..pos + |a|] == (a + b)[..|a|];
    assert lines[pos + |a|..pos + |a| + |b|] == (a + b)[|a|..];
  }

  lemma AtIndex(lines: seq<string>, pos: nat, w: seq<string>, k: nat)
    requires At(lines, pos, w) && k < |w|
    ensures pos + k < |lines| && lines[pos + k] == w[k]
  {
    assert lines[pos..pos + |w|][k] == w[k];
  }

  /** A reader of one block of lines, from a position to just after the block. */
  type BlockParse<D> = (seq<string>, nat) -> Result<Parsed<D>>

  /** The lines `w`, found anywhere, read as `v`, and reading stops right after them. */
  ghost predicate BlockReads<D>(block: BlockParse<D>, w: seq<string>, v: D)
  {
    forall lines: seq<string>, pos: nat :: At(lines, pos, w) ==> block(lines, pos) == Ok(Parsed(v, pos + |w|))
  }

  lemma UseBlockReads<D>(block: BlockParse<D>, w: seq<string>, v: D, lines: seq<string>, pos: nat)
    requires BlockReads(block, w, v) && At(lines, pos, w)
    ensures block(lines, pos) == Ok(Parsed(v, pos + |w|))
  {
  }

  function EofMessage(description: string): string
  {
    "Unexpected EOF whilst trying to read " + description
  }

  /** `LineIO::read_line`: the next line, or the EOF error naming what was being read. */
  function ReadLineAt(lines: seq<string>, pos: nat, description: string): (r: Result<Parsed<string>>)
    ensures r.Ok? <==> pos < |lines|
    ensures r.Ok? ==> r.value.value == lines[pos] && r.value.next == pos + 1
    ensures r.Err? ==> r.error == EofMessage(description)
  {
    if pos < |lines| then Ok(Parsed(lines[pos], pos + 1)) else Err(EofMessage(description))
  }

  /**
   * `LineIO::read_checked_line`: the next line must be exactly `expected`;
   * at end of input the EOF error wins, with `expected` as its description.
   */
  function ReadCheckedAt(lines: seq<string>, pos: nat, expected: string): (r: Result<Parsed<()>>)
    ensures r.Ok? <==> pos < |lines| && lines[pos] == expected
    ensures r.Ok? ==> r.value.next == pos + 1
    ensures pos >= |lines| ==> r == Err(EofMessage(expected))
    ensures pos < |lines| && lines[pos] != expected ==> r == Err("Expected " + expected)
  {
    match ReadLineAt(lines, pos, expected)
    case Err(e) => Err(e)
    case Ok(p) => if p.value != expected then Err("Expected " + expected) else Ok(Parsed((), p.next))
  }

  /**
   * A bare `std::getline` whose failure is not checked: at end of input
   * nothing is consumed and the line comes back empty. (A failed
   * `std::getline` empties the line only when the text ends with a line
   * break, and leaves it as it was otherwise; every caller here either
   * ignores the line or handles end of input itself.)
   */
  function GetLineAt(lines: seq<string>, pos: nat): (r: Parsed<string>)
    ensures pos < |lines| ==> r == Parsed(lines[pos], pos + 1)
    ensures pos >= |lines| ==> r == Parsed("", pos)
  {
    if pos < |lines| then Parsed(lines[pos], pos + 1) else Parsed("", pos)
  }

  /** An input stream: its lines, and how many of them have been read. */
  class LineStream {
    const lines: seq<string>
    var pos: nat

    ghost predicate Valid()
      reads this
    {
      pos <= |lines|
    }

    constructor (lines: seq<string>)
      ensures this.lines == lines && pos == 0 && Valid()
    {
      this.lines := lines;
      pos := 0;
    }

    /** `LineIO::read_line`: consumes exactly one line and returns it unchanged. */
    method ReadLine(description: string) returns (r: Result<string>)
      requires Valid()
      modifies this
      ensures Valid()
      ensures Agrees(r, ReadLineAt(lines, old(pos), description), pos)
      ensures r.Err? ==> pos == old(pos)
    {
      if pos < |lines| {
        r := Ok(lines[pos]);
        pos := pos + 1;
      } else {
        r := Err(EofMessage(description));
      }
    }

    /** `LineIO::read_checked_line`. */
    method ReadCheckedLine(expected: string) returns (r: Result<()>)
      requires Valid()
      modifies this
      ensures Valid()
      ensures Agrees(r, ReadCheckedAt(lines, old(pos), expected), pos)
    {
      var line := ReadLine(expected);
      if line.Err? {
        return Err(line.error);
      }
      if line.value != expected {
        return Err("Expected " + expected);
      }
      r := Ok(());
    }

    /** Moves past data read by a reader this model does not look inside. */
    method SkipTo(next: nat)
      requires Valid() && pos <= next <= |lines|
      modifies this
      ensures Valid() && pos == next
    {
      pos := next;
    }

    /** A bare `std::getline`, failure unchecked. */
    method GetLine() returns (line: string)
      requires Valid()
      modifies this
      ensures Valid()
      ensures GetLineAt(lines, old(pos)) == Parsed(line, pos)
    {
      if pos < |lines| {
        line := lines[pos];
        pos := pos + 1;
      } else {
        line := "";
      }
    }
  }
}
