/**
 * The navigation mesh block of the navigation section: the nav links, one
 * line each, then the nav polygons, one line each in the form
 * `index colIndex [ in-links… ] [ out-links… ]`, each list closed by `]`.
 */
module NavMeshText {
  import opened Common
  import opened LineIO
  import opened NavSection

  //#################### BLOCKS ENDED BY A BRACE ####################

  /**
   * A `std::getline` loop that stops after the first line equal to `}` and
   * parses every other line with `parse`. At end of input the model reads
   * the line as empty: when `parse` rejects it, its error ends the read,
   * and otherwise the read ends with `eof`. (The source's failed `getline`
   * leaves `line` empty only when the text ends with a line break; it keeps
   * the last line its loops stored otherwise, and then loops forever or
   * stops on a stale `}`. The lines do not record the difference.)
   */
  function UntilClose<T>(parse: string -> Result<T>, eof: string, lines: seq<string>, pos: nat): (r: Result<Parsed<seq<T>>>)
    decreases |lines| - pos
  {
    if pos >= |lines| then
      match parse("")
      case Err(e) => Err(e)
      case Ok(_) => Err(eof)
    else if lines[pos] == "}" then Ok(Parsed([], pos + 1))
    else
      var v :- parse(lines[pos]);
      Prefixed([v], UntilClose(parse, eof, lines, pos + 1))
  }

  /**
   * The lines from `pos` on are |vs| lines other than `}`, the k-th parsing
   * as vs[k], followed by a line `}`.
   */
  ghost predicate ClosedBlock<T>(parse: string -> Result<T>, lines: seq<string>, pos: nat, vs: seq<T>)
  {
    pos + |vs| < |lines| && lines[pos + |vs|] == "}" &&
    forall k :: pos <= k < pos + |vs| ==> lines[k] != "}" && parse(lines[k]) == Ok(vs[k - pos])
  }

  lemma ClosedBlockCons<T>(parse: string -> Result<T>, lines: seq<string>, pos: nat, vs: seq<T>)
    requires |vs| > 0
    ensures ClosedBlock(parse, lines, pos, vs) <==>
            pos < |lines| && lines[pos] != "}" && parse(lines[pos]) == Ok(vs[0]) && ClosedBlock(parse, lines, pos + 1, vs[1..])
  {
    if ClosedBlock(parse, lines, pos, vs) {
      forall k | pos + 1 <= k < pos + 1 + |vs[1..]| ensures lines[k] != "}" && parse(lines[k]) == Ok(vs[1..][k - (pos + 1)]) {
        assert vs[1..][k - (pos + 1)] == vs[k - pos];
      }
    }
    if pos < |lines| && lines[pos] != "}" && parse(lines[pos]) == Ok(vs[0]) && ClosedBlock(parse, lines, pos + 1, vs[1..]) {
      forall k | pos <= k < pos + |vs| ensures lines[k] != "}" && parse(lines[k]) == Ok(vs[k - pos]) {
        if k > pos {
          assert vs[k - pos] == vs[1..][k - (pos + 1)];
        }
      }
    }
  }

  /** A block read, by the line `getline` yields first. */
  lemma UntilCloseAt<T>(parse: string -> Result<T>, eof: string, lines: seq<string>, pos: nat)
    ensures var line := GetLineAt(lines, pos).value;
      (line == "}" ==> UntilClose(parse, eof, lines, pos) == Ok(Parsed([], pos + 1))) &&
      (line != "}" && parse(line).Err? ==> UntilClose(parse, eof, lines, pos) == Err(parse(line).error)) &&
      (line != "}" && parse(line).Ok? && pos >= |lines| ==> UntilClose(parse, eof, lines, pos) == Err(eof))
  {
  }

  /** One line of a block that is not its end: parsed, then the rest of the block. */
  lemma UntilCloseStep<T>(parse: string -> Result<T>, eof: string, lines: seq<string>, pos: nat, v: T, next: nat)
    requires pos < |lines| && lines[pos] != "}" && parse(lines[pos]) == Ok(v) && next == pos + 1
    ensures UntilClose(parse, eof, lines, pos) == Prefixed([v], UntilClose(parse, eof, lines, next))
  {
  }

  /** What a successful block read is: every line up to the first `}` parsed, and the `}` consumed. */
  lemma {:induction false} UntilCloseMeaning<T>(parse: string -> Result<T>, eof: string, lines: seq<string>, pos: nat)
    ensures var r := UntilClose(parse, eof, lines, pos);
      r.Ok? ==> ClosedBlock(parse, lines, pos, r.value.value) && r.value.next == pos + |r.value.value| + 1
    decreases |lines| - pos
  {
    var r := UntilClose(parse, eof, lines, pos);
    if r.Ok? && pos < |lines| && lines[pos] != "}" {
      var v := parse(lines[pos]).value;
      var rest := UntilClose(parse, eof, lines, pos + 1);
      assert r == Prefixed([v], rest);
      UntilCloseMeaning(parse, eof, lines, pos + 1);
      assert r.value.value[1..] == rest.value.value;
      ClosedBlockCons(parse, lines, pos, r.value.value);
    }
  }

  /** Conversely, a closed block of lines reads as exactly its values. */
  lemma {:induction false} UntilCloseOfBlock<T>(parse: string -> Result<T>, eof: string, lines: seq<string>, pos: nat, vs: seq<T>)
    requires ClosedBlock(parse, lines, pos, vs)
    ensures UntilClose(parse, eof, lines, pos) == Ok(Parsed(vs, pos + |vs| + 1))
    decreases |vs|
  {
    if |vs| > 0 {
      ClosedBlockCons(parse, lines, pos, vs);
      UntilCloseOfBlock(parse, eof, lines, pos + 1, vs[1..]);
      assert [vs[0]] + vs[1..] == vs;
    }
  }

  /** Written lines: |ws| lines other than `}` that parse as `vs`, then `}`, form a closed block. */
  lemma BlockOfText<T>(parse: string -> Result<T>, lines: seq<string>, pos: nat, ws: seq<string>, vs: seq<T>)
    requires |ws| == |vs|
    requires forall k :: 0 <= k < |ws| ==> ws[k] != "}" && parse(ws[k]) == Ok(vs[k])
    requires At(lines, pos, ws + ["}"])
    ensures ClosedBlock(parse, lines, pos, vs)
  {
    forall k | pos <= k < pos + |vs| ensures lines[k] != "}" && parse(lines[k]) == Ok(vs[k - pos]) {
      AtIndex(lines, pos, ws + ["}"], k - pos);
    }
    AtIndex(lines, pos, ws + ["}"], |ws|);
  }

  //#################### POLYGON LINES ####################

  const ExpectInLinks := "Expected [ to start in links in nav polygon"

  const ExpectOutLinks := "Expected [ to start out links in nav polygon"

  function BadInLink(index: int): string { "Bad in link for nav polygon " + IntToString(index) }

  function BadOutLink(index: int): string { "Bad out link for nav polygon " + IntToString(index) }

  /**
   * A list of links from word k on, up to the closing `]`: each word an
   * `int`, any other word an error `bad`. A line that ends before the `]`
   * is the error `bad` too (see `LinkLoop` for the loop as written).
   */
  function LinksAt(ws: seq<string>, k: nat, bad: string): (r: Result<Parsed<seq<int>>>)
    decreases |ws| - k
  {
    if k >= |ws| then Err(bad)
    else if ws[k] == "]" then Ok(Parsed([], k + 1))
    else
      match ParseInt(ws[k])
      case None => Err(bad)
      case Some(v) => Prefixed([v], LinksAt(ws, k + 1, bad))
  }

  /** The words from k on are the links `links` written out, then `]`. */
  ghost predicate LinkWordsAt(ws: seq<string>, k: nat, links: seq<int>)
  {
    k + |links| < |ws| && ws[k + |links|] == "]" &&
    forall m :: 0 <= m < |links| ==> ParseInt(ws[k + m]) == Some(links[m])
  }

  lemma LinkWordsAtCons(ws: seq<string>, k: nat, links: seq<int>)
    requires |links| > 0
    ensures LinkWordsAt(ws, k, links) <==>
            k < |ws| && ParseInt(ws[k]) == Some(links[0]) && LinkWordsAt(ws, k + 1, links[1..])
  {
    if LinkWordsAt(ws, k, links) {
      forall m | 0 <= m < |links| - 1 ensures ParseInt(ws[k + 1 + m]) == Some(links[1..][m]) {
        assert k + 1 + m == k + (m + 1);
      }
    }
    if k < |ws| && ParseInt(ws[k]) == Some(links[0]) && LinkWordsAt(ws, k + 1, links[1..]) {
      forall m | 0 <= m < |links| ensures ParseInt(ws[k + m]) == Some(links[m]) {
        if m > 0 {
          assert k + m == k + 1 + (m - 1);
        }
      }
    }
  }

  /**
   * What a list read is: its links are the words from k on, in order, and
   * the word after them is `]`; a list read fails with `bad` and nothing else.
   */
  lemma {:induction false} LinksAtMeaning(ws: seq<string>, k: nat, bad: string)
    ensures var r := LinksAt(ws, k, bad);
      (r.Ok? ==> LinkWordsAt(ws, k, r.value.value) && r.value.next == k + |r.value.value| + 1) &&
      (r.Err? ==> r.error == bad)
    decreases |ws| - k
  {
    var r := LinksAt(ws, k, bad);
    if k < |ws| && ws[k] != "]" && ParseInt(ws[k]).Some? {
      LinksAtMeaning(ws, k + 1, bad);
      if r.Ok? {
        assert r.value.value[1..] == LinksAt(ws, k + 1, bad).value.value;
        LinkWordsAtCons(ws, k, r.value.value);
      }
    }
  }

  /** Conversely, links written out and closed by `]` read back as exactly those links. */
  lemma {:induction false} LinksAtOfWords(ws: seq<string>, k: nat, links: seq<int>, bad: string)
    requires LinkWordsAt(ws, k, links)
    ensures LinksAt(ws, k, bad) == Ok(Parsed(links, k + |links| + 1))
    decreases |links|
  {
    if |links| > 0 {
      LinkWordsAtCons(ws, k, links);
      assert ws[k] != "]" by {
        assert ParseInt(ws[k]).Some?;
      }
      LinksAtOfWords(ws, k + 1, links[1..], bad);
      assert [links[0]] + links[1..] == links;
    }
  }

  /**
   * One line of the polygon block. `ss >> index >> colIndex` extracts two
   * ints from the characters of the line, so a number may run straight
   * into what follows it (`0 5[ ] [ ]`, `3-4 [ ] [ ]`); the rest of the
   * line is then read word by word: `[`, the in links, `]`, `[`, the out
   * links, `]`. The index only names the polygon in error messages; words
   * after the last `]` are ignored.
   */
  function PolygonAt(line: string): (r: Result<NavPolygon>)
  {
    match ExtractTwoInts(line)
    case None => Err(ExpectInLinks)
    case Some((index, colIndex, rest)) =>
      var ws := StreamWords(rest);
      if |ws| == 0 || ws[0] != "[" then Err(ExpectInLinks)
      else
        var ins :- LinksAt(ws, 1, BadInLink(index));
        if ins.next >= |ws| || ws[ins.next] != "[" then Err(ExpectOutLinks)
        else
          var outs :- LinksAt(ws, ins.next + 1, BadOutLink(index));
          Ok(NavPolygon(colIndex, ins.value, outs.value))
  }

  /** The words after the two leading ints denote p's link lists: `[ ins… ] [ outs… ]`. */
  ghost predicate LinkListsAre(ws: seq<string>, p: NavPolygon)
  {
    |ws| >= 1 && ws[0] == "[" &&
    LinkWordsAt(ws, 1, p.inLinks) && 2 + |p.inLinks| < |ws| && ws[2 + |p.inLinks|] == "[" &&
    LinkWordsAt(ws, 3 + |p.inLinks|, p.outLinks)
  }

  /** A polygon line denotes p: two leading ints, the second p's collision index, then p's link lists. */
  ghost predicate PolygonTextIs(line: string, p: NavPolygon)
  {
    var h := ExtractTwoInts(line);
    h.Some? && h.value.1 == p.colIndex && LinkListsAre(StreamWords(h.value.2), p)
  }

  /** A polygon line reads as p exactly when it denotes p. */
  lemma PolygonAtMeaning(line: string, p: NavPolygon)
    ensures PolygonAt(line) == Ok(p) <==> PolygonTextIs(line, p)
  {
    if PolygonAt(line) == Ok(p) {
      PolygonAtText(line, p);
    }
    if PolygonTextIs(line, p) {
      PolygonAtOfText(line, p);
    }
  }

  lemma PolygonAtText(line: string, p: NavPolygon)
    requires PolygonAt(line) == Ok(p)
    ensures PolygonTextIs(line, p)
  {
    var (index, colIndex, rest) := ExtractTwoInts(line).value;
    var ws := StreamWords(rest);
    LinksAtMeaning(ws, 1, BadInLink(index));
    var ins := LinksAt(ws, 1, BadInLink(index)).value;
    LinksAtMeaning(ws, ins.next + 1, BadOutLink(index));
  }

  lemma PolygonAtOfText(line: string, p: NavPolygon)
    requires PolygonTextIs(line, p)
    ensures PolygonAt(line) == Ok(p)
  {
    var (index, colIndex, rest) := ExtractTwoInts(line).value;
    var ws := StreamWords(rest);
    LinksAtOfWords(ws, 1, p.inLinks, BadInLink(index));
    LinksAtOfWords(ws, 3 + |p.inLinks|, p.outLinks, BadOutLink(index));
  }

  /**
   * A number may run into the next token, as `operator>>` reads it: the lists
   * glued to the collision index (`0 5[ ] [ ]`) or a negative collision index
   * glued to the index (`3-4 [ ] [ ]`) still read as the polygon.
   */
  lemma GluedListsLine(i: int, p: NavPolygon)
    requires IsInt32(i) && PolygonInt32(p)
    ensures PolygonAt(IntToString(i) + " " + IntToString(p.colIndex) + ListsText(p)) == Ok(p)
  {
    var line := IntToString(i) + " " + IntToString(p.colIndex) + ListsText(p);
    var lists := ListsText(p);
    assert lists[0] == '[';
    ParseIntToString(i);
    ParseIntToString(p.colIndex);
    ExtractTwoWords(IntToString(i), IntToString(p.colIndex), lists);
    ListsWordsAreWords(p);
    ListsWordsRead(p);
    PolygonAtOfText(line, p);
  }

  lemma GluedSignLine(i: int, p: NavPolygon)
    requires IsInt32(i) && PolygonInt32(p) && p.colIndex < 0
    ensures PolygonAt(IntToString(i) + IntToString(p.colIndex) + " " + ListsText(p)) == Ok(p)
  {
    var a := IntToString(i);
    var c := IntToString(p.colIndex);
    var tail := " " + ListsText(p);
    var line := a + c + " " + ListsText(p);
    GluedSignHead(i, p.colIndex, tail);
    assert line == a + c + tail;
    ListsTailRead(p);
    PolygonAtOfText(line, p);
  }

  //#################### THE LINK LOOP AS WRITTEN ####################

  /**
   * The state of one of `read_navmesh`'s link loops: still reading at word k
   * with `dummy` the word last extracted, stopped at `]` with the next word
   * at `next`, or failed.
   */
  datatype LinkLoop = Reading(k: nat, dummy: string, links: seq<int>) | Closed(next: nat, links: seq<int>) | Failed(error: string)

  /**
   * One pass of the loop as written: `ss >> dummy` extracts the next word,
   * but once the line is used up it fails and leaves `dummy` as it was; then
   * `]` ends the loop, an `int` is added, anything else is the error `bad`.
   */
  function LinkLoopStep(ws: seq<string>, bad: string, s: LinkLoop): LinkLoop
  {
    match s
    case Reading(k, dummy, links) =>
      var d := if k < |ws| then ws[k] else dummy;
      var next := if k < |ws| then k + 1 else k;
      if d == "]" then Closed(next, links)
      else (
        match ParseInt(d)
        case None => Failed(bad)
        case Some(v) => Reading(next, d, links + [v]))
    case _ => s
  }

  /** The loop's state after n passes. */
  function LinkLoopAfter(ws: seq<string>, bad: string, s: LinkLoop, n: nat): LinkLoop
    decreases n
  {
    if n == 0 then s else LinkLoopAfter(ws, bad, LinkLoopStep(ws, bad, s), n - 1)
  }

  lemma {:induction false} LinkLoopStays(ws: seq<string>, bad: string, s: LinkLoop, n: nat)
    requires !s.Reading?
    ensures LinkLoopAfter(ws, bad, s, n) == s
    decreases n
  {
    if n > 0 {
      LinkLoopStays(ws, bad, s, n - 1);
    }
  }

  function Repeat(v: int, n: nat): (r: seq<int>)
    ensures |r| == n && forall m :: 0 <= m < n ==> r[m] == v
  {
    seq(n, m => v)
  }

  /**
   * The loop as written never ends on a line used up before its `]` when the
   * word last extracted is an `int`: every pass adds that `int` once more.
   */
  lemma {:induction false} UnclosedLinksNeverEnd(ws: seq<string>, bad: string, k: nat, dummy: string, links: seq<int>, n: nat)
    requires k >= |ws| && ParseInt(dummy).Some?
    ensures LinkLoopAfter(ws, bad, Reading(k, dummy, links), n) == Reading(k, dummy, links + Repeat(ParseInt(dummy).value, n))
    decreases n
  {
    var v := ParseInt(dummy).value;
    if n == 0 {
      assert links + Repeat(v, 0) == links;
    } else {
      assert dummy != "]" by {
        assert ParseInt("]") == None by { assert !IsDigit(']'); }
      }
      assert LinkLoopStep(ws, bad, Reading(k, dummy, links)) == Reading(k, dummy, links + [v]);
      UnclosedLinksNeverEnd(ws, bad, k, dummy, links + [v], n - 1);
      assert links + [v] + Repeat(v, n - 1) == links + Repeat(v, n);
    }
  }

  /**
   * A line that stops after one link, such as `0 0 [ 5`: after the two ints
   * the stream holds the words `[ 5`; after `[` and the link the in-link loop
   * as written keeps reading that link forever instead of reporting the
   * missing `]`; the corrected reader reports it.
   */
  lemma UnclosedLinksLine(i: int, c: int, v: int, n: nat)
    requires IsInt32(i) && IsInt32(c) && IsInt32(v)
    ensures ExtractTwoInts(IntToString(i) + " " + IntToString(c) + (" [ " + IntToString(v))) == Some((i, c, " [ " + IntToString(v)))
    ensures var ws := StreamWords(" [ " + IntToString(v));
      ws == ["[", IntToString(v)] &&
      LinkLoopAfter(ws, BadInLink(i), Reading(1, "[", []), n + 1) == Reading(2, IntToString(v), Repeat(v, n + 1))
    ensures PolygonAt(IntToString(i) + " " + IntToString(c) + (" [ " + IntToString(v))) == Err(BadInLink(i))
  {
    var tail := " [ " + IntToString(v);
    var line := IntToString(i) + " " + IntToString(c) + tail;
    PolygonHeadRead(i, c, tail);
    UnclosedTail(v);
    ParseIntToString(v);
    UnclosedLoop(["[", IntToString(v)], BadInLink(i), v, n);
    UnclosedPolygon(line, i, c, tail, IntToString(v));
  }

  /** The loop as written, on the words `[` and a link: the link is read again on every pass. */
  lemma UnclosedLoop(ws: seq<string>, bad: string, v: int, n: nat)
    requires |ws| == 2 && ws[0] == "[" && ParseInt(ws[1]) == Some(v)
    ensures LinkLoopAfter(ws, bad, Reading(1, "[", []), n + 1) == Reading(2, ws[1], Repeat(v, n + 1))
  {
    assert ws[1] != "]" by {
      assert ParseInt("]") == None by { assert !IsDigit(']'); }
    }
    assert LinkLoopStep(ws, bad, Reading(1, "[", [])) == Reading(2, ws[1], [v]);
    UnclosedLinksNeverEnd(ws, bad, 2, ws[1], [v], n);
    assert [v] + Repeat(v, n) == Repeat(v, n + 1);
  }

  /** A polygon line whose words after the two ints are `[` and a link is a bad in-link. */
  lemma UnclosedPolygon(line: string, i: int, c: int, rest: string, w: string)
    requires ExtractTwoInts(line) == Some((i, c, rest))
    requires StreamWords(rest) == ["[", w] && ParseInt(w).Some?
    ensures PolygonAt(line) == Err(BadInLink(i))
  {
    var ws := StreamWords(rest);
    assert w != "]" by {
      assert ParseInt("]") == None by { assert !IsDigit(']'); }
    }
    assert LinksAt(ws, 2, BadInLink(i)) == Err(BadInLink(i));
    assert LinksAt(ws, 1, BadInLink(i)) == Err(BadInLink(i));
  }

  /** The words after the two ints of an unclosed line: `[` and the link. */
  lemma UnclosedTail(v: int)
    ensures StreamWords(" [ " + IntToString(v)) == ["[", IntToString(v)]
  {
    var s := IntToString(v);
    var ws := ["[", s];
    IntToStringToken(v);
    forall k | 0 <= k < |ws| ensures |ws[k]| > 0 && NoSep(ws[k], IsSpace) {
      assert IsToken(ws[k]);
    }
    WordsOfJoin(ws, IsSpace);
    assert Join(ws) == "[" + " " + s;
    var t := " [ " + s;
    WordsSkip(t, IsSpace);
    assert t[1..] == "[" + " " + s;
  }

  /**
   * Wherever the loop as written does stop, the corrected reader agrees with
   * it: the same links and the same next word when it meets `]`, the same
   * error when it fails.
   */
  lemma {:induction false} CorrectedLinksAgree(ws: seq<string>, bad: string, k: nat, dummy: string, acc: seq<int>, n: nat)
    requires dummy != "]"
    ensures var s := LinkLoopAfter(ws, bad, Reading(k, dummy, acc), n);
      (s.Closed? ==> Prefixed(acc, LinksAt(ws, k, bad)) == Ok(Parsed(s.links, s.next))) &&
      (s.Failed? ==> LinksAt(ws, k, bad) == Err(bad))
    decreases n
  {
    if n > 0 {
      var t := LinkLoopStep(ws, bad, Reading(k, dummy, acc));
      if t.Reading? {
        if k >= |ws| {
          UnclosedLinksNeverEnd(ws, bad, k, dummy, acc, n);
        } else {
          var v := ParseInt(ws[k]).value;
          CorrectedLinksAgree(ws, bad, k + 1, ws[k], acc + [v], n - 1);
          PrefixedPrefixed(acc, [v], LinksAt(ws, k + 1, bad));
        }
      } else {
        LinkLoopStays(ws, bad, t, n - 1);
        if t.Closed? {
          assert acc + [] == acc;
        }
      }
    }
  }

  /** The corrected link loop of `read_navmesh`, from word k to just after the closing `]`. */
  method ReadLinks(ws: seq<string>, k: nat, bad: string) returns (r: Result<Parsed<seq<int>>>)
    ensures r == LinksAt(ws, k, bad)
  {
    var links: seq<int> := [];
    var j := k;
    PrefixedNil(LinksAt(ws, k, bad));
    while j < |ws| && ws[j] != "]"
      invariant k <= j
      invariant LinksAt(ws, k, bad) == Prefixed(links, LinksAt(ws, j, bad))
      decreases |ws| - j
    {
      var v := ParseInt(ws[j]);
      if v.None? {
        return Err(bad);
      }
      PrefixedPrefixed(links, [v.value], LinksAt(ws, j + 1, bad));
      links := links + [v.value];
      j := j + 1;
    }
    if j >= |ws| {
      return Err(bad);
    }
    assert links + [] == links;
    r := Ok(Parsed(links, j + 1));
  }

  /** The body of `read_navmesh`'s polygon loop: one line read as one polygon. */
  method ParsePolygonLine(line: string) returns (r: Result<NavPolygon>)
    ensures r == PolygonAt(line)
  {
    var head := ExtractTwoInts(line);
    if head.None? {
      return Err(ExpectInLinks);
    }
    var (index, colIndex, rest) := head.value;
    var ws := StreamWords(rest);
    if |ws| == 0 || ws[0] != "[" {
      return Err(ExpectInLinks);
    }
    var ins := ReadLinks(ws, 1, BadInLink(index));
    if ins.Err? {
      return Err(ins.error);
    }
    if ins.value.next >= |ws| || ws[ins.value.next] != "[" {
      return Err(ExpectOutLinks);
    }
    var outs := ReadLinks(ws, ins.value.next + 1, BadOutLink(index));
    if outs.Err? {
      return Err(outs.error);
    }
    r := Ok(NavPolygon(colIndex, ins.value.value, outs.value.value));
  }

  //#################### WRITING POLYGONS ####################

  /** Each link followed by one space, as `write_navmesh` writes a list. */
  function LinksText(links: seq<int>): string
  {
    if |links| == 0 then "" else LinksText(links[..|links| - 1]) + IntToString(links[|links| - 1]) + " "
  }

  /** A list in brackets: `[ `, the links, `]`. */
  function BracketText(links: seq<int>): string { "[ " + LinksText(links) + "]" }

  /** `write_navmesh` for polygon i: its index, its collision polygon index and its two link lists. */
  function PolygonLine(i: int, p: NavPolygon): string
  {
    IntToString(i) + " " + IntToString(p.colIndex) + " [ " + LinksText(p.inLinks) + "]" + " [ " + LinksText(p.outLinks) + "]"
  }

  lemma PolygonLineBrackets(i: int, p: NavPolygon)
    ensures PolygonLine(i, p) == IntToString(i) + " " + IntToString(p.colIndex) + " " + BracketText(p.inLinks) + " " + BracketText(p.outLinks)
  {
    BracketsRegroup(IntToString(i) + " " + IntToString(p.colIndex), LinksText(p.inLinks), LinksText(p.outLinks));
  }

  lemma BracketsRegroup(a: string, b: string, c: string)
    ensures a + " [ " + b + "]" + " [ " + c + "]" == a + " " + ("[ " + b + "]") + " " + ("[ " + c + "]")
  {
    assert " [ " == " " + "[ ";
    assert a + " [ " + b + "]" == a + " " + ("[ " + b + "]");
  }

  function LinkWords(links: seq<int>): (ws: seq<string>)
    ensures |ws| == |links| && forall m :: 0 <= m < |links| ==> ws[m] == IntToString(links[m])
  {
    seq(|links|, m requires 0 <= m < |links| => IntToString(links[m]))
  }

  /** The words of polygon i's line. */
  function PolygonWords(i: int, p: NavPolygon): seq<string>
  {
    [IntToString(i), IntToString(p.colIndex)] + (["["] + LinkWords(p.inLinks) + ["]"]) + (["["] + LinkWords(p.outLinks) + ["]"])
  }

  lemma {:induction false} LinksTextJoin(links: seq<int>)
    requires |links| > 0
    ensures LinksText(links) == Join(LinkWords(links)) + " "
    decreases |links|
  {
    var n := |links|;
    var front := links[..n - 1];
    var w := IntToString(links[n - 1]);
    LinksTextLast(links);
    if n > 1 {
      LinksTextJoin(front);
      LinkWordsLast(links);
      JoinAppend(LinkWords(front), [w]);
      JoinStep(LinksText(links), LinksText(front), Join(LinkWords(front)), Join(LinkWords(links)), w);
    } else {
      assert LinkWords(links) == [w];
    }
  }

  lemma LinksTextLast(links: seq<int>)
    requires |links| > 0
    ensures LinksText(links) == LinksText(links[..|links| - 1]) + (IntToString(links[|links| - 1]) + " ")
  {
  }

  lemma LinkWordsLast(links: seq<int>)
    requires |links| > 0
    ensures LinkWords(links) == LinkWords(links[..|links| - 1]) + [IntToString(links[|links| - 1])]
  {
  }

  lemma JoinStep(text: string, front: string, joined: string, all: string, w: string)
    requires text == front + (w + " ") && front == joined + " " && all == joined + " " + Join([w])
    ensures text == all + " "
  {
  }

  lemma BracketJoin(links: seq<int>)
    ensures BracketText(links) == Join(["["] + LinkWords(links) + ["]"])
  {
    if |links| == 0 {
      assert ["["] + LinkWords(links) + ["]"] == ["[", "]"];
    } else {
      var inner := LinkWords(links);
      LinksTextJoin(links);
      JoinAppend(["["], inner);
      JoinAppend(["["] + inner, ["]"]);
      BracketStep(BracketText(links), LinksText(links), Join(inner), Join(["["] + inner), Join(["["] + inner + ["]"]));
    }
  }

  lemma BracketStep(bracket: string, text: string, inner: string, lead: string, whole: string)
    requires bracket == "[ " + text + "]" && text == inner + " "
    requires lead == Join(["["]) + " " + inner && whole == lead + " " + Join(["]"])
    ensures bracket == whole
  {
  }

  /** A polygon line is its words joined by single spaces. */
  lemma PolygonLineJoin(i: int, p: NavPolygon)
    ensures PolygonLine(i, p) == Join(PolygonWords(i, p))
  {
    var head := [IntToString(i), IntToString(p.colIndex)];
    var a := ["["] + LinkWords(p.inLinks) + ["]"];
    var b := ["["] + LinkWords(p.outLinks) + ["]"];
    PolygonLineBrackets(i, p);
    BracketJoin(p.inLinks);
    BracketJoin(p.outLinks);
    assert Join(head) == IntToString(i) + " " + IntToString(p.colIndex);
    JoinAppend(head, a);
    JoinAppend(head + a, b);
  }

  ghost predicate AllTokens(ws: seq<string>) { forall k :: 0 <= k < |ws| ==> IsToken(ws[k]) }

  lemma AllTokensAppend(a: seq<string>, b: seq<string>)
    requires AllTokens(a) && AllTokens(b)
    ensures AllTokens(a + b)
  {
    forall k | 0 <= k < |a + b| ensures IsToken((a + b)[k]) {
      if k >= |a| {
        assert (a + b)[k] == b[k - |a|];
      }
    }
  }

  lemma LinkWordsAreTokens(links: seq<int>)
    ensures AllTokens(["["] + LinkWords(links) + ["]"])
  {
    var ws := LinkWords(links);
    forall k | 0 <= k < |ws| ensures IsToken(ws[k]) {
      IntToStringToken(links[k]);
    }
    AllTokensAppend(["["], ws);
    AllTokensAppend(["["] + ws, ["]"]);
  }

  lemma PolygonWordsAreTokens(i: int, p: NavPolygon)
    ensures AllTokens(PolygonWords(i, p))
  {
    IntToStringToken(i);
    IntToStringToken(p.colIndex);
    LinkWordsAreTokens(p.inLinks);
    LinkWordsAreTokens(p.outLinks);
    var head := [IntToString(i), IntToString(p.colIndex)];
    AllTokensAppend(head, ["["] + LinkWords(p.inLinks) + ["]"]);
    AllTokensAppend(head + (["["] + LinkWords(p.inLinks) + ["]"]), ["["] + LinkWords(p.outLinks) + ["]"]);
  }

  /** Every number of the polygon fits in an `int`. */
  ghost predicate PolygonInt32(p: NavPolygon)
  {
    IsInt32(p.colIndex) &&
    (forall m :: 0 <= m < |p.inLinks| ==> IsInt32(p.inLinks[m])) &&
    (forall m :: 0 <= m < |p.outLinks| ==> IsInt32(p.outLinks[m]))
  }

  lemma LinkWordsRead(ws: seq<string>, k: nat, links: seq<int>)
    requires forall m :: 0 <= m < |links| ==> IsInt32(links[m])
    requires k + |links| < |ws| && ws[k..k + |links|] == LinkWords(links) && ws[k + |links|] == "]"
    ensures LinkWordsAt(ws, k, links)
  {
    forall m | 0 <= m < |links| ensures ParseInt(ws[k + m]) == Some(links[m]) {
      assert ws[k + m] == ws[k..k + |links|][m];
      ParseIntToString(links[m]);
    }
  }

  /** A written polygon line reads back as the polygon it was written from. */
  lemma PolygonRoundTrip(i: int, p: NavPolygon)
    requires IsInt32(i) && PolygonInt32(p)
    ensures PolygonAt(PolygonLine(i, p)) == Ok(p)
  {
    PolygonLineSplit(i, p);
    PolygonHeadRead(i, p.colIndex, " " + ListsText(p));
    ListsTailRead(p);
    PolygonAtOfText(PolygonLine(i, p), p);
  }

  lemma PolygonLineSplit(i: int, p: NavPolygon)
    ensures PolygonLine(i, p) == IntToString(i) + " " + IntToString(p.colIndex) + (" " + ListsText(p))
  {
    PolygonLineBrackets(i, p);
  }

  /** The index and the collision index written in front of the lists are extracted whole. */
  lemma PolygonHeadRead(i: int, c: int, tail: string)
    requires IsInt32(i) && IsInt32(c)
    requires |tail| > 0 && tail[0] == ' '
    ensures ExtractTwoInts(IntToString(i) + " " + IntToString(c) + tail) == Some((i, c, tail))
  {
    ParseIntToString(i);
    ParseIntToString(c);
    ExtractTwoWords(IntToString(i), IntToString(c), tail);
  }

  /** What follows the two ints of a written line denotes the polygon's link lists. */
  lemma ListsTailRead(p: NavPolygon)
    requires PolygonInt32(p)
    ensures LinkListsAre(StreamWords(" " + ListsText(p)), p)
  {
    var tail := " " + ListsText(p);
    ListsWordsAreWords(p);
    WordsSkip(tail, IsSpace);
    assert tail[1..] == ListsText(p);
    ListsWordsRead(p);
  }

  /** The two bracketed link lists at the end of a polygon line. */
  function ListsText(p: NavPolygon): string
  {
    BracketText(p.inLinks) + " " + BracketText(p.outLinks)
  }

  /** The words of the two bracketed link lists. */
  function ListsWords(p: NavPolygon): seq<string>
  {
    (["["] + LinkWords(p.inLinks) + ["]"]) + (["["] + LinkWords(p.outLinks) + ["]"])
  }

  lemma ListsWordsAreWords(p: NavPolygon)
    ensures StreamWords(ListsText(p)) == ListsWords(p)
  {
    var a := ["["] + LinkWords(p.inLinks) + ["]"];
    var b := ["["] + LinkWords(p.outLinks) + ["]"];
    BracketJoin(p.inLinks);
    BracketJoin(p.outLinks);
    JoinAppend(a, b);
    LinkWordsAreTokens(p.inLinks);
    LinkWordsAreTokens(p.outLinks);
    AllTokensAppend(a, b);
    var ws := ListsWords(p);
    forall k | 0 <= k < |ws| ensures |ws[k]| > 0 && NoSep(ws[k], IsSpace) {
      assert IsToken(ws[k]);
    }
    WordsOfJoin(ws, IsSpace);
  }

  lemma ListsWordsRead(p: NavPolygon)
    requires PolygonInt32(p)
    ensures LinkListsAre(ListsWords(p), p)
  {
    LinkListsOf(ListsWords(p), LinkWords(p.inLinks), LinkWords(p.outLinks), p);
  }

  /** Two bracketed lists of a polygon's links denote its link lists. */
  lemma LinkListsOf(ws: seq<string>, ins: seq<string>, outs: seq<string>, p: NavPolygon)
    requires PolygonInt32(p)
    requires ws == (["["] + ins + ["]"]) + (["["] + outs + ["]"])
    requires ins == LinkWords(p.inLinks) && outs == LinkWords(p.outLinks)
    ensures LinkListsAre(ws, p)
  {
    BracketedParts(ws, ins, outs, "[", "]");
    LinkWordsRead(ws, 1, p.inLinks);
    LinkWordsRead(ws, 3 + |p.inLinks|, p.outLinks);
  }

  /** Where the parts of `[ ins… ] [ outs… ]` lie. */
  lemma BracketedParts<T>(ws: seq<T>, ins: seq<T>, outs: seq<T>, open: T, close: T)
    requires ws == ([open] + ins + [close]) + ([open] + outs + [close])
    ensures |ws| == |ins| + |outs| + 4 && ws[0] == open
    ensures ws[1..1 + |ins|] == ins && ws[1 + |ins|] == close && ws[2 + |ins|] == open
    ensures ws[3 + |ins|..3 + |ins| + |outs|] == outs && ws[3 + |ins| + |outs|] == close
  {
  }

  /** `write_navmesh`'s polygon loop body: the line of polygon i, written piece by piece. */
  method WritePolygonLine(i: int, p: NavPolygon) returns (line: string)
    ensures line == PolygonLine(i, p)
  {
    line := IntToString(i) + " " + IntToString(p.colIndex) + " [ ";
    line := WriteLinks(line, p.inLinks);
    line := line + "]" + " [ ";
    line := WriteLinks(line, p.outLinks);
    line := line + "]";
  }

  /** One list of links written after `head`, each followed by a space. */
  method WriteLinks(head: string, links: seq<int>) returns (line: string)
    ensures line == head + LinksText(links)
  {
    line := head;
    var j := 0;
    while j < |links|
      invariant 0 <= j <= |links|
      invariant line == head + LinksText(links[..j])
    {
      var text := IntToString(links[j]) + " ";
      LinksTextSnoc(links, j);
      AppendStep(line, head, LinksText(links[..j]), LinksText(links[..j + 1]), text);
      line := line + text;
      j := j + 1;
    }
    assert links[..j] == links;
  }

  lemma LinksTextSnoc(links: seq<int>, j: nat)
    requires j < |links|
    ensures LinksText(links[..j + 1]) == LinksText(links[..j]) + (IntToString(links[j]) + " ")
  {
    assert links[..j + 1][..j] == links[..j];
  }

  /** A polygon line is one line of text and never the closing `}`. */
  lemma PolygonLineIsLine(i: int, p: NavPolygon)
    ensures IsLine(PolygonLine(i, p)) && PolygonLine(i, p) != "}"
  {
    var ws := PolygonWords(i, p);
    PolygonLineJoin(i, p);
    PolygonWordsAreTokens(i, p);
    forall k | 0 <= k < |ws| ensures IsLine(ws[k]) {
      assert IsToken(ws[k]);
    }
    JoinOfLines(ws);
    assert |PolygonLine(i, p)| > 1 by {
      PolygonLineBrackets(i, p);
    }
  }

  //#################### THE MESH BLOCK ####################

  /** Reported where the source would read empty nav links forever at end of input. */
  const LinksEof := EofMessage("nav links")

  /**
   * `read_navmesh`: `Mesh`, `{`, `Links`, `{`, one nav link per line up to
   * `}`, `Polygons`, `{`, one polygon per line up to `}`, then `}`. Links are
   * parsed by `construct`, polygons by `polygon` (`PolygonAt` in the reader
   * itself).
   */
  function MeshAt<L>(construct: string -> Result<L>, polygon: string -> Result<NavPolygon>, lines: seq<string>, pos: nat): (r: Result<Parsed<NavMesh<L>>>)
  {
    var a :- ReadCheckedAt(lines, pos, "Mesh");
    var b :- ReadCheckedAt(lines, a.next, "{");
    var c :- ReadCheckedAt(lines, b.next, "Links");
    var d :- ReadCheckedAt(lines, c.next, "{");
    var links :- UntilClose(construct, LinksEof, lines, d.next);
    MeshPolygonsAt(polygon, lines, links.next, links.value)
  }

  /** The rest of `read_navmesh` once the nav links are read: `Polygons`, `{`, the polygons up to `}`, then `}`. */
  function MeshPolygonsAt<L>(polygon: string -> Result<NavPolygon>, lines: seq<string>, pos: nat, links: seq<L>): (r: Result<Parsed<NavMesh<L>>>)
  {
    var e :- ReadCheckedAt(lines, pos, "Polygons");
    var g :- ReadCheckedAt(lines, e.next, "{");
    var polygons :- UntilClose(polygon, ExpectInLinks, lines, g.next);
    var h :- ReadCheckedAt(lines, polygons.next, "}");
    Ok(Parsed(NavMesh(polygons.value, links), h.next))
  }

  /** Where the polygon block of mesh m starts when its block starts at `pos`. */
  function PolygonsStart(pos: nat, linkCount: nat): nat { pos + linkCount + 7 }

  /** The lines from `pos` on are the mesh block of m, line for line. */
  ghost predicate MeshLinesAre<L>(construct: string -> Result<L>, polygon: string -> Result<NavPolygon>,
                                  lines: seq<string>, pos: nat, m: NavMesh<L>)
  {
    var q := PolygonsStart(pos, |m.links|);
    At(lines, pos, ["Mesh", "{", "Links", "{"]) &&
    ClosedBlock(construct, lines, pos + 4, m.links) &&
    At(lines, q - 2, ["Polygons", "{"]) &&
    ClosedBlock(polygon, lines, q, m.polygons) &&
    At(lines, q + |m.polygons| + 1, ["}"])
  }

  /** The size of the mesh block of m, in lines. */
  function MeshSize<L>(m: NavMesh<L>): nat { |m.links| + |m.polygons| + 9 }

  /** A mesh block reads as m exactly when its lines are those of m's block. */
  lemma {:induction false} MeshAtMeaning<L>(construct: string -> Result<L>, polygon: string -> Result<NavPolygon>,
                         lines: seq<string>, pos: nat, m: NavMesh<L>, next: nat)
    ensures MeshAt(construct, polygon, lines, pos) == Ok(Parsed(m, next)) <==>
            MeshLinesAre(construct, polygon, lines, pos, m) && next == pos + MeshSize(m)
  {
    if MeshAt(construct, polygon, lines, pos) == Ok(Parsed(m, next)) {
      MeshAtLines(construct, polygon, lines, pos);
    }
    if MeshLinesAre(construct, polygon, lines, pos, m) {
      MeshAtOfLines(construct, polygon, lines, pos, m);
    }
  }

  lemma {:induction false} MeshAtLines<L>(construct: string -> Result<L>, polygon: string -> Result<NavPolygon>, lines: seq<string>, pos: nat)
    ensures var r := MeshAt(construct, polygon, lines, pos);
      r.Ok? ==> MeshLinesAre(construct, polygon, lines, pos, r.value.value) && r.value.next == pos + MeshSize(r.value.value)
  {
    var r := MeshAt(construct, polygon, lines, pos);
    if r.Ok? {
      MeshLinksLines(construct, lines, pos);
      var links := UntilClose(construct, LinksEof, lines, pos + 4).value;
      MeshPolygonsLines(polygon, lines, links.next, links.value);
    }
  }

  /** A mesh block that reads has its head first and then its nav links up to their closing brace. */
  lemma {:induction false} MeshLinksLines<L>(construct: string -> Result<L>, lines: seq<string>, pos: nat)
    requires MeshHeadLines(lines, pos)
    ensures var links := UntilClose(construct, LinksEof, lines, pos + 4);
      At(lines, pos, ["Mesh", "{", "Links", "{"]) &&
      (links.Ok? ==> ClosedBlock(construct, lines, pos + 4, links.value.value) && links.value.next == pos + |links.value.value| + 5)
  {
    UntilCloseMeaning(construct, LinksEof, lines, pos + 4);
    assert lines[pos..pos + 4] == ["Mesh", "{", "Links", "{"];
  }

  lemma {:induction false} MeshPolygonsLines<L>(polygon: string -> Result<NavPolygon>, lines: seq<string>, pos: nat, links: seq<L>)
    ensures var r := MeshPolygonsAt(polygon, lines, pos, links);
      r.Ok? ==> r.value.value.links == links && At(lines, pos, ["Polygons", "{"]) &&
                ClosedBlock(polygon, lines, pos + 2, r.value.value.polygons) &&
                At(lines, pos + |r.value.value.polygons| + 3, ["}"]) && r.value.next == pos + |r.value.value.polygons| + 4
  {
    var r := MeshPolygonsAt(polygon, lines, pos, links);
    if r.Ok? {
      UntilCloseMeaning(polygon, ExpectInLinks, lines, pos + 2);
      var n := |r.value.value.polygons|;
      assert lines[pos..pos + 2] == ["Polygons", "{"];
      assert lines[pos + n + 3..pos + n + 4] == ["}"];
    }
  }

  lemma {:induction false} MeshAtOfLines<L>(construct: string -> Result<L>, polygon: string -> Result<NavPolygon>,
                         lines: seq<string>, pos: nat, m: NavMesh<L>)
    requires MeshLinesAre(construct, polygon, lines, pos, m)
    ensures MeshAt(construct, polygon, lines, pos) == Ok(Parsed(m, pos + MeshSize(m)))
  {
    var p := pos + |m.links| + 5;
    MeshLinksOfLines(construct, lines, pos, m.links);
    MeshPolygonsOfLines(polygon, lines, p, m.links, m.polygons);
    MeshAtOf(construct, polygon, lines, pos, m.links, p, m, pos + MeshSize(m));
  }

  /** The head of a mesh block, then its nav links up to their closing brace. */
  lemma {:induction false} MeshLinksOfLines<L>(construct: string -> Result<L>, lines: seq<string>, pos: nat, links: seq<L>)
    requires At(lines, pos, ["Mesh", "{", "Links", "{"]) && ClosedBlock(construct, lines, pos + 4, links)
    ensures MeshHeadLines(lines, pos) && UntilClose(construct, LinksEof, lines, pos + 4) == Ok(Parsed(links, pos + |links| + 5))
  {
    MeshHeadAt(lines, pos);
    UntilCloseOfBlock(construct, LinksEof, lines, pos + 4, links);
  }

  /** The four lines that open a mesh block. */
  predicate MeshHeadLines(lines: seq<string>, pos: nat)
  {
    pos + 4 <= |lines| && lines[pos] == "Mesh" && lines[pos + 1] == "{" && lines[pos + 2] == "Links" && lines[pos + 3] == "{"
  }

  lemma {:induction false} MeshHeadAt(lines: seq<string>, pos: nat)
    requires At(lines, pos, ["Mesh", "{", "Links", "{"])
    ensures MeshHeadLines(lines, pos)
  {
    AtIndex(lines, pos, ["Mesh", "{", "Links", "{"], 0);
    AtIndex(lines, pos, ["Mesh", "{", "Links", "{"], 1);
    AtIndex(lines, pos, ["Mesh", "{", "Links", "{"], 2);
    AtIndex(lines, pos, ["Mesh", "{", "Links", "{"], 3);
  }

  lemma {:induction false} MeshPolygonsOfLines<L>(polygon: string -> Result<NavPolygon>, lines: seq<string>, pos: nat, links: seq<L>, polygons: seq<NavPolygon>)
    requires At(lines, pos, ["Polygons", "{"]) && ClosedBlock(polygon, lines, pos + 2, polygons)
    requires At(lines, pos + |polygons| + 3, ["}"])
    ensures MeshPolygonsAt(polygon, lines, pos, links) == Ok(Parsed(NavMesh(polygons, links), pos + |polygons| + 4))
  {
    UntilCloseOfBlock(polygon, ExpectInLinks, lines, pos + 2, polygons);
    AtIndex(lines, pos, ["Polygons", "{"], 0);
    AtIndex(lines, pos, ["Polygons", "{"], 1);
    AtIndex(lines, pos + |polygons| + 3, ["}"], 0);
  }

  /** The nav link lines `write_navmesh` writes, one per link. */
  function LinkLines<L>(codec: LinkCodec<L>, links: seq<L>): (ls: seq<string>)
    ensures |ls| == |links| && forall k :: 0 <= k < |links| ==> ls[k] == codec.output(links[k])
  {
    seq(|links|, k requires 0 <= k < |links| => codec.output(links[k]))
  }

  /** The polygon lines `write_navmesh` writes, polygon k with index k. */
  function PolygonLines(polygons: seq<NavPolygon>): (ls: seq<string>)
    ensures |ls| == |polygons| && forall k :: 0 <= k < |polygons| ==> ls[k] == PolygonLine(k, polygons[k])
  {
    seq(|polygons|, k requires 0 <= k < |polygons| => PolygonLine(k, polygons[k]))
  }

  function MeshHead(): seq<string> { ["Mesh", "{", "Links", "{"] }

  function MeshMiddle(): seq<string> { ["}", "Polygons", "{"] }

  /** The lines of `write_navmesh`. */
  function MeshLines<L>(codec: LinkCodec<L>, m: NavMesh<L>): seq<string>
  {
    MeshHead() + LinkLines(codec, m.links) + MeshMiddle() + PolygonLines(m.polygons) + ["}", "}"]
  }

  /** `write_navmesh`. */
  method WriteNavMesh<L>(codec: LinkCodec<L>, m: NavMesh<L>) returns (out: string)
    ensures out == Unlines(MeshLines(codec, m))
  {
    var links := WriteLinkLines(codec, m.links);
    var polygons := WritePolygonLines(m.polygons);
    out := "Mesh\n{\nLinks\n{\n" + links + "}\nPolygons\n{\n" + polygons + "}\n}\n";
    MeshText(codec, m);
  }

  /** The nav link loop of `write_navmesh`: each link's output, then a line break. */
  method WriteLinkLines<L>(codec: LinkCodec<L>, links: seq<L>) returns (out: string)
    ensures out == Unlines(LinkLines(codec, links))
  {
    ghost var ls := LinkLines(codec, links);
    out := "";
    assert ls[..0] == [];
    var i := 0;
    while i < |links|
      invariant 0 <= i <= |links|
      invariant out == Unlines(ls[..i])
    {
      UnlinesTake(ls, i, out);
      out := out + codec.output(links[i]) + "\n";
      i := i + 1;
    }
    assert ls[..i] == ls;
  }

  /** The polygon loop of `write_navmesh`: polygon i's line, then a line break. */
  method WritePolygonLines(polygons: seq<NavPolygon>) returns (out: string)
    ensures out == Unlines(PolygonLines(polygons))
  {
    ghost var ls := PolygonLines(polygons);
    out := "";
    assert ls[..0] == [];
    var i := 0;
    while i < |polygons|
      invariant 0 <= i <= |polygons|
      invariant out == Unlines(ls[..i])
    {
      var line := WritePolygonLine(i, polygons[i]);
      UnlinesTake(ls, i, out);
      out := out + line + "\n";
      i := i + 1;
    }
    assert ls[..i] == ls;
  }

  /** The text of a mesh block, piece by piece. */
  lemma MeshText<L>(codec: LinkCodec<L>, m: NavMesh<L>)
    ensures Unlines(MeshLines(codec, m)) ==
            "Mesh\n{\nLinks\n{\n" + Unlines(LinkLines(codec, m.links)) + "}\nPolygons\n{\n" +
            Unlines(PolygonLines(m.polygons)) + "}\n}\n"
  {
    var links := LinkLines(codec, m.links);
    var polygons := PolygonLines(m.polygons);
    UnlinesAppend(MeshHead() + links + MeshMiddle() + polygons, ["}", "}"]);
    UnlinesAppend(MeshHead() + links + MeshMiddle(), polygons);
    UnlinesAppend(MeshHead() + links, MeshMiddle());
    UnlinesAppend(MeshHead(), links);
    MeshFixedText();
  }

  /** The text of the fixed lines around the links and the polygons. */
  lemma MeshFixedText()
    ensures Unlines(MeshHead()) == "Mesh\n{\nLinks\n{\n"
    ensures Unlines(MeshMiddle()) == "}\nPolygons\n{\n"
    ensures Unlines(["}", "}"]) == "}\n}\n"
  {
    assert Unlines(MeshHead()[3..]) == "{\n";
    assert Unlines(MeshHead()[2..]) == "Links\n{\n";
    assert Unlines(MeshHead()[1..]) == "{\nLinks\n{\n";
    assert Unlines(MeshMiddle()[2..]) == "{\n";
    assert Unlines(MeshMiddle()[1..]) == "Polygons\n{\n";
    assert Unlines(["}", "}"][1..]) == "}\n";
  }

  /** Nav links that each write as one line, never `}`, and construct back to themselves. */
  ghost predicate LinksRoundTrip<L>(codec: LinkCodec<L>, links: seq<L>)
  {
    forall k :: 0 <= k < |links| ==>
      IsLine(codec.output(links[k])) && codec.output(links[k]) != "}" && codec.construct(codec.output(links[k])) == Ok(links[k])
  }

  /** A mesh whose polygons can be numbered by `int`s and whose numbers all fit in one. */
  ghost predicate MeshInt32<L>(m: NavMesh<L>)
  {
    IsInt32(|m.polygons|) && forall k :: 0 <= k < |m.polygons| ==> PolygonInt32(m.polygons[k])
  }

  /** `read_navmesh` as a block reader. */
  function MeshReader<L>(codec: LinkCodec<L>): BlockParse<NavMesh<L>>
  {
    (lines: seq<string>, pos: nat) => MeshAt(codec.construct, PolygonAt, lines, pos)
  }

  lemma MeshReaderIs<L>(codec: LinkCodec<L>, lines: seq<string>, pos: nat)
    ensures MeshReader(codec)(lines, pos) == MeshAt(codec.construct, PolygonAt, lines, pos)
  {
  }

  /** A block of lines ended by `}`, as a block reader. */
  function UntilReader<T>(parse: string -> Result<T>, eof: string): BlockParse<seq<T>>
  {
    (lines: seq<string>, pos: nat) => UntilClose(parse, eof, lines, pos)
  }

  lemma UntilReaderIs<T>(parse: string -> Result<T>, eof: string, lines: seq<string>, pos: nat)
    ensures UntilReader(parse, eof)(lines, pos) == UntilClose(parse, eof, lines, pos)
  {
  }

  /** The polygon part of a mesh block, behind links already read, as a block reader. */
  function PolygonsReader<L>(polygon: string -> Result<NavPolygon>, links: seq<L>): BlockParse<NavMesh<L>>
  {
    (lines: seq<string>, pos: nat) => MeshPolygonsAt(polygon, lines, pos, links)
  }

  lemma PolygonsReaderIs<L>(polygon: string -> Result<NavPolygon>, links: seq<L>, lines: seq<string>, pos: nat)
    ensures PolygonsReader(polygon, links)(lines, pos) == MeshPolygonsAt(polygon, lines, pos, links)
  {
  }

  /** All of read_navmesh, with any link and polygon parse, as a block reader. */
  function MeshReaderOf<L>(construct: string -> Result<L>, polygon: string -> Result<NavPolygon>): BlockParse<NavMesh<L>>
  {
    (lines: seq<string>, pos: nat) => MeshAt(construct, polygon, lines, pos)
  }

  lemma MeshReaderOfIs<L>(construct: string -> Result<L>, polygon: string -> Result<NavPolygon>, lines: seq<string>, pos: nat)
    ensures MeshReaderOf(construct, polygon)(lines, pos) == MeshAt(construct, polygon, lines, pos)
  {
  }

  /** Lines other than `}` that parse as `vs`, then `}`, found anywhere, read as `vs`. */
  lemma UntilBlockReads<T>(parse: string -> Result<T>, eof: string, ws: seq<string>, vs: seq<T>)
    requires |ws| == |vs| && forall k :: 0 <= k < |ws| ==> ws[k] != "}" && parse(ws[k]) == Ok(vs[k])
    ensures BlockReads(UntilReader(parse, eof), ws + ["}"], vs)
  {
    forall lines: seq<string>, pos: nat | At(lines, pos, ws + ["}"])
      ensures UntilReader(parse, eof)(lines, pos) == Ok(Parsed(vs, pos + |ws + ["}"]|))
    {
      UntilReaderIs(parse, eof, lines, pos);
      BlockOfText(parse, lines, pos, ws, vs);
      UntilCloseOfBlock(parse, eof, lines, pos, vs);
    }
  }

  /** `Polygons`, `{`, a polygon block that reads, and `}`, found anywhere, read as the mesh. */
  lemma PolygonsBlockReads<L>(polygon: string -> Result<NavPolygon>, links: seq<L>, pw: seq<string>, polygons: seq<NavPolygon>,
                              w: seq<string>)
    requires BlockReads(UntilReader(polygon, ExpectInLinks), pw, polygons)
    requires w == ["Polygons", "{"] + pw + ["}"]
    ensures BlockReads(PolygonsReader(polygon, links), w, NavMesh(polygons, links))
  {
    forall lines: seq<string>, pos: nat | At(lines, pos, w)
      ensures PolygonsReader(polygon, links)(lines, pos) == Ok(Parsed(NavMesh(polygons, links), pos + |w|))
    {
      PolygonsReaderIs(polygon, links, lines, pos);
      PolygonsOfText(polygon, links, pw, polygons, w, lines, pos);
    }
  }

  lemma PolygonsOfText<L>(polygon: string -> Result<NavPolygon>, links: seq<L>, pw: seq<string>, polygons: seq<NavPolygon>,
                          w: seq<string>, lines: seq<string>, pos: nat)
    requires BlockReads(UntilReader(polygon, ExpectInLinks), pw, polygons)
    requires w == ["Polygons", "{"] + pw + ["}"]
    requires At(lines, pos, w)
    ensures MeshPolygonsAt(polygon, lines, pos, links) == Ok(Parsed(NavMesh(polygons, links), pos + |w|))
  {
    AtSplit(lines, pos, ["Polygons", "{"] + pw, ["}"]);
    AtSplit(lines, pos, ["Polygons", "{"], pw);
    AtIndex(lines, pos, ["Polygons", "{"], 0);
    AtIndex(lines, pos, ["Polygons", "{"], 1);
    AtIndex(lines, pos + 2 + |pw|, ["}"], 0);
    UseBlockReads(UntilReader(polygon, ExpectInLinks), pw, polygons, lines, pos + 2);
    UntilReaderIs(polygon, ExpectInLinks, lines, pos + 2);
  }

  /** The mesh head, a link block that reads, and the polygon part that reads, found anywhere, read as the mesh. */
  lemma MeshTextReads<L>(construct: string -> Result<L>, polygon: string -> Result<NavPolygon>, lw: seq<string>, links: seq<L>,
                         pw: seq<string>, m: NavMesh<L>, w: seq<string>)
    requires BlockReads(UntilReader(construct, LinksEof), lw, links)
    requires BlockReads(PolygonsReader(polygon, links), pw, m)
    requires w == MeshHead() + lw + pw
    ensures BlockReads(MeshReaderOf(construct, polygon), w, m)
  {
    forall lines: seq<string>, pos: nat | At(lines, pos, w)
      ensures MeshReaderOf(construct, polygon)(lines, pos) == Ok(Parsed(m, pos + |w|))
    {
      MeshReaderOfIs(construct, polygon, lines, pos);
      MeshOfText(construct, polygon, lw, links, pw, m, w, lines, pos);
    }
  }

  lemma {:induction false} MeshOfText<L>(construct: string -> Result<L>, polygon: string -> Result<NavPolygon>, lw: seq<string>, links: seq<L>,
                      pw: seq<string>, m: NavMesh<L>, w: seq<string>, lines: seq<string>, pos: nat)
    requires BlockReads(UntilReader(construct, LinksEof), lw, links)
    requires BlockReads(PolygonsReader(polygon, links), pw, m)
    requires w == MeshHead() + lw + pw
    requires At(lines, pos, w)
    ensures MeshAt(construct, polygon, lines, pos) == Ok(Parsed(m, pos + |w|))
  {
    MeshParts(lw, pw, w, lines, pos);
    UseBlockReads(UntilReader(construct, LinksEof), lw, links, lines, pos + 4);
    UntilReaderIs(construct, LinksEof, lines, pos + 4);
    UseBlockReads(PolygonsReader(polygon, links), pw, m, lines, pos + 4 + |lw|);
    PolygonsReaderIs(polygon, links, lines, pos + 4 + |lw|);
    MeshAtOf(construct, polygon, lines, pos, links, pos + 4 + |lw|, m, pos + |w|);
  }

  /** Where the parts of a mesh block lie. */
  lemma MeshParts(lw: seq<string>, pw: seq<string>, w: seq<string>, lines: seq<string>, pos: nat)
    requires w == MeshHead() + lw + pw
    requires At(lines, pos, w)
    ensures MeshHeadLines(lines, pos)
    ensures At(lines, pos + 4, lw) && At(lines, pos + 4 + |lw|, pw) && |w| == 4 + |lw| + |pw|
  {
    AtSplit(lines, pos, MeshHead() + lw, pw);
    AtSplit(lines, pos, MeshHead(), lw);
    AtIndex(lines, pos, MeshHead(), 0);
    AtIndex(lines, pos, MeshHead(), 1);
    AtIndex(lines, pos, MeshHead(), 2);
    AtIndex(lines, pos, MeshHead(), 3);
  }

  /** The frame of `read_navmesh` around links and a polygon part that read. */
  lemma {:induction false} MeshAtOf<L>(construct: string -> Result<L>, polygon: string -> Result<NavPolygon>, lines: seq<string>, pos: nat,
                    links: seq<L>, q: nat, m: NavMesh<L>, next: nat)
    requires MeshHeadLines(lines, pos)
    requires UntilClose(construct, LinksEof, lines, pos + 4) == Ok(Parsed(links, q))
    requires MeshPolygonsAt(polygon, lines, q, links) == Ok(Parsed(m, next))
    ensures MeshAt(construct, polygon, lines, pos) == Ok(Parsed(m, next))
  {
  }

  /** The lines of a mesh block, grouped as its reader reads them. */
  lemma MeshLinesShape<L>(codec: LinkCodec<L>, m: NavMesh<L>)
    ensures MeshLines(codec, m) ==
            MeshHead() + (LinkLines(codec, m.links) + ["}"]) + (["Polygons", "{"] + (PolygonLines(m.polygons) + ["}"]) + ["}"])
  {
    var ls := LinkLines(codec, m.links);
    var ps := PolygonLines(m.polygons);
    assert MeshMiddle() == ["}"] + ["Polygons", "{"];
    assert ["}", "}"] == ["}"] + ["}"];
    SeqRegroup(MeshHead(), ls, ["}"], ["Polygons", "{"], ps, ["}"], ["}"]);
  }

  /** a + b + (c + d) + e + (f + g) regrouped. */
  lemma SeqRegroup<T>(a: seq<T>, b: seq<T>, c: seq<T>, d: seq<T>, e: seq<T>, f: seq<T>, g: seq<T>)
    ensures a + b + (c + d) + e + (f + g) == a + (b + c) + (d + (e + f) + g)
  {
  }

  /** A written mesh block, found anywhere, reads back as the mesh, and reading stops right after it. */
  lemma MeshBlockReads<L>(codec: LinkCodec<L>, m: NavMesh<L>)
    requires LinksRoundTrip(codec, m.links) && MeshInt32(m)
    ensures BlockReads(MeshReader(codec), MeshLines(codec, m), m)
  {
    var ls := LinkLines(codec, m.links);
    var ps := PolygonLines(m.polygons);
    PolygonLinesRead(m.polygons);
    UntilBlockReads(codec.construct, LinksEof, ls, m.links);
    UntilBlockReads(PolygonAt, ExpectInLinks, ps, m.polygons);
    PolygonsBlockReads(PolygonAt, m.links, ps + ["}"], m.polygons, ["Polygons", "{"] + (ps + ["}"]) + ["}"]);
    MeshLinesShape(codec, m);
    MeshTextReads(codec.construct, PolygonAt, ls + ["}"], m.links, ["Polygons", "{"] + (ps + ["}"]) + ["}"], m, MeshLines(codec, m));
    forall lines: seq<string>, pos: nat | At(lines, pos, MeshLines(codec, m))
      ensures MeshReader(codec)(lines, pos) == Ok(Parsed(m, pos + |MeshLines(codec, m)|))
    {
      MeshReaderIs(codec, lines, pos);
      MeshReaderOfIs(codec.construct, PolygonAt, lines, pos);
      UseBlockReads(MeshReaderOf(codec.construct, PolygonAt), MeshLines(codec, m), m, lines, pos);
    }
  }

  /** The mesh block as written reads back as the same mesh, and reading stops right after it. */
  lemma MeshRoundTrip<L>(codec: LinkCodec<L>, m: NavMesh<L>, lines: seq<string>, pos: nat)
    requires LinksRoundTrip(codec, m.links) && MeshInt32(m)
    requires At(lines, pos, MeshLines(codec, m))
    ensures MeshAt(codec.construct, PolygonAt, lines, pos) == Ok(Parsed(m, pos + |MeshLines(codec, m)|))
  {
    MeshBlockReads(codec, m);
    UseBlockReads(MeshReader(codec), MeshLines(codec, m), m, lines, pos);
    MeshReaderIs(codec, lines, pos);
  }

  lemma PolygonLinesRead(polygons: seq<NavPolygon>)
    requires IsInt32(|polygons|) && forall k :: 0 <= k < |polygons| ==> PolygonInt32(polygons[k])
    ensures forall k :: 0 <= k < |polygons| ==>
      PolygonLines(polygons)[k] != "}" && PolygonAt(PolygonLines(polygons)[k]) == Ok(polygons[k])
  {
    forall k | 0 <= k < |polygons| ensures PolygonLines(polygons)[k] != "}" && PolygonAt(PolygonLines(polygons)[k]) == Ok(polygons[k]) {
      PolygonLineIsLine(k, polygons[k]);
      PolygonRoundTrip(k, polygons[k]);
    }
  }

  /** Every line of a written mesh block is one line of text. */
  lemma MeshLinesAreLines<L>(codec: LinkCodec<L>, m: NavMesh<L>)
    requires LinksRoundTrip(codec, m.links)
    ensures AllLines(MeshLines(codec, m))
  {
    var links := LinkLines(codec, m.links);
    var polygons := PolygonLines(m.polygons);
    forall k | 0 <= k < |polygons| ensures IsLine(polygons[k]) {
      PolygonLineIsLine(k, m.polygons[k]);
    }
    assert AllLines(MeshHead()) && AllLines(MeshMiddle()) && AllLines(["}", "}"]);
    AllLinesAppend(MeshHead(), links);
    AllLinesAppend(MeshHead() + links, MeshMiddle());
    AllLinesAppend(MeshHead() + links + MeshMiddle(), polygons);
    AllLinesAppend(MeshHead() + links + MeshMiddle() + polygons, ["}", "}"]);
  }

  //#################### READING THE MESH BLOCK ####################

  /** The nav link loop of `read_navmesh`. */
  method ReadLinkBlock<L>(input: LineStream, codec: LinkCodec<L>) returns (r: Result<seq<L>>)
    requires input.Valid()
    modifies input
    ensures input.Valid()
    ensures Agrees(r, UntilClose(codec.construct, LinksEof, input.lines, old(input.pos)), input.pos)
  {
    ghost var start := input.pos;
    var links: seq<L> := [];
    PrefixedNil(UntilClose(codec.construct, LinksEof, input.lines, start));
    while true
      invariant input.Valid()
      invariant UntilClose(codec.construct, LinksEof, input.lines, start) ==
                Prefixed(links, UntilClose(codec.construct, LinksEof, input.lines, input.pos))
      decreases |input.lines| - input.pos
    {
      ghost var here := input.pos;
      var atEnd := input.pos >= |input.lines|;
      var line := input.GetLine();
      if line == "}" {
        break;
      }
      var link := codec.construct(line);
      if link.Err? {
        return Err(link.error);
      }
      if atEnd {
        return Err(LinksEof);
      }
      UntilCloseStep(codec.construct, LinksEof, input.lines, here, link.value, input.pos);
      PrefixedStep(UntilClose(codec.construct, LinksEof, input.lines, start), links, UntilClose(codec.construct, LinksEof, input.lines, here),
                   link.value, UntilClose(codec.construct, LinksEof, input.lines, input.pos));
      links := links + [link.value];
    }
    assert links + [] == links;
    r := Ok(links);
  }

  /** The polygon loop of `read_navmesh`. */
  method ReadPolygonBlock(input: LineStream) returns (r: Result<seq<NavPolygon>>)
    requires input.Valid()
    modifies input
    ensures input.Valid()
    ensures Agrees(r, UntilClose(PolygonAt, ExpectInLinks, input.lines, old(input.pos)), input.pos)
  {
    ghost var start := input.pos;
    ghost var parse: string -> Result<NavPolygon> := PolygonAt;
    var polygons: seq<NavPolygon> := [];
    PrefixedNil(UntilClose(parse, ExpectInLinks, input.lines, start));
    while true
      invariant input.Valid()
      invariant UntilClose(parse, ExpectInLinks, input.lines, start) ==
                Prefixed(polygons, UntilClose(parse, ExpectInLinks, input.lines, input.pos))
      decreases |input.lines| - input.pos
    {
      ghost var here := input.pos;
      var atEnd := input.pos >= |input.lines|;
      var line := input.GetLine();
      UntilCloseAt(parse, ExpectInLinks, input.lines, here);
      if line == "}" {
        break;
      }
      var polygon := ParsePolygonLine(line);
      if polygon.Err? {
        return Err(polygon.error);
      }
      if atEnd {
        return Err(ExpectInLinks);
      }
      UntilCloseStep(parse, ExpectInLinks, input.lines, here, polygon.value, input.pos);
      PrefixedStep(UntilClose(parse, ExpectInLinks, input.lines, start), polygons, UntilClose(parse, ExpectInLinks, input.lines, here),
                   polygon.value, UntilClose(parse, ExpectInLinks, input.lines, input.pos));
      polygons := polygons + [polygon.value];
    }
    assert polygons + [] == polygons;
    r := Ok(polygons);
  }

  /** `read_navmesh` on a stream. */
  method ReadNavMesh<L>(input: LineStream, codec: LinkCodec<L>) returns (r: Result<NavMesh<L>>)
    requires input.Valid()
    modifies input
    ensures input.Valid()
    ensures Agrees(r, MeshAt(codec.construct, PolygonAt, input.lines, old(input.pos)), input.pos)
  {
    var x := input.ReadCheckedLine("Mesh");
    if x.Err? {
      return Err(x.error);
    }
    x := input.ReadCheckedLine("{");
    if x.Err? {
      return Err(x.error);
    }
    x := input.ReadCheckedLine("Links");
    if x.Err? {
      return Err(x.error);
    }
    x := input.ReadCheckedLine("{");
    if x.Err? {
      return Err(x.error);
    }
    var links := ReadLinkBlock(input, codec);
    if links.Err? {
      return Err(links.error);
    }
    r := ReadMeshPolygons(input, links.value);
  }

  /** The rest of `read_navmesh` once the nav links are read. */
  method ReadMeshPolygons<L>(input: LineStream, links: seq<L>) returns (r: Result<NavMesh<L>>)
    requires input.Valid()
    modifies input
    ensures input.Valid()
    ensures Agrees(r, MeshPolygonsAt(PolygonAt, input.lines, old(input.pos), links), input.pos)
  {
    var x := input.ReadCheckedLine("Polygons");
    if x.Err? {
      return Err(x.error);
    }
    x := input.ReadCheckedLine("{");
    if x.Err? {
      return Err(x.error);
    }
    var polygons := ReadPolygonBlock(input);
    if polygons.Err? {
      return Err(polygons.error);
    }
    x := input.ReadCheckedLine("}");
    if x.Err? {
      return Err(x.error);
    }
    r := Ok(NavMesh(polygons.value, links));
  }
}
