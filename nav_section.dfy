/**
 * The navigation section of a level file: for each navigation dataset, its
 * navigation mesh (links and polygons), its adjacency list and its path
 * table, each written as a named, brace-delimited block of lines.
 *
 * Floating-point edge lengths are written and read through a `NumberText`;
 * nav links through a `LinkCodec` standing for `NavLinkFactory` and the
 * links' own `output`; the binary path table through a `PathTableCodec`.
 */
module NavSection {
  import opened Common
  import opened LineIO

  //#################### DATA ####################

  datatype Edge = Edge(toNode: int, length: real)

  /** The edges leaving each node, node by node, each list in the order the edges were added. */
  type AdjacencyList = seq<seq<Edge>>

  datatype NavPolygon = NavPolygon(colIndex: int, inLinks: seq<int>, outLinks: seq<int>)

  datatype NavMesh<L> = NavMesh(polygons: seq<NavPolygon>, links: seq<L>)

  datatype NavDataset<L, P> = NavDataset(adjacency: AdjacencyList, mesh: NavMesh<L>, pathTable: P)

  /** `NavLinkFactory::construct_navlink` for reading, and each link's `output` for writing. */
  datatype LinkCodec<!L> = LinkCodec(construct: string -> Result<L>, output: L -> string)

  /** Reading and writing the path table block, whose contents are binary. */
  datatype PathTableCodec<!P> = PathTableCodec(read: (seq<string>, nat) -> Result<Parsed<P>>, write: P -> seq<string>)

  /** An edge as it comes back from being written and read: its length passes through the text form. */
  function Reread(f: NumberText, e: Edge): Edge
    requires WellFormed(f)
  {
    Edge(e.toNode, f.read(f.show(e.length)).value)
  }

  function RereadAll(f: NumberText, edges: seq<Edge>): (r: seq<Edge>)
    requires WellFormed(f)
    ensures |r| == |edges| && forall k :: 0 <= k < |edges| ==> r[k] == Reread(f, edges[k])
  {
    if |edges| == 0 then [] else [Reread(f, edges[0])] + RereadAll(f, edges[1..])
  }

  function RereadList(f: NumberText, adj: AdjacencyList): (r: AdjacencyList)
    requires WellFormed(f)
    ensures |r| == |adj| && forall k :: 0 <= k < |adj| ==> r[k] == RereadAll(f, adj[k])
  {
    if |adj| == 0 then [] else [RereadAll(f, adj[0])] + RereadList(f, adj[1..])
  }

  /** With an exact number format, writing and reading changes nothing. */
  lemma RereadListExact(f: NumberText, adj: AdjacencyList)
    requires WellFormed(f) && Exact(f)
    ensures RereadList(f, adj) == adj
  {
    forall k | 0 <= k < |adj| ensures RereadList(f, adj)[k] == adj[k] {
      forall m | 0 <= m < |adj[k]| ensures RereadAll(f, adj[k])[m] == adj[k][m] {
        assert f.read(f.show(adj[k][m].length)) == Some(adj[k][m].length);
      }
    }
  }

  //#################### ADJACENCY LIST ENTRIES ####################

  function BadEntry(i: int): string { "Bad adjacency list entry " + IntToString(i) }

  const EdgeOpenMissing := "Expected ( to start adjacency list entry edge"

  const EdgeCloseMissing := "Expected ) to finish adjacency list entry edge"

  function BadEdge(i: int): string { "Bad edge in adjacency list entry " + IntToString(i) }

  /** The four tokens `( to length )` at position j denote edge e. */
  ghost predicate EdgeTokensAt(f: NumberText, tokens: seq<string>, j: int, e: Edge)
  {
    0 <= j && j + 3 < |tokens| && tokens[j] == "(" && tokens[j + 3] == ")" &&
    ParseInt(tokens[j + 1]) == Some(e.toNode) && f.read(tokens[j + 2]) == Some(e.length)
  }

  /** Edge k of `edges` is denoted by the four tokens at position j + 4k. */
  ghost predicate EdgeGroupsAt(f: NumberText, tokens: seq<string>, j: int, edges: seq<Edge>)
  {
    forall k {:trigger edges[k]} :: 0 <= k < |edges| ==> EdgeTokensAt(f, tokens, j + 4 * k, edges[k])
  }

  lemma EdgeGroupsCons(f: NumberText, tokens: seq<string>, j: int, e: Edge, rest: seq<Edge>)
    requires EdgeTokensAt(f, tokens, j, e) && EdgeGroupsAt(f, tokens, j + 4, rest)
    ensures EdgeGroupsAt(f, tokens, j, [e] + rest)
  {
    forall k | 0 <= k < |rest| + 1 ensures EdgeTokensAt(f, tokens, j + 4 * k, ([e] + rest)[k]) {
      if k > 0 {
        assert j + 4 * k == (j + 4) + 4 * (k - 1);
        assert ([e] + rest)[k] == rest[k - 1];
      }
    }
  }

  /** One edge group `( to length )` at token j of entry i. */
  function EdgeAt(f: NumberText, i: int, tokens: seq<string>, j: nat): (r: Result<Edge>)
    requires j + 3 < |tokens|
    ensures r.Ok? <==> tokens[j] == "(" && tokens[j + 3] == ")" &&
                       ParseInt(tokens[j + 1]).Some? && f.read(tokens[j + 2]).Some?
    ensures r.Ok? ==> EdgeTokensAt(f, tokens, j, r.value)
    ensures tokens[j] != "(" ==> r == Err(EdgeOpenMissing)
    ensures tokens[j] == "(" && tokens[j + 3] != ")" ==> r == Err(EdgeCloseMissing)
    ensures r.Err? && tokens[j] == "(" && tokens[j + 3] == ")" ==> r == Err(BadEdge(i))
  {
    if tokens[j] != "(" then Err(EdgeOpenMissing)
    else if tokens[j + 3] != ")" then Err(EdgeCloseMissing)
    else
      var to := ParseInt(tokens[j + 1]);
      var len := f.read(tokens[j + 2]);
      if to.None? || len.None? then Err(BadEdge(i)) else Ok(Edge(to.value, len.value))
  }

  /**
   * The n edges of entry i from token j on, four tokens per edge; the first
   * malformed group stops the parse with its error.
   */
  function EdgesFrom(f: NumberText, i: int, tokens: seq<string>, j: nat, n: nat): (r: Result<seq<Edge>>)
    requires j + 4 * n == |tokens|
    ensures r.Ok? ==> |r.value| == n
    ensures r.Ok? ==> EdgeGroupsAt(f, tokens, j, r.value)
    ensures r.Err? ==> r.error in {EdgeOpenMissing, EdgeCloseMissing, BadEdge(i)}
    decreases n
  {
    if n == 0 then Ok([])
    else
      match EdgeAt(f, i, tokens, j)
      case Err(m) => Err(m)
      case Ok(e) =>
        var rest := EdgesFrom(f, i, tokens, j + 4, n - 1);
        assert rest.Ok? ==> EdgeGroupsAt(f, tokens, j, [e] + rest.value) by {
          if rest.Ok? {
            EdgeGroupsCons(f, tokens, j, e, rest.value);
          }
        }
        Prepend([e], rest)
  }

  /** A token count of the form 4n + 1 holds n edge groups after the first token. */
  lemma GroupCount(count: nat)
    requires count % 4 == 1
    ensures 1 + 4 * ((count - 1) / 4) == count
  {
  }

  /** Conversely, n edge groups after the first token make a count of the form 4n + 1. */
  lemma GroupsOf(n: nat)
    ensures (1 + 4 * n) % 4 == 1 && (1 + 4 * n - 1) / 4 == n
  {
  }

  /**
   * `read_adjacency_list`, one entry: the line's space-separated tokens must
   * be `i` followed by edge groups `( to length )`.
   */
  function AdjacencyEntry(f: NumberText, i: int, line: string): Result<seq<Edge>>
  {
    var tokens := Tokens(line);
    if |tokens| == 0 then Err("Missing adjacency list entry " + IntToString(i))
    else if |tokens| % 4 != 1 then Err(BadEntry(i))
    else
      match ParseInt(tokens[0])
      case None => Err("The first token in the adjacency list entry was not an integer")
      case Some(c) =>
        if c != i then Err(BadEntry(i))
        else
          GroupCount(|tokens|);
          EdgesFrom(f, i, tokens, 1, (|tokens| - 1) / 4)
  }

  /**
   * An entry with no tokens is missing and one whose count is not 4n + 1 is
   * bad; an entry that reads starts with its own node number and holds one
   * group of four tokens for each edge, in order.
   */
  lemma AdjacencyEntryMeaning(f: NumberText, i: int, line: string)
    ensures var r := AdjacencyEntry(f, i, line);
      (|Tokens(line)| == 0 ==> r == Err("Missing adjacency list entry " + IntToString(i))) &&
      (|Tokens(line)| > 0 && |Tokens(line)| % 4 != 1 ==> r == Err(BadEntry(i))) &&
      (r.Ok? ==> ParseInt(Tokens(line)[0]) == Some(i) && |Tokens(line)| == 4 * |r.value| + 1 &&
                 EdgeGroupsAt(f, Tokens(line), 1, r.value))
  {
    var tokens := Tokens(line);
    if |tokens| > 0 && |tokens| % 4 == 1 && ParseInt(tokens[0]) == Some(i) {
      GroupCount(|tokens|);
    }
  }

  /** `read_adjacency_list`, one entry: the checks on the token count and on the first token. */
  method ParseAdjacencyEntry(f: NumberText, i: int, line: string) returns (r: Result<seq<Edge>>)
    ensures r == AdjacencyEntry(f, i, line)
  {
    var tokens := Tokens(line);
    var tokenCount := |tokens|;
    if tokenCount == 0 {
      return Err("Missing adjacency list entry " + IntToString(i));
    }
    if tokenCount % 4 != 1 {
      return Err(BadEntry(i));
    }
    var checkI := ParseInt(tokens[0]);
    if checkI.None? {
      return Err("The first token in the adjacency list entry was not an integer");
    }
    if checkI.value != i {
      return Err(BadEntry(i));
    }
    GroupCount(tokenCount);
    r := ParseEdges(f, i, tokens, (tokenCount - 1) / 4);
  }

  /** The loop of `read_adjacency_list` over the n edge groups of entry i, four tokens at a time. */
  /** One edge group parsed, in front of the groups after it. */
  lemma EdgesFromStep(f: NumberText, i: int, tokens: seq<string>, j: nat, n: nat, e: Edge, next: nat, m: nat)
    requires j + 4 * n == |tokens| && n > 0 && EdgeAt(f, i, tokens, j) == Ok(e) && next == j + 4 && m == n - 1
    ensures EdgesFrom(f, i, tokens, j, n) == Prepend([e], EdgesFrom(f, i, tokens, next, m))
  {
  }

  method ParseEdges(f: NumberText, i: int, tokens: seq<string>, n: nat) returns (r: Result<seq<Edge>>)
    requires 1 + 4 * n == |tokens|
    ensures r == EdgesFrom(f, i, tokens, 1, n)
  {
    var edges: seq<Edge> := [];
    var j := 1;
    ghost var left := n;
    PrependNil(EdgesFrom(f, i, tokens, 1, n));
    while j < |tokens|
      invariant j + 4 * left == |tokens|
      invariant EdgesFrom(f, i, tokens, 1, n) == Prepend(edges, EdgesFrom(f, i, tokens, j, left))
      decreases left
    {
      var edge := EdgeAt(f, i, tokens, j);
      if edge.Err? {
        return Err(edge.error);
      }
      PrependPrepend(edges, [edge.value], EdgesFrom(f, i, tokens, j + 4, left - 1));
      edges := edges + [edge.value];
      j := j + 4;
      left := left - 1;
    }
    assert edges + [] == edges;
    r := Ok(edges);
  }

  //#################### WRITING ENTRIES ####################

  /** The text of one edge: `( to length )`. */
  function EdgeText(f: NumberText, e: Edge): string
  {
    "( " + IntToString(e.toNode) + " " + f.show(e.length) + " )"
  }

  /** The edge groups of one entry, in order. */
  function EdgeTexts(f: NumberText, edges: seq<Edge>): (ts: seq<string>)
    ensures |ts| == |edges| && forall k :: 0 <= k < |edges| ==> ts[k] == EdgeText(f, edges[k])
  {
    seq(|edges|, k requires 0 <= k < |edges| => EdgeText(f, edges[k]))
  }

  /** The edge groups of one entry, one space between consecutive groups. */
  function EdgesText(f: NumberText, edges: seq<Edge>): string
  {
    Join(EdgeTexts(f, edges))
  }

  /** The line `write_adjacency_list` writes for node i: `i ` then the groups. */
  function EntryLine(f: NumberText, i: int, edges: seq<Edge>): string
  {
    IntToString(i) + " " + EdgesText(f, edges)
  }

  /** The tokens of the edge groups, four per edge. */
  function EdgeTokens(f: NumberText, edges: seq<Edge>): (ts: seq<string>)
    ensures |ts| == 4 * |edges|
  {
    if |edges| == 0 then []
    else ["(", IntToString(edges[0].toNode), f.show(edges[0].length), ")"] + EdgeTokens(f, edges[1..])
  }

  /** One edge's group is its four tokens joined by spaces. */
  lemma GroupJoin(f: NumberText, e: Edge)
    ensures Join(["(", IntToString(e.toNode), f.show(e.length), ")"]) == EdgeText(f, e)
  {
    var g := ["(", IntToString(e.toNode), f.show(e.length), ")"];
    assert Join(g[3..]) == ")";
    assert Join(g[2..]) == f.show(e.length) + " " + ")";
    assert Join(g[1..]) == IntToString(e.toNode) + " " + (f.show(e.length) + " " + ")");
  }

  lemma {:induction false} EdgesTextJoin(f: NumberText, edges: seq<Edge>)
    requires |edges| > 0
    ensures EdgesText(f, edges) == Join(EdgeTokens(f, edges))
  {
    var g := ["(", IntToString(edges[0].toNode), f.show(edges[0].length), ")"];
    GroupJoin(f, edges[0]);
    var texts := EdgeTexts(f, edges);
    if |edges| == 1 {
      assert edges[1..] == [];
      assert EdgeTokens(f, edges) == g;
      assert texts == [texts[0]];
    } else {
      EdgesTextJoin(f, edges[1..]);
      assert texts == [texts[0]] + EdgeTexts(f, edges[1..]);
      JoinAppend([texts[0]], EdgeTexts(f, edges[1..]));
      JoinAppend(g, EdgeTokens(f, edges[1..]));
    }
  }

  /** Every token written for an edge is free of spaces. */
  lemma EdgeTokensAreTokens(f: NumberText, edges: seq<Edge>)
    requires WellFormed(f)
    ensures forall k :: 0 <= k < |EdgeTokens(f, edges)| ==> IsToken(EdgeTokens(f, edges)[k])
  {
    if |edges| > 0 {
      EdgeTokensAreTokens(f, edges[1..]);
      IntToStringToken(edges[0].toNode);
      assert IsToken(f.show(edges[0].length));
    }
  }

  /** The written entry line splits into `i` followed by the edge tokens. */
  lemma EntryLineTokens(f: NumberText, i: int, edges: seq<Edge>)
    requires WellFormed(f)
    ensures Tokens(EntryLine(f, i, edges)) == [IntToString(i)] + EdgeTokens(f, edges)
  {
    var head := IntToString(i);
    IntToStringToken(i);
    assert NoSep(head, IsBlank);
    if |edges| == 0 {
      WordsCons(head, " ", IsBlank);
      WordsSkip(" ", IsBlank);
      assert EntryLine(f, i, edges) == head + " ";
    } else {
      var ts := [head] + EdgeTokens(f, edges);
      EdgesTextJoin(f, edges);
      JoinAppend([head], EdgeTokens(f, edges));
      assert EntryLine(f, i, edges) == Join(ts);
      EdgeTokensAreTokens(f, edges);
      forall k | 0 <= k < |ts| ensures |ts[k]| > 0 && NoSep(ts[k], IsBlank) {
        if k > 0 {
          assert ts[k] == EdgeTokens(f, edges)[k - 1];
        }
      }
      WordsOfJoin(ts, IsBlank);
    }
  }

  lemma {:induction false} EdgesFromTokens(f: NumberText, i: int, edges: seq<Edge>, pre: seq<string>)
    requires WellFormed(f)
    requires forall k :: 0 <= k < |edges| ==> IsInt32(edges[k].toNode)
    ensures EdgesFrom(f, i, pre + EdgeTokens(f, edges), |pre|, |edges|) == Ok(RereadAll(f, edges))
    decreases |edges|
  {
    var tokens := pre + EdgeTokens(f, edges);
    if |edges| > 0 {
      var g := ["(", IntToString(edges[0].toNode), f.show(edges[0].length), ")"];
      assert tokens == (pre + g) + EdgeTokens(f, edges[1..]);
      assert tokens[|pre|..|pre| + 4] == g;
      ParseIntToString(edges[0].toNode);
      EdgesFromTokens(f, i, edges[1..], pre + g);
    } else {
      assert tokens == pre;
    }
  }

  /** An entry whose count and first token pass the checks is its edge groups. */
  lemma EntryOfGroups(f: NumberText, i: int, line: string, n: nat)
    requires |Tokens(line)| == 1 + 4 * n && ParseInt(Tokens(line)[0]) == Some(i)
    ensures AdjacencyEntry(f, i, line) == EdgesFrom(f, i, Tokens(line), 1, n)
  {
    GroupsOf(n);
  }

  /** Any line made of `i` and the tokens of some edges reads back as those edges. */
  lemma EntryOfTokens(f: NumberText, i: int, edges: seq<Edge>, line: string)
    requires WellFormed(f) && IsInt32(i)
    requires forall k :: 0 <= k < |edges| ==> IsInt32(edges[k].toNode)
    requires Tokens(line) == [IntToString(i)] + EdgeTokens(f, edges)
    ensures AdjacencyEntry(f, i, line) == Ok(RereadAll(f, edges))
  {
    var tokens := [IntToString(i)] + EdgeTokens(f, edges);
    ParseIntToString(i);
    assert tokens[0] == IntToString(i);
    assert |tokens| == 1 + 4 * |edges|;
    EntryOfGroups(f, i, line, |edges|);
    EdgesFromTokens(f, i, edges, [IntToString(i)]);
  }

  /** A written entry reads back as the same edges, in order. */
  lemma EntryRoundTrip(f: NumberText, i: int, edges: seq<Edge>)
    requires WellFormed(f) && IsInt32(i)
    requires forall k :: 0 <= k < |edges| ==> IsInt32(edges[k].toNode)
    ensures AdjacencyEntry(f, i, EntryLine(f, i, edges)) == Ok(RereadAll(f, edges))
  {
    EntryLineTokens(f, i, edges);
    EntryOfTokens(f, i, edges, EntryLine(f, i, edges));
  }

  /** The separator written after the k-th of n items: a space between items only. */
  function Gap(k: nat, n: nat): string { if 0 < k < n then " " else "" }

  /** Writing item k after items 0 … k−1 of a space-separated list. */
  lemma JoinLoopStep(head: string, texts: seq<string>, k: nat, out: string)
    requires k < |texts|
    requires out == head + Join(texts[..k]) + Gap(k, |texts|)
    ensures out + texts[k] + Gap(k + 1, |texts|) == head + Join(texts[..k + 1]) + Gap(k + 1, |texts|)
  {
    JoinPrefixStep(texts, k);
  }

  /** The inner loop of `write_adjacency_list` for node i. */
  method WriteAdjacencyEntry(f: NumberText, i: int, edges: seq<Edge>) returns (out: string)
    ensures out == EntryLine(f, i, edges)
  {
    ghost var texts := EdgeTexts(f, edges);
    ghost var head := IntToString(i) + " ";
    out := IntToString(i) + " ";
    assert out == head + Join(texts[..0]) + Gap(0, |edges|);
    var k := 0;
    while k < |edges|
      invariant 0 <= k <= |edges|
      invariant out == head + Join(texts[..k]) + Gap(k, |texts|)
    {
      var t := EdgeText(f, edges[k]);
      assert t == texts[k];
      JoinLoopStep(head, texts, k, out);
      out := out + t;
      if k + 1 < |edges| {
        out := out + " ";
      }
      k := k + 1;
    }
    assert texts[..k] == texts;
  }

  /** The written entry line holds no line break. */
  lemma EntryLineIsLine(f: NumberText, i: int, edges: seq<Edge>)
    requires WellFormed(f)
    ensures IsLine(EntryLine(f, i, edges))
  {
    var head := IntToString(i);
    IntToStringToken(i);
    if |edges| == 0 {
      assert EntryLine(f, i, edges) == head + " ";
    } else {
      var ts := [head] + EdgeTokens(f, edges);
      EdgesTextJoin(f, edges);
      JoinAppend([head], EdgeTokens(f, edges));
      assert EntryLine(f, i, edges) == Join(ts);
      EdgeTokensAreTokens(f, edges);
      forall k | 0 <= k < |ts| ensures IsLine(ts[k]) {
        if k > 0 {
          assert ts[k] == EdgeTokens(f, edges)[k - 1];
        }
      }
      JoinOfLines(ts);
    }
  }

  //#################### ADJACENCY LIST ####################

  /** Every edge's target node fits in an `int`. */
  ghost predicate NodesInt32(adj: AdjacencyList)
  {
    forall a, k :: 0 <= a < |adj| && 0 <= k < |adj[a]| ==> IsInt32(adj[a][k].toNode)
  }

  /** A parse of the entry line of node k. */
  type EntryParse = (nat, string) -> Result<seq<Edge>>

  /** The per-line parse `read_adjacency_list` applies to the entry of node k. */
  function EntryReader(f: NumberText): EntryParse
  {
    (k: nat, line: string) => AdjacencyEntry(f, k, line)
  }

  /** The lines from `pos` on are the entries of nodes i, i + 1, … and read as `adj`. */
  ghost predicate EntryLinesAt(entry: EntryParse, lines: seq<string>, pos: nat, i: nat, adj: AdjacencyList)
    decreases |adj|
  {
    |adj| == 0 ||
    (pos < |lines| && entry(i, lines[pos]) == Ok(adj[0]) && EntryLinesAt(entry, lines, pos + 1, i + 1, adj[1..]))
  }

  /**
   * `read_adjacency_list`, entries i … size−1: one line each, entry k on the
   * k-th line, each parsed by `entry` (`EntryReader` in the reader itself).
   */
  function EntriesAt(entry: EntryParse, lines: seq<string>, pos: nat, i: nat, size: nat): (r: Result<Parsed<AdjacencyList>>)
    requires i <= size
    ensures r.Ok? ==> |r.value.value| == size - i && r.value.next == pos + (size - i)
    decreases size - i
  {
    if i == size then Ok(Parsed([], pos))
    else
      var line :- ReadLineAt(lines, pos, "adjacency list entry");
      var edges :- entry(i, line.value);
      Prefixed([edges], EntriesAt(entry, lines, line.next, i + 1, size))
  }

  /** What the entries read are: line k from `pos` on held the entry of node i + k. */
  lemma {:induction false} EntriesAtLines(entry: EntryParse, lines: seq<string>, pos: nat, i: nat, size: nat)
    requires i <= size
    ensures var r := EntriesAt(entry, lines, pos, i, size); r.Ok? ==> EntryLinesAt(entry, lines, pos, i, r.value.value)
    decreases size - i
  {
    var r := EntriesAt(entry, lines, pos, i, size);
    if i < size && r.Ok? {
      var edges := entry(i, lines[pos]).value;
      EntriesAtStep(entry, lines, pos, i, size, edges, pos + 1);
      EntriesAtLines(entry, lines, pos + 1, i + 1, size);
      assert r.value.value[1..] == EntriesAt(entry, lines, pos + 1, i + 1, size).value.value;
    }
  }

  /** The message for a size no table can have: the table's own constructor is not part of this model. */
  const NegativeSize := "The adjacency list size was negative"

  /**
   * `read_adjacency_list`: the lines `AdjacencyList` and `{`, the size, one
   * entry line per node, and `}`.
   */
  function AdjacencyListAt(entry: EntryParse, lines: seq<string>, pos: nat): (r: Result<Parsed<AdjacencyList>>)
    ensures r.Ok? ==> At(lines, pos, ["AdjacencyList", "{"]) && pos + 2 < |lines| &&
                      ParseInt(lines[pos + 2]) == Some(|r.value.value|)
    ensures r.Ok? ==> r.value.next == pos + |r.value.value| + 4 <= |lines| && lines[r.value.next - 1] == "}"
    ensures At(lines, pos, ["AdjacencyList", "{"]) && pos + 2 < |lines| && ParseInt(lines[pos + 2]).None? ==>
              r == Err("The adjacency list size was not an integer")
  {
    var a :- ReadCheckedAt(lines, pos, "AdjacencyList");
    var b :- ReadCheckedAt(lines, a.next, "{");
    var s :- ReadLineAt(lines, b.next, "adjacency list size");
    match ParseInt(s.value)
    case None => Err("The adjacency list size was not an integer")
    case Some(size) =>
      if size < 0 then Err(NegativeSize)
      else
        var es :- EntriesAt(entry, lines, s.next, 0, size);
        var c :- ReadCheckedAt(lines, es.next, "}");
        Ok(Parsed(es.value, c.next))
  }

  /** `read_adjacency_list` on a stream. */
  method ReadAdjacencyList(input: LineStream, f: NumberText) returns (r: Result<AdjacencyList>)
    requires input.Valid()
    modifies input
    ensures input.Valid()
    ensures Agrees(r, AdjacencyListAt(EntryReader(f), input.lines, old(input.pos)), input.pos)
  {
    var x := input.ReadCheckedLine("AdjacencyList");
    if x.Err? {
      return Err(x.error);
    }
    x := input.ReadCheckedLine("{");
    if x.Err? {
      return Err(x.error);
    }
    var line := input.ReadLine("adjacency list size");
    if line.Err? {
      return Err(line.error);
    }
    var size := ParseInt(line.value);
    if size.None? {
      return Err("The adjacency list size was not an integer");
    }
    if size.value < 0 {
      return Err(NegativeSize);
    }
    var adj := ReadEntries(input, f, size.value, EntryReader(f));
    if adj.Err? {
      return Err(adj.error);
    }
    x := input.ReadCheckedLine("}");
    if x.Err? {
      return Err(x.error);
    }
    r := Ok(adj.value);
  }

  /**
   * `entry` is the per-line parse of `read_adjacency_list`. The loop below
   * is stated for any such `entry`, so that its proof does not unfold the
   * parse of a line.
   */
  ghost predicate IsEntryReader(entry: EntryParse, f: NumberText)
  {
    forall k: nat, line: string {:trigger AdjacencyEntry(f, k, line)} :: entry(k, line) == AdjacencyEntry(f, k, line)
  }

  /** The loop of `read_adjacency_list`: entries 0 … size−1, one line each. */
  method ReadEntries(input: LineStream, f: NumberText, size: nat, ghost entry: EntryParse) returns (r: Result<AdjacencyList>)
    requires input.Valid() && IsEntryReader(entry, f)
    modifies input
    ensures input.Valid()
    ensures Agrees(r, EntriesAt(entry, input.lines, old(input.pos), 0, size), input.pos)
  {
    ghost var whole := EntriesAt(entry, input.lines, input.pos, 0, size);
    var adj: AdjacencyList := [];
    var i: nat := 0;
    PrefixedNil(whole);
    while i < size
      invariant i <= size && input.Valid()
      invariant whole == Prefixed(adj, EntriesAt(entry, input.lines, input.pos, i, size))
    {
      var next := ReadEntry(input, f, i, size, entry, whole, adj);
      if next.Err? {
        return Err(next.error);
      }
      adj := next.value;
      i := i + 1;
    }
    assert adj + [] == adj;
    r := Ok(adj);
  }

  /**
   * One turn of that loop: the entry of node i read and parsed and added to
   * those gathered so far, or the error that ends the whole read.
   */
  method ReadEntry(input: LineStream, f: NumberText, i: nat, ghost size: nat, ghost entry: EntryParse,
                   ghost whole: Result<Parsed<AdjacencyList>>, adj: AdjacencyList) returns (r: Result<AdjacencyList>)
    requires input.Valid() && i < size && IsEntryReader(entry, f)
    requires whole == Prefixed(adj, EntriesAt(entry, input.lines, input.pos, i, size))
    modifies input
    ensures input.Valid()
    ensures r.Err? ==> whole == Err(r.error)
    ensures r.Ok? ==> whole == Prefixed(r.value, EntriesAt(entry, input.lines, input.pos, i + 1, size))
  {
    ghost var here := input.pos;
    var line := input.ReadLine("adjacency list entry");
    if line.Err? {
      return Err(line.error);
    }
    var edges := ParseAdjacencyEntry(f, i, line.value);
    if edges.Err? {
      return Err(edges.error);
    }
    EntriesAtStep(entry, input.lines, here, i, size, edges.value, input.pos);
    PrefixedStep(whole, adj, EntriesAt(entry, input.lines, here, i, size), edges.value, EntriesAt(entry, input.lines, input.pos, i + 1, size));
    r := Ok(adj + [edges.value]);
  }

  /** The entry lines `write_adjacency_list` writes, node by node. */
  function EntryLines(f: NumberText, adj: AdjacencyList): (ls: seq<string>)
    ensures |ls| == |adj| && forall k :: 0 <= k < |adj| ==> ls[k] == EntryLine(f, k, adj[k])
  {
    seq(|adj|, k requires 0 <= k < |adj| => EntryLine(f, k, adj[k]))
  }

  function AdjacencyHead(n: nat): seq<string> { ["AdjacencyList", "{", IntToString(n)] }

  /** The lines of `write_adjacency_list`. */
  function AdjacencyLines(f: NumberText, adj: AdjacencyList): seq<string>
  {
    AdjacencyHead(|adj|) + EntryLines(f, adj) + ["}"]
  }

  /** `write_adjacency_list`. */
  method WriteAdjacencyList(f: NumberText, adj: AdjacencyList) returns (out: string)
    ensures out == Unlines(AdjacencyLines(f, adj))
  {
    ghost var head := AdjacencyHead(|adj|);
    ghost var entries := EntryLines(f, adj);
    out := "AdjacencyList\n{\n" + IntToString(|adj|) + "\n";
    HeadText("AdjacencyList", IntToString(|adj|));
    assert head + entries[..0] == head;
    var i := 0;
    while i < |adj|
      invariant 0 <= i <= |adj|
      invariant out == Unlines(head + entries[..i])
    {
      var entry := WriteAdjacencyEntry(f, i, adj[i]);
      UnlinesStep(head, entries, i, out);
      out := out + entry + "\n";
      i := i + 1;
    }
    assert entries[..i] == entries;
    UnlinesSnoc(head + entries, "}");
    out := out + "}\n";
  }

  /** One entry line read, in front of the entries after it. */
  lemma EntriesAtStep(entry: EntryParse, lines: seq<string>, pos: nat, i: nat, size: nat, edges: seq<Edge>, next: nat)
    requires i < size && pos < |lines| && entry(i, lines[pos]) == Ok(edges) && next == pos + 1
    ensures EntriesAt(entry, lines, pos, i, size) == Prefixed([edges], EntriesAt(entry, lines, next, i + 1, size))
  {
  }

  /** An entry line that reads as `edges`, in front of entries that read as `rest`. */
  lemma EntriesCons(entry: EntryParse, lines: seq<string>, pos: nat, i: nat, size: nat,
                    edges: seq<Edge>, rest: AdjacencyList, next: nat)
    requires i < size && pos < |lines| && entry(i, lines[pos]) == Ok(edges)
    requires EntriesAt(entry, lines, pos + 1, i + 1, size) == Ok(Parsed(rest, next))
    ensures EntriesAt(entry, lines, pos, i, size) == Ok(Parsed([edges] + rest, next))
  {
    EntriesAtStep(entry, lines, pos, i, size, edges, pos + 1);
  }

  /** Conversely, entry lines that all read make the entries read, and nothing more. */
  lemma {:induction false} EntriesAtOfLines(entry: EntryParse, lines: seq<string>, pos: nat, i: nat, adj: AdjacencyList)
    requires EntryLinesAt(entry, lines, pos, i, adj)
    ensures EntriesAt(entry, lines, pos, i, i + |adj|) == Ok(Parsed(adj, pos + |adj|))
    decreases |adj|
  {
    if |adj| > 0 {
      assert EntriesAt(entry, lines, pos + 1, i + 1, i + |adj|) == Ok(Parsed(adj[1..], pos + |adj|)) by {
        EntriesAtOfLines(entry, lines, pos + 1, i + 1, adj[1..]);
        assert (i + 1) + |adj[1..]| == i + |adj|;
      }
      EntriesCons(entry, lines, pos, i, i + |adj|, adj[0], adj[1..], pos + |adj|);
      assert [adj[0]] + adj[1..] == adj;
    }
  }

  /** Line k of `ws` reads as `vs[k]` when it is the entry of node k. */
  ghost predicate ReadsAs(entry: EntryParse, ws: seq<string>, vs: AdjacencyList)
  {
    |ws| == |vs| && forall k :: 0 <= k < |ws| ==> entry(k, ws[k]) == Ok(vs[k])
  }

  /** Lines i … of `ws`, found from `pos` on, read as `vs[i..]` and nothing more. */
  lemma {:induction false} EntriesOfText(entry: EntryParse, lines: seq<string>, pos: nat, i: nat,
                                         ws: seq<string>, vs: AdjacencyList)
    requires ReadsAs(entry, ws, vs) && i <= |ws| && At(lines, pos, ws[i..])
    ensures EntriesAt(entry, lines, pos, i, |ws|) == Ok(Parsed(vs[i..], pos + (|ws| - i)))
    decreases |ws| - i
  {
    if i < |ws| {
      assert pos < |lines| && lines[pos] == ws[i] && At(lines, pos + 1, ws[i + 1..]) by {
        assert ws[i..] == [ws[i]] + ws[i + 1..];
        AtSplit(lines, pos, [ws[i]], ws[i + 1..]);
        AtIndex(lines, pos, [ws[i]], 0);
      }
      EntriesOfText(entry, lines, pos + 1, i + 1, ws, vs);
      EntriesCons(entry, lines, pos, i, |ws|, vs[i], vs[i + 1..], pos + (|ws| - i));
      assert vs[i..] == [vs[i]] + vs[i + 1..];
    } else {
      assert vs[i..] == [];
    }
  }

  /** The entry lines `write_adjacency_list` writes read back node by node. */
  lemma WrittenEntriesRead(f: NumberText, adj: AdjacencyList)
    requires WellFormed(f) && IsInt32(|adj|) && NodesInt32(adj)
    ensures ReadsAs(EntryReader(f), EntryLines(f, adj), RereadList(f, adj))
  {
    forall k | 0 <= k < |adj| ensures EntryReader(f)(k, EntryLines(f, adj)[k]) == Ok(RereadList(f, adj)[k]) {
      assert forall m :: 0 <= m < |adj[k]| ==> IsInt32(adj[k][m].toNode);
      EntryRoundTrip(f, k, adj[k]);
    }
  }

  /** Every line `write_adjacency_list` writes is a line. */
  lemma AdjacencyLinesAreLines(f: NumberText, adj: AdjacencyList)
    requires WellFormed(f)
    ensures AllLines(AdjacencyLines(f, adj))
  {
    IntToStringToken(|adj|);
    assert AllLines(AdjacencyHead(|adj|));
    forall k | 0 <= k < |adj| ensures IsLine(EntryLines(f, adj)[k]) {
      EntryLineIsLine(f, k, adj[k]);
    }
    AllLinesAppend(AdjacencyHead(|adj|), EntryLines(f, adj));
    AllLinesAppend(AdjacencyHead(|adj|) + EntryLines(f, adj), ["}"]);
  }

  /** `read_adjacency_list` as a block reader. */
  function AdjacencyReader(f: NumberText): BlockParse<AdjacencyList>
  {
    (lines: seq<string>, pos: nat) => AdjacencyListAt(EntryReader(f), lines, pos)
  }

  lemma AdjacencyReaderIs(f: NumberText, lines: seq<string>, pos: nat)
    ensures AdjacencyReader(f)(lines, pos) == AdjacencyListAt(EntryReader(f), lines, pos)
  {
  }

  /** Entries 0 … n−1, read by `entry`, as a block reader. */
  function EntriesReader(entry: EntryParse, n: nat): BlockParse<AdjacencyList>
  {
    (lines: seq<string>, pos: nat) => EntriesAt(entry, lines, pos, 0, n)
  }

  lemma EntriesReaderIs(entry: EntryParse, n: nat, lines: seq<string>, pos: nat)
    ensures EntriesReader(entry, n)(lines, pos) == EntriesAt(entry, lines, pos, 0, n)
  {
  }

  /** A list read by any entry parse, as a block reader. */
  function ListReader(entry: EntryParse): BlockParse<AdjacencyList>
  {
    (lines: seq<string>, pos: nat) => AdjacencyListAt(entry, lines, pos)
  }

  lemma ListReaderIs(entry: EntryParse, lines: seq<string>, pos: nat)
    ensures ListReader(entry)(lines, pos) == AdjacencyListAt(entry, lines, pos)
  {
  }

  /** Entry lines that each read, found anywhere, read together as their lists. */
  lemma EntriesBlockReads(entry: EntryParse, ws: seq<string>, vs: AdjacencyList)
    requires ReadsAs(entry, ws, vs)
    ensures BlockReads(EntriesReader(entry, |ws|), ws, vs)
  {
    forall lines: seq<string>, pos: nat | At(lines, pos, ws)
      ensures EntriesReader(entry, |ws|)(lines, pos) == Ok(Parsed(vs, pos + |ws|))
    {
      assert ws[0..] == ws && vs[0..] == vs;
      EntriesReaderIs(entry, |ws|, lines, pos);
      EntriesOfText(entry, lines, pos, 0, ws, vs);
    }
  }

  /** A size line, entry lines that each read, and `}`, found anywhere, make the list those entries read as. */
  lemma ListBlockReads(entry: EntryParse, ws: seq<string>, vs: AdjacencyList, ls: seq<string>)
    requires ReadsAs(entry, ws, vs) && IsInt32(|ws|)
    requires ls == AdjacencyHead(|ws|) + ws + ["}"]
    ensures BlockReads(ListReader(entry), ls, vs)
  {
    ParseIntToString(|ws|);
    EntriesBlockReads(entry, ws, vs);
    forall lines: seq<string>, pos: nat | At(lines, pos, ls)
      ensures ListReader(entry)(lines, pos) == Ok(Parsed(vs, pos + |ls|))
    {
      ListReaderIs(entry, lines, pos);
      AdjacencyOfText(entry, |ws|, ws, vs, ls, lines, pos);
    }
  }

  /** A written adjacency list, found anywhere, reads back as the list with its lengths passed through text. */
  lemma AdjacencyBlockReads(f: NumberText, adj: AdjacencyList)
    requires WellFormed(f) && IsInt32(|adj|) && NodesInt32(adj)
    ensures BlockReads(AdjacencyReader(f), AdjacencyLines(f, adj), RereadList(f, adj))
  {
    WrittenEntriesRead(f, adj);
    ListBlockReads(EntryReader(f), EntryLines(f, adj), RereadList(f, adj), AdjacencyLines(f, adj));
    forall lines: seq<string>, pos: nat | At(lines, pos, AdjacencyLines(f, adj))
      ensures AdjacencyReader(f)(lines, pos) == Ok(Parsed(RereadList(f, adj), pos + |AdjacencyLines(f, adj)|))
    {
      AdjacencyReaderIs(f, lines, pos);
      ListReaderIs(EntryReader(f), lines, pos);
      UseBlockReads(ListReader(EntryReader(f)), AdjacencyLines(f, adj), RereadList(f, adj), lines, pos);
    }
  }

  /**
   * What `write_adjacency_list` writes, found at any position of the input,
   * `read_adjacency_list` reads back as the same lists of edges node by
   * node, each in its original order, and stops just after it.
   */
  lemma AdjacencyRoundTrip(f: NumberText, adj: AdjacencyList, lines: seq<string>, pos: nat)
    requires WellFormed(f) && IsInt32(|adj|) && NodesInt32(adj)
    requires At(lines, pos, AdjacencyLines(f, adj))
    ensures AdjacencyListAt(EntryReader(f), lines, pos) == Ok(Parsed(RereadList(f, adj), pos + |AdjacencyLines(f, adj)|))
  {
    AdjacencyBlockReads(f, adj);
    UseBlockReads(AdjacencyReader(f), AdjacencyLines(f, adj), RereadList(f, adj), lines, pos);
    AdjacencyReaderIs(f, lines, pos);
  }

  /** A size line, entries that read together, and `}` make the list those entries read as. */
  lemma {:induction false} AdjacencyOfText(entry: EntryParse, n: nat, ws: seq<string>, vs: AdjacencyList, ls: seq<string>, lines: seq<string>, pos: nat)
    requires BlockReads(EntriesReader(entry, n), ws, vs) && ParseInt(IntToString(n)) == Some(n) && |ws| == n
    requires ls == AdjacencyHead(n) + ws + ["}"]
    requires At(lines, pos, ls)
    ensures AdjacencyListAt(entry, lines, pos) == Ok(Parsed(vs, pos + |ls|))
  {
    AdjacencyFrameOfText(n, ws, ls, lines, pos);
    UseBlockReads(EntriesReader(entry, n), ws, vs, lines, pos + 3);
    EntriesReaderIs(entry, n, lines, pos + 3);
    AdjacencyListAtOf(entry, lines, pos, n, vs);
  }

  /** Where the head, the entries and the closing brace of a written adjacency list lie. */
  lemma {:induction false} AdjacencyFrameOfText(n: nat, ws: seq<string>, ls: seq<string>, lines: seq<string>, pos: nat)
    requires ParseInt(IntToString(n)) == Some(n) && |ws| == n
    requires ls == AdjacencyHead(n) + ws + ["}"]
    requires At(lines, pos, ls)
    ensures pos + n + 3 < |lines| && |ls| == n + 4 && At(lines, pos + 3, ws)
    ensures lines[pos] == "AdjacencyList" && lines[pos + 1] == "{" && ParseInt(lines[pos + 2]) == Some(n)
    ensures lines[pos + 3 + n] == "}"
  {
    var head := AdjacencyHead(n);
    AtSplit(lines, pos, head + ws, ["}"]);
    AtSplit(lines, pos, head, ws);
    AtIndex(lines, pos, head, 0);
    AtIndex(lines, pos, head, 1);
    AtIndex(lines, pos, head, 2);
    AtIndex(lines, pos + 3 + n, ["}"], 0);
  }

  /** The frame of `read_adjacency_list` around n entries that read as `adj`. */
  lemma {:induction false} AdjacencyListAtOf(entry: EntryParse, lines: seq<string>, pos: nat, n: nat, adj: AdjacencyList)
    requires pos + n + 3 < |lines|
    requires lines[pos] == "AdjacencyList" && lines[pos + 1] == "{" && ParseInt(lines[pos + 2]) == Some(n)
    requires lines[pos + 3 + n] == "}"
    requires EntriesAt(entry, lines, pos + 3, 0, n) == Ok(Parsed(adj, pos + 3 + n))
    ensures AdjacencyListAt(entry, lines, pos) == Ok(Parsed(adj, pos + n + 4))
  {
  }
}
