/**
 * The whole navigation section: `Nav`, `{`, the number of datasets, each
 * dataset as `Dataset`, `{`, its mesh, its adjacency list, its path table,
 * `}`, and a final `}`.
 */
module NavSectionFile {
  import opened Common
  import opened LineIO
  import opened NavSection
  import opened NavMeshText

  /** The block readers a dataset is read with: its mesh, its adjacency list, its path table. */
  datatype Readers<L, P> = Readers(mesh: BlockParse<NavMesh<L>>, adjacency: BlockParse<AdjacencyList>, table: BlockParse<P>)

  /** The readers `NavSection::load` uses. */
  function SectionReaders<L, P>(codec: LinkCodec<L>, f: NumberText, table: PathTableCodec<P>): Readers<L, P>
  {
    Readers(MeshReader(codec), AdjacencyReader(f), table.read)
  }

  const CountNotInteger := "The navigation dataset count was not an integer"

  /** One dataset block: the mesh, then the adjacency list, then the path table. */
  function DatasetAt<L, P>(rd: Readers<L, P>, lines: seq<string>, pos: nat): (r: Result<Parsed<NavDataset<L, P>>>)
  {
    var a :- ReadCheckedAt(lines, pos, "Dataset");
    var b :- ReadCheckedAt(lines, a.next, "{");
    var mesh :- rd.mesh(lines, b.next);
    var adjacency :- rd.adjacency(lines, mesh.next);
    var table :- rd.table(lines, adjacency.next);
    var c :- ReadCheckedAt(lines, table.next, "}");
    Ok(Parsed(NavDataset(adjacency.value, mesh.value, table.value), c.next))
  }

  /** The dataset block reader `NavSection::load` applies once per dataset. */
  function DatasetReader<L, P>(rd: Readers<L, P>): BlockParse<NavDataset<L, P>>
  {
    (lines: seq<string>, pos: nat) => DatasetAt(rd, lines, pos)
  }

  /**
   * Blocks i, i + 1, … while i < count, one after the other, each read by
   * `block`; none at all when count ≤ i.
   */
  function DatasetsAt<D>(block: BlockParse<D>, lines: seq<string>, pos: nat, i: nat, count: int): (r: Result<Parsed<seq<D>>>)
    ensures r.Ok? ==> |r.value.value| == if i < count then count - i else 0
    decreases count - i
  {
    if i >= count then Ok(Parsed([], pos))
    else
      var d :- block(lines, pos);
      Prefixed([d.value], DatasetsAt(block, lines, d.next, i + 1, count))
  }

  /**
   * `NavSection::load`: the count must be an `int`; a negative count reads
   * no dataset at all. Each dataset is read by `block` (`DatasetReader` in
   * the loader itself).
   */
  function NavAt<D>(block: BlockParse<D>, lines: seq<string>, pos: nat): (r: Result<Parsed<seq<D>>>)
    ensures At(lines, pos, ["Nav", "{"]) && pos + 2 < |lines| && ParseInt(lines[pos + 2]).None? ==>
              r == Err(CountNotInteger)
    ensures At(lines, pos, ["Nav", "{"]) && pos + 3 < |lines| && ParseInt(lines[pos + 2]).Some? &&
            ParseInt(lines[pos + 2]).value <= 0 && lines[pos + 3] == "}" ==>
              r == Ok(Parsed([], pos + 4))
    ensures r.Ok? ==> At(lines, pos, ["Nav", "{"]) && pos + 2 < |lines| && ParseInt(lines[pos + 2]).Some? &&
                      |r.value.value| == (if ParseInt(lines[pos + 2]).value < 0 then 0 else ParseInt(lines[pos + 2]).value)
  {
    var a :- ReadCheckedAt(lines, pos, "Nav");
    var b :- ReadCheckedAt(lines, a.next, "{");
    var s :- ReadLineAt(lines, b.next, "navigation dataset count");
    match ParseInt(s.value)
    case None => Err(CountNotInteger)
    case Some(count) =>
      var ds :- DatasetsAt(block, lines, s.next, 0, count);
      var c :- ReadCheckedAt(lines, ds.next, "}");
      Ok(Parsed(ds.value, c.next))
  }

  //#################### WRITING ####################

  /** The lines of one dataset block as `NavSection::save` writes it. */
  function DatasetLines<L, P>(codec: LinkCodec<L>, f: NumberText, table: PathTableCodec<P>, d: NavDataset<L, P>): seq<string>
  {
    DatasetBlock(MeshLines(codec, d.mesh), AdjacencyLines(f, d.adjacency), table.write(d.pathTable))
  }

  /** A dataset block around the lines of its mesh, its adjacency list and its path table. */
  function DatasetBlock(mw: seq<string>, aw: seq<string>, tw: seq<string>): seq<string>
  {
    ["Dataset", "{"] + mw + aw + tw + ["}"]
  }

  function DatasetWriter<L, P>(codec: LinkCodec<L>, f: NumberText, table: PathTableCodec<P>): NavDataset<L, P> -> seq<string>
  {
    d => DatasetLines(codec, f, table, d)
  }

  function DatasetsLines<L, P>(codec: LinkCodec<L>, f: NumberText, table: PathTableCodec<P>, ds: seq<NavDataset<L, P>>): seq<string>
  {
    ConcatLines(DatasetWriter(codec, f, table), ds)
  }

  /** The lines of `NavSection::save`. */
  function NavLines<L, P>(codec: LinkCodec<L>, f: NumberText, table: PathTableCodec<P>, ds: seq<NavDataset<L, P>>): seq<string>
  {
    ["Nav", "{", IntToString(|ds|)] + DatasetsLines(codec, f, table, ds) + ["}"]
  }

  /** `NavSection::save` (and each dataset's part of it). */
  method WriteDataset<L, P>(codec: LinkCodec<L>, f: NumberText, table: PathTableCodec<P>, d: NavDataset<L, P>) returns (out: string)
    requires WellFormed(f)
    ensures out == Unlines(DatasetLines(codec, f, table, d))
  {
    var mesh := WriteNavMesh(codec, d.mesh);
    var adjacency := WriteAdjacencyList(f, d.adjacency);
    out := "Dataset\n{\n" + mesh + adjacency + Unlines(table.write(d.pathTable)) + "}\n";
    DatasetText(codec, f, table, d);
  }

  lemma DatasetText<L, P>(codec: LinkCodec<L>, f: NumberText, table: PathTableCodec<P>, d: NavDataset<L, P>)
    ensures Unlines(DatasetLines(codec, f, table, d)) ==
            "Dataset\n{\n" + Unlines(MeshLines(codec, d.mesh)) + Unlines(AdjacencyLines(f, d.adjacency)) +
            Unlines(table.write(d.pathTable)) + "}\n"
  {
    var head: seq<string> := ["Dataset", "{"];
    var m := MeshLines(codec, d.mesh);
    var a := AdjacencyLines(f, d.adjacency);
    var t := table.write(d.pathTable);
    UnlinesAppend(head + m + a + t, ["}"]);
    UnlinesAppend(head + m + a, t);
    UnlinesAppend(head + m, a);
    UnlinesAppend(head, m);
    assert Unlines(head) == "Dataset\n{\n" by {
      assert Unlines(head[1..]) == "{\n";
    }
    assert Unlines(["}"]) == "}\n";
  }

  /** `NavSection::save`. */
  method SaveNav<L, P>(codec: LinkCodec<L>, f: NumberText, table: PathTableCodec<P>, ds: seq<NavDataset<L, P>>) returns (out: string)
    requires WellFormed(f)
    ensures out == Unlines(NavLines(codec, f, table, ds))
  {
    ghost var head := ["Nav", "{", IntToString(|ds|)];
    out := "Nav\n{\n" + IntToString(|ds|) + "\n";
    HeadText("Nav", IntToString(|ds|));
    assert ds[..0] == [];
    assert head + DatasetsLines(codec, f, table, ds[..0]) == head;
    var i := 0;
    while i < |ds|
      invariant 0 <= i <= |ds|
      invariant out == Unlines(head + DatasetsLines(codec, f, table, ds[..i]))
    {
      var block := WriteDataset(codec, f, table, ds[i]);
      ConcatLinesStep(DatasetWriter(codec, f, table), head, ds, i, out);
      out := out + block;
      i := i + 1;
    }
    assert ds[..i] == ds;
    UnlinesSnoc(head + DatasetsLines(codec, f, table, ds), "}");
    out := out + "}\n";
  }

  //#################### READING ####################

  /** A path table reader that stops within its input. */
  ghost predicate TableBounded<P>(table: PathTableCodec<P>)
  {
    forall lines: seq<string>, pos: nat :: table.read(lines, pos).Ok? ==> pos <= table.read(lines, pos).value.next <= |lines|
  }

  /** One dataset block of `NavSection::load`; the path table is read by `table`. */
  method ReadDataset<L, P>(input: LineStream, codec: LinkCodec<L>, f: NumberText, table: PathTableCodec<P>) returns (r: Result<NavDataset<L, P>>)
    requires input.Valid() && TableBounded(table)
    modifies input
    ensures input.Valid()
    ensures Agrees(r, DatasetAt(SectionReaders(codec, f, table), input.lines, old(input.pos)), input.pos)
  {
    var x := input.ReadCheckedLine("Dataset");
    if x.Err? {
      return Err(x.error);
    }
    x := input.ReadCheckedLine("{");
    if x.Err? {
      return Err(x.error);
    }
    MeshReaderIs(codec, input.lines, input.pos);
    var mesh := ReadNavMesh(input, codec);
    if mesh.Err? {
      return Err(mesh.error);
    }
    AdjacencyReaderIs(f, input.lines, input.pos);
    var adjacency := ReadAdjacencyList(input, f);
    if adjacency.Err? {
      return Err(adjacency.error);
    }
    var pathTable := table.read(input.lines, input.pos);
    if pathTable.Err? {
      return Err(pathTable.error);
    }
    input.SkipTo(pathTable.value.next);
    x := input.ReadCheckedLine("}");
    if x.Err? {
      return Err(x.error);
    }
    r := Ok(NavDataset(adjacency.value, mesh.value, pathTable.value.value));
  }

  /** The dataset loop of `NavSection::load`. */
  method ReadDatasets<L, P>(input: LineStream, codec: LinkCodec<L>, f: NumberText, table: PathTableCodec<P>, count: int)
    returns (r: Result<seq<NavDataset<L, P>>>)
    requires input.Valid() && TableBounded(table)
    modifies input
    ensures input.Valid()
    ensures Agrees(r, DatasetsAt(DatasetReader(SectionReaders(codec, f, table)), input.lines, old(input.pos), 0, count), input.pos)
  {
    ghost var rd := DatasetReader(SectionReaders(codec, f, table));
    ghost var start := input.pos;
    var ds: seq<NavDataset<L, P>> := [];
    var i: nat := 0;
    PrefixedNil(DatasetsAt(rd, input.lines, start, 0, count));
    while i < count
      invariant input.Valid()
      invariant DatasetsAt(rd, input.lines, start, 0, count) == Prefixed(ds, DatasetsAt(rd, input.lines, input.pos, i, count))
      decreases count - i
    {
      ghost var here := input.pos;
      var d := ReadDataset(input, codec, f, table);
      if d.Err? {
        return Err(d.error);
      }
      DatasetReaderIs(SectionReaders(codec, f, table), input.lines, here);
      AgreesOk(d, DatasetAt(SectionReaders(codec, f, table), input.lines, here), input.pos);
      DatasetsAtStep(rd, input.lines, here, i, count, d.value, input.pos);
      PrefixedPrefixed(ds, [d.value], DatasetsAt(rd, input.lines, input.pos, i + 1, count));
      ds := ds + [d.value];
      i := i + 1;
    }
    assert ds + [] == ds;
    r := Ok(ds);
  }

  /** `NavSection::load` on a stream. */
  method LoadNav<L, P>(input: LineStream, codec: LinkCodec<L>, f: NumberText, table: PathTableCodec<P>)
    returns (r: Result<seq<NavDataset<L, P>>>)
    requires input.Valid() && TableBounded(table)
    modifies input
    ensures input.Valid()
    ensures Agrees(r, NavAt(DatasetReader(SectionReaders(codec, f, table)), input.lines, old(input.pos)), input.pos)
  {
    var x := input.ReadCheckedLine("Nav");
    if x.Err? {
      return Err(x.error);
    }
    x := input.ReadCheckedLine("{");
    if x.Err? {
      return Err(x.error);
    }
    var line := input.ReadLine("navigation dataset count");
    if line.Err? {
      return Err(line.error);
    }
    var count := ParseInt(line.value);
    if count.None? {
      return Err(CountNotInteger);
    }
    var ds := ReadDatasets(input, codec, f, table, count.value);
    if ds.Err? {
      return Err(ds.error);
    }
    x := input.ReadCheckedLine("}");
    if x.Err? {
      return Err(x.error);
    }
    r := Ok(ds.value);
  }

  //#################### ROUND TRIP ####################

  /**
   * A path table whose written lines are lines of text and read back, from
   * any position, as the same table.
   */
  ghost predicate TableRoundTrip<P>(table: PathTableCodec<P>, t: P)
  {
    AllLines(table.write(t)) && BlockReads(table.read, table.write(t), t)
  }

  /** A dataset the save writes in a form the load can read back. */
  ghost predicate Writable<L, P>(codec: LinkCodec<L>, table: PathTableCodec<P>, d: NavDataset<L, P>)
  {
    LinksRoundTrip(codec, d.mesh.links) && MeshInt32(d.mesh) && IsInt32(|d.adjacency|) && NodesInt32(d.adjacency) &&
    TableRoundTrip(table, d.pathTable)
  }

  /** A dataset as it comes back from being saved and loaded: its edge lengths pass through their text form. */
  function RereadDataset<L, P>(f: NumberText, d: NavDataset<L, P>): NavDataset<L, P>
    requires WellFormed(f)
  {
    NavDataset(RereadList(f, d.adjacency), d.mesh, d.pathTable)
  }

  function RereadDatasets<L, P>(f: NumberText, ds: seq<NavDataset<L, P>>): (r: seq<NavDataset<L, P>>)
    requires WellFormed(f)
    ensures |r| == |ds| && forall k :: 0 <= k < |ds| ==> r[k] == RereadDataset(f, ds[k])
  {
    seq(|ds|, k requires 0 <= k < |ds| => RereadDataset(f, ds[k]))
  }

  /** With an exact number format, saving and loading a dataset changes nothing. */
  lemma RereadDatasetsExact<L, P>(f: NumberText, ds: seq<NavDataset<L, P>>)
    requires WellFormed(f) && Exact(f)
    ensures RereadDatasets(f, ds) == ds
  {
    forall k | 0 <= k < |ds| ensures RereadDatasets(f, ds)[k] == ds[k] {
      RereadListExact(f, ds[k].adjacency);
    }
  }

  /** The frame of a dataset block around a mesh, an adjacency list and a path table that each read. */
  lemma DatasetAtOf<L, P>(rd: Readers<L, P>, lines: seq<string>, pos: nat,
                          mesh: NavMesh<L>, p1: nat, adjacency: AdjacencyList, p2: nat, t: P, p3: nat)
    requires At(lines, pos, ["Dataset", "{"])
    requires rd.mesh(lines, pos + 2) == Ok(Parsed(mesh, p1))
    requires rd.adjacency(lines, p1) == Ok(Parsed(adjacency, p2))
    requires rd.table(lines, p2) == Ok(Parsed(t, p3))
    requires p3 < |lines| && lines[p3] == "}"
    ensures DatasetAt(rd, lines, pos) == Ok(Parsed(NavDataset(adjacency, mesh, t), p3 + 1))
  {
    AtIndex(lines, pos, ["Dataset", "{"], 0);
    AtIndex(lines, pos, ["Dataset", "{"], 1);
  }

  /** Blocks that each read back, framed as a dataset block, read back as their dataset. */
  lemma DatasetOfBlocks<L, P>(rd: Readers<L, P>, mw: seq<string>, mesh: NavMesh<L>, aw: seq<string>, adjacency: AdjacencyList,
                              tw: seq<string>, t: P)
    requires BlockReads(rd.mesh, mw, mesh) && BlockReads(rd.adjacency, aw, adjacency) && BlockReads(rd.table, tw, t)
    ensures BlockReads(DatasetReader(rd), DatasetBlock(mw, aw, tw), NavDataset(adjacency, mesh, t))
  {
    var w := DatasetBlock(mw, aw, tw);
    forall lines: seq<string>, pos: nat | At(lines, pos, w)
      ensures DatasetReader(rd)(lines, pos) == Ok(Parsed(NavDataset(adjacency, mesh, t), pos + |w|))
    {
      DatasetReaderIs(rd, lines, pos);
      DatasetOfBlocksAt(rd, mw, mesh, aw, adjacency, tw, t, lines, pos);
    }
  }

  lemma DatasetOfBlocksAt<L, P>(rd: Readers<L, P>, mw: seq<string>, mesh: NavMesh<L>, aw: seq<string>, adjacency: AdjacencyList,
                                tw: seq<string>, t: P, lines: seq<string>, pos: nat)
    requires BlockReads(rd.mesh, mw, mesh) && BlockReads(rd.adjacency, aw, adjacency) && BlockReads(rd.table, tw, t)
    requires At(lines, pos, DatasetBlock(mw, aw, tw))
    ensures DatasetAt(rd, lines, pos) == Ok(Parsed(NavDataset(adjacency, mesh, t), pos + |DatasetBlock(mw, aw, tw)|))
  {
    var p1 := pos + 2 + |mw|;
    var p2 := p1 + |aw|;
    var p3 := p2 + |tw|;
    DatasetParts(mw, aw, tw, lines, pos);
    UseBlockReads(rd.mesh, mw, mesh, lines, pos + 2);
    UseBlockReads(rd.adjacency, aw, adjacency, lines, p1);
    UseBlockReads(rd.table, tw, t, lines, p2);
    DatasetAtOf(rd, lines, pos, mesh, p1, adjacency, p2, t, p3);
  }

  /** Where the parts of a dataset block lie. */
  lemma DatasetParts(mw: seq<string>, aw: seq<string>, tw: seq<string>, lines: seq<string>, pos: nat)
    requires At(lines, pos, DatasetBlock(mw, aw, tw))
    ensures At(lines, pos, ["Dataset", "{"]) && At(lines, pos + 2, mw) && At(lines, pos + 2 + |mw|, aw) &&
            At(lines, pos + 2 + |mw| + |aw|, tw)
    ensures pos + 2 + |mw| + |aw| + |tw| < |lines| && lines[pos + 2 + |mw| + |aw| + |tw|] == "}"
    ensures |DatasetBlock(mw, aw, tw)| == |mw| + |aw| + |tw| + 3
  {
    var head: seq<string> := ["Dataset", "{"];
    AtSplit(lines, pos, head + mw + aw + tw, ["}"]);
    AtSplit(lines, pos, head + mw + aw, tw);
    AtSplit(lines, pos, head + mw, aw);
    AtSplit(lines, pos, head, mw);
    AtIndex(lines, pos + 2 + |mw| + |aw| + |tw|, ["}"], 0);
  }

  /** A saved dataset block, found anywhere, reads back as the dataset, and reading stops right after it. */
  lemma DatasetBlockReads<L, P>(codec: LinkCodec<L>, f: NumberText, table: PathTableCodec<P>, d: NavDataset<L, P>)
    requires WellFormed(f) && Writable(codec, table, d)
    ensures BlockReads(DatasetReader(SectionReaders(codec, f, table)), DatasetLines(codec, f, table, d), RereadDataset(f, d))
  {
    MeshBlockReads(codec, d.mesh);
    AdjacencyBlockReads(f, d.adjacency);
    DatasetOfBlocks(SectionReaders(codec, f, table), MeshLines(codec, d.mesh), d.mesh,
                    AdjacencyLines(f, d.adjacency), RereadList(f, d.adjacency), table.write(d.pathTable), d.pathTable);
  }

  /** A saved dataset block reads back as the same dataset, and reading stops right after it. */
  lemma DatasetRoundTrip<L, P>(codec: LinkCodec<L>, f: NumberText, table: PathTableCodec<P>, d: NavDataset<L, P>,
                               lines: seq<string>, pos: nat)
    requires WellFormed(f) && Writable(codec, table, d)
    requires At(lines, pos, DatasetLines(codec, f, table, d))
    ensures DatasetAt(SectionReaders(codec, f, table), lines, pos) ==
              Ok(Parsed(RereadDataset(f, d), pos + |DatasetLines(codec, f, table, d)|))
  {
    DatasetBlockReads(codec, f, table, d);
    UseBlockReads(DatasetReader(SectionReaders(codec, f, table)), DatasetLines(codec, f, table, d), RereadDataset(f, d), lines, pos);
    DatasetReaderIs(SectionReaders(codec, f, table), lines, pos);
  }

  /** Every block `g(xs[k])`, found anywhere, reads as vs[k] and stops right after itself. */
  ghost predicate BlocksRead<X, D>(block: BlockParse<D>, g: X -> seq<string>, xs: seq<X>, vs: seq<D>)
  {
    |xs| == |vs| && forall k :: 0 <= k < |xs| ==> BlockReads(block, g(xs[k]), vs[k])
  }

  /** Blocks written one after the other read, from the i-th of `count` on, as the values they each read as. */
  lemma {:induction false} DatasetsOfText<X, D>(block: BlockParse<D>, g: X -> seq<string>, xs: seq<X>, vs: seq<D>,
                                                i: nat, count: nat, lines: seq<string>, pos: nat)
    requires BlocksRead(block, g, xs, vs) && count == i + |xs|
    requires At(lines, pos, ConcatLines(g, xs))
    ensures DatasetsAt(block, lines, pos, i, count) == Ok(Parsed(vs, pos + |ConcatLines(g, xs)|))
    decreases |xs|
  {
    if |xs| > 0 {
      var first := g(xs[0]);
      var rest := ConcatLines(g, xs[1..]);
      FirstBlockRead(block, g, xs, vs, lines, pos);
      DatasetsOfText(block, g, xs[1..], vs[1..], i + 1, count, lines, pos + |first|);
      DatasetsAtCons(block, lines, pos, i, count, vs[0], pos + |first|, vs[1..], pos + |ConcatLines(g, xs)|, vs);
      assert DatasetsAt(block, lines, pos, i, count) == Ok(Parsed(vs, pos + |ConcatLines(g, xs)|));
    } else {
      assert vs == [];
      assert ConcatLines(g, xs) == [];
    }
  }

  /** The first of blocks written one after the other reads as its value, and the rest follow it. */
  lemma {:induction false} FirstBlockRead<X, D>(block: BlockParse<D>, g: X -> seq<string>, xs: seq<X>, vs: seq<D>, lines: seq<string>, pos: nat)
    requires BlocksRead(block, g, xs, vs) && |xs| > 0
    requires At(lines, pos, ConcatLines(g, xs))
    ensures block(lines, pos) == Ok(Parsed(vs[0], pos + |g(xs[0])|))
    ensures At(lines, pos + |g(xs[0])|, ConcatLines(g, xs[1..])) && BlocksRead(block, g, xs[1..], vs[1..])
    ensures |ConcatLines(g, xs)| == |g(xs[0])| + |ConcatLines(g, xs[1..])|
  {
    AtSplit(lines, pos, g(xs[0]), ConcatLines(g, xs[1..]));
    UseBlockReads(block, g(xs[0]), vs[0], lines, pos);
    BlocksReadTail(block, g, xs, vs);
  }

  lemma BlocksReadTail<X, D>(block: BlockParse<D>, g: X -> seq<string>, xs: seq<X>, vs: seq<D>)
    requires BlocksRead(block, g, xs, vs) && |xs| > 0
    ensures BlocksRead(block, g, xs[1..], vs[1..])
  {
    forall k | 0 <= k < |xs| - 1 ensures BlockReads(block, g(xs[1..][k]), vs[1..][k]) {
      assert xs[1..][k] == xs[k + 1] && vs[1..][k] == vs[k + 1];
    }
  }

  /** One block read by the dataset loop, then the rest of the loop. */
  lemma DatasetsAtStep<D>(block: BlockParse<D>, lines: seq<string>, pos: nat, i: nat, count: int, v: D, q: nat)
    requires i < count && block(lines, pos) == Ok(Parsed(v, q))
    ensures DatasetsAt(block, lines, pos, i, count) == Prefixed([v], DatasetsAt(block, lines, q, i + 1, count))
  {
  }

  lemma {:induction false} DatasetsAtCons<D>(block: BlockParse<D>, lines: seq<string>, pos: nat, i: nat, count: int,
                                             v: D, q: nat, rest: seq<D>, r: nat, vs: seq<D>)
    requires i < count && vs == [v] + rest
    requires block(lines, pos) == Ok(Parsed(v, q))
    requires DatasetsAt(block, lines, q, i + 1, count) == Ok(Parsed(rest, r))
    ensures DatasetsAt(block, lines, pos, i, count) == Ok(Parsed(vs, r))
  {
  }

  /** The frame of the section around `n` datasets that read as `vs`. */
  lemma NavAtOf<D>(block: BlockParse<D>, lines: seq<string>, pos: nat, n: nat, vs: seq<D>, q: nat)
    requires At(lines, pos, ["Nav", "{"]) && pos + 2 < |lines| && ParseInt(lines[pos + 2]) == Some(n)
    requires DatasetsAt(block, lines, pos + 3, 0, n) == Ok(Parsed(vs, q))
    requires q < |lines| && lines[q] == "}"
    ensures NavAt(block, lines, pos) == Ok(Parsed(vs, q + 1))
  {
    AtIndex(lines, pos, ["Nav", "{"], 0);
    AtIndex(lines, pos, ["Nav", "{"], 1);
  }

  /** The `count` datasets of a section as one block reader. */
  function DatasetsReader<D>(block: BlockParse<D>, count: nat): BlockParse<seq<D>>
  {
    (lines: seq<string>, pos: nat) => DatasetsAt(block, lines, pos, 0, count)
  }

  lemma DatasetsReaderIs<D>(block: BlockParse<D>, count: nat, lines: seq<string>, pos: nat)
    ensures DatasetsReader(block, count)(lines, pos) == DatasetsAt(block, lines, pos, 0, count)
  {
  }

  /** Blocks written one after the other, each of which reads, read together as their values. */
  lemma DatasetsBlockReads<X, D>(block: BlockParse<D>, g: X -> seq<string>, xs: seq<X>, vs: seq<D>)
    requires BlocksRead(block, g, xs, vs)
    ensures BlockReads(DatasetsReader(block, |xs|), ConcatLines(g, xs), vs)
  {
    forall lines: seq<string>, pos: nat | At(lines, pos, ConcatLines(g, xs))
      ensures DatasetsReader(block, |xs|)(lines, pos) == Ok(Parsed(vs, pos + |ConcatLines(g, xs)|))
    {
      DatasetsReaderIs(block, |xs|, lines, pos);
      DatasetsOfText(block, g, xs, vs, 0, |xs|, lines, pos);
    }
  }

  /** A count line, datasets that read together, and `}` make the values those datasets read as. */
  lemma NavOfText<D>(block: BlockParse<D>, n: nat, body: seq<string>, vs: seq<D>, count: string,
                     ls: seq<string>, lines: seq<string>, pos: nat)
    requires BlockReads(DatasetsReader(block, n), body, vs) && ParseInt(count) == Some(n)
    requires ls == ["Nav", "{", count] + body + ["}"]
    requires At(lines, pos, ls)
    ensures NavAt(block, lines, pos) == Ok(Parsed(vs, pos + |ls|))
  {
    NavParts(count, body, ls, lines, pos);
    UseBlockReads(DatasetsReader(block, n), body, vs, lines, pos + 3);
    DatasetsReaderIs(block, n, lines, pos + 3);
    NavOfBody(block, n, vs, count, body, ls, lines, pos);
  }

  /** A section whose count line and datasets read back reads back. */
  lemma NavOfBody<D>(block: BlockParse<D>, n: nat, vs: seq<D>, count: string, body: seq<string>,
                     ls: seq<string>, lines: seq<string>, pos: nat)
    requires ParseInt(count) == Some(n)
    requires ls == ["Nav", "{", count] + body + ["}"]
    requires At(lines, pos, ls)
    requires DatasetsAt(block, lines, pos + 3, 0, n) == Ok(Parsed(vs, pos + 3 + |body|))
    ensures NavAt(block, lines, pos) == Ok(Parsed(vs, pos + |ls|))
  {
    NavParts(count, body, ls, lines, pos);
    NavAtOf(block, lines, pos, n, vs, pos + 3 + |body|);
  }

  /** Where the parts of a written section lie. */
  lemma NavParts(count: string, body: seq<string>, ls: seq<string>, lines: seq<string>, pos: nat)
    requires ls == ["Nav", "{", count] + body + ["}"]
    requires At(lines, pos, ls)
    ensures At(lines, pos, ["Nav", "{"]) && pos + 2 < |lines| && lines[pos + 2] == count
    ensures At(lines, pos + 3, body) && |ls| == |body| + 4 && lines[pos + |ls| - 1] == "}"
  {
    var head := ["Nav", "{", count];
    AtSplit(lines, pos, head + body, ["}"]);
    AtSplit(lines, pos, head, body);
    AtSplit(lines, pos, ["Nav", "{"], [count]);
    AtIndex(lines, pos, head, 2);
    AtIndex(lines, pos + 3 + |body|, ["}"], 0);
  }

  /** The dataset blocks `NavSection::save` writes each read back as their dataset. */
  lemma WrittenDatasetsRead<L, P>(codec: LinkCodec<L>, f: NumberText, table: PathTableCodec<P>, ds: seq<NavDataset<L, P>>)
    requires WellFormed(f)
    requires forall k :: 0 <= k < |ds| ==> Writable(codec, table, ds[k])
    ensures BlocksRead(DatasetReader(SectionReaders(codec, f, table)), DatasetWriter(codec, f, table), ds, RereadDatasets(f, ds))
  {
    var block := DatasetReader(SectionReaders(codec, f, table));
    var g := DatasetWriter(codec, f, table);
    var vs := RereadDatasets(f, ds);
    forall k | 0 <= k < |ds| ensures BlockReads(block, g(ds[k]), vs[k]) {
      assert vs[k] == RereadDataset(f, ds[k]);
      DatasetWriterIs(codec, f, table, ds[k]);
      DatasetBlockReads(codec, f, table, ds[k]);
    }
  }

  lemma DatasetReaderIs<L, P>(rd: Readers<L, P>, lines: seq<string>, pos: nat)
    ensures DatasetReader(rd)(lines, pos) == DatasetAt(rd, lines, pos)
  {
  }

  lemma DatasetWriterIs<L, P>(codec: LinkCodec<L>, f: NumberText, table: PathTableCodec<P>, d: NavDataset<L, P>)
    ensures DatasetWriter(codec, f, table)(d) == DatasetLines(codec, f, table, d)
  {
  }

  lemma NavLinesShape<L, P>(codec: LinkCodec<L>, f: NumberText, table: PathTableCodec<P>, ds: seq<NavDataset<L, P>>)
    ensures NavLines(codec, f, table, ds) == ["Nav", "{", IntToString(|ds|)] + ConcatLines(DatasetWriter(codec, f, table), ds) + ["}"]
  {
  }

  /** Every line `NavSection::save` writes is one line of text. */
  lemma NavLinesAreLines<L, P>(codec: LinkCodec<L>, f: NumberText, table: PathTableCodec<P>, ds: seq<NavDataset<L, P>>)
    requires WellFormed(f)
    requires forall k :: 0 <= k < |ds| ==> Writable(codec, table, ds[k])
    ensures AllLines(NavLines(codec, f, table, ds))
  {
    var g := DatasetWriter(codec, f, table);
    forall k | 0 <= k < |ds| ensures AllLines(g(ds[k])) {
      var d := ds[k];
      MeshLinesAreLines(codec, d.mesh);
      AdjacencyLinesAreLines(f, d.adjacency);
      assert AllLines(table.write(d.pathTable));
      AllLinesAppend(["Dataset", "{"], MeshLines(codec, d.mesh));
      AllLinesAppend(["Dataset", "{"] + MeshLines(codec, d.mesh), AdjacencyLines(f, d.adjacency));
      AllLinesAppend(["Dataset", "{"] + MeshLines(codec, d.mesh) + AdjacencyLines(f, d.adjacency), table.write(d.pathTable));
      AllLinesAppend(["Dataset", "{"] + MeshLines(codec, d.mesh) + AdjacencyLines(f, d.adjacency) + table.write(d.pathTable), ["}"]);
    }
    ConcatLinesAreLines(g, ds);
    IntToStringToken(|ds|);
    assert AllLines(["Nav", "{", IntToString(|ds|)]);
    AllLinesAppend(["Nav", "{", IntToString(|ds|)], DatasetsLines(codec, f, table, ds));
    AllLinesAppend(["Nav", "{", IntToString(|ds|)] + DatasetsLines(codec, f, table, ds), ["}"]);
  }

  /** `NavSection::load` as a block reader. */
  function NavReader<D>(block: BlockParse<D>): BlockParse<seq<D>>
  {
    (lines: seq<string>, pos: nat) => NavAt(block, lines, pos)
  }

  lemma NavReaderIs<D>(block: BlockParse<D>, lines: seq<string>, pos: nat)
    ensures NavReader(block)(lines, pos) == NavAt(block, lines, pos)
  {
  }

  /** Written blocks behind a count line and between `Nav {` and `}` read as the values the blocks read as. */
  lemma NavTextReads<X, D>(block: BlockParse<D>, g: X -> seq<string>, xs: seq<X>, vs: seq<D>, ls: seq<string>)
    requires BlocksRead(block, g, xs, vs) && IsInt32(|xs|)
    requires ls == ["Nav", "{", IntToString(|xs|)] + ConcatLines(g, xs) + ["}"]
    ensures BlockReads(NavReader(block), ls, vs)
  {
    ParseIntToString(|xs|);
    DatasetsBlockReads(block, g, xs, vs);
    forall lines: seq<string>, pos: nat | At(lines, pos, ls)
      ensures NavReader(block)(lines, pos) == Ok(Parsed(vs, pos + |ls|))
    {
      NavReaderIs(block, lines, pos);
      NavOfText(block, |xs|, ConcatLines(g, xs), vs, IntToString(|xs|), ls, lines, pos);
    }
  }

  /** A saved section, found anywhere, reads back as the saved datasets. */
  lemma NavBlockReads<L, P>(codec: LinkCodec<L>, f: NumberText, table: PathTableCodec<P>, ds: seq<NavDataset<L, P>>)
    requires WellFormed(f) && IsInt32(|ds|)
    requires forall k :: 0 <= k < |ds| ==> Writable(codec, table, ds[k])
    ensures BlockReads(NavReader(DatasetReader(SectionReaders(codec, f, table))), NavLines(codec, f, table, ds), RereadDatasets(f, ds))
  {
    WrittenDatasetsRead(codec, f, table, ds);
    NavLinesShape(codec, f, table, ds);
    NavTextReads(DatasetReader(SectionReaders(codec, f, table)), DatasetWriter(codec, f, table), ds, RereadDatasets(f, ds),
                 NavLines(codec, f, table, ds));
  }

  /**
   * What `NavSection::save` writes, found at any position of the input,
   * `NavSection::load` reads back as the same datasets in the same order
   * (edge lengths passed through their text form), and stops right after it.
   */
  lemma NavRoundTrip<L, P>(codec: LinkCodec<L>, f: NumberText, table: PathTableCodec<P>, ds: seq<NavDataset<L, P>>,
                           lines: seq<string>, pos: nat)
    requires WellFormed(f) && IsInt32(|ds|)
    requires forall k :: 0 <= k < |ds| ==> Writable(codec, table, ds[k])
    requires At(lines, pos, NavLines(codec, f, table, ds))
    ensures NavAt(DatasetReader(SectionReaders(codec, f, table)), lines, pos) ==
              Ok(Parsed(RereadDatasets(f, ds), pos + |NavLines(codec, f, table, ds)|))
  {
    var block := DatasetReader(SectionReaders(codec, f, table));
    NavBlockReads(codec, f, table, ds);
    UseBlockReads(NavReader(block), NavLines(codec, f, table, ds), RereadDatasets(f, ds), lines, pos);
    NavReaderIs(block, lines, pos);
  }

  /**
   * The text `SaveNav` produces, followed by anything at all, loads back
   * from its first line as the saved datasets.
   */
  lemma SaveThenLoad<L, P>(codec: LinkCodec<L>, f: NumberText, table: PathTableCodec<P>, ds: seq<NavDataset<L, P>>, rest: string)
    requires WellFormed(f) && IsInt32(|ds|)
    requires forall k :: 0 <= k < |ds| ==> Writable(codec, table, ds[k])
    ensures var lines := SplitLines(Unlines(NavLines(codec, f, table, ds)) + rest);
      NavAt(DatasetReader(SectionReaders(codec, f, table)), lines, 0) == Ok(Parsed(RereadDatasets(f, ds), |NavLines(codec, f, table, ds)|))
  {
    var block := DatasetReader(SectionReaders(codec, f, table));
    var ls := NavLines(codec, f, table, ds);
    NavLinesAreLines(codec, f, table, ds);
    NavBlockReads(codec, f, table, ds);
    ReadOfText(NavReader(block), ls, RereadDatasets(f, ds), rest);
    NavReaderIs(block, SplitLines(Unlines(ls) + rest), 0);
  }

  /** Lines that read as v wherever they are read as v from the start of their text. */
  lemma ReadOfText<D>(block: BlockParse<D>, ls: seq<string>, v: D, rest: string)
    requires AllLines(ls) && BlockReads(block, ls, v)
    ensures block(SplitLines(Unlines(ls) + rest), 0) == Ok(Parsed(v, |ls|))
  {
    var lines := SplitLines(Unlines(ls) + rest);
    SplitLinesOfUnlines(ls, rest);
    assert lines[0..|ls|] == ls;
    UseBlockReads(block, ls, v, lines, 0);
  }
}
