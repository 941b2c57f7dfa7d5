/**
 * Writing the lightmap prefix and leaf visibility sections of a level file.
 */
module FileSectionSave {
  import opened Common
  import opened VisTable

  //#################### LIGHTMAP PREFIX ####################

  /** `save_lightmap_prefix_section`: the prefix alone on a line inside a named block. */
  function LightmapPrefixSection(prefix: string): string
  {
    "LightmapPrefix\n{\n" + prefix + "\n}\n"
  }

  /** A prefix without line breaks reads back as exactly four lines, the third being the prefix. */
  lemma LightmapPrefixLines(prefix: string, rest: string)
    requires IsLine(prefix)
    ensures SplitLines(LightmapPrefixSection(prefix) + rest) == ["LightmapPrefix", "{", prefix, "}"] + SplitLines(rest)
  {
    var ls := ["LightmapPrefix", "{", prefix, "}"];
    assert Unlines(ls[3..]) == "}\n";
    assert Unlines(ls[2..]) == prefix + "\n}\n";
    assert Unlines(ls[1..]) == "{\n" + prefix + "\n}\n";
    assert Unlines(ls) == LightmapPrefixSection(prefix);
    SplitLinesOfUnlines(ls, rest);
  }

  //#################### VISIBILITY TABLE ####################

  /** The character a cell is written as. */
  function CellChar(s: LeafVisState): (c: char)
    ensures c == '0' <==> s == LeafVisNo
    ensures c == '1' <==> s == LeafVisYes
  {
    match s
    case LeafVisNo => '0'
    case LeafVisYes => '1'
  }

  /** One row of the table: its cells' characters in column order. */
  function RowText(row: seq<LeafVisState>): (t: string)
    ensures |t| == |row|
    ensures forall j :: 0 <= j < |row| ==> t[j] == CellChar(row[j])
  {
    if |row| == 0 then "" else RowText(row[..|row| - 1]) + [CellChar(row[|row| - 1])]
  }

  /** Reading a row back: '0' is NO, anything else YES. */
  function DecodeRow(t: string): (row: seq<LeafVisState>)
    ensures |row| == |t|
    ensures forall j :: 0 <= j < |t| ==> (row[j] == LeafVisNo <==> t[j] == '0')
  {
    seq(|t|, j requires 0 <= j < |t| => if t[j] == '0' then LeafVisNo else LeafVisYes)
  }

  lemma DecodeRowText(row: seq<LeafVisState>)
    ensures DecodeRow(RowText(row)) == row
  {
    var back := DecodeRow(RowText(row));
    forall j | 0 <= j < |row| ensures back[j] == row[j] {
      assert RowText(row)[j] == CellChar(row[j]);
    }
  }

  function VisHead(n: nat): seq<string> { ["VisTable", "{", IntToString(n)] }

  /** The lines `save_vis_section` writes for a table given row by row. */
  function VisSectionLines(cells: seq<seq<LeafVisState>>): seq<string>
  {
    VisHead(|cells|) + RowLines(cells) + ["}"]
  }

  function RowLines(cells: seq<seq<LeafVisState>>): (ls: seq<string>)
    ensures |ls| == |cells| && forall i :: 0 <= i < |cells| ==> ls[i] == RowText(cells[i])
  {
    if |cells| == 0 then [] else RowLines(cells[..|cells| - 1]) + [RowText(cells[|cells| - 1])]
  }

  /**
   * The section layout: `VisTable`, `{`, the size N, then N rows, then `}`;
   * for a square table each row has exactly N characters, cell (i, j) at
   * column j of row i, written '0' exactly for NO and '1' exactly for YES.
   */
  lemma VisSectionLayout(cells: seq<seq<LeafVisState>>, i: nat, j: nat)
    requires forall k :: 0 <= k < |cells| ==> |cells[k]| == |cells|
    requires i < |cells| && j < |cells|
    ensures var ls := VisSectionLines(cells);
      |ls| == |cells| + 4 && ls[0] == "VisTable" && ls[1] == "{" && ls[2] == IntToString(|cells|) && ls[|ls| - 1] == "}" &&
      |ls[3 + i]| == |cells| &&
      (ls[3 + i][j] == '0' <==> cells[i][j] == LeafVisNo) &&
      (ls[3 + i][j] == '1' <==> cells[i][j] == LeafVisYes)
  {
  }

  /** The section read back line by line gives back its size line and every row. */
  lemma VisSectionReadBack(cells: seq<seq<LeafVisState>>, rest: string, i: nat)
    requires i < |cells|
    ensures var ls := SplitLines(Unlines(VisSectionLines(cells)) + rest);
      |ls| >= |cells| + 4 && ls[2] == IntToString(|cells|) && DecodeRow(ls[3 + i]) == cells[i]
  {
    var ls := VisSectionLines(cells);
    VisSectionLinesAreLines(cells);
    VisSectionRows(cells, i);
    SplitLinesOfUnlines(ls, rest);
    PrefixIndex(ls, SplitLines(rest), 2);
    PrefixIndex(ls, SplitLines(rest), 3 + i);
    DecodeRowText(cells[i]);
  }

  /** The size line and row i of the section. */
  lemma VisSectionRows(cells: seq<seq<LeafVisState>>, i: nat)
    requires i < |cells|
    ensures var ls := VisSectionLines(cells); |ls| == |cells| + 4 && ls[2] == IntToString(|cells|) && ls[3 + i] == RowText(cells[i])
  {
  }

  lemma VisSectionLinesAreLines(cells: seq<seq<LeafVisState>>)
    ensures AllLines(VisSectionLines(cells))
  {
    var head := VisHead(|cells|);
    var rows := RowLines(cells);
    IntToStringToken(|cells|);
    assert AllLines(head);
    RowLinesAreLines(cells);
    AllLinesAppend(head, rows);
    AllLinesAppend(head + rows, ["}"]);
  }

  lemma RowTextIsLine(row: seq<LeafVisState>)
    ensures IsLine(RowText(row))
  {
    var t := RowText(row);
    forall k | 0 <= k < |t| ensures t[k] != '\n' {
      assert t[k] == CellChar(row[k]);
    }
  }

  lemma RowLinesAreLines(cells: seq<seq<LeafVisState>>)
    ensures AllLines(RowLines(cells))
  {
    forall k | 0 <= k < |cells| ensures IsLine(RowLines(cells)[k]) {
      RowTextIsLine(cells[k]);
    }
  }

  lemma VisHeadText(n: nat)
    ensures Unlines(VisHead(n)) == "VisTable\n{\n" + IntToString(n) + "\n"
  {
    var head := VisHead(n);
    assert Unlines(head[2..]) == IntToString(n) + "\n";
    assert Unlines(head[1..]) == "{\n" + IntToString(n) + "\n";
  }

  /** Writing row i after the header and rows 0 … i−1. */
  lemma VisRowStep(head: seq<string>, cells: seq<seq<LeafVisState>>, i: nat, out: string, row: string)
    requires i < |cells| && row == RowText(cells[i])
    requires out == Unlines(head + RowLines(cells[..i]))
    ensures out + row + "\n" == Unlines(head + RowLines(cells[..i + 1]))
  {
    assert cells[..i + 1][..i] == cells[..i];
    assert head + RowLines(cells[..i + 1]) == (head + RowLines(cells[..i])) + [RowText(cells[i])];
    UnlinesSnoc(head + RowLines(cells[..i]), RowText(cells[i]));
  }

  lemma VisEnd(head: seq<string>, cells: seq<seq<LeafVisState>>, out: string)
    requires out == Unlines(head + RowLines(cells))
    ensures out + "}\n" == Unlines(head + RowLines(cells) + ["}"])
  {
    UnlinesSnoc(head + RowLines(cells), "}");
  }

  /** One row of `save_vis_section`: the cells (i, 0) … (i, N−1) in order. */
  method WriteRow(table: VisTable<LeafVisState>, i: nat) returns (row: string)
    requires table.Valid() && i < table.Size()
    ensures row == RowText(table.Cells()[i])
  {
    ghost var cells := table.Cells()[i];
    row := "";
    var j := 0;
    while j < table.Size()
      invariant 0 <= j <= table.Size()
      invariant row == RowText(cells[..j])
    {
      assert cells[..j + 1][..j] == cells[..j];
      row := row + [CellChar(table.Get(i, j))];
      j := j + 1;
    }
    assert cells[..j] == cells;
  }

  /**
   * `save_vis_section`: writes the header, the size, then for each row i the
   * cells (i, 0) … (i, N−1) and a line break, then the closing brace.
   */
  method SaveVisSection(table: VisTable<LeafVisState>) returns (out: string)
    requires table.Valid()
    ensures out == Unlines(VisSectionLines(table.Cells()))
  {
    ghost var cells := table.Cells();
    var size := table.Size();
    ghost var head := VisHead(size);
    out := "VisTable\n{\n" + IntToString(size) + "\n";
    VisHeadText(size);
    var i := 0;
    assert head + RowLines(cells[..0]) == head;
    while i < size
      invariant 0 <= i <= size
      invariant out == Unlines(head + RowLines(cells[..i]))
      invariant table.Cells() == cells
    {
      var row := WriteRow(table, i);
      VisRowStep(head, cells, i, out, row);
      out := out + row + "\n";
      i := i + 1;
    }
    assert cells[..size] == cells;
    VisEnd(head, cells, out);
    out := out + "}\n";
  }
}
