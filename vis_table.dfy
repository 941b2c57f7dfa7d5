/**
 * The dense N×N visibility table of a level: for every ordered pair of
 * leaves (or portals), whether the first can see the second.
 */
module VisTable {

  /** A leaf's visibility state: two values only. */
  datatype LeafVisState = LeafVisNo | LeafVisYes

  /** A square table of cells, updated in place one cell at a time. */
  class VisTable<T> {
    const table: array2<T>

    ghost predicate Valid()
      reads this
    {
      table.Length0 == table.Length1
    }

    /** `VisTable(n, init)`: an n×n table with every cell equal to init. */
    constructor (n: nat, init: T)
      ensures Valid() && Size() == n && fresh(table)
      ensures forall i, j :: 0 <= i < n && 0 <= j < n ==> Get(i, j) == init
    {
      table := new T[n, n]((i, j) => init);
    }

    /** `size()`: the number of rows, which is also the number of columns. */
    function Size(): nat
      reads this
    {
      table.Length0
    }

    /** The const `operator()(i, j)`. */
    function Get(i: nat, j: nat): T
      requires Valid() && i < Size() && j < Size()
      reads this, table
    {
      table[i, j]
    }

    /** The whole table, row by row. */
    function Cells(): (c: seq<seq<T>>)
      requires Valid()
      reads this, table
      ensures |c| == Size()
      ensures forall i :: 0 <= i < |c| ==> |c[i]| == Size()
      ensures forall i, j :: 0 <= i < Size() && 0 <= j < Size() ==> c[i][j] == table[i, j]
    {
      seq(table.Length0, i requires 0 <= i < table.Length0 reads table =>
        seq(table.Length1, j requires 0 <= j < table.Length1 reads table => table[i, j]))
    }

    /**
     * A write through the non-const `operator()(i, j)`: cell (i, j) takes the
     * new value, every other cell keeps its value, and the size is unchanged.
     */
    method Set(i: nat, j: nat, v: T)
      requires Valid() && i < Size() && j < Size()
      modifies table
      ensures Valid() && Size() == old(Size())
      ensures Get(i, j) == v
      ensures forall a, b :: 0 <= a < Size() && 0 <= b < Size() && (a != i || b != j) ==> Get(a, b) == old(Get(a, b))
    {
      table[i, j] := v;
    }
  }
}
