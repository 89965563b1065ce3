/** The per-instance offset buffer of the grass field: one (u, v) pair per blade,
    laid out row-major, u = row / rows and v = column / columns. The buffer is a
    Float32Array in the program; here its elements are exact reals. */
module GrassLayout {

  /** The row-major index of grid cell (i, ii) among `columns` cells per row. */
  function CellIndex(columns: nat, i: nat, ii: nat): nat {
    i * columns + ii
  }

  /** Reference content of the buffer, decoded slot by slot: slot k belongs to cell
      k / 2, whose row and column are (k / 2) / columns and (k / 2) % columns; even
      slots hold the row fraction, odd slots the column fraction. */
  function Offsets(rows: nat, columns: nat): (s: seq<real>)
    ensures |s| == rows * columns * 2
  {
    if rows == 0 || columns == 0 then []
    else seq(rows * columns * 2, k requires 0 <= k < rows * columns * 2 => SlotValue(rows, columns, k))
  }

  function SlotValue(rows: nat, columns: nat, k: nat): real
    requires 0 < rows && 0 < columns
  {
    var cell := k / 2;
    if k % 2 == 0 then (cell / columns) as real / rows as real
    else (cell % columns) as real / columns as real
  }

  /** Euclidean division by n has a unique quotient and remainder. */
  lemma {:induction false} DivModUnique(c: nat, n: nat, q: nat, r: nat)
    requires r < n && c == q * n + r
    ensures c / n == q && c % n == r
  {
    var q', r' := c / n, c % n;
    assert (q - q') * n == r' - r;
    if q' < q {
      MulMonotone(1, q - q', n);
    } else if q < q' {
      MulMonotone(1, q' - q, n);
    }
  }

  lemma MulMonotone(a: int, b: int, n: nat)
    requires a <= b
    ensures a * n <= b * n
  {
  }

  /** Every cell of a rows-by-columns grid has a row-major index below rows*columns. */
  lemma {:induction false} CellIndexInRange(rows: nat, columns: nat, i: nat, ii: nat)
    requires i < rows && ii < columns
    ensures CellIndex(columns, i, ii) < rows * columns
  {
    MulMonotone(i + 1, rows, columns);
  }

  /** Distinct cells have distinct row-major indices, so no cell overwrites another. */
  lemma {:induction false} CellIndexInjective(rows: nat, columns: nat, i: nat, ii: nat, j: nat, jj: nat)
    requires i < rows && ii < columns && j < rows && jj < columns
    requires CellIndex(columns, i, ii) == CellIndex(columns, j, jj)
    ensures i == j && ii == jj
  {
    var c := CellIndex(columns, i, ii);
    DivModUnique(c, columns, i, ii);
    DivModUnique(c, columns, j, jj);
  }

  /** Every index below rows*columns is the row-major index of a grid cell. */
  lemma {:induction false} CellIndexOnto(rows: nat, columns: nat, c: nat)
    requires c < rows * columns
    ensures c / columns < rows && c % columns < columns
    ensures CellIndex(columns, c / columns, c % columns) == c
  {
    if rows <= c / columns {
      MulMonotone(rows, c / columns, columns);
    }
  }

  /** The two slots of cell (i, ii) hold (i / rows, ii / columns). */
  lemma {:induction false} OffsetAtCell(rows: nat, columns: nat, i: nat, ii: nat)
    requires i < rows && ii < columns
    ensures CellIndex(columns, i, ii) * 2 + 1 < |Offsets(rows, columns)|
    ensures Offsets(rows, columns)[CellIndex(columns, i, ii) * 2] == i as real / rows as real
    ensures Offsets(rows, columns)[CellIndex(columns, i, ii) * 2 + 1] == ii as real / columns as real
  {
    var c := CellIndex(columns, i, ii);
    CellIndexInRange(rows, columns, i, ii);
    DivModUnique(c, columns, i, ii);
    DivModUnique(c * 2, 2, c, 0);
    DivModUnique(c * 2 + 1, 2, c, 1);
  }

  /** Every stored component lies in [0, 1). */
  lemma {:induction false} OffsetsInUnitInterval(rows: nat, columns: nat, k: nat)
    requires k < |Offsets(rows, columns)|
    ensures 0.0 <= Offsets(rows, columns)[k] < 1.0
  {
    var c := k / 2;
    CellIndexOnto(rows, columns, c);
    assert Offsets(rows, columns)[k] == SlotValue(rows, columns, k);
    if k % 2 == 0 {
      FractionInUnit(c / columns, rows);
    } else {
      FractionInUnit(c % columns, columns);
    }
  }

  lemma FractionInUnit(a: int, n: int)
    requires 0 <= a < n
    ensures 0.0 <= a as real / n as real < 1.0
  {
  }

  /** No two cells share an offset pair. */
  lemma {:induction false} OffsetPairsDistinct(rows: nat, columns: nat, i: nat, ii: nat, j: nat, jj: nat)
    requires i < rows && ii < columns && j < rows && jj < columns && (i, ii) != (j, jj)
    ensures CellIndex(columns, i, ii) * 2 + 1 < |Offsets(rows, columns)|
    ensures CellIndex(columns, j, jj) * 2 + 1 < |Offsets(rows, columns)|
    ensures Offsets(rows, columns)[CellIndex(columns, i, ii) * 2] != Offsets(rows, columns)[CellIndex(columns, j, jj) * 2]
         || Offsets(rows, columns)[CellIndex(columns, i, ii) * 2 + 1] != Offsets(rows, columns)[CellIndex(columns, j, jj) * 2 + 1]
  {
    OffsetAtCell(rows, columns, i, ii);
    OffsetAtCell(rows, columns, j, jj);
    if i == j {
      FractionInjective(ii, jj, columns);
    } else {
      FractionInjective(i, j, rows);
    }
  }

  lemma FractionInjective(a: int, b: int, n: nat)
    requires a != b && 0 < n
    ensures a as real / n as real != b as real / n as real
  {
  }

  /** A two-by-two grid lays out (0,0), (0,0.5), (0.5,0), (0.5,0.5) in this order. */
  lemma TwoByTwoLayout()
    ensures Offsets(2, 2) == [0.0, 0.0, 0.0, 0.5, 0.5, 0.0, 0.5, 0.5]
  {
  }

  /** Two sequences that agree on their first n elements and on the next two agree
      on their first n + 2. */
  lemma PrefixExtends(a: seq<real>, b: seq<real>, n: nat)
    requires n + 2 <= |a| && n + 2 <= |b|
    requires a[..n] == b[..n] && a[n] == b[n] && a[n + 1] == b[n + 1]
    ensures a[..n + 2] == b[..n + 2]
  {
    assert a[..n + 2] == a[..n] + [a[n], a[n + 1]];
    assert b[..n + 2] == b[..n] + [b[n], b[n + 1]];
  }

  /** Allocates the offset buffer and fills it row by row, in row-major order. The
      ghost `writes` logs every slot written, in order. */
  method CreateOffsets(rows: nat, columns: nat) returns (offset: array<real>, ghost writes: seq<nat>)
    ensures fresh(offset)
    ensures offset[..] == Offsets(rows, columns)
    ensures |writes| == offset.Length && forall k :: 0 <= k < |writes| ==> writes[k] == k
  {
    offset := new real[rows * columns * 2](_ => 0.0);
    writes := [];
    for i := 0 to rows
      invariant |writes| == CellIndex(columns, i, 0) * 2 <= offset.Length
      invariant forall k :: 0 <= k < |writes| ==> writes[k] == k
      invariant offset[..|writes|] == Offsets(rows, columns)[..|writes|]
    {
      writes := FillRow(offset, rows, columns, i, writes);
      assert CellIndex(columns, i, columns) == CellIndex(columns, i + 1, 0);
    }
    assert offset[..] == offset[..|writes|];
    assert Offsets(rows, columns) == Offsets(rows, columns)[..|writes|];
  }

  /** offset.set([a, b], at): writes a at slot at and b at slot at + 1, and nothing else. */
  method SetPair(offset: array<real>, at: nat, a: real, b: real)
    requires at + 2 <= offset.Length
    modifies offset
    ensures offset[at] == a && offset[at + 1] == b
    ensures offset[..at] == old(offset[..at]) && offset[at + 2..] == old(offset[at + 2..])
  {
    offset[at] := a;
    offset[at + 1] := b;
    assert offset[..at] == old(offset[..at]);
    assert offset[at + 2..] == old(offset[at + 2..]);
  }

  /** The inner loop of the fill: for every column ii of row i, writes the pair
      (i / rows, ii / columns) at slot (i*columns + ii)*2. On entry the rows before i
      are in place; on exit row i is too. */
  method FillRow(offset: array<real>, rows: nat, columns: nat, i: nat, ghost writes0: seq<nat>)
      returns (ghost writes: seq<nat>)
    requires i < rows && offset.Length == rows * columns * 2
    requires |writes0| == CellIndex(columns, i, 0) * 2 <= offset.Length
    requires forall k :: 0 <= k < |writes0| ==> writes0[k] == k
    requires offset[..|writes0|] == Offsets(rows, columns)[..|writes0|]
    modifies offset
    ensures |writes| == CellIndex(columns, i, columns) * 2 <= offset.Length
    ensures forall k :: 0 <= k < |writes| ==> writes[k] == k
    ensures offset[..|writes|] == Offsets(rows, columns)[..|writes|]
    ensures offset[|writes|..] == old(offset[|writes|..])
  {
    writes := writes0;
    ghost var spec := Offsets(rows, columns);
    for ii := 0 to columns
      invariant |writes| == CellIndex(columns, i, ii) * 2 <= offset.Length
      invariant forall k :: 0 <= k < |writes| ==> writes[k] == k
      invariant offset[..|writes|] == spec[..|writes|]
      invariant forall k :: |writes| <= k < offset.Length ==> offset[k] == old(offset[k])
    {
      var at := (i * columns + ii) * 2;
      OffsetAtCell(rows, columns, i, ii);
      SetPair(offset, at, i as real / rows as real, ii as real / columns as real);
      PrefixExtends(offset[..], spec, at);
      writes := writes + [at, at + 1];
    }
    assert offset[|writes|..] == old(offset[|writes|..]);
  }
}
