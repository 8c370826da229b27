/** Laying out a result's rows in one allocation: `StoreResult` for text results, `StorePreparedResult` for prepared
    ones, and the lookups of `CMySQLResult` over the block.

    The block is an array of cells; a pointer takes PTR cells, each remembering the pointer it is part of, so that a
    pointer or a text reads back only if nothing has been written over any part of it. */
module Packing {
  import opened Wrappers

  /** The size of a pointer, and the alignment of a row: the plugin is built for 32-bit servers. */
  const PTR: nat := 4

  /** Unwritten, a character, or the k-th part of a pointer to an offset of the block (None is the null pointer). */
  datatype Cell = Raw | Byte(c: char) | Part(target: Option<nat>, k: nat)

  type Row = seq<Option<string>>

  // ---------------------------------------------------------------------------
  // Sizes

  function RoundUp(x: nat): (r: nat)
    ensures r % PTR == 0 && x <= r < x + PTR
  {
    (x + PTR - 1) / PTR * PTR
  }

  /** The bitwise and. */
  function And(x: nat, y: nat): nat {
    if x == 0 || y == 0 then 0 else 2 * And(x / 2, y / 2) + (x % 2) * (y % 2)
  }

  function Pow2(w: nat): (r: nat)
    ensures r >= 1
  {
    if w == 0 then 1 else 2 * Pow2(w - 1)
  }

  /** The bitwise complement in words of w bits. */
  function Complement(x: nat, w: nat): nat
    requires x < Pow2(w)
  {
    Pow2(w) - 1 - x
  }

  lemma {:induction false} AndOnes(x: nat, w: nat)
    requires x < Pow2(w)
    ensures And(x, Complement(0, w)) == x
  {
    if x != 0 {
      AndOnes(x / 2, w - 1);
    }
  }

  /** The program rounds with a mask; it comes to the same as long as the sum is a word. */
  lemma RoundUpMask(x: nat, w: nat)
    requires w >= 2 && x + PTR - 1 < Pow2(w)
    ensures PTR - 1 < Pow2(w) && And(x + PTR - 1, Complement(PTR - 1, w)) == RoundUp(x)
  {
    var y, ones := x + PTR - 1, Pow2(w - 2) - 1;
    assert Pow2(w) == 2 * Pow2(w - 1) == 4 * Pow2(w - 2);
    hide Pow2, And;
    AndEven(y, 2 * ones);
    AndEven(y / 2, ones);
    assert y / 2 / 2 == y / 4 && Complement(PTR - 1, w) == 2 * (2 * ones) && Complement(0, w - 2) == ones;
    AndOnes(y / 4, w - 2);
  }

  lemma AndEven(x: nat, y: nat)
    ensures And(x, 2 * y) == 2 * And(x / 2, y)
  {
    AndUnfold(x, 2 * y, x / 2, y);
  }

  lemma AndUnfold(x: nat, even: nat, half: nat, y: nat)
    requires even == 2 * y && half == x / 2
    ensures And(x, even) == 2 * And(half, y)
  {
    assert even / 2 == y && even % 2 == 0;
    if x == 0 || y == 0 {
      assert half == 0 || y == 0;
    } else {
      assert And(x, even) == 2 * And(x / 2, even / 2) + (x % 2) * (even % 2);
    }
  }

  function ValueSize(v: Option<string>): nat {
    if v.None? then 0 else |v.value| + 1
  }

  function ValuesSize(row: Row): nat {
    if row == [] then 0 else ValuesSize(row[..|row| - 1]) + ValueSize(row[|row| - 1])
  }

  function RowSize(row: Row): (r: nat)
    ensures r >= PTR * (|row| + 1) + ValuesSize(row) && r % PTR == 0
  {
    RoundUp(PTR * (|row| + 1) + ValuesSize(row))
  }

  /** Where the k-th row starts; for k = |rows|, the size of the block. */
  function RowOffset(rows: seq<Row>, k: nat): nat
    requires k <= |rows|
  {
    if k == 0 then PTR * |rows| else RowOffset(rows, k - 1) + RowSize(rows[k - 1])
  }

  /** Where the value of field f starts in its row. */
  function ValueOffset(row: Row, f: nat): nat
    requires f <= |row|
  {
    PTR * (|row| + 1) + ValuesSize(row[..f])
  }

  // ---------------------------------------------------------------------------
  // The block

  function Raws(n: nat): (r: seq<Cell>)
    ensures |r| == n
  {
    seq(n, _ => Raw)
  }

  function PtrCells(t: Option<nat>): (r: seq<Cell>)
    ensures |r| == PTR
  {
    seq(PTR, k requires 0 <= k < PTR => Part(t, k))
  }

  function ByteCells(s: string): (r: seq<Cell>)
    ensures |r| == |s|
  {
    seq(|s|, i requires 0 <= i < |s| => Byte(s[i]))
  }

  function ValueCells(v: Option<string>): (r: seq<Cell>)
    ensures |r| == ValueSize(v)
  {
    if v.None? then [] else ByteCells(v.value + "\0")
  }

  function Values(row: Row): (r: seq<Cell>)
    ensures |r| == ValuesSize(row)
  {
    if row == [] then [] else Values(row[..|row| - 1]) + ValueCells(row[|row| - 1])
  }

  function FieldPtr(base: nat, row: Row, f: nat): Option<nat>
    requires f < |row|
  {
    if row[f].None? then None else Some(base + ValueOffset(row, f))
  }

  /** The pointers of the first f fields of the row at base. */
  function Ptrs(base: nat, row: Row, f: nat): (r: seq<Cell>)
    requires f <= |row|
    ensures |r| == PTR * f
  {
    if f == 0 then [] else Ptrs(base, row, f - 1) + PtrCells(FieldPtr(base, row, f - 1))
  }

  function RowCells(base: nat, row: Row): (r: seq<Cell>)
    ensures |r| == RowSize(row)
  {
    var used := PTR * (|row| + 1) + ValuesSize(row);
    Ptrs(base, row, |row|) + PtrCells(None) + Values(row) + Raws(RowSize(row) - used)
  }

  function RowsCells(rows: seq<Row>, k: nat): (r: seq<Cell>)
    requires k <= |rows|
    ensures |r| == RowOffset(rows, k) - PTR * |rows|
  {
    if k == 0 then [] else RowsCells(rows, k - 1) + RowCells(RowOffset(rows, k - 1), rows[k - 1])
  }

  function TableCells(rows: seq<Row>, k: nat): (r: seq<Cell>)
    requires k <= |rows|
    ensures |r| == PTR * k
  {
    if k == 0 then [] else TableCells(rows, k - 1) + PtrCells(Some(RowOffset(rows, k - 1)))
  }

  /** The whole allocation: a pointer to each row, then the rows. */
  function Block(rows: seq<Row>): (r: seq<Cell>)
    ensures |r| == RowOffset(rows, |rows|)
  {
    TableCells(rows, |rows|) + RowsCells(rows, |rows|)
  }

  // ---------------------------------------------------------------------------
  // Writing

  function Splice(m: seq<Cell>, o: nat, x: seq<Cell>): (r: seq<Cell>)
    requires o + |x| <= |m|
    ensures |r| == |m|
  {
    m[..o] + x + m[o + |x|..]
  }

  lemma SplicePlace(a: seq<Cell>, b: seq<Cell>, c: seq<Cell>, x: seq<Cell>)
    requires |b| == |x|
    ensures Splice(a + b + c, |a|, x) == a + x + c
  {
  }

  lemma RawsSplit(m: nat, n: nat)
    ensures Raws(m + n) == Raws(m) + Raws(n)
  {
  }

  method StorePtr(a: array<Cell>, o: nat, t: Option<nat>)
    requires o + PTR <= a.Length
    modifies a
    ensures a[..] == Splice(old(a[..]), o, PtrCells(t))
  {
    forall k | 0 <= k < PTR {
      a[o + k] := Part(t, k);
    }
  }

  /** The copy of a value's bytes, and the terminator after them. */
  method StoreText(a: array<Cell>, o: nat, s: string)
    requires o + |s| + 1 <= a.Length
    modifies a
    ensures a[..] == Splice(old(a[..]), o, ValueCells(Some(s)))
  {
    forall k | 0 <= k < |s| {
      a[o + k] := Byte(s[k]);
    }
    a[o + |s|] := Byte('\0');
  }

  /** The block while the row at base is being filled: `pre` before it, f fields done, `rest` cells unused behind. */
  function Filling(pre: seq<Cell>, row: Row, f: nat, rest: nat): seq<Cell>
    requires f <= |row|
  {
    pre + Ptrs(|pre|, row, f) + Raws(PTR * (|row| + 1 - f)) + Values(row[..f]) + Raws(rest)
  }

  lemma ValuesSnoc(row: Row, f: nat)
    requires f < |row|
    ensures Values(row[..f + 1]) == Values(row[..f]) + ValueCells(row[f])
    ensures ValuesSize(row[..f + 1]) == ValuesSize(row[..f]) + ValueSize(row[f])
  {
    assert row[..f + 1][..f] == row[..f];
  }

  /** Overwriting the start b of the third part of p + q + (b + c) + v + z. */
  lemma SpliceThird(p: seq<Cell>, q: seq<Cell>, b: seq<Cell>, c: seq<Cell>, v: seq<Cell>, z: seq<Cell>, x: seq<Cell>)
    requires |b| == |x|
    ensures Splice(p + q + (b + c) + v + z, |p| + |q|, x) == p + (q + x) + c + v + z
  {
    var tail := c + v + z;
    assert p + q + (b + c) + v + z == (p + q) + b + tail;
    SplicePlace(p + q, b, tail, x);
    assert p + (q + x) + c + v + z == p + q + x + tail;
  }

  /** Overwriting the start b of the fifth part. */
  lemma SpliceFifth(p: seq<Cell>, q: seq<Cell>, r: seq<Cell>, v: seq<Cell>, b: seq<Cell>, c: seq<Cell>, x: seq<Cell>)
    requires |b| == |x|
    ensures Splice(p + q + r + v + (b + c), |p| + |q| + |r| + |v|, x) == p + q + r + (v + x) + c
  {
    assert p + q + r + v + (b + c) == (p + q + r + v) + b + c;
    SplicePlace(p + q + r + v, b, c, x);
    assert p + q + r + v + x == p + q + r + (v + x);
  }

  lemma FillPointer(pre: seq<Cell>, row: Row, f: nat, values: seq<Cell>, z: seq<Cell>, t: Option<nat>)
    requires f < |row| && t == FieldPtr(|pre|, row, f)
    ensures Splice(pre + Ptrs(|pre|, row, f) + Raws(PTR * (|row| + 1 - f)) + values + z,
                   |pre| + PTR * f, PtrCells(t)) ==
            pre + Ptrs(|pre|, row, f + 1) + Raws(PTR * (|row| - f)) + values + z
  {
    RawsSplit(PTR, PTR * (|row| - f));
    SpliceThird(pre, Ptrs(|pre|, row, f), Raws(PTR), Raws(PTR * (|row| - f)), values, z, PtrCells(t));
  }

  lemma FillValue(pre: seq<Cell>, q: seq<Cell>, r: seq<Cell>, row: Row, f: nat, rest: nat)
    requires f < |row| && ValueSize(row[f]) <= rest
    ensures Splice(pre + q + r + Values(row[..f]) + Raws(rest), |pre| + |q| + |r| + ValuesSize(row[..f]),
                   ValueCells(row[f]))
            == pre + q + r + Values(row[..f + 1]) + Raws(rest - ValueSize(row[f]))
  {
    hide Splice, Values, ValuesSize, ValueSize, ValueCells, Raws;
    var n := ValueSize(row[f]);
    RawsSplit(n, rest - n);
    ValuesSnoc(row, f);
    SpliceFifth(pre, q, r, Values(row[..f]), Raws(n), Raws(rest - n), ValueCells(row[f]));
  }

  lemma NoText(m: seq<Cell>, o: nat)
    requires o <= |m|
    ensures Splice(m, o, ValueCells(None)) == m
  {
  }

  /** One field: its pointer, and its value if it has one. */
  lemma FillField(pre: seq<Cell>, row: Row, f: nat, rest: nat)
    requires f < |row| && ValueSize(row[f]) <= rest
    ensures var m1 := Splice(Filling(pre, row, f, rest), |pre| + PTR * f, PtrCells(FieldPtr(|pre|, row, f)));
            |pre| + ValueOffset(row, f) + ValueSize(row[f]) <= |m1|
            && Splice(m1, |pre| + ValueOffset(row, f), ValueCells(row[f]))
               == Filling(pre, row, f + 1, rest - ValueSize(row[f]))
            && (row[f].None? ==> m1 == Filling(pre, row, f + 1, rest))
  {
    hide Splice, Ptrs, Values, ValueCells, PtrCells, FieldPtr, ValuesSize;
    NoText(Splice(Filling(pre, row, f, rest), |pre| + PTR * f, PtrCells(FieldPtr(|pre|, row, f))),
           |pre| + ValueOffset(row, f));
    var q, r := Ptrs(|pre|, row, f + 1), Raws(PTR * (|row| - f));
    FillPointer(pre, row, f, Values(row[..f]), Raws(rest), FieldPtr(|pre|, row, f));
    FillValue(pre, q, r, row, f, rest);
  }

  /** The null pointer after the fields finishes the row. */
  lemma FillEnd(pre: seq<Cell>, row: Row, rest: nat)
    requires RowSize(row) - PTR * (|row| + 1) - ValuesSize(row) <= rest
    ensures var pad := RowSize(row) - PTR * (|row| + 1) - ValuesSize(row);
            Splice(Filling(pre, row, |row|, rest), |pre| + PTR * |row|, PtrCells(None))
            == pre + RowCells(|pre|, row) + Raws(rest - pad)
  {
    hide Splice, Ptrs, Values, PtrCells, RowSize, ValuesSize, Raws, Filling, RowCells;
    var pad := RowSize(row) - PTR * (|row| + 1) - ValuesSize(row);
    assert row[..|row|] == row;
    FillingAt(pre, row, row, rest);
    RowCellsAt(|pre|, row, pad);
    RawsSplit(pad, rest - pad);
    EndSplice(pre, Ptrs(|pre|, row, |row|), Raws(PTR), Values(row), Raws(rest), Raws(pad), Raws(rest - pad),
              PtrCells(None));
  }

  lemma FillingAt(pre: seq<Cell>, row: Row, all: Row, rest: nat)
    requires all == row[..|row|]
    ensures Filling(pre, row, |row|, rest) == pre + Ptrs(|pre|, row, |row|) + Raws(PTR) + Values(all) + Raws(rest)
  {
    hide Ptrs, Values, Raws;
  }

  lemma RowCellsAt(base: nat, row: Row, pad: nat)
    requires pad == RowSize(row) - PTR * (|row| + 1) - ValuesSize(row)
    ensures RowCells(base, row) == Ptrs(base, row, |row|) + PtrCells(None) + Values(row) + Raws(pad)
  {
    hide Ptrs, Values, PtrCells, RowSize, ValuesSize, Raws;
  }

  lemma EndSplice(p: seq<Cell>, q: seq<Cell>, b: seq<Cell>, v: seq<Cell>, r: seq<Cell>, pad: seq<Cell>, z: seq<Cell>,
                  x: seq<Cell>)
    requires |b| == |x| && r == pad + z
    ensures Splice(p + q + b + v + r, |p| + |q|, x) == p + (q + x + v + pad) + z
  {
    hide Splice;
    assert b + [] == b;
    SpliceThird(p, q, b, [], v, r, x);
    RowAssoc(p, q, x, v, pad, z);
  }

  lemma RowAssoc(p: seq<Cell>, q: seq<Cell>, x: seq<Cell>, v: seq<Cell>, b: seq<Cell>, c: seq<Cell>)
    ensures p + (q + x) + [] + v + (b + c) == p + (q + x + v + b) + c
  {
  }

  // ---------------------------------------------------------------------------
  // Filling the block

  /** The block when the first k rows are filled: their pointers, room for the other pointers, and the rows. */
  function Started(rows: seq<Row>, k: nat): seq<Cell>
    requires k <= |rows|
  {
    TableCells(rows, k) + Raws(PTR * (|rows| - k)) + RowsCells(rows, k)
  }

  /** Storing the pointer to row k. */
  lemma StartRow(rows: seq<Row>, k: nat, rest: nat)
    requires k < |rows|
    ensures var pre := TableCells(rows, k + 1) + Raws(PTR * (|rows| - k - 1)) + RowsCells(rows, k);
            |pre| == RowOffset(rows, k)
            && Splice(Started(rows, k) + Raws(rest), PTR * k, PtrCells(Some(RowOffset(rows, k)))) == pre + Raws(rest)
  {
    StartedParts(rows, k);
    hide Splice, PtrCells, TableCells, RowsCells, RowOffset;
    RawsSplit(PTR, PTR * (|rows| - k - 1));
    SpliceSecond(TableCells(rows, k), Raws(PTR), Raws(PTR * (|rows| - k - 1)), RowsCells(rows, k), Raws(rest),
                 PtrCells(Some(RowOffset(rows, k))));
  }

  /** Overwriting the start b of the second part. */
  lemma SpliceSecond(q: seq<Cell>, b: seq<Cell>, c: seq<Cell>, v: seq<Cell>, z: seq<Cell>, x: seq<Cell>)
    requires |b| == |x|
    ensures Splice(q + (b + c) + v + z, |q|, x) == (q + x) + c + v + z
  {
    assert q + (b + c) + v + z == q + b + (c + v + z);
    SplicePlace(q, b, c + v + z, x);
    assert q + x + c + v + z == q + x + (c + v + z);
  }

  lemma StartedParts(rows: seq<Row>, k: nat)
    requires k < |rows|
    ensures TableCells(rows, k + 1) == TableCells(rows, k) + PtrCells(Some(RowOffset(rows, k)))
    ensures RowsCells(rows, k + 1) == RowsCells(rows, k) + RowCells(RowOffset(rows, k), rows[k])
  {
    hide RowCells, RowSize;
  }

  lemma FinishRow(rows: seq<Row>, k: nat)
    requires k < |rows|
    ensures var pre := TableCells(rows, k + 1) + Raws(PTR * (|rows| - k - 1)) + RowsCells(rows, k);
            pre + RowCells(RowOffset(rows, k), rows[k]) == Started(rows, k + 1)
  {
    StartedParts(rows, k);
    hide TableCells, RowsCells, RowOffset, RowCells, Raws;
    var a := TableCells(rows, k + 1) + Raws(PTR * (|rows| - k - 1));
    assert a + (RowsCells(rows, k) + RowCells(RowOffset(rows, k), rows[k]))
        == a + RowsCells(rows, k) + RowCells(RowOffset(rows, k), rows[k]);
  }

  lemma {:induction false} OffsetMonotonic(rows: seq<Row>, j: nat, k: nat)
    requires j <= k <= |rows|
    ensures RowOffset(rows, j) <= RowOffset(rows, k)
  {
    hide RowSize;
    if j < k {
      OffsetMonotonic(rows, j, k - 1);
    }
  }

  lemma {:induction false} OffsetAligned(rows: seq<Row>, k: nat)
    requires k <= |rows|
    ensures RowOffset(rows, k) % PTR == 0
  {
    hide RowSize;
    if k > 0 {
      OffsetAligned(rows, k - 1);
    }
  }

  // ---------------------------------------------------------------------------
  // The two packers

  /** Filling has begun at the row at base: nothing of it is written, and n + rest cells are left. */
  lemma FillStart(pre: seq<Cell>, row: Row, rest: nat)
    ensures ValueOffset(row, 0) == PTR * (|row| + 1)
    ensures pre + Raws(PTR * (|row| + 1) + rest) == Filling(pre, row, 0, rest)
  {
    RawsSplit(PTR * (|row| + 1), rest);
  }

  lemma ValueFits(row: Row, f: nat)
    requires f < |row|
    ensures ValuesSize(row[..f]) + ValueSize(row[f]) == ValuesSize(row[..f + 1]) <= ValuesSize(row)
    decreases |row| - f
  {
    ValuesSnoc(row, f);
    if f + 1 < |row| {
      ValueFits(row, f + 1);
    } else {
      assert row[..f + 1] == row;
    }
  }

  /** The first pass over a text row. */
  method MeasureRow(row: Row) returns (rowSize: nat)
    ensures rowSize == RowSize(row)
  {
    rowSize := PTR * (|row| + 1);
    var f := 0;
    while f != |row|
      invariant 0 <= f <= |row| && rowSize == ValueOffset(row, f)
    {
      ValuesSnoc(row, f);
      if row[f].Some? {
        rowSize := rowSize + (|row[f].value| + 1);
      }
      f := f + 1;
    }
    assert row[..f] == row;
    rowSize := RoundUp(rowSize);
  }

  /** The second pass over a text row: pointers and values go to the block from rowStorage on. */
  method FillRow(block: array<Cell>, rowStorage: nat, row: Row)
    requires rowStorage + RowSize(row) <= block.Length
    requires block[rowStorage..] == Raws(block.Length - rowStorage)
    modifies block
    ensures block[..] ==
            old(block[..rowStorage]) + RowCells(rowStorage, row) + Raws(block.Length - rowStorage - RowSize(row))
  {
    hide Filling, RowCells, RowSize, Raws, Splice, ValueCells, PtrCells, ValuesSize;
    ghost var pre := block[..rowStorage];
    var valueStorage := rowStorage + PTR * (|row| + 1);
    ghost var rest := block.Length - valueStorage;
    FillStart(pre, row, rest);
    assert block[..] == pre + block[rowStorage..];
    assert row[..0] == [];
    var f := 0;
    while f != |row|
      invariant 0 <= f <= |row| && valueStorage == rowStorage + ValueOffset(row, f)
      invariant ValuesSize(row[..f]) <= ValuesSize(row)
      invariant rest == block.Length - valueStorage
      invariant block[..] == Filling(pre, row, f, rest)
    {
      ValueFits(row, f);
      FillField(pre, row, f, rest);
      if row[f].None? {
        StorePtr(block, rowStorage + PTR * f, None);
      } else {
        StorePtr(block, rowStorage + PTR * f, Some(valueStorage));
        StoreText(block, valueStorage, row[f].value);
        valueStorage := valueStorage + |row[f].value| + 1;
      }
      rest := block.Length - valueStorage;
      f := f + 1;
    }
    FillEnd(pre, row, rest);
    StorePtr(block, rowStorage + PTR * |row|, None);
  }

  lemma StartTable(rows: seq<Row>, size: nat)
    requires size == RowOffset(rows, |rows|)
    ensures RowOffset(rows, 0) == PTR * |rows| <= size && Raws(size) == Started(rows, 0) + Raws(size - PTR * |rows|)
  {
    OffsetMonotonic(rows, 0, |rows|);
    RawsSplit(PTR * |rows|, size - PTR * |rows|);
  }

  /** One turn of the second pass: the pointer to row k, then the row. */
  lemma FillTurn(rows: seq<Row>, k: nat, m: seq<Cell>)
    requires k < |rows| && |m| == RowOffset(rows, |rows|) && RowOffset(rows, k) <= |m|
    requires m == Started(rows, k) + Raws(|m| - RowOffset(rows, k))
    ensures RowOffset(rows, k) + RowSize(rows[k]) == RowOffset(rows, k + 1) <= |m|
    ensures var n := Splice(m, PTR * k, PtrCells(Some(RowOffset(rows, k))));
            n[RowOffset(rows, k)..] == Raws(|m| - RowOffset(rows, k))
            && n[..RowOffset(rows, k)] + RowCells(RowOffset(rows, k), rows[k]) == Started(rows, k + 1)
  {
    hide RowSize, Started, Splice, RowCells, Raws, PtrCells, TableCells, RowsCells;
    OffsetMonotonic(rows, k + 1, |rows|);
    StartRow(rows, k, |m| - RowOffset(rows, k));
    FinishRow(rows, k);
  }

  lemma AllFilled(rows: seq<Row>, m: seq<Cell>)
    requires |m| == RowOffset(rows, |rows|)
    requires m == Started(rows, |rows|) + Raws(0)
    ensures m == Block(rows)
  {
    hide TableCells, RowsCells, RowOffset;
    Emptied(TableCells(rows, |rows|), RowsCells(rows, |rows|));
  }

  lemma Emptied(a: seq<Cell>, b: seq<Cell>)
    ensures a + Raws(0) + b + Raws(0) == a + b
  {
  }

  lemma OffsetStart(rows: seq<Row>)
    ensures RowOffset(rows, 0) == PTR * |rows|
  {
  }

  lemma OffsetStep(rows: seq<Row>, k: nat)
    requires k < |rows|
    ensures RowOffset(rows, k + 1) == RowOffset(rows, k) + RowSize(rows[k])
  {
    hide RowSize;
  }

  /** The text protocol's packer: the rows as `mysql_fetch_row` and `mysql_fetch_lengths` give them. */
  method StoreTextRows(rows: seq<Row>) returns (block: array<Cell>)
    ensures fresh(block) && block[..] == Block(rows)
  {
    hide RowSize, RowOffset, Started, Splice, RowCells, PtrCells, Block;
    var rowSizes := [];
    var memSize := PTR * |rows|;
    var r := 0;
    OffsetStart(rows);
    while r != |rows|
      invariant 0 <= r <= |rows| == |rowSizes| + |rows| - r && memSize == RowOffset(rows, r)
      invariant forall i :: 0 <= i < r ==> rowSizes[i] == RowSize(rows[i])
    {
      OffsetStep(rows, r);
      var rowSize := MeasureRow(rows[r]);
      rowSizes := rowSizes + [rowSize];
      memSize := memSize + rowSize;
      r := r + 1;
    }
    block := new Cell[memSize](_ => Raw);
    assert block[..] == Raws(memSize);
    var rowStorage := PTR * |rows|;
    StartTable(rows, memSize);
    r := 0;
    while r != |rows|
      invariant 0 <= r <= |rows| && rowStorage == RowOffset(rows, r) <= block.Length
      invariant block[..] == Started(rows, r) + Raws(block.Length - rowStorage)
    {
      FillTurn(rows, r, block[..]);
      StorePtr(block, PTR * r, Some(rowStorage));
      FillRow(block, rowStorage, rows[r]);
      rowStorage := rowStorage + rowSizes[r];
      r := r + 1;
    }
    AllFilled(rows, block[..]);
  }

  /** The prepared protocol keeps the strings and the null marks in separate vectors. */
  function Fetched(values: seq<string>, nulls: seq<bool>): Row
    requires |values| == |nulls|
  {
    seq(|values|, c requires 0 <= c < |values| => if nulls[c] then None else Some(values[c]))
  }

  ghost predicate SameShape(values: seq<seq<string>>, nulls: seq<seq<bool>>) {
    |values| == |nulls| && forall r :: 0 <= r < |values| ==> |values[r]| == |nulls[r]|
  }

  function FetchedRows(values: seq<seq<string>>, nulls: seq<seq<bool>>): seq<Row>
    requires SameShape(values, nulls)
  {
    seq(|values|, r requires 0 <= r < |values| => Fetched(values[r], nulls[r]))
  }

  method MeasurePreparedRow(values: seq<string>, nulls: seq<bool>) returns (rowSize: nat)
    requires |values| == |nulls|
    ensures rowSize == RowSize(Fetched(values, nulls))
  {
    ghost var row := Fetched(values, nulls);
    rowSize := PTR * (|values| + 1);
    var column := 0;
    while column < |values|
      invariant 0 <= column <= |values| && rowSize == ValueOffset(row, column)
    {
      ValuesSnoc(row, column);
      if !nulls[column] {
        rowSize := rowSize + |values[column]| + 1;
      }
      column := column + 1;
    }
    assert row[..column] == row;
    rowSize := RoundUp(rowSize);
  }

  method FillPreparedRow(block: array<Cell>, storage: nat, values: seq<string>, nulls: seq<bool>)
    requires |values| == |nulls|
    requires storage + RowSize(Fetched(values, nulls)) <= block.Length
    requires block[storage..] == Raws(block.Length - storage)
    modifies block
    ensures var row := Fetched(values, nulls);
            block[..] == old(block[..storage]) + RowCells(storage, row) + Raws(block.Length - storage - RowSize(row))
  {
    hide Filling, RowCells, RowSize, Raws, Splice, ValueCells, PtrCells, ValuesSize;
    ghost var row := Fetched(values, nulls);
    ghost var pre := block[..storage];
    var fieldStorage := storage + PTR * (|values| + 1);
    ghost var rest := block.Length - fieldStorage;
    FillStart(pre, row, rest);
    assert block[..] == pre + block[storage..];
    assert row[..0] == [];
    var column := 0;
    while column < |values|
      invariant 0 <= column <= |values| && fieldStorage == storage + ValueOffset(row, column)
      invariant ValuesSize(row[..column]) <= ValuesSize(row)
      invariant rest == block.Length - fieldStorage
      invariant block[..] == Filling(pre, row, column, rest)
    {
      ValueFits(row, column);
      FillField(pre, row, column, rest);
      if nulls[column] {
        StorePtr(block, storage + PTR * column, None);
      } else {
        StorePtr(block, storage + PTR * column, Some(fieldStorage));
        StoreText(block, fieldStorage, values[column]);
        fieldStorage := fieldStorage + |values[column]| + 1;
      }
      rest := block.Length - fieldStorage;
      column := column + 1;
    }
    FillEnd(pre, row, rest);
    StorePtr(block, storage + PTR * |values|, None);
  }

  /** The prepared protocol's packer: the same block as for text rows, and none at all for no rows. */
  method StorePreparedRows(values: seq<seq<string>>, nulls: seq<seq<bool>>) returns (block: array?<Cell>)
    requires SameShape(values, nulls)
    ensures block == null <==> values == []
    ensures block != null ==> fresh(block) && block[..] == Block(FetchedRows(values, nulls))
  {
    hide RowSize, RowOffset, Started, Splice, RowCells, PtrCells, Block;
    ghost var rows := FetchedRows(values, nulls);
    var rowSizes := [];
    var memorySize := PTR * |values|;
    OffsetStart(rows);
    var row := 0;
    while row < |values|
      invariant 0 <= row <= |values| == |rowSizes| + |values| - row && memorySize == RowOffset(rows, row)
      invariant forall i :: 0 <= i < row ==> rowSizes[i] == RowSize(rows[i])
    {
      OffsetStep(rows, row);
      var rowSize := MeasurePreparedRow(values[row], nulls[row]);
      rowSizes := rowSizes + [rowSize];
      memorySize := memorySize + rowSize;
      row := row + 1;
    }
    if values == [] {
      return null;
    }
    var data := new Cell[memorySize](_ => Raw);
    assert data[..] == Raws(memorySize);
    var storage := PTR * |values|;
    StartTable(rows, memorySize);
    row := 0;
    while row < |values|
      invariant 0 <= row <= |values| && storage == RowOffset(rows, row) <= data.Length
      invariant data[..] == Started(rows, row) + Raws(data.Length - storage)
    {
      FillTurn(rows, row, data[..]);
      StorePtr(data, PTR * row, Some(storage));
      FillPreparedRow(data, storage, values[row], nulls[row]);
      storage := storage + rowSizes[row];
      row := row + 1;
    }
    AllFilled(rows, data[..]);
    block := data;
  }

  // ---------------------------------------------------------------------------
  // What the block holds

  lemma {:induction false} TableEntry(rows: seq<Row>, r: nat, k: nat)
    requires r < k <= |rows|
    ensures TableCells(rows, k)[PTR * r..PTR * r + PTR] == PtrCells(Some(RowOffset(rows, r)))
  {
    hide PtrCells, RowOffset;
    if r < k - 1 {
      TableEntry(rows, r, k - 1);
    }
  }

  lemma {:induction false} RowPlace(rows: seq<Row>, r: nat, k: nat)
    requires r < k <= |rows|
    ensures var o := RowOffset(rows, r) - PTR * |rows|;
            0 <= o && o + RowSize(rows[r]) <= |RowsCells(rows, k)|
            && RowsCells(rows, k)[o..o + RowSize(rows[r])] == RowCells(RowOffset(rows, r), rows[r])
  {
    hide RowCells, RowSize;
    OffsetMonotonic(rows, 0, r);
    if r < k - 1 {
      RowPlace(rows, r, k - 1);
      OffsetMonotonic(rows, r + 1, k - 1);
    }
  }

  lemma {:induction false} PtrPlace(base: nat, row: Row, f: nat, k: nat)
    requires f < k <= |row|
    ensures Ptrs(base, row, k)[PTR * f..PTR * f + PTR] == PtrCells(FieldPtr(base, row, f))
  {
    hide PtrCells, FieldPtr;
    if f < k - 1 {
      PtrPlace(base, row, f, k - 1);
    }
  }

  lemma {:induction false} ValuePlace(row: Row, f: nat)
    requires f < |row|
    ensures var o := ValuesSize(row[..f]);
            o + ValueSize(row[f]) <= ValuesSize(row)
            && Values(row)[o..o + ValueSize(row[f])] == ValueCells(row[f])
  {
    hide ValueCells, ValueSize;
    var init := row[..|row| - 1];
    if f < |row| - 1 {
      ValuePlace(init, f);
      assert init[..f] == row[..f];
    }
  }

  /** Within one row: the pointer of field f, and its value. */
  lemma RowReads(base: nat, row: Row, f: nat)
    requires f < |row|
    ensures RowCells(base, row)[PTR * f..PTR * f + PTR] == PtrCells(FieldPtr(base, row, f))
    ensures ValueOffset(row, f) + ValueSize(row[f]) <= RowSize(row)
    ensures RowCells(base, row)[ValueOffset(row, f)..ValueOffset(row, f) + ValueSize(row[f])] == ValueCells(row[f])
  {
    hide Ptrs, PtrCells, Values, ValueCells, FieldPtr, ValuesSize, ValueSize, RowSize, Raws;
    PtrPlace(base, row, f, |row|);
    ValuePlace(row, f);
    var i, j := PTR * f, PTR * f + PTR;
    var k, l := ValuesSize(row[..f]), ValuesSize(row[..f]) + ValueSize(row[f]);
    assert j <= PTR * |row|;
    RowSlices(Ptrs(base, row, |row|), PtrCells(None), Values(row),
              Raws(RowSize(row) - PTR * (|row| + 1) - ValuesSize(row)), i, j, k, l);
  }

  lemma RowSlices(p: seq<Cell>, n: seq<Cell>, v: seq<Cell>, z: seq<Cell>, i: nat, j: nat, k: nat, l: nat)
    requires i <= j <= |p| && k <= l <= |v|
    ensures (p + n + v + z)[i..j] == p[i..j]
    ensures (p + n + v + z)[|p|..|p| + |n|] == n
    ensures (p + n + v + z)[|p| + |n| + k..|p| + |n| + l] == v[k..l]
  {
  }

  /** Row r of the block: its entry in the table of rows, and its cells. */
  lemma BlockReads(rows: seq<Row>, r: nat)
    requires r < |rows|
    ensures PTR * |rows| <= RowOffset(rows, r) <= RowOffset(rows, r + 1) <= |Block(rows)|
    ensures Block(rows)[PTR * r..PTR * r + PTR] == PtrCells(Some(RowOffset(rows, r)))
    ensures Block(rows)[RowOffset(rows, r)..RowOffset(rows, r + 1)] == RowCells(RowOffset(rows, r), rows[r])
  {
    hide TableCells, RowsCells, RowCells, PtrCells, RowOffset, RowSize;
    TableEntry(rows, r, |rows|);
    RowPlace(rows, r, |rows|);
    OffsetStart(rows);
    OffsetStep(rows, r);
    OffsetMonotonic(rows, 0, r);
    OffsetMonotonic(rows, r + 1, |rows|);
    var i, j, o := PTR * r, PTR * r + PTR, RowOffset(rows, r) - PTR * |rows|;
    assert j <= PTR * |rows|;
    PairSlices(TableCells(rows, |rows|), RowsCells(rows, |rows|), i, j, o, o + RowSize(rows[r]));
  }

  lemma PairSlices(a: seq<Cell>, b: seq<Cell>, i: nat, j: nat, k: nat, l: nat)
    requires i <= j <= |a| && k <= l <= |b|
    ensures (a + b)[i..j] == a[i..j]
    ensures (a + b)[|a| + k..|a| + l] == b[k..l]
  {
  }

  /** A C string: the characters from o up to the first NUL; None if something else is met before. */
  function CString(m: seq<Cell>, o: nat): Option<string>
    decreases |m| - o
  {
    if o >= |m| || !m[o].Byte? then None
    else if m[o].c == '\0' then Some("")
    else
      var rest := CString(m, o + 1);
      if rest.None? then None else Some([m[o].c] + rest.value)
  }

  function UpToNul(s: string): string {
    if s == "" || s[0] == '\0' then "" else [s[0]] + UpToNul(s[1..])
  }

  lemma {:induction false} TextReads(m: seq<Cell>, o: nat, s: string)
    requires o + |s| < |m| && m[o..o + |s| + 1] == ValueCells(Some(s))
    ensures CString(m, o) == Some(UpToNul(s))
    decreases |s|
  {
    assert m[o] == m[o..o + |s| + 1][0];
    if s != "" && s[0] != '\0' {
      assert m[o + 1..o + 1 + |s[1..]| + 1] == m[o..o + |s| + 1][1..];
      assert m[o..o + |s| + 1][1..] == ValueCells(Some(s[1..]));
      TextReads(m, o + 1, s[1..]);
    }
  }

  /** Where the text of a cell lies in the block. */
  function CellStart(rows: seq<Row>, r: nat, f: nat): nat
    requires r < |rows| && f < |rows[r]|
  {
    RowOffset(rows, r) + ValueOffset(rows[r], f)
  }

  lemma SubSlice(m: seq<Cell>, b: nat, e: nat, c: seq<Cell>, i: nat, j: nat)
    requires b <= e <= |m| && m[b..e] == c && i <= j <= |c|
    ensures m[b + i..b + j] == c[i..j]
  {
    forall k | 0 <= k < j - i ensures m[b + i..b + j][k] == c[i..j][k] {
      assert m[b..e][i + k] == m[b + i + k];
    }
  }

  /** Part of row r, found in the block. */
  lemma RowPart(rows: seq<Row>, r: nat, i: nat, j: nat, x: seq<Cell>)
    requires r < |rows| && i <= j <= RowSize(rows[r]) && RowCells(RowOffset(rows, r), rows[r])[i..j] == x
    ensures RowOffset(rows, r) + j <= RowOffset(rows, r + 1) <= |Block(rows)|
    ensures Block(rows)[RowOffset(rows, r) + i..RowOffset(rows, r) + j] == x
  {
    hide *;
    BlockReads(rows, r);
    OffsetStep(rows, r);
    SubSlice(Block(rows), RowOffset(rows, r), RowOffset(rows, r + 1), RowCells(RowOffset(rows, r), rows[r]), i, j);
  }

  /** The pointer of every field. */
  lemma CellPointer(rows: seq<Row>, r: nat, f: nat)
    requires r < |rows| && f < |rows[r]|
    ensures var m, o := Block(rows), RowOffset(rows, r) + PTR * f;
            o + PTR <= RowOffset(rows, r) + PTR * |rows[r]| <= CellStart(rows, r, f)
            && o + PTR <= |m| && m[o..o + PTR] == PtrCells(CellPtr(rows, r, f))
  {
    hide Block, RowCells, PtrCells, RowOffset, RowSize, ValueOffset;
    var row, base := rows[r], RowOffset(rows, r);
    OffsetBounds(base, row, f);
    RowReads(base, row, f);
    var i, j := PTR * f, PTR * f + PTR;
    assert j <= PTR * |row|;
    RowPart(rows, r, i, j, PtrCells(FieldPtr(base, row, f)));
  }

  /** The null pointer after the last field. */
  lemma RowEnd(rows: seq<Row>, r: nat)
    requires r < |rows|
    ensures var m, o := Block(rows), RowOffset(rows, r) + PTR * |rows[r]|;
            o + PTR <= |m| && m[o..o + PTR] == PtrCells(None)
  {
    hide Block, PtrCells, RowOffset, RowSize, Ptrs, Values, ValuesSize;
    var row, base := rows[r], RowOffset(rows, r);
    RowSlices(Ptrs(base, row, |row|), PtrCells(None), Values(row),
              Raws(RowSize(row) - PTR * (|row| + 1) - ValuesSize(row)), 0, 0, 0, 0);
    RowPart(rows, r, PTR * |row|, PTR * |row| + PTR, PtrCells(None));
  }

  /** A cell's text lies inside its row, and is a C string there. */
  lemma CellText(rows: seq<Row>, r: nat, f: nat)
    requires r < |rows| && f < |rows[r]|
    ensures var m, o, v := Block(rows), CellStart(rows, r, f), rows[r][f];
            o + ValueSize(v) <= RowOffset(rows, r + 1) <= |m|
            && m[o..o + ValueSize(v)] == ValueCells(v)
            && (v.Some? ==> CString(m, o) == Some(UpToNul(v.value)))
  {
    hide Block, RowCells, PtrCells, RowOffset, RowSize, ValueOffset, ValueCells, CString, ValueSize;
    var row, base := rows[r], RowOffset(rows, r);
    RowReads(base, row, f);
    RowPart(rows, r, ValueOffset(row, f), ValueOffset(row, f) + ValueSize(row[f]), ValueCells(row[f]));
    SizeOf(row[f]);
    if row[f].Some? {
      TextReads(Block(rows), CellStart(rows, r, f), row[f].value);
    }
  }

  lemma SizeOf(v: Option<string>)
    ensures v.Some? ==> ValueSize(v) == |v.value| + 1 && v == Some(v.value)
  {
  }

  function CellPtr(rows: seq<Row>, r: nat, f: nat): Option<nat>
    requires r < |rows| && f < |rows[r]|
  {
    if rows[r][f].None? then None else Some(CellStart(rows, r, f))
  }

  lemma OffsetBounds(base: nat, row: Row, f: nat)
    requires f < |row|
    ensures PTR * (|row| + 1) <= ValueOffset(row, f) <= RowSize(row)
    ensures FieldPtr(base, row, f) == if row[f].None? then None else Some(base + ValueOffset(row, f))
  {
    ValuePlace(row, f);
  }

  /** No two values share a cell: they lie in the order of their rows and fields. */
  lemma ValuesApart(rows: seq<Row>, r: nat, f: nat, r': nat, f': nat)
    requires r < |rows| && f < |rows[r]| && r' < |rows| && f' < |rows[r']|
    requires r < r' || (r == r' && f < f')
    ensures CellStart(rows, r, f) + ValueSize(rows[r][f]) <= CellStart(rows, r', f')
  {
    hide Block, CString, PtrCells, ValueCells, ValueSize;
    if r < r' {
      hide RowOffset, ValueOffset;
      CellText(rows, r, f);
      CellPointer(rows, r', f');
      OffsetMonotonic(rows, r + 1, r');
    } else {
      FieldsApart(rows[r], f, f');
    }
  }

  lemma {:induction false} FieldsApart(row: Row, f: nat, f': nat)
    requires f < f' <= |row|
    ensures ValuesSize(row[..f]) + ValueSize(row[f]) <= ValuesSize(row[..f'])
  {
    hide ValuesSize, ValueSize;
    ValuesSnoc(row, f' - 1);
    if f < f' - 1 {
      FieldsApart(row, f, f' - 1);
    }
  }

  // ---------------------------------------------------------------------------
  // The stored result

  method LoadPtr(a: array<Cell>, o: nat, ghost t: Option<nat>) returns (p: Option<nat>)
    requires o + PTR <= a.Length && a[..][o..o + PTR] == PtrCells(t)
    ensures p == t
  {
    assert a[o] == a[..][o..o + PTR][0] == Part(t, 0);
    p := a[o].target;
  }

  class CMySQLResult {
    var m_Fields: nat
    var m_Rows: nat
    var m_Data: array?<Cell>
    var m_FieldNames: seq<string>

    ghost predicate Holds(names: seq<string>, rows: seq<Row>)
      reads this, m_Data
    {
      m_FieldNames == names && m_Fields == |names| && m_Rows == |rows|
      && (forall r :: 0 <= r < |rows| ==> |rows[r]| == |names|)
      && (rows != [] ==> m_Data != null && m_Data[..] == Block(rows))
    }

    /** The pointer p leads to the cell's text, and NULL is the null pointer. */
    ghost predicate Refers(p: Option<nat>, cell: Option<string>)
      reads this, m_Data
    {
      match cell
      case None => p == None
      case Some(s) =>
        p.Some? && m_Data != null && p.value + |s| + 1 <= m_Data.Length
        && m_Data[p.value..p.value + |s| + 1] == ByteCells(s + "\0")
        && CString(m_Data[..], p.value) == Some(UpToNul(s))
    }

    constructor StoreResult(names: seq<string>, rows: seq<Row>)
      requires forall r :: 0 <= r < |rows| ==> |rows[r]| == |names|
      ensures Holds(names, rows)
    {
      m_Rows := |rows|;
      m_Fields := |names|;
      m_FieldNames := names;
      var block := StoreTextRows(rows);
      m_Data := block;
    }

    constructor StorePreparedResult(names: seq<string>, values: seq<seq<string>>, nulls: seq<seq<bool>>)
      requires SameShape(values, nulls) && forall r :: 0 <= r < |values| ==> |values[r]| == |names|
      ensures Holds(names, FetchedRows(values, nulls))
    {
      m_Rows := |values|;
      m_Fields := |names|;
      m_FieldNames := names;
      var block := StorePreparedRows(values, nulls);
      m_Data := block;
    }

    method GetFieldName(idx: nat, ghost names: seq<string>, ghost rows: seq<Row>) returns (name: Option<string>)
      requires Holds(names, rows)
      ensures name == if idx < |names| then Some(names[idx]) else None
    {
      if idx < m_Fields {
        name := Some(m_FieldNames[idx]);
      } else {
        name := None;
      }
    }

    /** `m_Data[row][field]`: two loads. */
    method Load(row: nat, field: nat, ghost names: seq<string>, ghost rows: seq<Row>) returns (p: Option<nat>)
      requires Holds(names, rows) && row < |rows| && field < |names|
      ensures Refers(p, rows[row][field])
    {
      hide Block, RowOffset, CellPtr, CellStart, PtrCells, Refers, Splice;
      CellRefers(names, rows, row, field);
      BlockReads(rows, row);
      var base := LoadPtr(m_Data, PTR * row, Some(RowOffset(rows, row)));
      CellPointer(rows, row, field);
      p := LoadPtr(m_Data, base.value + PTR * field, CellPtr(rows, row, field));
    }

    lemma CellRefers(names: seq<string>, rows: seq<Row>, r: nat, f: nat)
      requires Holds(names, rows) && r < |rows| && f < |names|
      ensures Refers(CellPtr(rows, r, f), rows[r][f])
    {
      CellText(rows, r, f);
      hide Block, CString, RowOffset;
    }

    method GetRowData(row: nat, fieldidx: nat, ghost names: seq<string>, ghost rows: seq<Row>)
      returns (p: Option<nat>)
      requires Holds(names, rows)
      ensures row < |rows| && fieldidx < |names| ==> Refers(p, rows[row][fieldidx])
      ensures !(row < |rows| && fieldidx < |names|) ==> p == None
    {
      if row < m_Rows && fieldidx < m_Fields {
        p := Load(row, fieldidx, names, rows);
      } else {
        p := None;
      }
    }

    /** The cell of the first column with that name. */
    method GetRowDataByName(row: nat, field: Option<string>, ghost names: seq<string>, ghost rows: seq<Row>)
      returns (p: Option<nat>)
      requires Holds(names, rows)
      ensures row >= |rows| || field.None? || field.value !in names ==> p == None
      ensures forall i :: row < |rows| && 0 <= i < |names| && field == Some(names[i]) && names[i] !in names[..i]
                ==> Refers(p, rows[row][i])
    {
      hide Block, Refers;
      if row >= m_Rows || m_Fields == 0 {
        return None;
      }
      if field.None? {
        return None;
      }
      var i := 0;
      while i < m_Fields
        invariant 0 <= i <= m_Fields && field.value !in names[..i]
      {
        if m_FieldNames[i] == field.value {
          p := Load(row, i, names, rows);
          return;
        }
        i := i + 1;
      }
      p := None;
    }
  }

  /** Both packers make the same block of the same cells. */
  lemma FetchedSame(rows: seq<Row>, values: seq<seq<string>>, nulls: seq<seq<bool>>)
    requires SameShape(values, nulls) && |rows| == |values|
    requires forall r :: 0 <= r < |rows| ==> |rows[r]| == |values[r]|
    requires forall r, f :: 0 <= r < |rows| && 0 <= f < |rows[r]| ==>
      rows[r][f].None? == nulls[r][f] && (rows[r][f].Some? ==> rows[r][f].value == values[r][f])
    ensures Block(FetchedRows(values, nulls)) == Block(rows)
  {
    hide Block;
    forall r | 0 <= r < |rows| ensures FetchedRows(values, nulls)[r] == rows[r] {
      assert Fetched(values[r], nulls[r]) == rows[r];
    }
    assert FetchedRows(values, nulls) == rows;
  }
}
