/** Tables as the reconciliation sees them: named, typed columns over a sequence of
    rows, and the table operations it performs (adding a column, sorting by a
    column, the column totals, selecting columns, coercing columns). */
module Frames {
  import opened Cells
  import opened Seqs

  /** A column's dtype as far as the grand total is concerned. */
  datatype Kind = Numeric | Text

  /** A data frame: column names (of type `N`), their kinds, and the rows. */
  datatype Frame<N> = Frame(names: seq<N>, kinds: seq<Kind>, rows: seq<seq<Cell>>)

  predicate Rectangular(rows: seq<seq<Cell>>, width: nat) {
    forall i :: 0 <= i < |rows| ==> |rows[i]| == width
  }

  predicate WellFormed<N>(f: Frame<N>) {
    |f.kinds| == |f.names| && Rectangular(f.rows, |f.names|)
  }

  /** `row[name]`: the cell under the first column called `name`, or NaN when
      there is no such column. */
  function Field<N(==)>(names: seq<N>, row: seq<Cell>, name: N): Cell {
    if name in names && IndexOf(names, name) < |row| then row[IndexOf(names, name)] else Missing
  }

  /** What a cell adds to its column's sum: NaN and text add nothing. */
  function NumAt(row: seq<Cell>, j: nat): int {
    if j < |row| && row[j].Int? then row[j].n else 0
  }

  /** `frame[col].sum()` for the column at position `j`. */
  function ColumnSum(rows: seq<seq<Cell>>, j: nat): int {
    if rows == [] then 0 else NumAt(rows[0], j) + ColumnSum(rows[1..], j)
  }

  lemma {:induction false} ColumnSumConcat(a: seq<seq<Cell>>, b: seq<seq<Cell>>, j: nat)
    ensures ColumnSum(a + b, j) == ColumnSum(a, j) + ColumnSum(b, j)
  {
    if a == [] {
      assert a + b == b;
    } else {
      assert (a + b)[0] == a[0] && (a + b)[1..] == a[1..] + b;
      ColumnSumConcat(a[1..], b, j);
    }
  }

  /** A column sum does not depend on the order of the rows. */
  lemma {:induction false} ColumnSumPermutation(a: seq<seq<Cell>>, b: seq<seq<Cell>>, j: nat)
    requires multiset(a) == multiset(b)
    ensures ColumnSum(a, j) == ColumnSum(b, j)
    decreases |a|
  {
    if a == [] {
      assert |b| == |multiset(b)| == 0;
    } else {
      var i := PermutationSplit(a, b);
      ColumnSumPermutation(a[1..], b[..i] + b[i + 1..], j);
      ColumnSumConcat(b[..i], [a[0]] + b[i + 1..], j);
      ColumnSumConcat([a[0]], b[i + 1..], j);
      ColumnSumConcat(b[..i], b[i + 1..], j);
      assert b[..i] + ([a[0]] + b[i + 1..]) == b;
    }
  }

  /** `frame[name] = values` for a column not yet present: pandas appends it
      as the last column. */
  method AddColumn<N(==)>(f: Frame<N>, name: N, kind: Kind, values: seq<Cell>) returns (g: Frame<N>)
    requires WellFormed(f) && name !in f.names && |values| == |f.rows|
    ensures WellFormed(g)
    ensures g.names == f.names + [name] && g.kinds == f.kinds + [kind]
    ensures |g.rows| == |f.rows|
    ensures forall i :: 0 <= i < |f.rows| ==> g.rows[i] == f.rows[i] + [values[i]]
  {
    var rows: seq<seq<Cell>> := [];
    var i := 0;
    while i < |f.rows|
      invariant 0 <= i <= |f.rows| && |rows| == i
      invariant forall k :: 0 <= k < i ==> rows[k] == f.rows[k] + [values[k]]
    {
      rows := rows + [f.rows[i] + [values[i]]];
      i := i + 1;
    }
    g := Frame(f.names + [name], f.kinds + [kind], rows);
  }

  /** The rows are in non-decreasing order of the numeric column `j`. */
  predicate SortedOn(rows: seq<seq<Cell>>, j: nat) {
    forall a, b :: 0 <= a < b < |rows| ==> NumAt(rows[a], j) <= NumAt(rows[b], j)
  }

  function InsertOn(x: seq<Cell>, rows: seq<seq<Cell>>, j: nat): (r: seq<seq<Cell>>)
    requires SortedOn(rows, j)
    ensures SortedOn(r, j)
    ensures multiset(r) == multiset(rows) + multiset{x}
    ensures |r| == |rows| + 1
  {
    if rows == [] || NumAt(x, j) <= NumAt(rows[0], j) then
      SortedCons(x, rows, j);
      [x] + rows
    else
      var t := InsertOn(x, rows[1..], j);
      assert rows == [rows[0]] + rows[1..];
      LowerBoundKept(rows[1..], x, t, j, NumAt(rows[0], j));
      SortedCons(rows[0], t, j);
      [rows[0]] + t
  }

  /** A row no larger than the first of a sorted sequence, or than all of
      its rows, can be put in front of it. */
  lemma SortedCons(h: seq<Cell>, t: seq<seq<Cell>>, j: nat)
    requires SortedOn(t, j)
    requires t == [] || NumAt(h, j) <= NumAt(t[0], j) || forall k :: 0 <= k < |t| ==> NumAt(h, j) <= NumAt(t[k], j)
    ensures SortedOn([h] + t, j)
  {
    var r := [h] + t;
    forall a, b | 0 <= a < b < |r| ensures NumAt(r[a], j) <= NumAt(r[b], j) {
      if a == 0 && b > 1 {
        assert NumAt(t[0], j) <= NumAt(t[b - 1], j);
      }
    }
  }


  /** A lower bound of column `j` over `rows` and `x` bounds every row of a
      rearrangement of them. */
  lemma LowerBoundKept(rows: seq<seq<Cell>>, x: seq<Cell>, t: seq<seq<Cell>>, j: nat, low: int)
    requires multiset(t) == multiset(rows) + multiset{x}
    requires low <= NumAt(x, j) && forall k :: 0 <= k < |rows| ==> low <= NumAt(rows[k], j)
    ensures forall k :: 0 <= k < |t| ==> low <= NumAt(t[k], j)
  {
    forall k | 0 <= k < |t| ensures low <= NumAt(t[k], j) {
      assert t[k] in multiset(t);
      if t[k] != x {
        assert t[k] in multiset(rows);
      }
    }
  }

  /** `sort_values(col)`: the rows reordered by column `j`. The source's default
      sort is not stable, so only the order of the sort column and the
      multiset of rows are promised. */
  function SortOn(rows: seq<seq<Cell>>, j: nat): (r: seq<seq<Cell>>)
    ensures SortedOn(r, j)
    ensures multiset(r) == multiset(rows)
    ensures |r| == |rows|
  {
    if rows == [] then []
    else
      assert rows == [rows[0]] + rows[1..];
      InsertOn(rows[0], SortOn(rows[1..], j), j)
  }

  /** The Grand Total cell of column `j`: the integer sum for a numeric
      column, "" for a text column. */
  function TotalCell(kind: Kind, rows: seq<seq<Cell>>, j: nat): Cell {
    if kind == Numeric then Int(ColumnSum(rows, j)) else Str("")
  }

  /** The Grand Total row of a frame. */
  function ColumnTotals<N>(f: Frame<N>): (r: seq<Cell>)
    requires WellFormed(f)
    ensures |r| == |f.names|
  {
    seq(|f.names|, j requires 0 <= j < |f.names| => TotalCell(f.kinds[j], f.rows, j))
  }

  /** The `for col in inventory.columns` loop that fills the totals row. */
  method Totals<N>(f: Frame<N>) returns (totals: seq<Cell>)
    requires WellFormed(f)
    ensures totals == ColumnTotals(f)
  {
    totals := [];
    for j := 0 to |f.names|
      invariant |totals| == j
      invariant forall k :: 0 <= k < j ==> totals[k] == TotalCell(f.kinds[k], f.rows, k)
    {
      totals := totals + [TotalCell(f.kinds[j], f.rows, j)];
    }
  }

  /** The totals do not depend on the order of the rows. */
  lemma ColumnTotalsPermutation<N>(f: Frame<N>, rows: seq<seq<Cell>>)
    requires WellFormed(f) && multiset(rows) == multiset(f.rows)
    ensures WellFormed(f.(rows := rows)) && ColumnTotals(f.(rows := rows)) == ColumnTotals(f)
  {
    forall x | x in rows ensures |x| == |f.names| {
      assert x in multiset(f.rows);
    }
    forall j | 0 <= j < |f.names| ensures ColumnSum(rows, j) == ColumnSum(f.rows, j) {
      ColumnSumPermutation(rows, f.rows, j);
    }
  }

  /** `[c for c in order if c in names]`. */
  function Present<N(==,!new)>(order: seq<N>, names: seq<N>): (r: seq<N>)
    ensures forall c :: c in r <==> c in order && c in names
    ensures NoDup(order) ==> NoDup(r)
    ensures NoDup(order) ==> Subseq(r, order)
  {
    if order == [] then []
    else
      assert forall c :: c in order <==> c == order[0] || c in order[1..];
      var rest := Present(order[1..], names);
      if order[0] in names then
        assert ([order[0]] + rest)[1..] == rest;
        [order[0]] + rest
      else rest
  }

  function SelectRow<N(==,!new)>(names: seq<N>, row: seq<Cell>, cols: seq<N>): (r: seq<Cell>)
    requires |row| == |names| && forall c :: c in cols ==> c in names
    ensures |r| == |cols|
    ensures forall k :: 0 <= k < |cols| ==> r[k] == row[IndexOf(names, cols[k])]
  {
    seq(|cols|, k requires 0 <= k < |cols| => row[IndexOf(names, cols[k])])
  }

  /** `frame[cols]`: the named columns, in the order given. */
  function Select<N(==,!new)>(f: Frame<N>, cols: seq<N>): (g: Frame<N>)
    requires WellFormed(f) && forall c :: c in cols ==> c in f.names
    ensures WellFormed(g) && g.names == cols && |g.rows| == |f.rows|
    ensures forall k :: 0 <= k < |cols| ==> g.kinds[k] == f.kinds[IndexOf(f.names, cols[k])]
    ensures forall i, k :: 0 <= i < |f.rows| && 0 <= k < |cols| ==>
      g.rows[i][k] == f.rows[i][IndexOf(f.names, cols[k])]
  {
    Frame(cols,
      seq(|cols|, k requires 0 <= k < |cols| => f.kinds[IndexOf(f.names, cols[k])]),
      seq(|f.rows|, i requires 0 <= i < |f.rows| => SelectRow(f.names, f.rows[i], cols)))
  }

  /** `for col in cols: if col in frame.columns: frame[col] = conv(frame[col])`. */
  method CoerceColumns<N(==)>(f: Frame<N>, cols: seq<N>, conv: Cell -> Cell, kind: Kind) returns (g: Frame<N>)
    requires WellFormed(f) && NoDup(f.names) && NoDup(cols)
    ensures WellFormed(g) && g.names == f.names && |g.rows| == |f.rows|
    ensures forall k :: 0 <= k < |f.names| ==> g.kinds[k] == if f.names[k] in cols then kind else f.kinds[k]
    ensures forall i, k :: 0 <= i < |f.rows| && 0 <= k < |f.names| ==>
      g.rows[i][k] == if f.names[k] in cols then conv(f.rows[i][k]) else f.rows[i][k]
  {
    g := f;
    for t := 0 to |cols|
      invariant WellFormed(g) && g.names == f.names && |g.rows| == |f.rows|
      invariant forall k :: 0 <= k < |f.names| ==> g.kinds[k] == if f.names[k] in cols[..t] then kind else f.kinds[k]
      invariant forall i, k :: 0 <= i < |f.rows| && 0 <= k < |f.names| ==>
        g.rows[i][k] == if f.names[k] in cols[..t] then conv(f.rows[i][k]) else f.rows[i][k]
    {
      assert cols[..t + 1] == cols[..t] + [cols[t]];
      if cols[t] in g.names {
        var c := IndexOf(g.names, cols[t]);
        assert cols[t] !in cols[..t];
        assert forall k :: 0 <= k < |f.names| && k != c ==> f.names[k] != cols[t];
        g := Frame(g.names, g.kinds[c := kind],
          seq(|g.rows|, i requires 0 <= i < |g.rows| => g.rows[i][c := conv(g.rows[i][c])]));
      }
    }
    assert cols[..|cols|] == cols;
  }
}
