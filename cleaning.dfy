/** `remove_blank_rows` (main.py:59-73): drop every data row with a missing
    or whitespace-only cell, keep the last (Grand Total) row as it is. */
module Cleaning {
  import opened Cells
  import opened Seqs
  import opened Frames

  /** Some cell of the row is NaN or, once `^\s*$` is replaced by NaN, would be. */
  predicate HasBlank(row: seq<Cell>) {
    exists k :: 0 <= k < |row| && IsBlank(row[k])
  }

  /** `replace(r"^\s*$", np.nan, regex=True).dropna(how="any")` on the data
      rows: the rows without a blank cell, in their order. */
  function DropBlank(rows: seq<seq<Cell>>): (r: seq<seq<Cell>>)
    ensures |r| <= |rows|
    ensures forall x :: x in r <==> x in rows && !HasBlank(x)
    ensures forall x :: multiset(r)[x] == if HasBlank(x) then 0 else multiset(rows)[x]
  {
    if rows == [] then []
    else
      assert rows == [rows[0]] + rows[1..];
      var rest := DropBlank(rows[1..]);
      if HasBlank(rows[0]) then rest else [rows[0]] + rest
  }

  /** The kept rows keep their relative order. */
  lemma {:induction false} DropBlankOrder(rows: seq<seq<Cell>>)
    ensures Subseq(DropBlank(rows), rows)
  {
    if rows != [] {
      DropBlankOrder(rows[1..]);
      var rest := DropBlank(rows[1..]);
      if HasBlank(rows[0]) {
        SubseqSkip(rest, rows, rows[0]);
      } else {
        assert ([rows[0]] + rest)[1..] == rest;
      }
    }
  }

  /** A subsequence of `rows[1..]` that does not contain `rows[0]` is a
      subsequence of `rows`. */
  lemma SubseqSkip(a: seq<seq<Cell>>, rows: seq<seq<Cell>>, x: seq<Cell>)
    requires rows != [] && rows[0] == x && x !in a && Subseq(a, rows[1..])
    ensures Subseq(a, rows)
  {
  }

  /** `df.empty`: no rows or no columns. A table that is not empty has a
      last row to keep and at least one column. */
  predicate IsEmpty<N>(f: Frame<N>)
    ensures !IsEmpty(f) <==> |f.rows| >= 1 && |f.names| >= 1
  {
    f.rows == [] || f.names == []
  }

  /** `remove_blank_rows(df)`. */
  function RemoveBlankRows<N>(f: Frame<N>): (g: Frame<N>)
    ensures g.names == f.names && g.kinds == f.kinds
    ensures IsEmpty(f) ==> g == f
    ensures !IsEmpty(f) ==> g.rows == DropBlank(f.rows[..|f.rows| - 1]) + [f.rows[|f.rows| - 1]]
  {
    if IsEmpty(f) then f
    else
      var n := |f.rows| - 1;
      Frame(f.names, f.kinds, DropBlank(f.rows[..n]) + [f.rows[n]])
  }

  /** The Grand Total row survives, unchanged, as the last row; no row is
      added. */
  lemma TotalRowKept<N>(f: Frame<N>)
    requires f.rows != []
    ensures RemoveBlankRows(f).rows != []
    ensures RemoveBlankRows(f).rows[|RemoveBlankRows(f).rows| - 1] == f.rows[|f.rows| - 1]
    ensures |RemoveBlankRows(f).rows| <= |f.rows|
  {
  }

  /** A data row is kept exactly when none of its cells is blank, and a kept
      row appears as often as before. */
  lemma DataRowsKept<N>(f: Frame<N>, x: seq<Cell>)
    requires !IsEmpty(f)
    ensures var g := RemoveBlankRows(f);
      x in g.rows[..|g.rows| - 1] <==> x in f.rows[..|f.rows| - 1] && !HasBlank(x)
    ensures var g := RemoveBlankRows(f);
      multiset(g.rows[..|g.rows| - 1])[x] == if HasBlank(x) then 0 else multiset(f.rows[..|f.rows| - 1])[x]
  {
    var g := RemoveBlankRows(f);
    assert g.rows[..|g.rows| - 1] == DropBlank(f.rows[..|f.rows| - 1]);
  }

  /** Dropping blank rows twice drops nothing more. */
  lemma {:induction false} DropBlankIdempotent(rows: seq<seq<Cell>>)
    ensures DropBlank(DropBlank(rows)) == DropBlank(rows)
  {
    if rows != [] {
      DropBlankIdempotent(rows[1..]);
      var rest := DropBlank(rows[1..]);
      if !HasBlank(rows[0]) {
        assert ([rows[0]] + rest)[0] == rows[0] && ([rows[0]] + rest)[1..] == rest;
      }
    }
  }

  /** Cleaning a cleaned table changes nothing. */
  lemma RemoveBlankRowsIdempotent<N>(f: Frame<N>)
    ensures RemoveBlankRows(RemoveBlankRows(f)) == RemoveBlankRows(f)
  {
    if !IsEmpty(f) {
      var g := RemoveBlankRows(f);
      var kept := DropBlank(f.rows[..|f.rows| - 1]);
      assert g.rows[..|g.rows| - 1] == kept;
      DropBlankIdempotent(f.rows[..|f.rows| - 1]);
    }
  }
}
