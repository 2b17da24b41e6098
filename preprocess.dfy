/**
 * The preprocessing step of the training pipeline (ml/pipeline/preprocess.py):
 * `df.dropna()` keeps exactly the rows that have no missing cell, in their
 * original order, and keeps every column.
 */
module Preprocess {
  import opened Frames

  /** The rows of `rows` with no missing cell, in order. */
  function KeepComplete<T>(rows: seq<seq<Cell<T>>>): (r: seq<seq<Cell<T>>>)
    ensures |r| <= |rows|
    ensures forall k :: 0 <= k < |r| ==> Complete(r[k])
  {
    if rows == [] then []
    else if Complete(rows[0]) then [rows[0]] + KeepComplete(rows[1..])
    else KeepComplete(rows[1..])
  }

  /** `preprocess(df)`: drop every row with a missing field. */
  function DropNA<T>(f: Frame<T>): (g: Frame<T>)
    ensures g.columns == f.columns
    ensures |g.rows| <= |f.rows|
    ensures forall k :: 0 <= k < |g.rows| ==> Complete(g.rows[k])
  {
    Frame(f.columns, KeepComplete(f.rows))
  }

  /** `a` is `b` with some elements removed, the rest in their original order. */
  ghost predicate Subsequence<T>(a: seq<T>, b: seq<T>)
    decreases |b|
  {
    if b == [] then a == []
    else (a != [] && a[0] == b[0] && Subsequence(a[1..], b[1..])) || Subsequence(a, b[1..])
  }

  lemma {:induction false} KeepCompleteIsSubsequence<T>(rows: seq<seq<Cell<T>>>)
    ensures Subsequence(KeepComplete(rows), rows)
    decreases |rows|
  {
    if rows != [] {
      KeepCompleteIsSubsequence(rows[1..]);
      if Complete(rows[0]) {
        assert ([rows[0]] + KeepComplete(rows[1..]))[1..] == KeepComplete(rows[1..]);
      }
    }
  }

  /**
   * The output of dropna is the subsequence of the input rows that are
   * complete: it keeps their order, keeps every complete row as often as it
   * occurs, and never keeps an incomplete one.
   */
  lemma {:induction false} DropNAKeepsExactlyCompleteRows<T>(f: Frame<T>, row: seq<Cell<T>>)
    ensures Subsequence(DropNA(f).rows, f.rows)
    ensures multiset(DropNA(f).rows)[row] == if Complete(row) then multiset(f.rows)[row] else 0
  {
    KeepCompleteIsSubsequence(f.rows);
    KeepCompleteCount(f.rows, row);
  }

  lemma {:induction false} KeepCompleteCount<T>(rows: seq<seq<Cell<T>>>, row: seq<Cell<T>>)
    ensures multiset(KeepComplete(rows))[row] == if Complete(row) then multiset(rows)[row] else 0
    decreases |rows|
  {
    if rows != [] {
      KeepCompleteCount(rows[1..], row);
      assert rows == [rows[0]] + rows[1..];
    }
  }

  /** A frame with no missing value comes back unchanged. */
  lemma {:induction false} DropNAOfCompleteIsIdentity<T>(f: Frame<T>)
    requires forall k :: 0 <= k < |f.rows| ==> Complete(f.rows[k])
    ensures DropNA(f) == f
  {
    KeepCompleteOfComplete(f.rows);
  }

  lemma {:induction false} KeepCompleteOfComplete<T>(rows: seq<seq<Cell<T>>>)
    requires forall k :: 0 <= k < |rows| ==> Complete(rows[k])
    ensures KeepComplete(rows) == rows
    decreases |rows|
  {
    if rows != [] {
      assert Complete(rows[0]);
      KeepCompleteOfComplete(rows[1..]);
      assert [rows[0]] + rows[1..] == rows;
    }
  }

  /** Preprocessing twice is the same as preprocessing once. */
  lemma {:induction false} DropNAIdempotent<T>(f: Frame<T>)
    ensures DropNA(DropNA(f)) == DropNA(f)
  {
    DropNAOfCompleteIsIdentity(DropNA(f));
  }

  /** Dropping rows never makes a rectangular frame ragged. */
  lemma {:induction false} DropNAKeepsRectangular<T>(f: Frame<T>)
    requires Rectangular(f)
    ensures Rectangular(DropNA(f))
  {
    KeepCompleteFrom(f.rows, |f.columns|);
  }

  lemma {:induction false} KeepCompleteFrom<T>(rows: seq<seq<Cell<T>>>, width: nat)
    requires forall k :: 0 <= k < |rows| ==> |rows[k]| == width
    ensures forall k :: 0 <= k < |KeepComplete(rows)| ==> |KeepComplete(rows)[k]| == width
    decreases |rows|
  {
    if rows != [] {
      KeepCompleteFrom(rows[1..], width);
    }
  }

  /** The example batch: one row with a missing field and two complete rows give two rows. */
  lemma DropNAExample()
    ensures |DropNA(Frame(["x", "target"], [[Val(1), NA], [Val(2), Val(7)], [Val(3), Val(9)]])).rows| == 2
  {
    var rows: seq<seq<Cell<int>>> := [[Val(1), NA], [Val(2), Val(7)], [Val(3), Val(9)]];
    assert rows[0][1] == NA;
    assert rows[1..][1..][1..] == [];
  }
}
