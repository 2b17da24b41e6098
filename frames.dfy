/**
 * A small model of a pandas data frame: named columns and rows of cells,
 * where a cell is either missing (NaN / None / SQL NULL) or holds a value.
 */
module Frames {
  import opened Wrappers

  datatype Cell<T> = NA | Val(v: T)

  datatype Frame<T> = Frame(columns: seq<string>, rows: seq<seq<Cell<T>>>)

  /** Every row has one cell per column, as in any data frame. */
  predicate Rectangular<T>(f: Frame<T>)
  {
    forall k :: 0 <= k < |f.rows| ==> |f.rows[k]| == |f.columns|
  }

  /** A row with no missing cell. */
  predicate Complete<T>(row: seq<Cell<T>>)
  {
    forall j :: 0 <= j < |row| ==> row[j] != NA
  }

  /** Position of the first column with the given name, if there is one. */
  function ColumnIndex(columns: seq<string>, name: string): (r: Option<nat>)
    ensures r.None? <==> name !in columns
    ensures r.Some? ==> r.value < |columns| && columns[r.value] == name
    ensures r.Some? ==> forall j :: 0 <= j < r.value ==> columns[j] != name
  {
    if columns == [] then None
    else if columns[0] == name then Some(0)
    else match ColumnIndex(columns[1..], name)
      case None => None
      case Some(k) => Some(k + 1)
  }
}
