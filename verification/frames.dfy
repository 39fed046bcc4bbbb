/** The provider's table and the column selection `df[fields]` the handler
    applies to it. Prices are kept as exact reals; the rounding to two decimals
    and the CSV text rendering that follow the selection are not modelled. */
module Frames {
  import opened Wrappers
  import opened Seqs

  /** One trading day: its index label and one price per column. */
  datatype Row = Row(date: string, cells: seq<real>)

  /** A table: column labels in order, and the rows in index order. */
  datatype Table = Table(columns: seq<string>, rows: seq<Row>)

  /** Every row has exactly one cell per column. */
  predicate Rectangular(t: Table)
  {
    forall i :: 0 <= i < |t.rows| ==> |t.rows[i].cells| == |t.columns|
  }

  /** No column label occurs twice. */
  predicate DistinctLabels(labels: seq<string>)
  {
    forall i, j :: 0 <= i < j < |labels| ==> labels[i] != labels[j]
  }

  /** A table as the price provider returns it: rectangular, with each price
      field (Open, High, Low, Close, ...) as one column. */
  type Frame = t: Table | Rectangular(t) && DistinctLabels(t.columns) witness Table([], [])

  /** pandas' `DataFrame.empty`: true when either axis has length zero, so a
      table with rows but no columns counts as empty too. */
  predicate IsEmpty(t: Table)
  {
    |t.rows| == 0 || |t.columns| == 0
  }

  /** A frame is empty exactly when it holds no cell at all: no row has a
      value in it. */
  lemma EmptyIffNoCells(f: Frame)
    ensures IsEmpty(f) <==> forall i :: 0 <= i < |f.rows| ==> f.rows[i].cells == []
  {
    if !IsEmpty(f) {
      assert |f.rows[0].cells| == |f.columns| > 0;
    }
  }

  /** The requested labels that `labels` lacks. */
  function Missing(labels: seq<string>, fields: seq<string>): (r: seq<string>)
    ensures forall x :: x in r <==> x in fields && x !in labels
  {
    if |fields| == 0 then []
    else (if fields[0] in labels then [] else [fields[0]]) + Missing(labels, fields[1..])
  }

  /** The cells of `row` under the labels `fields`, in that order. */
  function ProjectRow(labels: seq<string>, row: Row, fields: seq<string>): (r: Row)
    requires |row.cells| == |labels|
    requires forall x :: x in fields ==> x in labels
    ensures r.date == row.date && |r.cells| == |fields|
    ensures forall k :: 0 <= k < |fields| ==> r.cells[k] == row.cells[IndexOf(labels, fields[k]).value]
    ensures forall k, j :: 0 <= k < |fields| && 0 <= j < |labels| && labels[j] == fields[k] && fields[k] !in labels[..j]
                           ==> r.cells[k] == row.cells[j]
  {
    Row(row.date, seq(|fields|, k requires 0 <= k < |fields| => row.cells[IndexOf(labels, fields[k]).value]))
  }

  /** `df[fields]`: the table restricted to the requested columns, in the
      requested order and with repeats kept; when any requested label is not a
      column, the selection fails and names every such label. */
  function Select(f: Frame, fields: seq<string>): (r: Result<Table, seq<string>>)
    ensures r.Success? <==> forall x :: x in fields ==> x in f.columns
    ensures r.Failure? ==> |r.error| > 0 && forall x :: x in r.error <==> x in fields && x !in f.columns
    ensures r.Success? ==> r.value.columns == fields && Rectangular(r.value)
    ensures r.Success? ==> |r.value.rows| == |f.rows|
                           && forall i :: 0 <= i < |f.rows| ==> r.value.rows[i].date == f.rows[i].date
    ensures r.Success? ==>
              forall i, k, j :: 0 <= i < |f.rows| && 0 <= k < |fields| && 0 <= j < |f.columns| && f.columns[j] == fields[k]
                                ==> r.value.rows[i].cells[k] == f.rows[i].cells[j]
  {
    var missing := Missing(f.columns, fields);
    if |missing| > 0 then
      assert missing[0] in missing;
      Failure(missing)
    else
      Success(Table(fields, seq(|f.rows|, i requires 0 <= i < |f.rows| => ProjectRow(f.columns, f.rows[i], fields))))
  }

  /** Selecting a frame's own columns in their own order gives the frame back. */
  lemma SelectOwnColumns(f: Frame)
    ensures Select(f, f.columns) == Success(f)
  {
    var r := Select(f, f.columns);
    assert r.Success?;
    forall i | 0 <= i < |f.rows|
      ensures r.value.rows[i] == f.rows[i]
    {
      var got := r.value.rows[i].cells;
      forall k | 0 <= k < |f.columns|
        ensures got[k] == f.rows[i].cells[k]
      {
        assert IndexOf(f.columns, f.columns[k]).value == k;
      }
      assert got == f.rows[i].cells;
    }
    assert r.value.rows == f.rows;
  }
}
