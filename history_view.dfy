/** The listing screen (components/HistoryView.tsx): the spending total and
    scan count, one row per receipt, and the drop zone / file picker that
    forward an image to the application. */
module HistoryView {
  import opened Types

  /** Reference definition of the aggregate: the sum of every record's total. */
  function SumTotals(rs: seq<Receipt>): int {
    if rs == [] then 0 else rs[0].total + SumTotals(rs[1..])
  }

  /** `rs.reduce((acc, curr) => acc + curr.total, acc)`: a fold from the left,
      which from any accumulator adds exactly the reference sum. */
  function FoldTotals(acc: int, rs: seq<Receipt>): (r: int)
    ensures r == acc + SumTotals(rs)
    decreases |rs|
  {
    if rs == [] then acc else FoldTotals(acc + rs[0].total, rs[1..])
  }

  /** The "Total Spending" figure. */
  function Total(rs: seq<Receipt>): (t: int)
    ensures t == SumTotals(rs)
  {
    FoldTotals(0, rs)
  }

  /** The aggregate of a concatenation is the sum of the aggregates. */
  lemma {:induction false} SumTotalsAppend(a: seq<Receipt>, b: seq<Receipt>)
    ensures SumTotals(a + b) == SumTotals(a) + SumTotals(b)
    decreases |a|
  {
    if a == [] {
      assert a + b == b;
    } else {
      assert (a + b)[1..] == a[1..] + b;
      SumTotalsAppend(a[1..], b);
    }
  }

  /** The total of the empty list is 0, and prepending a record raises the
      total by exactly that record's amount. */
  lemma TotalPrepend(r: Receipt, rs: seq<Receipt>)
    ensures Total([]) == 0
    ensures Total([r] + rs) == r.total + Total(rs)
  {
  }

  /** One rendered list row: what it shows and the id its Delete button passes. */
  datatype Row = Row(imageUrl: string, merchant: string, date: string, category: string, total: int, deleteId: string)

  /** `receipts.map(receipt => <row/>)`. */
  function Rows(rs: seq<Receipt>): (rows: seq<Row>)
    ensures |rows| == |rs|
    ensures forall i :: 0 <= i < |rs| ==>
              rows[i].deleteId == rs[i].id && rows[i].total == rs[i].total &&
              rows[i].merchant == rs[i].merchant && rows[i].date == rs[i].date &&
              rows[i].category == rs[i].category && rows[i].imageUrl == rs[i].imageUrl
  {
    if rs == [] then []
    else [Row(rs[0].imageUrl, rs[0].merchant, rs[0].date, rs[0].category, rs[0].total, rs[0].id)] + Rows(rs[1..])
  }

  /** The "Scans" figure: as many as there are rows. */
  function ScanCount(rs: seq<Receipt>): (n: nat)
    ensures n == |Rows(rs)|
  {
    |rs|
  }

  /** The file `handleDrop` forwards: the first dropped file, and only if it is an image. */
  function DroppedFile(files: seq<File>): (f: Option<File>)
    ensures f.Some? <==> |files| > 0 && IsImageFile(files[0])
    ensures f.Some? ==> f.value == files[0]
  {
    if |files| > 0 && IsImageFile(files[0]) then Some(files[0]) else None
  }

  /** The file `handleFileChange` forwards: the first selected file, whatever its type. */
  function ChosenFile(files: seq<File>): (f: Option<File>)
    ensures f.Some? <==> |files| > 0
    ensures f.Some? ==> f.value == files[0]
  {
    if |files| > 0 then Some(files[0]) else None
  }

  /** The drop filter is the picker narrowed to images. */
  lemma DropNarrowsPicker(files: seq<File>)
    ensures DroppedFile(files) == if ChosenFile(files).Some? && IsImageFile(ChosenFile(files).value)
                                  then ChosenFile(files) else None
  {
  }

  /** The drop zone's highlight flag. */
  class DropZone {
    var isDragging: bool

    constructor ()
      ensures !isDragging
    {
      isDragging := false;
    }

    method DragOver()
      modifies this
      ensures isDragging
    {
      isDragging := true;
    }

    method DragLeave()
      modifies this
      ensures !isDragging
    {
      isDragging := false;
    }

    /** handleDrop: clears the highlight and returns the file passed to `onUpload`, if any. */
    method Drop(files: seq<File>) returns (forwarded: Option<File>)
      modifies this
      ensures !isDragging
      ensures forwarded == DroppedFile(files)
    {
      isDragging := false;
      forwarded := DroppedFile(files);
    }
  }
}
