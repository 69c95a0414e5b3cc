/**
 * The checks `saveInvoice` applies to the invoice form before touching any
 * collection: a date is present and well formed, and at least one product
 * row survives filtering.
 */
module Forms {
  import opened Text
  import opened Dates
  import opened Ledger

  /** A form row is kept when a product is selected and the parsed quantity is positive. */
  predicate Keep(row: Line) {
    row.productId != "" && row.quantity > 0
  }

  /** The rows that `saveInvoice` turns into invoice lines, in form order. */
  function KeptLines(rows: seq<Line>): (r: seq<Line>)
    ensures |r| <= |rows|
    ensures forall i :: 0 <= i < |r| ==> Keep(r[i])
    ensures forall l :: l in r <==> l in rows && Keep(l)
  {
    if rows == [] then []
    else if Keep(rows[0]) then [rows[0]] + KeptLines(rows[1..])
    else KeptLines(rows[1..])
  }

  /**
   * The row filter keeps form order and multiplicity: cutting the rows
   * anywhere around one row, the result is the filtered front, that row when
   * it is kept, then the filtered back.
   */
  lemma {:induction false} KeptLinesSplit(front: seq<Line>, x: Line, back: seq<Line>)
    ensures KeptLines(front + [x] + back) == KeptLines(front) + (if Keep(x) then [x] else []) + KeptLines(back)
  {
    var l, m, r := KeptLines(front), KeptLines([x]), KeptLines(back);
    KeptLinesAppend(front + [x], back);
    KeptLinesAppend(front, [x]);
    KeptLinesOne(x);
    assert KeptLines(front + [x]) == l + m;
    assert m == (if Keep(x) then [x] else []);
  }

  /** A single element survives exactly when the filter keeps it. */
  lemma KeptLinesOne(x: Line)
    ensures KeptLines([x]) == (if Keep(x) then [x] else [])
  {
    assert [x][1..] == [];
  }

  /** The filter distributes over concatenation. */
  lemma {:induction false} KeptLinesAppend(front: seq<Line>, back: seq<Line>)
    ensures KeptLines(front + back) == KeptLines(front) + KeptLines(back)
  {
    if front == [] {
      assert front + back == back;
    } else {
      assert (front + back)[0] == front[0];
      assert (front + back)[1..] == front[1..] + back;
      KeptLinesAppend(front[1..], back);
    }
  }

  /** The outcome of the form checks, in the order `saveInvoice` makes them. */
  datatype FormCheck = Accepted(date: string, items: seq<Line>) | DateMissing | DateMalformed | NoItems

  function CheckForm(rawDate: string, rows: seq<Line>): (r: FormCheck)
    ensures r == DateMissing <==> Trim(rawDate) == ""
    ensures r == DateMalformed <==> Trim(rawDate) != "" && !ValidatePersianDate(Trim(rawDate))
    ensures r == NoItems <==> ValidatePersianDate(Trim(rawDate)) && forall i :: 0 <= i < |rows| ==> !Keep(rows[i])
    ensures r.Accepted? ==> r.date == Trim(rawDate) && ValidatePersianDate(r.date)
    ensures r.Accepted? ==> r.items == KeptLines(rows) && r.items != []
  {
    var date := Trim(rawDate);
    if date == "" then DateMissing
    else if !ValidatePersianDate(date) then DateMalformed
    else
      var items := KeptLines(rows);
      assert items == [] <==> forall i :: 0 <= i < |rows| ==> !Keep(rows[i]) by {
        if items != [] {
          assert items[0] in rows;
        }
      }
      if items == [] then NoItems else Accepted(date, items)
  }
}
