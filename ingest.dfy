/** Spreadsheet ingestion: the row check and the loop of the `/api/upload-excel`
    handler (server/routes.ts), from the decoded row matrix to the records to insert. */
module Ingest {
  import opened Wrappers
  import opened JsText
  import opened Schema

  /** A cell of the decoded first sheet: `Missing` is `undefined` (a hole in the row),
      `Null` is `null`, `Str` a string, and `Other` any other value (number, boolean,
      date) carried with the text that `String(value)` gives for it. */
  datatype Cell = Missing | Null | Str(s: string) | Other(text: string)

  const UNDEFINED_TEXT: string := "undefined"
  const NULL_TEXT: string := "null"

  /** `String(cell)`. */
  function CellText(c: Cell): string {
    match c
    case Missing => UNDEFINED_TEXT
    case Null => NULL_TEXT
    case Str(s) => s
    case Other(text) => text
  }

  /** `cell !== undefined && cell !== null && String(cell).trim() !== ''`. */
  predicate FieldPresent(c: Cell) {
    (c.Str? || c.Other?) && Trim(CellText(c)) != ""
  }

  /** `hasRequiredFields`: at least four cells, the first four all present. */
  predicate HasRequiredFields(row: seq<Cell>) {
    |row| >= 4 && FieldPresent(row[0]) && FieldPresent(row[1]) && FieldPresent(row[2])
    && FieldPresent(row[3])
  }

  /** The record built for data row `i` (0-based in the sheet, the header being row 0). */
  function RowRecord(row: seq<Cell>, i: int, userId: nat, batchId: string): NewCompany
    requires |row| >= 4
  {
    NewCompany(userId, Trim(CellText(row[0])), Trim(CellText(row[1])),
               Trim(CellText(row[2])), Trim(CellText(row[3])), i - 1, batchId)
  }

  /** One cell is present exactly when it is neither `undefined` nor `null` nor
      made of white space only; its text then trims to a non-empty trimmed text. */
  lemma FieldPresentIff(c: Cell)
    ensures FieldPresent(c) <==> (c.Str? || c.Other?) && !AllSpace(CellText(c))
    ensures FieldPresent(c) ==> Trim(CellText(c)) != [] && Trimmed(Trim(CellText(c)))
  {
    if c.Str? || c.Other? {
      TrimEmptyIffBlank(CellText(c));
      TrimIsMiddle(CellText(c));
    }
  }

  /** The row check in terms of the cells: a row is accepted exactly when it has four
      cells, none `undefined` or `null` and none made of white space only; its record
      then holds the four trimmed texts, each non-empty. */
  lemma RowAcceptance(row: seq<Cell>, i: int, userId: nat, batchId: string)
    ensures HasRequiredFields(row) <==>
              |row| >= 4 && forall k :: 0 <= k < 4 ==>
                (row[k].Str? || row[k].Other?) && !AllSpace(CellText(row[k]))
    ensures HasRequiredFields(row) ==>
              var r := RowRecord(row, i, userId, batchId);
              && r.name != [] && Trimmed(r.name)
              && r.applicationLink != [] && Trimmed(r.applicationLink)
              && r.jobDescription != [] && Trimmed(r.jobDescription)
              && r.jobTitle != [] && Trimmed(r.jobTitle)
  {
    if |row| >= 4 {
      FieldPresentIff(row[0]);
      FieldPresentIff(row[1]);
      FieldPresentIff(row[2]);
      FieldPresentIff(row[3]);
    }
  }

  /** Cells after the fourth play no part. */
  lemma ExtraCellsIgnored(row: seq<Cell>, extra: seq<Cell>, i: int, userId: nat, batchId: string)
    requires |row| >= 4
    ensures HasRequiredFields(row + extra) == HasRequiredFields(row)
    ensures HasRequiredFields(row) ==>
              RowRecord(row + extra, i, userId, batchId) == RowRecord(row, i, userId, batchId)
  {
    assert forall k :: 0 <= k < 4 ==> (row + extra)[k] == row[k];
  }

  /** The indices `1 .. n-1` of the rows that `keep` accepts, in order (row 0 is the
      header). */
  function KeptIndices<T>(rows: seq<T>, n: nat, keep: T -> bool): (o: seq<nat>)
    requires n <= |rows|
    ensures forall k :: 0 <= k < |o| ==> 1 <= o[k] < n
  {
    if n <= 1 then []
    else KeptIndices(rows, n - 1, keep) + (if keep(rows[n - 1]) then [n - 1] else [])
  }

  /** The kept indices increase, each names an accepted row, and together they name
      all of them. */
  lemma {:induction false} KeptIndicesExactly<T>(rows: seq<T>, n: nat, keep: T -> bool)
    requires n <= |rows|
    ensures forall k :: 0 <= k < |KeptIndices(rows, n, keep)| ==>
              1 <= KeptIndices(rows, n, keep)[k] < n && keep(rows[KeptIndices(rows, n, keep)[k]])
    ensures forall i, j :: 0 <= i < j < |KeptIndices(rows, n, keep)| ==>
              KeptIndices(rows, n, keep)[i] < KeptIndices(rows, n, keep)[j]
    ensures forall i :: 1 <= i < n && keep(rows[i]) ==> i in KeptIndices(rows, n, keep)
  {
    if n > 1 {
      KeptIndicesExactly(rows, n - 1, keep);
    }
  }

  /** What a left-to-right walk over rows `1 .. n-1` collects when it turns each row
      that `keep` accepts into `build(row, index)`. */
  function CollectRows<T, U>(rows: seq<T>, n: nat, keep: T -> bool, build: (T, nat) -> U): seq<U>
    requires n <= |rows|
  {
    if n <= 1 then []
    else CollectRows(rows, n - 1, keep, build)
         + (if keep(rows[n - 1]) then [build(rows[n - 1], n - 1)] else [])
  }

  /** The walk yields one result per kept index, in order. */
  lemma {:induction false} CollectRowsByIndex<T, U>(rows: seq<T>, n: nat, keep: T -> bool,
                                                    build: (T, nat) -> U)
    requires n <= |rows|
    ensures |CollectRows(rows, n, keep, build)| == |KeptIndices(rows, n, keep)|
    ensures forall k :: 0 <= k < |CollectRows(rows, n, keep, build)| ==>
              CollectRows(rows, n, keep, build)[k]
              == build(rows[KeptIndices(rows, n, keep)[k]], KeptIndices(rows, n, keep)[k])
  {
    if n > 1 {
      CollectRowsByIndex(rows, n - 1, keep, build);
    }
  }

  /** The record builder of the loop for one upload. The all-empty record of a row
      with fewer than four cells has no counterpart in the source: it only makes the
      lambda total, since `Keep` rejects such rows and they are never built. */
  function Builder(userId: nat, batchId: string): (seq<Cell>, nat) -> NewCompany {
    (row: seq<Cell>, i: nat) => if |row| >= 4 then RowRecord(row, i, userId, batchId)
                                else NewCompany(userId, "", "", "", "", i - 1, batchId)
  }

  function Keep(): seq<Cell> -> bool {
    (row: seq<Cell>) => HasRequiredFields(row)
  }

  /** The records the loop has collected once it has looked at rows `1 .. n-1`. */
  function Accepted(data: seq<seq<Cell>>, n: nat, userId: nat, batchId: string): seq<NewCompany>
    requires n <= |data|
  {
    CollectRows(data, n, Keep(), Builder(userId, batchId))
  }

  /** The records of a whole sheet. */
  function SheetRecords(data: seq<seq<Cell>>, userId: nat, batchId: string): seq<NewCompany> {
    Accepted(data, |data|, userId, batchId)
  }

  /** One more row looked at: the record of row `i` is appended when the row is accepted. */
  lemma AcceptedStep(data: seq<seq<Cell>>, i: nat, userId: nat, batchId: string)
    requires 1 <= i < |data|
    ensures Accepted(data, i + 1, userId, batchId)
            == Accepted(data, i, userId, batchId)
               + (if HasRequiredFields(data[i]) then [RowRecord(data[i], i, userId, batchId)] else [])
  {
    assert Keep()(data[i]) == HasRequiredFields(data[i]);
  }

  datatype UploadError = NoFileUploaded | NoDataRow | NoValidRows

  /** Checks there is a data row, then walks the data rows in order, keeping the
      accepted ones; fails when none is accepted. */
  method ProcessRows(data: seq<seq<Cell>>, userId: nat, batchId: string)
    returns (r: Result<seq<NewCompany>, UploadError>)
    ensures |data| < 2 ==> r == Failure(NoDataRow)
    ensures |data| >= 2 && SheetRecords(data, userId, batchId) == [] ==> r == Failure(NoValidRows)
    ensures |data| >= 2 && SheetRecords(data, userId, batchId) != [] ==>
              r == Success(SheetRecords(data, userId, batchId))
  {
    if |data| < 2 {
      return Failure(NoDataRow);
    }
    var companies: seq<NewCompany> := [];
    var i := 1;
    while i < |data|
      invariant 1 <= i <= |data|
      invariant companies == Accepted(data, i, userId, batchId)
    {
      var row := data[i];
      AcceptedStep(data, i, userId, batchId);
      if HasRequiredFields(row) {
        var company := RowRecord(row, i, userId, batchId);
        companies := companies + [company];
      }
      i := i + 1;
    }
    if |companies| == 0 {
      return Failure(NoValidRows);
    }
    return Success(companies);
  }

  // ---------------------------------------------------------------------------
  // What the collected records are.

  /** Every record's row index lies in `[0, hi]`. */
  ghost predicate RowIndicesWithin(a: seq<NewCompany>, hi: int) {
    forall k :: 0 <= k < |a| ==> 0 <= a[k].rowIndex <= hi
  }

  ghost predicate RowIndicesIncreasing(a: seq<NewCompany>) {
    forall i, j :: 0 <= i < j < |a| ==> a[i].rowIndex < a[j].rowIndex
  }

  /** Each record is the one built from an accepted data row below `n`, the row its
      row index names. */
  ghost predicate BuiltFromAcceptedRows(a: seq<NewCompany>, data: seq<seq<Cell>>, n: nat,
                                        userId: nat, batchId: string)
    requires n <= |data|
  {
    forall k :: 0 <= k < |a| ==>
      && 1 <= a[k].rowIndex + 1 < n
      && HasRequiredFields(data[a[k].rowIndex + 1])
      && a[k] == RowRecord(data[a[k].rowIndex + 1], a[k].rowIndex + 1, userId, batchId)
  }

  /** Each accepted data row below `n` has a record. */
  ghost predicate CoversAcceptedRows(a: seq<NewCompany>, data: seq<seq<Cell>>, n: nat)
    requires n <= |data|
  {
    forall i :: 1 <= i < n && HasRequiredFields(data[i]) ==>
      exists k :: 0 <= k < |a| && a[k].rowIndex == i - 1
  }

  /** Row indices are the sheet rows minus one, not renumbered after skipped rows:
      strictly increasing and within `[0, n - 2]`. */
  lemma AcceptedRowIndices(data: seq<seq<Cell>>, n: nat, userId: nat, batchId: string)
    requires n <= |data|
    ensures RowIndicesWithin(Accepted(data, n, userId, batchId), n - 2)
    ensures RowIndicesIncreasing(Accepted(data, n, userId, batchId))
  {
    var a := Accepted(data, n, userId, batchId);
    var o := KeptIndices(data, n, Keep());
    KeptIndicesExactly(data, n, Keep());
    CollectRowsByIndex(data, n, Keep(), Builder(userId, batchId));
    assert forall k :: 0 <= k < |a| ==> a[k].rowIndex == o[k] - 1;
  }

  /** The `k`-th collected record is the one built from the accepted row its row
      index names. */
  lemma AcceptedAt(data: seq<seq<Cell>>, n: nat, userId: nat, batchId: string, k: nat)
    requires n <= |data| && k < |Accepted(data, n, userId, batchId)|
    ensures var c := Accepted(data, n, userId, batchId)[k];
            && 1 <= c.rowIndex + 1 < n
            && HasRequiredFields(data[c.rowIndex + 1])
            && c == RowRecord(data[c.rowIndex + 1], c.rowIndex + 1, userId, batchId)
  {
    var o := KeptIndices(data, n, Keep());
    KeptIndicesExactly(data, n, Keep());
    CollectRowsByIndex(data, n, Keep(), Builder(userId, batchId));
    var i := o[k];
    assert Keep()(data[i]);
    assert |data[i]| >= 4;
    var c := Accepted(data, n, userId, batchId)[k];
    assert c == Builder(userId, batchId)(data[i], i);
    assert c == RowRecord(data[i], i, userId, batchId);
    assert c.rowIndex + 1 == i;
  }

  /** Every collected record comes from an accepted data row, built from that row. */
  lemma AcceptedFromRows(data: seq<seq<Cell>>, n: nat, userId: nat, batchId: string)
    requires n <= |data|
    ensures BuiltFromAcceptedRows(Accepted(data, n, userId, batchId), data, n, userId, batchId)
  {
    forall k | 0 <= k < |Accepted(data, n, userId, batchId)|
      ensures var c := Accepted(data, n, userId, batchId)[k];
              && 1 <= c.rowIndex + 1 < n
              && HasRequiredFields(data[c.rowIndex + 1])
              && c == RowRecord(data[c.rowIndex + 1], c.rowIndex + 1, userId, batchId)
    {
      AcceptedAt(data, n, userId, batchId, k);
    }
  }

  /** Every accepted data row yields a record. */
  lemma AcceptedCoversRows(data: seq<seq<Cell>>, n: nat, userId: nat, batchId: string)
    requires n <= |data|
    ensures CoversAcceptedRows(Accepted(data, n, userId, batchId), data, n)
  {
    var a := Accepted(data, n, userId, batchId);
    var o := KeptIndices(data, n, Keep());
    KeptIndicesExactly(data, n, Keep());
    CollectRowsByIndex(data, n, Keep(), Builder(userId, batchId));
    forall i | 1 <= i < n && HasRequiredFields(data[i])
      ensures exists k :: 0 <= k < |a| && a[k].rowIndex == i - 1
    {
      assert Keep()(data[i]);
      var k :| 0 <= k < |o| && o[k] == i;
      assert a[k].rowIndex == i - 1;
    }
  }

  /** Every collected record carries the uploader and the batch. */
  lemma AcceptedTagged(data: seq<seq<Cell>>, n: nat, userId: nat, batchId: string)
    requires n <= |data|
    ensures forall c :: c in Accepted(data, n, userId, batchId) ==>
              c.userId == userId && c.uploadBatch == batchId
  {
    AcceptedFromRows(data, n, userId, batchId);
  }

  /** A sheet whose data rows are all rejected gives no records. */
  lemma {:induction false} NoneAccepted(data: seq<seq<Cell>>, n: nat, userId: nat, batchId: string)
    requires n <= |data|
    requires forall i :: 1 <= i < n ==> !HasRequiredFields(data[i])
    ensures Accepted(data, n, userId, batchId) == []
  {
    if n > 1 {
      NoneAccepted(data, n - 1, userId, batchId);
      AcceptedStep(data, n - 1, userId, batchId);
    }
  }

  /** A row with a blank first cell between two accepted rows is skipped, and the
      records keep the row indices of the sheet (0 and 2), not renumbered ones. */
  lemma SkippedRowKeepsIndices(header: seq<Cell>, r1: seq<Cell>, r2: seq<Cell>, r3: seq<Cell>,
                               userId: nat, batchId: string)
    requires HasRequiredFields(r1) && HasRequiredFields(r3)
    requires |r2| > 0 && r2[0] == Str("")
    ensures Accepted([header, r1, r2, r3], 4, userId, batchId)
            == [RowRecord(r1, 1, userId, batchId), RowRecord(r3, 3, userId, batchId)]
    ensures RowRecord(r1, 1, userId, batchId).rowIndex == 0
    ensures RowRecord(r3, 3, userId, batchId).rowIndex == 2
  {
    var data := [header, r1, r2, r3];
    assert !FieldPresent(r2[0]);
    AcceptedStep(data, 1, userId, batchId);
    AcceptedStep(data, 2, userId, batchId);
    AcceptedStep(data, 3, userId, batchId);
  }

  /** Cells whose texts are already trimmed and non-empty are taken over verbatim. */
  lemma TrimmedCellsVerbatim(name: string, link: string, description: string, title: string,
                             i: int, userId: nat, batchId: string)
    requires name != [] && link != [] && description != [] && title != []
    requires Trimmed(name) && Trimmed(link) && Trimmed(description) && Trimmed(title)
    ensures HasRequiredFields([Str(name), Str(link), Str(description), Str(title)])
    ensures RowRecord([Str(name), Str(link), Str(description), Str(title)], i, userId, batchId)
            == NewCompany(userId, name, link, description, title, i - 1, batchId)
  {
    TrimFixesTrimmed(name);
    TrimFixesTrimmed(link);
    TrimFixesTrimmed(description);
    TrimFixesTrimmed(title);
  }

  /** A header and one blank data row give no records. */
  lemma BlankRowScenario(header: seq<Cell>, userId: nat, batchId: string)
    ensures Accepted([header, [Str(" "), Null, Missing, Str("")]], 2, userId, batchId) == []
  {
    AcceptedStep([header, [Str(" "), Null, Missing, Str("")]], 1, userId, batchId);
  }
}
