/**
 * The CSV ingestor: import_csv_to_staging turns the reader's header-keyed
 * rows into staging records.
 */
module Staging {
  import opened Wrappers
  import opened Relational
  import opened Schema
  import opened Strings

  /**
   * One row as csv.DictReader yields it: every header column is a key; a
   * column the row is too short for holds None. Columns outside CSV_COLUMNS
   * may be present and are ignored by the record builder.
   */
  type CsvRow = map<string, Option<string>>

  /** not any(row.values()): every value is None or empty. */
  predicate IsBlankRow(row: CsvRow) {
    forall k :: k in row ==> row[k] == None || row[k] == Some("")
  }

  /** (row.get(col, "") or ""): a missing column and None both read as "". */
  function RawValue(row: CsvRow, col: string): string {
    if col in row && row[col].Some? then row[col].value else ""
  }

  /** The staging record for one row: every CSV column in order, stripped. */
  function BuildRecord(row: CsvRow): (r: StagingRecord)
    ensures forall i :: 0 <= i < NumCsvColumns && (CsvColumns[i] !in row || row[CsvColumns[i]] == None) ==> r[i] == ""
    ensures forall i :: 0 <= i < NumCsvColumns && CsvColumns[i] in row && row[CsvColumns[i]].Some? ==>
      r[i] == Trim(row[CsvColumns[i]].value)
  {
    SchemaShape();
    seq(NumCsvColumns, i requires 0 <= i < NumCsvColumns => Trim(RawValue(row, CsvColumns[i])))
  }

  /** No value of a staging record begins or ends with whitespace. */
  lemma BuildRecordStripped(row: CsvRow, i: nat)
    requires i < NumCsvColumns
    ensures var v := BuildRecord(row)[i];
      v == [] || (!IsSpace(v[0]) && !IsSpace(v[|v| - 1]))
  {
    SchemaShape();
    TrimSpec(RawValue(row, CsvColumns[i]));
  }

  /** The records the loop of import_csv_to_staging collects, one per non-blank row. */
  function StagingRecords(rows: seq<CsvRow>): seq<StagingRecord> {
    if rows == [] then []
    else
      var last := rows[|rows| - 1];
      StagingRecords(rows[..|rows| - 1]) + (if IsBlankRow(last) then [] else [BuildRecord(last)])
  }

  /** Blank rows are skipped and every other row yields exactly one record, in order. */
  lemma {:induction false} StagingRecordsAreNonBlankRows(rows: seq<CsvRow>)
    ensures StagingRecords(rows) == MapSeq(Filter(rows, (r: CsvRow) => !IsBlankRow(r)), BuildRecord)
  {
    var p := (r: CsvRow) => !IsBlankRow(r);
    if rows != [] {
      var init := rows[..|rows| - 1];
      var last := rows[|rows| - 1];
      StagingRecordsAreNonBlankRows(init);
      assert rows == init + [last];
      FilterSnoc(init, last, p);
    }
  }

  /** Membership form: a record is staged exactly when some non-blank row builds it. */
  lemma StagingRecordsMember(rows: seq<CsvRow>, rec: StagingRecord)
    ensures rec in StagingRecords(rows) <==> exists row :: row in rows && !IsBlankRow(row) && BuildRecord(row) == rec
  {
    var p := (r: CsvRow) => !IsBlankRow(r);
    StagingRecordsAreNonBlankRows(rows);
    var f := Filter(rows, p);
    if rec in StagingRecords(rows) {
      var i :| 0 <= i < |f| && BuildRecord(f[i]) == rec;
      FilterMember(rows, p, f[i]);
    }
    if exists row :: row in rows && !IsBlankRow(row) && BuildRecord(row) == rec {
      var row :| row in rows && !IsBlankRow(row) && BuildRecord(row) == rec;
      FilterMember(rows, p, row);
      var i :| 0 <= i < |f| && f[i] == row;
      assert MapSeq(f, BuildRecord)[i] == rec;
    }
  }

  /** The loop of import_csv_to_staging: skip blank rows, collect the rest. */
  method CollectStagingRows(reader: seq<CsvRow>) returns (rows: seq<StagingRecord>)
    ensures rows == StagingRecords(reader)
  {
    rows := [];
    var n := 0;
    while n < |reader|
      invariant 0 <= n <= |reader|
      invariant rows == StagingRecords(reader[..n])
    {
      var row := reader[n];
      assert reader[..n + 1][..n] == reader[..n];
      if !IsBlankRow(row) {
        var values := BuildRecord(row);
        rows := rows + [values];
      }
      n := n + 1;
    }
    assert reader[..n] == reader;
  }
}
