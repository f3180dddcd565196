/** Lines 164-174 of pages/api/upload-settlement.ts: one candidate record per
    data row, seeded with the upload and tenant ids, then the filter that
    keeps rows with a rider id. */
module RowExtraction {
  import opened Outcomes
  import opened Spreadsheet
  import opened HeaderResolution

  /** A record field: `null`, or the raw cell value. */
  datatype Field = Null | Value(c: Cell)

  /** A candidate `official_settlements` row (`newRow`). */
  type Record = map<string, Field>

  const UploadIdField := "upload_id"
  const TenantIdField := "tenant_id"
  const RiderIdField := "rider_platform_id"

  /** `row[col]`, `Empty` beyond the end of a short row. */
  function CellAt(row: Row, col: nat): Cell {
    if col < |row| then row[col] else Empty
  }

  /** Line 171: `undefined` and `''` become `null`, anything else is kept
      as it is. */
  function Coerce(c: Cell): (f: Field)
    ensures f == Null <==> c == Empty || c == Text("")
    ensures f != Null ==> f == Value(c)
  {
    if c == Empty || c == Text("") then Null else Value(c)
  }

  /** Lines 165-168. */
  function Seed(uploadId: string, tenantId: string): Record {
    map[UploadIdField := Value(Text(uploadId)), TenantIdField := Value(Text(tenantId))]
  }

  /** The record the `map` callback returns for one row: the seed, then each
      resolved field written over it. */
  function RecordOf(row: Row, columns: ColumnIndex, uploadId: string, tenantId: string): Record {
    Seed(uploadId, tenantId) + map f | f in columns :: Coerce(CellAt(row, columns[f]))
  }

  /** The inner loop of lines 169-172. */
  method BuildRecord(row: Row, columns: ColumnIndex, uploadId: string, tenantId: string) returns (rec: Record)
    ensures rec == RecordOf(row, columns, uploadId, tenantId)
  {
    rec := Seed(uploadId, tenantId);
    var pending := columns.Keys;
    while pending != {}
      invariant pending <= columns.Keys
      invariant rec == Seed(uploadId, tenantId) + map f | f in columns.Keys - pending :: Coerce(CellAt(row, columns[f]))
      decreases pending
    {
      var f :| f in pending;
      rec := rec[f := Coerce(CellAt(row, columns[f]))];
      pending := pending - {f};
    }
  }

  /** `row.rider_platform_id != null`: present and not `null`. */
  predicate HasRiderId(rec: Record) {
    RiderIdField in rec && rec[RiderIdField] != Null
  }

  /** `jsonData.slice(1).map(...)`. */
  function Candidates(rows: seq<Row>, columns: ColumnIndex, uploadId: string, tenantId: string): (recs: seq<Record>)
    ensures |recs| == |rows|
    ensures forall i :: 0 <= i < |rows| ==> recs[i] == RecordOf(rows[i], columns, uploadId, tenantId)
  {
    seq(|rows|, i requires 0 <= i < |rows| => RecordOf(rows[i], columns, uploadId, tenantId))
  }

  /** `.filter(row => row.rider_platform_id != null)`. */
  function KeepRiders(recs: seq<Record>): seq<Record>
    decreases |recs|
  {
    if recs == [] then []
    else
      var last := recs[|recs| - 1];
      KeepRiders(recs[..|recs| - 1]) + if HasRiderId(last) then [last] else []
  }

  /** The settlement rows the handler is about to insert (`settlementData`). */
  function Extracted(rows: seq<Row>, columns: ColumnIndex, uploadId: string, tenantId: string): seq<Record> {
    KeepRiders(Candidates(rows, columns, uploadId, tenantId))
  }

  /** The `map`/`filter` pipeline of lines 164-174, row by row. */
  method ExtractRecords(rows: seq<Row>, columns: ColumnIndex, uploadId: string, tenantId: string) returns (out: seq<Record>)
    ensures out == Extracted(rows, columns, uploadId, tenantId)
  {
    out := [];
    for i := 0 to |rows|
      invariant out == Extracted(rows[..i], columns, uploadId, tenantId)
    {
      var rec := BuildRecord(rows[i], columns, uploadId, tenantId);
      ghost var cands := Candidates(rows[..i + 1], columns, uploadId, tenantId);
      assert cands[..i] == Candidates(rows[..i], columns, uploadId, tenantId);
      assert cands[i] == rec;
      if HasRiderId(rec) {
        out := out + [rec];
      }
    }
    assert rows[..|rows|] == rows;
  }

  /** Every field of a record: the mapped fields hold `null` for an empty,
      missing or out-of-row cell and the raw cell otherwise; a mapped
      `upload_id` or `tenant_id` replaces the seeded value; nothing else is
      present. */
  lemma RecordFields(row: Row, columns: ColumnIndex, uploadId: string, tenantId: string)
    ensures var rec := RecordOf(row, columns, uploadId, tenantId);
            && rec.Keys == columns.Keys + {UploadIdField, TenantIdField}
            && (forall f :: f in columns ==>
                  (rec[f] == Null <==> columns[f] >= |row| || row[columns[f]] == Empty || row[columns[f]] == Text(""))
                  && (rec[f] != Null ==> columns[f] < |row| && rec[f] == Value(row[columns[f]])))
            && (UploadIdField !in columns ==> rec[UploadIdField] == Value(Text(uploadId)))
            && (TenantIdField !in columns ==> rec[TenantIdField] == Value(Text(tenantId)))
  {
  }

  /** The filter keeps exactly the records with a rider id. */
  lemma {:induction false} KeepRidersMembers(recs: seq<Record>)
    ensures forall r :: r in KeepRiders(recs) <==> r in recs && HasRiderId(r)
    ensures |KeepRiders(recs)| <= |recs|
    decreases |recs|
  {
    if recs != [] {
      var init := recs[..|recs| - 1];
      KeepRidersMembers(init);
      assert recs == init + [recs[|recs| - 1]];
    }
  }

  /** The filter keeps order: filtering a concatenation is concatenating
      the filtered parts. */
  lemma {:induction false} KeepRidersAppend(a: seq<Record>, b: seq<Record>)
    ensures KeepRiders(a + b) == KeepRiders(a) + KeepRiders(b)
    decreases |b|
  {
    if b != [] {
      var init := b[..|b| - 1];
      assert (a + b)[..|a + b| - 1] == a + init;
      KeepRidersAppend(a, init);
    } else {
      assert a + b == a;
    }
  }

  /** With every record already carrying a rider id the filter changes
      nothing; with none it leaves nothing. */
  lemma {:induction false} KeepRidersExtremes(recs: seq<Record>)
    ensures (forall i :: 0 <= i < |recs| ==> HasRiderId(recs[i])) ==> KeepRiders(recs) == recs
    ensures (forall i :: 0 <= i < |recs| ==> !HasRiderId(recs[i])) ==> KeepRiders(recs) == []
    decreases |recs|
  {
    if recs != [] {
      var init := recs[..|recs| - 1];
      KeepRidersExtremes(init);
    }
  }

  /** Each data row is turned into a record on its own: the rows extracted
      from two runs of rows are those of the first followed by those of the
      second. */
  lemma ExtractedAppend(rows: seq<Row>, more: seq<Row>, columns: ColumnIndex, uploadId: string, tenantId: string)
    ensures Extracted(rows + more, columns, uploadId, tenantId)
         == Extracted(rows, columns, uploadId, tenantId) + Extracted(more, columns, uploadId, tenantId)
  {
    var all := Candidates(rows + more, columns, uploadId, tenantId);
    var first := Candidates(rows, columns, uploadId, tenantId);
    var second := Candidates(more, columns, uploadId, tenantId);
    assert all == first + second;
    KeepRidersAppend(first, second);
  }

  /** An unmapped `rider_platform_id` leaves no row at all. */
  lemma UnmappedRiderIdLeavesNothing(rows: seq<Row>, columns: ColumnIndex, uploadId: string, tenantId: string)
    requires RiderIdField !in columns
    ensures Extracted(rows, columns, uploadId, tenantId) == []
  {
    var cands := Candidates(rows, columns, uploadId, tenantId);
    KeepRidersExtremes(cands);
  }

  /** Every row that survives has a rider id, and a data row whose rider
      cell is empty, `''` or missing contributes nothing. */
  lemma ExtractedRowsHaveRiderIds(rows: seq<Row>, columns: ColumnIndex, uploadId: string, tenantId: string)
    ensures forall r :: r in Extracted(rows, columns, uploadId, tenantId) ==> HasRiderId(r)
    ensures |Extracted(rows, columns, uploadId, tenantId)| <= |rows|
    ensures forall i :: 0 <= i < |rows| && RiderIdField in columns && Coerce(CellAt(rows[i], columns[RiderIdField])) == Null
              ==> !HasRiderId(Candidates(rows, columns, uploadId, tenantId)[i])
  {
    KeepRidersMembers(Candidates(rows, columns, uploadId, tenantId));
  }
}
