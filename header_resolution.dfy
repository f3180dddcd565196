/** Lines 152-162 of pages/api/upload-settlement.ts: the `for...in` loop that
    fills the field-to-column dictionary from the header row. */
module HeaderResolution {
  import opened Outcomes
  import opened JsonValues
  import opened Spreadsheet

  /** Logical field name to zero-based column index (`dbColToExcelIndex`). */
  type ColumnIndex = map<string, nat>

  /** `columnMapping.columns || columnMapping` (line 154): the reserved keys
      `sheetName` and `startRow` are not removed. */
  function MappingColumns(mapping: Json): Json {
    Or(Get(mapping, "columns"), mapping)
  }

  /** `value.key || value` (line 157); `None` when `value` is `null`, where
      reading `.key` throws. */
  function Selector(value: Json): Option<Json> {
    if value.JNull? then None else Some(Or(Get(value, "key"), value))
  }

  /** `===` between a selector and a header cell: no conversion between text
      and numbers, and objects never equal a cell. */
  predicate StrictEquals(sel: Json, c: Cell) {
    match sel
    case JStr(s) => c == Text(s)
    case JNum(n) => c == Num(n)
    case JBool(b) => c == Bool(b)
    case _ => false
  }

  /** `header.indexOf(sel)`: the leftmost matching column, or -1. */
  function IndexOf(header: Row, sel: Json): (i: int)
    ensures -1 <= i < |header|
    ensures i >= 0 ==> StrictEquals(sel, header[i]) && forall j :: 0 <= j < i ==> !StrictEquals(sel, header[j])
    ensures i == -1 <==> forall j :: 0 <= j < |header| ==> !StrictEquals(sel, header[j])
  {
    if header == [] then -1
    else if StrictEquals(sel, header[0]) then 0
    else
      var k := IndexOf(header[1..], sel);
      assert forall j :: 1 <= j < |header| ==> header[j] == header[1..][j - 1];
      if k == -1 then -1 else k + 1
  }

  /** The column a mapping value resolves to in `header`, -1 for none. */
  function Position(header: Row, value: Json): int {
    match Selector(value)
    case None => -1
    case Some(sel) => IndexOf(header, sel)
  }

  /** One iteration of the loop (lines 157-161). */
  function ResolveStep(header: Option<Row>, index: ColumnIndex, entry: (string, Json)): Result<ColumnIndex, ParseError> {
    match Selector(entry.1)
    case None => Failure(MappingValueNull(entry.0))
    case Some(sel) =>
      match header
      case None => Failure(HeaderRowMissing)
      case Some(h) =>
        var i := IndexOf(h, sel);
        if i == -1 then Success(index) else Success(index[entry.0 := i])
  }

  /** The loop over `entries` in enumeration order, stopping at the first
      exception. */
  function Resolve(header: Option<Row>, entries: seq<(string, Json)>): Result<ColumnIndex, ParseError>
    decreases |entries|
  {
    if entries == [] then Success(map[])
    else
      match Resolve(header, entries[..|entries| - 1])
      case Failure(e) => Failure(e)
      case Success(index) => ResolveStep(header, index, entries[|entries| - 1])
  }

  /** The loop of lines 156-162 itself. */
  method ResolveHeader(header: Option<Row>, entries: seq<(string, Json)>) returns (r: Result<ColumnIndex, ParseError>)
    ensures r == Resolve(header, entries)
  {
    var index: ColumnIndex := map[];
    var i := 0;
    while i < |entries|
      invariant 0 <= i <= |entries|
      invariant Resolve(header, entries[..i]) == Success(index)
    {
      var (field, value) := entries[i];
      assert entries[..i + 1][..i] == entries[..i];
      var sel := Selector(value);
      if sel.None? {
        r := Failure(MappingValueNull(field));
        FailureSticks(header, entries, i + 1);
        return;
      }
      if header.None? {
        r := Failure(HeaderRowMissing);
        FailureSticks(header, entries, i + 1);
        return;
      }
      var k := IndexOf(header.value, sel.value);
      if k != -1 {
        index := index[field := k];
      }
      i := i + 1;
    }
    assert entries[..i] == entries;
    r := Success(index);
  }

  /** Once the loop has thrown, later entries do not matter. */
  lemma {:induction false} FailureSticks(header: Option<Row>, entries: seq<(string, Json)>, n: nat)
    requires n <= |entries|
    requires Resolve(header, entries[..n]).Failure?
    ensures Resolve(header, entries) == Resolve(header, entries[..n])
    decreases |entries| - n
  {
    if n < |entries| {
      assert entries[..n + 1][..n] == entries[..n];
      FailureSticks(header, entries, n + 1);
    } else {
      assert entries[..n] == entries;
    }
  }

  /** The loop throws exactly when some value is `null` or, with at least
      one entry to look up, the header row is missing. */
  lemma {:induction false} ResolveSucceedsIff(header: Option<Row>, entries: seq<(string, Json)>)
    ensures Resolve(header, entries).Success?
            <==> entries == [] || (header.Some? && forall j :: 0 <= j < |entries| ==> !entries[j].1.JNull?)
    decreases |entries|
  {
    if entries != [] {
      var init := entries[..|entries| - 1];
      ResolveSucceedsIff(header, init);
      assert forall j :: 0 <= j < |init| ==> init[j] == entries[j];
    }
  }

  /** With no header row (the sheet has no row at the start position), the
      first entry throws: a `null` value at `.key`, any other at
      `.indexOf`. The result is an error, never an empty dictionary. */
  lemma {:induction false} MissingHeaderRowFails(entries: seq<(string, Json)>)
    requires entries != []
    ensures Resolve(None, entries)
            == Failure(if entries[0].1.JNull? then MappingValueNull(entries[0].0) else HeaderRowMissing)
    decreases |entries|
  {
    if |entries| > 1 {
      MissingHeaderRowFails(entries[..|entries| - 1]);
    }
  }

  /** What the dictionary holds when the loop completes, for an object
      whose member names are distinct: a field is present exactly when its
      selector occurs in the header, with the leftmost such column, and
      every key comes from the mapping. */
  lemma {:induction false} ResolvedColumns(header: Row, entries: seq<(string, Json)>)
    requires UniqueKeys(entries)
    requires Resolve(Some(header), entries).Success?
    ensures var index := Resolve(Some(header), entries).value;
            && (forall j :: 0 <= j < |entries| ==>
                  (entries[j].0 in index <==> Position(header, entries[j].1) != -1)
                  && (entries[j].0 in index ==> index[entries[j].0] == Position(header, entries[j].1)))
            && (forall k :: k in index ==> exists j :: 0 <= j < |entries| && entries[j].0 == k)
    decreases |entries|
  {
    if entries != [] {
      var init := entries[..|entries| - 1];
      var last := entries[|entries| - 1];
      assert forall j :: 0 <= j < |init| ==> init[j] == entries[j];
      ResolvedColumns(header, init);
      var before := Resolve(Some(header), init).value;
      var index := Resolve(Some(header), entries).value;
      assert index == if Position(header, last.1) == -1 then before else before[last.0 := Position(header, last.1)];
      forall k | k in index
        ensures exists j :: 0 <= j < |entries| && entries[j].0 == k
      {
        if k != last.0 {
          var j :| 0 <= j < |init| && init[j].0 == k;
          assert entries[j].0 == k;
        }
      }
    }
  }

  /** The reserved keys are looked up like any field when there is no
      `columns` member: `startRow: 1` claims a header cell holding the
      number 1, and never a cell holding the text "1". */
  lemma ReservedKeysAreLookedUp(header: Row, members: seq<(string, Json)>, j: nat, n: int)
    requires UniqueKeys(members)
    requires Lookup(members, "columns").None?
    requires j < |members| && members[j] == ("startRow", JNum(n))
    requires Resolve(Some(header), ForInEntries(MappingColumns(JObj(members)))).Success?
    ensures var index := Resolve(Some(header), ForInEntries(MappingColumns(JObj(members)))).value;
            && ("startRow" in index <==> Num(n) in header)
            && ("startRow" in index ==> index["startRow"] < |header| && header[index["startRow"]] == Num(n))
  {
    assert MappingColumns(JObj(members)) == JObj(members);
    ResolvedColumns(header, members);
    var i := IndexOf(header, JNum(n));
    if Num(n) in header {
      var c :| 0 <= c < |header| && header[c] == Num(n);
      assert StrictEquals(JNum(n), header[c]);
    }
  }

  /** `indexOf` does not convert: a text selector finds only text cells. */
  lemma TextSelectorIgnoresNumbers(header: Row, s: string)
    requires forall c :: 0 <= c < |header| ==> header[c] != Text(s)
    ensures IndexOf(header, JStr(s)) == -1
  {
  }
}
