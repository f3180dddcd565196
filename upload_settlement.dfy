/** The settlement-spreadsheet upload handler, pages/api/upload-settlement.ts:
    the guard ladder, the storage write, the `uploads` row and its status,
    the parse, the bulk insert and the clean-up of the temporary file.

    The handler is specified by `Ingest`, which gives the reply and the
    writes that take effect, in order; `IngestionBackend.HandleUpload`
    performs those writes on the stores step by step. The outcomes of the
    calls into the database, the bucket, the file system, the clock and
    the spreadsheet library are inputs (`Environment`). */
module UploadSettlement {
  import opened Outcomes
  import opened JsonValues
  import opened Accounts
  import opened Spreadsheet
  import opened HeaderResolution
  import opened RowExtraction
  import opened StoragePaths

  /** `UploadStatus` (lib/types.ts:82). */
  datatype UploadStatus = Pending | Processing | Completed | Failed

  /** The uploaded file as `formidable` leaves it on local disk. */
  datatype TempFile = TempFile(path: string, originalFilename: Option<string>)

  /** The multipart fields the handler reads (first value of each). */
  datatype Form = Form(excelFile: Option<TempFile>, templateId: Option<string>, weekIdentifier: Option<string>)

  datatype UploadRequest = UploadRequest(
    httpMethod: string,
    session: Option<Session>,
    profile: Option<Profile>,    // None: the read returned an error or no row
    form: Option<Form>,          // None: `form.parse` threw
    columnMapping: Option<Json>) // the template's `column_mapping`; None: read error or no row

  /** What the outside world answers during one run. */
  datatype Environment = Environment(
    nowIso: string,                        // `new Date().toISOString()`
    nowMillis: nat,                        // `Date.now()`
    fileReadable: bool,                    // `fs.readFile` succeeds
    storageError: Option<string>,          // the bucket's error message
    uploadInsert: Result<string, string>,  // the new row's id, or the error message
    workbook: Option<Workbook>,            // None: `XLSX.read` throws
    settlementInsertError: Option<string>, // the batch insert's error message
    completedUpdateApplied: bool,          // the 'completed' update took effect
    failedUpdateApplied: bool,             // the 'failed' update took effect
    unlinkSucceeds: bool)                  // `fs.unlink` removes the temporary file

  /** Each way the handler answers with an error. */
  datatype UploadError =
    | MethodNotAllowed
    | NotAuthenticated
    | ProfileUnavailable
    | UploadForbidden
    | FormUnreadable
    | MissingFileOrTemplate
    | TemplateNotFound
    | FileReadFailed
    | StorageWriteFailed(message: string)
    | UploadRecordFailed(message: string)
    | ParseFailed(cause: ParseError)
    | SettlementWriteFailed(message: string)

  function StatusCode(e: UploadError): int {
    match e
    case MethodNotAllowed => 405
    case NotAuthenticated => 401
    case UploadForbidden => 403
    case MissingFileOrTemplate => 400
    case TemplateNotFound => 404
    case _ => 500
  }

  datatype UploadReply = Rejected(error: UploadError) | Processed(processedRecords: nat, uploadId: string)

  function HttpStatus(reply: UploadReply): int {
    match reply
    case Rejected(e) => StatusCode(e)
    case Processed(_, _) => 200
  }

  datatype Caller = Caller(userId: string, tenantId: string)

  /** Lines 23-65: method, session, profile, role and tenant. */
  function Authorize(req: UploadRequest): Result<Caller, UploadError> {
    if req.httpMethod != "POST" then Failure(MethodNotAllowed)
    else if req.session.None? then Failure(NotAuthenticated)
    else if req.profile.None? then Failure(ProfileUnavailable)
    else if !(req.profile.value.role in {Admin, SuperAdmin}) || !HasTenant(req.profile.value) then Failure(UploadForbidden)
    else Success(Caller(req.session.value.userId, req.profile.value.tenantId.value))
  }

  datatype Admitted = Admitted(caller: Caller, file: TempFile, templateId: string, weekIdentifier: string, mapping: Json)

  /** Lines 23-95: the whole guard ladder, up to a usable template. */
  function Admit(req: UploadRequest): Result<Admitted, UploadError> {
    match Authorize(req)
    case Failure(e) => Failure(e)
    case Success(caller) =>
      if req.form.None? then Failure(FormUnreadable)
      else
        var form := req.form.value;
        if form.excelFile.None? || form.templateId.None? || form.templateId.value == "" then Failure(MissingFileOrTemplate)
        else if req.columnMapping.None? || !Truthy(req.columnMapping.value) then Failure(TemplateNotFound)
        else
          var week := if form.weekIdentifier.Some? && form.weekIdentifier.value != "" then form.weekIdentifier.value else "unknown-week";
          Success(Admitted(caller, form.excelFile.value, form.templateId.value, week, req.columnMapping.value))
  }

  /** `tempFile` once line 78 has run; `None` when the handler returned or
      threw before it. */
  function TempFileOf(req: UploadRequest): Option<TempFile> {
    if Authorize(req).Success? && req.form.Some? then req.form.value.excelFile else None
  }

  /** A row of the `uploads` table, with the two columns the status updates
      write. */
  datatype UploadRow = UploadRow(
    tenantId: string,
    uploaderId: string,
    fileName: string,
    storagePath: string,
    weekIdentifier: string,
    status: UploadStatus,
    errorMessage: Option<UploadError>,
    processedRecords: Option<nat>)

  /** Lines 124-131; the file name defaults to 'unknown_file', unlike the
      'unknownfile' of line 102. */
  function NewUploadRow(a: Admitted, path: string): UploadRow {
    var name := a.file.originalFilename;
    UploadRow(a.caller.tenantId, a.caller.userId,
              if name.Some? && name.value != "" then name.value else "unknown_file",
              path, a.weekIdentifier, Processing, None, None)
  }

  /** Lines 141-178: from the decoded workbook to the records to insert. */
  function Parsed(mapping: Json, workbook: Option<Workbook>, uploadId: string, tenantId: string): Result<seq<Record>, ParseError> {
    if workbook.None? then Failure(UnreadableFile)
    else
      match SelectSheet(mapping, workbook.value)
      case Failure(e) => Failure(e)
      case Success(grid) =>
        match StartRow(mapping)
        case None => Failure(UnsupportedStartRow)
        case Some(start) =>
          var rows := RowsFrom(grid, start);
          match Resolve(HeaderRow(rows), ForInEntries(MappingColumns(mapping)))
          case Failure(e) => Failure(e)
          case Success(columns) =>
            var records := Extracted(DataRows(rows), columns, uploadId, tenantId);
            if records == [] then Failure(NoValidRows) else Success(records)
  }

  /** The parsing steps as the handler runs them, with the header loop and
      the extraction loop. */
  method ParseWorkbook(mapping: Json, workbook: Option<Workbook>, uploadId: string, tenantId: string)
    returns (r: Result<seq<Record>, ParseError>)
    ensures r == Parsed(mapping, workbook, uploadId, tenantId)
  {
    if workbook.None? {
      return Failure(UnreadableFile);
    }
    var sheet := SelectSheet(mapping, workbook.value);
    if sheet.Failure? {
      return Failure(sheet.error);
    }
    var start := StartRow(mapping);
    if start.None? {
      return Failure(UnsupportedStartRow);
    }
    var rows := RowsFrom(sheet.value, start.value);
    var columns := ResolveHeader(HeaderRow(rows), ForInEntries(MappingColumns(mapping)));
    if columns.Failure? {
      return Failure(columns.error);
    }
    var records := ExtractRecords(DataRows(rows), columns.value, uploadId, tenantId);
    if records == [] {
      return Failure(NoValidRows);
    }
    return Success(records);
  }

  /** A write that takes effect during a run. */
  datatype Effect =
    | FileStored(path: string)
    | UploadInserted(id: string, row: UploadRow)
    | SettlementsInserted(records: seq<Record>)
    | MarkedCompleted(id: string, count: nat)
    | MarkedFailed(id: string, error: UploadError)
    | TempFileRemoved(path: string)

  datatype Ingestion = Ingestion(reply: UploadReply, effects: seq<Effect>)

  /** The `finally` block (lines 218-227). */
  function Cleanup(req: UploadRequest, env: Environment): seq<Effect> {
    match TempFileOf(req)
    case Some(f) => if env.unlinkSucceeds then [TempFileRemoved(f.path)] else []
    case None => []
  }

  /** The parse and the bulk insert (lines 141-186): the records written,
      or the error thrown. */
  function Outcome(a: Admitted, env: Environment, id: string): Result<seq<Record>, UploadError> {
    match Parsed(a.mapping, env.workbook, id, a.caller.tenantId)
    case Failure(pe) => Failure(ParseFailed(pe))
    case Success(records) =>
      if env.settlementInsertError.Some? then Failure(SettlementWriteFailed(env.settlementInsertError.value))
      else Success(records)
  }

  /** Lines 133-217 once the `uploads` row exists: parse, insert, mark the
      row completed, or mark it failed in the `catch` block. */
  function Settle(a: Admitted, env: Environment, id: string, path: string): Ingestion {
    Concluded(id, NewUploadRow(a, path), Outcome(a, env, id), env)
  }

  /** The writes and the reply once the outcome of the parse and the insert
      is known. */
  function Concluded(id: string, row: UploadRow, outcome: Result<seq<Record>, UploadError>, env: Environment): Ingestion {
    var created := [UploadInserted(id, row)];
    match outcome
    case Success(records) =>
      Ingestion(Processed(|records|, id),
                created + [SettlementsInserted(records)]
                + (if env.completedUpdateApplied then [MarkedCompleted(id, |records|)] else []))
    case Failure(e) =>
      Ingestion(Rejected(e), created + (if id != "" && env.failedUpdateApplied then [MarkedFailed(id, e)] else []))
  }

  /** Lines 23-218: everything before the `finally` block. */
  function Attempt(req: UploadRequest, env: Environment): Ingestion {
    match Admit(req)
    case Failure(e) => Ingestion(Rejected(e), [])
    case Success(a) =>
      if !env.fileReadable then Ingestion(Rejected(FileReadFailed), [])
      else
        var path := StoragePath(a.caller.tenantId, env.nowIso, env.nowMillis, a.file.originalFilename);
        if env.storageError.Some? then Ingestion(Rejected(StorageWriteFailed(env.storageError.value)), [])
        else
          match env.uploadInsert
          case Failure(msg) => Ingestion(Rejected(UploadRecordFailed(msg)), [FileStored(path)])
          case Success(id) =>
            var settled := Settle(a, env, id, path);
            Ingestion(settled.reply, [FileStored(path)] + settled.effects)
  }

  /** One run of the handler: its reply and its writes, in order. */
  function Ingest(req: UploadRequest, env: Environment): Ingestion {
    var attempt := Attempt(req, env);
    Ingestion(attempt.reply, attempt.effects + Cleanup(req, env))
  }

  /** The stores the handler writes to. */
  datatype Tables = Tables(
    storedFiles: set<string>,         // paths in the 'settlement-files' bucket
    uploads: map<string, UploadRow>,  // the `uploads` table by id
    settlements: seq<Record>,         // rows of `official_settlements`
    tempFiles: set<string>)           // temporary files on local disk

  /** An `update ... .eq('id', id)` changes the row with that id, if any. */
  function Apply(t: Tables, e: Effect): Tables {
    match e
    case FileStored(p) => t.(storedFiles := t.storedFiles + {p})
    case UploadInserted(id, row) => t.(uploads := t.uploads[id := row])
    case SettlementsInserted(records) => t.(settlements := t.settlements + records)
    case MarkedCompleted(id, n) =>
      if id in t.uploads then t.(uploads := t.uploads[id := t.uploads[id].(status := Completed, processedRecords := Some(n))]) else t
    case MarkedFailed(id, err) =>
      if id in t.uploads then t.(uploads := t.uploads[id := t.uploads[id].(status := Failed, errorMessage := Some(err))]) else t
    case TempFileRemoved(p) => t.(tempFiles := t.tempFiles - {p})
  }

  function ApplyAll(t: Tables, effects: seq<Effect>): Tables
    decreases |effects|
  {
    if effects == [] then t else Apply(ApplyAll(t, effects[..|effects| - 1]), effects[|effects| - 1])
  }

  lemma ApplyAllSnoc(t: Tables, effects: seq<Effect>, e: Effect)
    ensures ApplyAll(t, effects + [e]) == Apply(ApplyAll(t, effects), e)
  {
    assert (effects + [e])[..|effects|] == effects;
  }

  lemma ApplyAllSingle(t: Tables, e: Effect)
    ensures ApplyAll(t, [e]) == Apply(t, e)
  {
    ApplyAllSnoc(t, [], e);
    assert [] + [e] == [e];
  }

  lemma {:induction false} ApplyAllAppend(t: Tables, first: seq<Effect>, second: seq<Effect>)
    ensures ApplyAll(t, first + second) == ApplyAll(ApplyAll(t, first), second)
    decreases |second|
  {
    if second == [] {
      assert first + second == first;
    } else {
      var init := second[..|second| - 1];
      var last := second[|second| - 1];
      assert second == init + [last];
      assert first + second == (first + init) + [last];
      ApplyAllSnoc(t, first + init, last);
      ApplyAllAppend(t, first, init);
      ApplyAllSnoc(ApplyAll(t, first), init, last);
    }
  }

  class IngestionBackend {
    var storedFiles: set<string>
    var uploads: map<string, UploadRow>
    var settlements: seq<Record>
    var tempFiles: set<string>

    function State(): Tables
      reads this
    {
      Tables(storedFiles, uploads, settlements, tempFiles)
    }

    constructor (tempFiles: set<string>)
      ensures State() == Tables({}, map[], [], tempFiles)
    {
      this.storedFiles := {};
      this.uploads := map[];
      this.settlements := [];
      this.tempFiles := tempFiles;
    }

    /** `handler` itself. */
    method HandleUpload(req: UploadRequest, env: Environment) returns (reply: UploadReply)
      modifies this
      ensures reply == Ingest(req, env).reply
      ensures State() == ApplyAll(old(State()), Ingest(req, env).effects)
    {
      var tempFile := TempFileOf(req);
      reply := Attempting(req, env);
      ghost var tried := State();
      if tempFile.Some? && env.unlinkSucceeds {
        tempFiles := tempFiles - {tempFile.value.path};
      }
      assert State() == ApplyAll(tried, Cleanup(req, env));
      ApplyAllAppend(old(State()), Attempt(req, env).effects, Cleanup(req, env));
    }

    /** The `try` and `catch` blocks. */
    method Attempting(req: UploadRequest, env: Environment) returns (reply: UploadReply)
      modifies this
      ensures reply == Attempt(req, env).reply
      ensures State() == ApplyAll(old(State()), Attempt(req, env).effects)
    {
      var admitted := Admit(req);
      if admitted.Failure? {
        return Rejected(admitted.error);
      }
      var a := admitted.value;
      if !env.fileReadable {
        return Rejected(FileReadFailed);
      }
      var path := StoragePath(a.caller.tenantId, env.nowIso, env.nowMillis, a.file.originalFilename);
      if env.storageError.Some? {
        return Rejected(StorageWriteFailed(env.storageError.value));
      }
      storedFiles := storedFiles + {path};
      assert State() == ApplyAll(old(State()), [FileStored(path)]);
      if env.uploadInsert.Failure? {
        return Rejected(UploadRecordFailed(env.uploadInsert.error));
      }
      reply := Settling(a, env, env.uploadInsert.value, path);
      ApplyAllAppend(old(State()), [FileStored(path)], Settle(a, env, env.uploadInsert.value, path).effects);
    }

    /** From the insert of the `uploads` row to the status update that ends
        its processing. */
    method Settling(a: Admitted, env: Environment, id: string, path: string) returns (reply: UploadReply)
      modifies this
      ensures reply == Settle(a, env, id, path).reply
      ensures State() == ApplyAll(old(State()), Settle(a, env, id, path).effects)
    {
      ghost var before := State();
      var row := NewUploadRow(a, path);
      uploads := uploads[id := row];
      var outcome := Processing(a, env, id);
      reply := Concluding(id, row, outcome, env, before);
    }

    /** Lines 188-216 once the parse and the insert have run: the reply and
        the status update, from the stores as the row insert and a
        successful bulk insert left them. */
    method Concluding(id: string, row: UploadRow, outcome: Result<seq<Record>, UploadError>, env: Environment,
                      ghost before: Tables) returns (reply: UploadReply)
      requires State() == before.(uploads := before.uploads[id := row],
                                  settlements := before.settlements + if outcome.Success? then outcome.value else [])
      modifies this
      ensures reply == Concluded(id, row, outcome, env).reply
      ensures State() == ApplyAll(before, Concluded(id, row, outcome, env).effects)
    {
      ghost var processed := State();
      ghost var settled := SettledRow(row, outcome, id, env);
      if outcome.Success? {
        reply := Complete(id, outcome.value, env.completedUpdateApplied);
        if env.completedUpdateApplied {
          ApplyAllSingle(processed, MarkedCompleted(id, |outcome.value|));
        }
        assert State() == before.(uploads := before.uploads[id := settled], settlements := before.settlements + outcome.value);
      } else {
        reply := Fail(id, outcome.error, env.failedUpdateApplied);
        if id != "" && env.failedUpdateApplied {
          ApplyAllSingle(processed, MarkedFailed(id, outcome.error));
        }
        assert State() == before.(uploads := before.uploads[id := settled]);
      }
      ConcludedTables(before, id, row, outcome, env);
    }

    /** The parse and the bulk insert; nothing is written when either fails. */
    method Processing(a: Admitted, env: Environment, id: string) returns (outcome: Result<seq<Record>, UploadError>)
      modifies this
      ensures outcome == Outcome(a, env, id)
      ensures outcome.Success? ==> State() == old(State()).(settlements := old(settlements) + outcome.value)
      ensures outcome.Failure? ==> State() == old(State())
    {
      var parsed := ParseWorkbook(a.mapping, env.workbook, id, a.caller.tenantId);
      if parsed.Failure? {
        return Failure(ParseFailed(parsed.error));
      }
      if env.settlementInsertError.Some? {
        return Failure(SettlementWriteFailed(env.settlementInsertError.value));
      }
      settlements := settlements + parsed.value;
      return Success(parsed.value);
    }

    /** Lines 188-200: the 'completed' update, whose error the handler does
        not check, and the reply. */
    method Complete(id: string, records: seq<Record>, applied: bool) returns (reply: UploadReply)
      modifies this
      ensures reply == Processed(|records|, id)
      ensures State() == ApplyAll(old(State()), if applied then [MarkedCompleted(id, |records|)] else [])
    {
      if applied && id in uploads {
        uploads := uploads[id := uploads[id].(status := Completed, processedRecords := Some(|records|))];
      }
      reply := Processed(|records|, id);
    }

    /** Lines 202-216: the `catch` block marks the row failed when its id is
        known. */
    method Fail(id: string, error: UploadError, applied: bool) returns (reply: UploadReply)
      modifies this
      ensures reply == Rejected(error)
      ensures State() == ApplyAll(old(State()), if id != "" && applied then [MarkedFailed(id, error)] else [])
    {
      if id != "" && applied && id in uploads {
        uploads := uploads[id := uploads[id].(status := Failed, errorMessage := Some(error))];
      }
      reply := Rejected(error);
    }
  }

  /** The original file reached the bucket (line 113 returned no error). */
  predicate FileUploaded(req: UploadRequest, env: Environment) {
    Admit(req).Success? && env.fileReadable && env.storageError.None?
  }

  /** The `uploads` row was created (line 134 returned a row). */
  predicate RowCreated(req: UploadRequest, env: Environment) {
    FileUploaded(req, env) && env.uploadInsert.Success?
  }

  function PathOf(req: UploadRequest, env: Environment): string
    requires Admit(req).Success?
  {
    var a := Admit(req).value;
    StoragePath(a.caller.tenantId, env.nowIso, env.nowMillis, a.file.originalFilename)
  }

  /** The temporary files the `finally` block removes. */
  function Removed(req: UploadRequest, env: Environment): set<string> {
    if TempFileOf(req).Some? && env.unlinkSucceeds then {TempFileOf(req).value.path} else {}
  }

  /** The settlement rows a run inserts. */
  function Written(req: UploadRequest, env: Environment): seq<Record> {
    if RowCreated(req, env) then
      var outcome := Outcome(Admit(req).value, env, env.uploadInsert.value);
      if outcome.Success? then outcome.value else []
    else []
  }

  /** The `uploads` row at the end of the run, from the row inserted and the
      status update that took effect. */
  function SettledRow(row: UploadRow, outcome: Result<seq<Record>, UploadError>, id: string, env: Environment): UploadRow {
    match outcome
    case Success(records) =>
      if env.completedUpdateApplied then row.(status := Completed, processedRecords := Some(|records|)) else row
    case Failure(e) =>
      if id != "" && env.failedUpdateApplied then row.(status := Failed, errorMessage := Some(e)) else row
  }

  lemma CleanupTables(t: Tables, req: UploadRequest, env: Environment)
    ensures ApplyAll(t, Cleanup(req, env)) == t.(tempFiles := t.tempFiles - Removed(req, env))
  {
    var f := TempFileOf(req);
    assert Cleanup(req, env) == if f.Some? && env.unlinkSucceeds then [TempFileRemoved(f.value.path)] else [];
    RemovalTables(t, f, env.unlinkSucceeds);
  }

  lemma RemovalTables(t: Tables, f: Option<TempFile>, unlinked: bool)
    ensures ApplyAll(t, if f.Some? && unlinked then [TempFileRemoved(f.value.path)] else [])
         == t.(tempFiles := t.tempFiles - if f.Some? && unlinked then {f.value.path} else {})
  {
    if f.Some? && unlinked {
      ApplyAllSnoc(t, [], TempFileRemoved(f.value.path));
    }
  }

  lemma CompletedTables(t: Tables, id: string, row: UploadRow, records: seq<Record>, applied: bool)
    ensures ApplyAll(t, [UploadInserted(id, row), SettlementsInserted(records)]
                        + (if applied then [MarkedCompleted(id, |records|)] else []))
         == t.(uploads := t.uploads[id := if applied then row.(status := Completed, processedRecords := Some(|records|)) else row],
               settlements := t.settlements + records)
  {
    ApplyAllSnoc(t, [], UploadInserted(id, row));
    ApplyAllSnoc(t, [UploadInserted(id, row)], SettlementsInserted(records));
    if applied {
      ApplyAllSnoc(t, [UploadInserted(id, row), SettlementsInserted(records)], MarkedCompleted(id, |records|));
    } else {
      assert [UploadInserted(id, row), SettlementsInserted(records)] + [] == [UploadInserted(id, row)] + [SettlementsInserted(records)];
    }
  }

  lemma FailedTables(t: Tables, id: string, row: UploadRow, e: UploadError, applied: bool)
    ensures ApplyAll(t, [UploadInserted(id, row)] + (if applied then [MarkedFailed(id, e)] else []))
         == t.(uploads := t.uploads[id := if applied then row.(status := Failed, errorMessage := Some(e)) else row])
  {
    ApplyAllSnoc(t, [], UploadInserted(id, row));
    if applied {
      ApplyAllSnoc(t, [UploadInserted(id, row)], MarkedFailed(id, e));
    } else {
      assert [UploadInserted(id, row)] + [] == [] + [UploadInserted(id, row)];
    }
  }

  lemma ConcludedTables(t: Tables, id: string, row: UploadRow, outcome: Result<seq<Record>, UploadError>, env: Environment)
    ensures ApplyAll(t, Concluded(id, row, outcome, env).effects)
        == t.(uploads := t.uploads[id := SettledRow(row, outcome, id, env)],
              settlements := t.settlements + (if outcome.Success? then outcome.value else []))
  {
    if outcome.Success? {
      assert [UploadInserted(id, row)] + [SettlementsInserted(outcome.value)] == [UploadInserted(id, row), SettlementsInserted(outcome.value)];
      CompletedTables(t, id, row, outcome.value, env.completedUpdateApplied);
    } else {
      FailedTables(t, id, row, outcome.error, id != "" && env.failedUpdateApplied);
    }
  }

  /** What one run leaves in every store: the original file stays in the
      bucket even when a later step fails; only the run's own `uploads` row
      changes, and it ends 'completed' only on a 200 whose completion update
      took effect, 'failed' only on an error once the row exists, and
      otherwise stays 'processing'; settlement rows are appended only on a
      200, exactly as many as the reply reports; the temporary file goes
      whenever the handler got hold of it and unlinking works. */
  lemma {:induction false} TablesAfterRun(t: Tables, req: UploadRequest, env: Environment)
    ensures var ing := Ingest(req, env);
      var after := ApplyAll(t, ing.effects);
      && after.storedFiles == t.storedFiles + (if FileUploaded(req, env) then {PathOf(req, env)} else {})
      && after.tempFiles == t.tempFiles - Removed(req, env)
      && after.settlements == t.settlements + Written(req, env)
      && |Written(req, env)| == (if ing.reply.Processed? then ing.reply.processedRecords else 0)
      && (!RowCreated(req, env) ==> after.uploads == t.uploads && ing.reply.Rejected?)
      && (RowCreated(req, env) ==>
            var id := env.uploadInsert.value;
            && id in after.uploads
            && (forall k :: k != id ==> (k in after.uploads <==> k in t.uploads))
            && (forall k :: k in t.uploads && k != id ==> after.uploads[k] == t.uploads[k])
            && after.uploads[id].status ==
                 (if ing.reply.Processed? then (if env.completedUpdateApplied then Completed else Processing)
                  else if id != "" && env.failedUpdateApplied then Failed else Processing)
            && after.uploads[id].processedRecords ==
                 (if ing.reply.Processed? && env.completedUpdateApplied then Some(ing.reply.processedRecords) else None)
            && after.uploads[id].errorMessage ==
                 (if ing.reply.Rejected? && id != "" && env.failedUpdateApplied then Some(ing.reply.error) else None)
            && after.uploads[id].fileName == NewUploadRow(Admit(req).value, PathOf(req, env)).fileName)
  {
    var attempt := Attempt(req, env);
    ApplyAllAppend(t, attempt.effects, Cleanup(req, env));
    AttemptTables(t, req, env);
    CleanupTables(ApplyAll(t, attempt.effects), req, env);
    if RowCreated(req, env) {
      var a := Admit(req).value;
      var id := env.uploadInsert.value;
      assert attempt.reply == Concluded(id, NewUploadRow(a, PathOf(req, env)), Outcome(a, env, id), env).reply;
    }
  }

  /** The stores after the writes before the `finally` block. */
  lemma AttemptTables(t: Tables, req: UploadRequest, env: Environment)
    ensures ApplyAll(t, Attempt(req, env).effects)
         == if !FileUploaded(req, env) then t
            else
              var stored := t.(storedFiles := t.storedFiles + {PathOf(req, env)});
              if !RowCreated(req, env) then stored
              else
                var a := Admit(req).value;
                var id := env.uploadInsert.value;
                var outcome := Outcome(a, env, id);
                stored.(uploads := stored.uploads[id := SettledRow(NewUploadRow(a, PathOf(req, env)), outcome, id, env)],
                        settlements := stored.settlements + Written(req, env))
  {
    if FileUploaded(req, env) {
      var a := Admit(req).value;
      var path := PathOf(req, env);
      ApplyAllSnoc(t, [], FileStored(path));
      if env.uploadInsert.Success? {
        var id := env.uploadInsert.value;
        ApplyAllAppend(t, [FileStored(path)], Settle(a, env, id, path).effects);
        ConcludedTables(ApplyAll(t, [FileStored(path)]), id, NewUploadRow(a, path), Outcome(a, env, id), env);
      }
    }
  }

  /** A request gets past the guards exactly when it is a POST from a signed-in
      admin or super admin whose profile names a tenant, with a file, a
      non-empty template id and a template whose mapping is truthy. */
  lemma AdmissionLadder(req: UploadRequest)
    ensures Admit(req).Success? <==>
      && req.httpMethod == "POST"
      && req.session.Some?
      && req.profile.Some? && req.profile.value.role != Rider && HasTenant(req.profile.value)
      && req.form.Some? && req.form.value.excelFile.Some?
      && req.form.value.templateId.Some? && req.form.value.templateId.value != ""
      && req.columnMapping.Some? && Truthy(req.columnMapping.value)
    ensures Admit(req).Success? ==>
      Admit(req).value.caller == Caller(req.session.value.userId, req.profile.value.tenantId.value)
  {
  }

  /** The status of each refusal, in the order of the guards: 405, then
      401, then 500 for an unreadable profile, then 403, then 500 when the
      form cannot be parsed, then 400, then 404; every failure once the
      guards are passed is a 500 from the `catch` block. */
  lemma GuardStatuses(req: UploadRequest, env: Environment)
    ensures var status := HttpStatus(Ingest(req, env).reply);
      && (req.httpMethod != "POST" ==> status == 405)
      && (req.httpMethod == "POST" && req.session.None? ==> status == 401)
      && (req.httpMethod == "POST" && req.session.Some? && req.profile.None? ==> status == 500)
      && (Authorize(req).Success? && req.form.None? ==> status == 500)
      && (Authorize(req).Success? && req.form.Some?
          && (req.form.value.excelFile.None? || req.form.value.templateId.None? || req.form.value.templateId.value == "")
          ==> status == 400)
      && (Authorize(req).Success? && req.form.Some?
          && req.form.value.excelFile.Some? && req.form.value.templateId.Some? && req.form.value.templateId.value != ""
          && (req.columnMapping.None? || !Truthy(req.columnMapping.value))
          ==> status == 404)
      && (Admit(req).Success? ==> status == 200 || status == 500)
      && (status == 200 <==> Ingest(req, env).reply.Processed?)
  {
    if Admit(req).Failure? {
      RefusalsWriteNothing(req, env);
    } else {
      AdmittedFailuresAre500(req, env);
    }
  }

  /** Past the guards, every error is thrown inside the `try` block and
      answered with 500. */
  lemma AdmittedFailuresAre500(req: UploadRequest, env: Environment)
    requires Admit(req).Success?
    ensures Ingest(req, env).reply.Rejected? ==> StatusCode(Ingest(req, env).reply.error) == 500
  {
    if RowCreated(req, env) {
      var a := Admit(req).value;
      var id := env.uploadInsert.value;
      ConcludedErrors(id, NewUploadRow(a, PathOf(req, env)), Outcome(a, env, id), env);
    }
  }

  lemma ConcludedErrors(id: string, row: UploadRow, outcome: Result<seq<Record>, UploadError>, env: Environment)
    requires outcome.Failure? ==> outcome.error.ParseFailed? || outcome.error.SettlementWriteFailed?
    ensures Concluded(id, row, outcome, env).reply.Rejected? ==> StatusCode(Concluded(id, row, outcome, env).reply.error) == 500
  {
  }

  /** A 403 is the answer exactly for a signed-in POST whose profile is a
      rider's or names no tenant. */
  lemma ForbiddenIff(req: UploadRequest, env: Environment)
    ensures HttpStatus(Ingest(req, env).reply) == 403 <==>
      req.httpMethod == "POST" && req.session.Some? && req.profile.Some?
      && (req.profile.value.role == Rider || !HasTenant(req.profile.value))
  {
    var ing := Ingest(req, env);
    if ing.reply.Processed? {
      assert HttpStatus(ing.reply) == 200;
    }
  }

  /** A refused request writes nothing; only the temporary file is removed,
      and only when the refusal came from inside the `try` block. */
  lemma RefusalsWriteNothing(req: UploadRequest, env: Environment)
    requires Admit(req).Failure?
    ensures Ingest(req, env).reply == Rejected(Admit(req).error)
    ensures forall e :: e in Ingest(req, env).effects ==> e.TempFileRemoved?
    ensures Authorize(req).Failure? ==> Ingest(req, env).effects == []
  {
  }

  /** The temporary file is removed on every exit after line 78, success or
      failure, as the run's last write, and never before the handler saw it. */
  lemma TemporaryFileRemoval(req: UploadRequest, env: Environment, p: string)
    ensures TempFileRemoved(p) in Ingest(req, env).effects <==>
      Authorize(req).Success? && req.form.Some? && req.form.value.excelFile.Some?
      && req.form.value.excelFile.value.path == p && env.unlinkSucceeds
    ensures var effects := Ingest(req, env).effects;
      forall i :: 0 <= i < |effects| - 1 ==> !effects[i].TempFileRemoved?
  {
    var attempt := Attempt(req, env).effects;
    AttemptKeepsTempFile(req, env);
    assert Ingest(req, env).effects == attempt + Cleanup(req, env);
  }

  /** The writes before the `finally` block never touch the temporary file. */
  lemma AttemptKeepsTempFile(req: UploadRequest, env: Environment)
    ensures forall e :: e in Attempt(req, env).effects ==> !e.TempFileRemoved?
  {
    if Admit(req).Success? && env.fileReadable && env.storageError.None? && env.uploadInsert.Success? {
      var a := Admit(req).value;
      var id := env.uploadInsert.value;
      var path := StoragePath(a.caller.tenantId, env.nowIso, env.nowMillis, a.file.originalFilename);
      ConcludedKeepsTempFile(id, NewUploadRow(a, path), Outcome(a, env, id), env);
    }
  }

  lemma ConcludedKeepsTempFile(id: string, row: UploadRow, outcome: Result<seq<Record>, UploadError>, env: Environment)
    ensures forall e :: e in Concluded(id, row, outcome, env).effects ==> !e.TempFileRemoved?
  {
  }

  /** The records a parse yields are never empty and every one names a
      rider. */
  lemma ParsedRecordsNameRiders(mapping: Json, workbook: Option<Workbook>, uploadId: string, tenantId: string)
    requires Parsed(mapping, workbook, uploadId, tenantId).Success?
    ensures var records := Parsed(mapping, workbook, uploadId, tenantId).value;
      records != [] && forall r :: r in records ==> HasRiderId(r)
  {
    var grid := SelectSheet(mapping, workbook.value).value;
    var rows := RowsFrom(grid, StartRow(mapping).value);
    var columns := Resolve(HeaderRow(rows), ForInEntries(MappingColumns(mapping))).value;
    ExtractedRowsHaveRiderIds(DataRows(rows), columns, uploadId, tenantId);
  }

  /** A 200 reports the id of the row the run created and a positive count,
      and every settlement row inserted names a rider. */
  lemma ProcessedReply(req: UploadRequest, env: Environment)
    ensures var reply := Ingest(req, env).reply;
      reply.Processed? ==>
        RowCreated(req, env) && reply.uploadId == env.uploadInsert.value && reply.processedRecords > 0
    ensures forall r :: r in Written(req, env) ==> HasRiderId(r)
  {
    if RowCreated(req, env) {
      var a := Admit(req).value;
      var id := env.uploadInsert.value;
      if Parsed(a.mapping, env.workbook, id, a.caller.tenantId).Success? {
        ParsedRecordsNameRiders(a.mapping, env.workbook, id, a.caller.tenantId);
      }
    }
  }

  /** A start row past the last row of the sheet leaves no header row: the
      first mapping entry then throws at line 158 (or at line 157 for a null
      entry), and only a mapping with no entries reaches the empty-data
      error of line 177. */
  lemma StartRowPastTheEnd(mapping: Json, wb: Workbook, uploadId: string, tenantId: string)
    requires SelectSheet(mapping, wb).Success?
    requires StartRow(mapping).Some?
    requires |SelectSheet(mapping, wb).value| < StartRow(mapping).value
    ensures var entries := ForInEntries(MappingColumns(mapping));
      Parsed(mapping, Some(wb), uploadId, tenantId)
        == Failure(if entries == [] then NoValidRows
                   else if entries[0].1.JNull? then MappingValueNull(entries[0].0)
                   else HeaderRowMissing)
  {
    var entries := ForInEntries(MappingColumns(mapping));
    var rows := RowsFrom(SelectSheet(mapping, wb).value, StartRow(mapping).value);
    assert rows == [];
    if entries != [] {
      MissingHeaderRowFails(entries);
    }
  }

  /** The `uploads` row of an unnamed file records 'unknown_file', while its
      stored copy is named with the ".xlsx" that the other default,
      'unknownfile', leads to. */
  lemma UnnamedFileDefaults(req: UploadRequest, env: Environment)
    requires Admit(req).Success?
    requires Admit(req).value.file.originalFilename in {None, Some("")}
    ensures NewUploadRow(Admit(req).value, PathOf(req, env)).fileName == "unknown_file"
    ensures Extension(PathOf(req, env)) == ".xlsx"
  {
    var a := Admit(req).value;
    StoragePathKeepsExtension(a.caller.tenantId, env.nowIso, env.nowMillis, a.file.originalFilename);
    assert LastIndexOf("unknownfile", '.') == -1;
  }

  function ExampleMapping(): Json {
    JObj([(RiderIdField, JStr("A")), ("settlement_amount", JStr("B")), ("startRow", JNum(1))])
  }

  function ExampleGrid(): Grid {
    [[Text("A"), Text("B")], [Text("R1"), Text("1000")], [Text(""), Text("")], [Text("R2"), Text("")]]
  }

  lemma ExampleMappingReads()
    ensures SelectSheet(ExampleMapping(), [Sheet("Sheet1", ExampleGrid())]) == Success(ExampleGrid())
    ensures StartRow(ExampleMapping()) == Some(1)
    ensures ForInEntries(MappingColumns(ExampleMapping())) == ExampleMapping().members
  {
    var members := ExampleMapping().members;
    assert members[1..] == [("settlement_amount", JStr("B")), ("startRow", JNum(1))];
    assert members[1..][1..] == [("startRow", JNum(1))];
    assert RiderIdField != "startRow" && "settlement_amount" != "startRow";
    assert Lookup(members, "startRow") == Lookup(members[1..], "startRow") == Lookup(members[1..][1..], "startRow");
    assert Lookup(members, "columns").None?;
    assert Lookup(members, "sheetName").None?;
  }

  /** The header resolves the two fields to columns 0 and 1; `startRow`'s
      selector, the number 1, equals no text cell. */
  lemma ExampleColumns()
    ensures Resolve(Some(ExampleGrid()[0]), ExampleMapping().members)
         == Success(map[RiderIdField := 0, "settlement_amount" := 1])
  {
    var members := ExampleMapping().members;
    var header := ExampleGrid()[0];
    assert Selector(JStr("A")) == Some(JStr("A"));
    assert Selector(JStr("B")) == Some(JStr("B"));
    assert Selector(JNum(1)) == Some(JNum(1));
    assert IndexOf(header, JStr("A")) == 0;
    assert IndexOf(header, JStr("B")) == 1;
    assert IndexOf(header, JNum(1)) == -1;
    assert members[..1][..0] == [];
    assert Resolve(Some(header), members[..1]) == Success(map[RiderIdField := 0]);
    assert members[..2][..1] == members[..1];
    assert Resolve(Some(header), members[..2]) == Success(map[RiderIdField := 0, "settlement_amount" := 1]);
    assert members[..2] == members[..|members| - 1];
  }

  lemma TwoColumnRecord(row: Row, uploadId: string, tenantId: string)
    requires |row| == 2
    ensures RecordOf(row, map[RiderIdField := 0, "settlement_amount" := 1], uploadId, tenantId)
         == Seed(uploadId, tenantId)[RiderIdField := Coerce(row[0])]["settlement_amount" := Coerce(row[1])]
  {
    var columns := map[RiderIdField := 0, "settlement_amount" := 1];
    var mapped := map f | f in columns :: Coerce(CellAt(row, columns[f]));
    assert mapped == map[RiderIdField := Coerce(row[0]), "settlement_amount" := Coerce(row[1])];
  }

  lemma ExampleRecords(uploadId: string, tenantId: string)
    ensures Extracted(ExampleGrid()[1..], map[RiderIdField := 0, "settlement_amount" := 1], uploadId, tenantId)
         == [Seed(uploadId, tenantId)[RiderIdField := Value(Text("R1"))]["settlement_amount" := Value(Text("1000"))],
             Seed(uploadId, tenantId)[RiderIdField := Value(Text("R2"))]["settlement_amount" := Null]]
  {
    var columns := map[RiderIdField := 0, "settlement_amount" := 1];
    var data := ExampleGrid()[1..];
    var r1 := Seed(uploadId, tenantId)[RiderIdField := Value(Text("R1"))]["settlement_amount" := Value(Text("1000"))];
    var blank := Seed(uploadId, tenantId)[RiderIdField := Null]["settlement_amount" := Null];
    var r2 := Seed(uploadId, tenantId)[RiderIdField := Value(Text("R2"))]["settlement_amount" := Null];
    TwoColumnRecord(data[0], uploadId, tenantId);
    TwoColumnRecord(data[1], uploadId, tenantId);
    TwoColumnRecord(data[2], uploadId, tenantId);
    assert Candidates(data, columns, uploadId, tenantId) == [r1, blank, r2];
    assert HasRiderId(r1) && !HasRiderId(blank) && HasRiderId(r2);
    KeepRidersOfThree(r1, blank, r2);
  }

  lemma KeepRidersOfThree(a: Record, b: Record, c: Record)
    requires HasRiderId(a) && !HasRiderId(b) && HasRiderId(c)
    ensures KeepRiders([a, b, c]) == [a, c]
  {
    assert [a, b, c][..2] == [a, b];
    assert [a, b][..1] == [a];
    assert [a][..0] == [];
    assert KeepRiders([a]) == [a];
    assert KeepRiders([a, b]) == [a];
  }

  /** A worked example: a mapping of two fields plus `startRow: 1` over a
      sheet with a header row, a data row, a blank row and a row with an
      empty amount. `startRow` is tried as a selector as well and matches no
      header cell; the blank row is dropped and the empty amount becomes
      null. */
  lemma WorkedExample(uploadId: string, tenantId: string)
    ensures Parsed(ExampleMapping(), Some([Sheet("Sheet1", ExampleGrid())]), uploadId, tenantId)
        == Success([Seed(uploadId, tenantId)[RiderIdField := Value(Text("R1"))]["settlement_amount" := Value(Text("1000"))],
                    Seed(uploadId, tenantId)[RiderIdField := Value(Text("R2"))]["settlement_amount" := Null]])
  {
    ExampleMappingReads();
    ExampleColumns();
    ExampleRecords(uploadId, tenantId);
    assert RowsFrom(ExampleGrid(), 1) == ExampleGrid();
  }
}
