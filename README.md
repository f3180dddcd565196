# Delivery settlement ingestion and fee editing, in Dafny

This project models the core of a multi-tenant rider-settlement web application.

- **Spreadsheet upload.** An administrator uploads a weekly settlement spreadsheet (`pages/api/upload-settlement.ts`). A per-tenant parsing template (`column_mapping`) says which header text holds which settlement field. The handler then:
  - stores the original file in a bucket;
  - records an `uploads` row in status `processing`;
  - resolves the header row and turns every data row into a candidate `official_settlements` row;
  - keeps the rows that carry a `rider_platform_id`;
  - inserts them in one batch;
  - marks the upload `completed`, or `failed` on any error after the row exists;
  - always removes the temporary file.
- **Fee update.** The fee-update endpoint (`pages/api/update-fees.ts`) lets an `ADMIN` upsert `lease_fee` and `mission_fee` by settlement id.
- **Payroll page.** The payroll page (`pages/admin/payroll.tsx`) edits those fees per row and builds the payload it posts to that endpoint.

Modules, one per file:

| module | what it holds |
|---|---|
| `Outcomes` | `Option` and `Result` |
| `NumberText` | decimal text, and JavaScript's `parseInt(s, 10) \|\| 0` |
| `JsonValues` | template JSON; JavaScript truthiness, `\|\|`, property reads, `for...in`, `String(v)` |
| `Accounts` | roles, sessions, profiles |
| `Spreadsheet` | cells, grids, sheet choice, the `startRow` window, parse errors |
| `HeaderResolution` | the header-resolution loop and strict `indexOf` |
| `RowExtraction` | record building and the rider-id filter |
| `StoragePaths` | the bucket path |
| `UploadSettlement` | the upload handler |
| `FeeUpdates` | the fee endpoint |
| `Payroll` | the page's fee editing |

The handlers are specified by pure functions:
- `UploadSettlement.Ingest` gives the reply and the ordered list of writes.
- `FeeUpdates.UpdateFees` gives the reply and the new table.

Two classes perform those writes step by step on their stores, and each of their methods is proved equal to its specification:
- `UploadSettlement.IngestionBackend` holds the bucket, the `uploads` and `official_settlements` tables, and the temporary files.
- `FeeUpdates.FeeStore` holds the settlements table as `map<int, SettlementRow>`.

The loops of the source are methods with invariants:
- the header-resolution loop;
- the per-row record building;
- the map/filter pipeline.

Everything the handlers ask of the outside world is an input (`Environment`, `FeeEnvironment`):
- the database, the bucket, the file system;
- the clock, the spreadsheet decoder, the session and the profile queries.

The model follows the code as written, including where it departs from its evident intent:
- A template whose `column_mapping` is `{}` is truthy, so it passes the 404 guard instead of being refused.
- The keys `sheetName` and `startRow` are not excluded from the mapping. They are also looked up as header texts.
- When the sheet has no row at the start position, line 158 reads `indexOf` of `undefined` and the upload fails. The model does not treat this as an empty column map. Only a mapping with no entries reaches the "no valid rows" error.
- The result of the `completed` update is not checked. A 200 can therefore leave the upload `processing`.
- The file extension is copied from the original name unchanged, so the storage path is ASCII only when the extension is.

## Model

| member | source | states |
|---|---|---|
| NumberText.NatToDecimal | pages/admin/payroll.tsx:26 | the decimal text of a number is non-empty, all digits, and has no leading zero |
| NumberText.DecimalRoundTrip | pages/admin/payroll.tsx:26 | reading the decimal text of a number gives back the number |
| NumberText.TrimStart | pages/admin/payroll.tsx:26 | `parseInt` skips exactly the leading JavaScript white space: the rest is a suffix that starts with no white space |
| NumberText.LeadingDigits | pages/admin/payroll.tsx:26 | `parseInt` reads the longest run of digits: it is a prefix, all digits, and the next character is not a digit |
| NumberText.ParseIntReadsDecimal | pages/admin/payroll.tsx:26 | `parseInt(v, 10) \|\| 0` of the text of an integer of magnitude at most 2^53, followed by a non-digit, is that integer |
| NumberText.ParseIntWithoutDigits | pages/admin/payroll.tsx:26 | text with no digits (the empty field included) becomes 0 |
| JsonValues.Lookup | pages/api/upload-settlement.ts:142-143 | a property read finds the first member with that name, and is `undefined` exactly when there is none |
| JsonValues.ForInKeysDistinct | pages/api/upload-settlement.ts:154-156 | `for...in` never visits a property name twice: an object's names when its members are distinct, and an array's or a string's indices, which are distinct decimal texts; so the header loop's dictionary has one entry per visited name |
| Spreadsheet.FindSheet | pages/api/upload-settlement.ts:145 | a sheet is found exactly when one has that name, and the grid returned is that sheet's |
| Spreadsheet.SheetDefaultsToFirst | pages/api/upload-settlement.ts:142-148 | without a truthy `sheetName` the first sheet is used |
| Spreadsheet.NamedSheetHasNoFallback | pages/api/upload-settlement.ts:142-148 | a named sheet that is absent fails with that name and never falls back; one that is present is used |
| Spreadsheet.StartRowDefaultsToOne | pages/api/upload-settlement.ts:143 | a missing or falsy `startRow` means row 1 |
| Spreadsheet.StartRowWindow | pages/api/upload-settlement.ts:149-164 | sheet row `startRow`, counted from 1, is the header and the rows after it are the data; a start row past the last row gives no header and no data |
| HeaderResolution.IndexOf | pages/api/upload-settlement.ts:158 | `indexOf` finds the leftmost cell strictly equal to the selector, and -1 exactly when none is |
| HeaderResolution.ResolveHeader | pages/api/upload-settlement.ts:154-162 | the loop computes `Resolve`: the column index, or the first exception |
| HeaderResolution.FailureSticks | pages/api/upload-settlement.ts:156-162 | once an entry throws, the later entries do not matter |
| HeaderResolution.ResolveSucceedsIff | pages/api/upload-settlement.ts:156-162 | resolution succeeds exactly when there are no entries, or there is a header row and no entry is `null` |
| HeaderResolution.MissingHeaderRowFails | pages/api/upload-settlement.ts:151-158 | without a header row, the first entry throws: a `null` one at line 157, any other at line 158 |
| HeaderResolution.ResolvedColumns | pages/api/upload-settlement.ts:154-162 | a field is in the index exactly when its selector matches a header cell; its column is the leftmost match; every key comes from the mapping |
| HeaderResolution.ReservedKeysAreLookedUp | pages/api/upload-settlement.ts:154-161 | `startRow: n` is itself resolved, and is in the index exactly when the header has the number n |
| HeaderResolution.TextSelectorIgnoresNumbers | pages/api/upload-settlement.ts:158 | a text selector never matches a number cell (strict `===`) |
| RowExtraction.BuildRecord | pages/api/upload-settlement.ts:165-172 | the inner loop builds `RecordOf`: the seed with every resolved field written over it |
| RowExtraction.ExtractedAppend | pages/api/upload-settlement.ts:164-174 | each data row becomes a record on its own: the rows extracted from two runs of rows are the first run's followed by the second's |
| RowExtraction.ExtractRecords | pages/api/upload-settlement.ts:164-174 | the map/filter loop yields exactly `Extracted` |
| RowExtraction.RecordFields | pages/api/upload-settlement.ts:164-172 | each record holds exactly the seeded ids and the mapped fields; a mapped field is `null` exactly for a missing, out-of-row or `''` cell and the raw cell otherwise; a mapped `upload_id` or `tenant_id` replaces the seed |
| RowExtraction.KeepRidersMembers | pages/api/upload-settlement.ts:174 | the filter keeps exactly the records with a non-null `rider_platform_id`, and never more than it was given |
| RowExtraction.KeepRidersAppend | pages/api/upload-settlement.ts:174 | the filter keeps relative order |
| RowExtraction.KeepRidersExtremes | pages/api/upload-settlement.ts:174 | all-valid input passes unchanged, and all-invalid input leaves nothing |
| RowExtraction.UnmappedRiderIdLeavesNothing | pages/api/upload-settlement.ts:169-174 | with `rider_platform_id` unmapped no record survives |
| RowExtraction.ExtractedRowsHaveRiderIds | pages/api/upload-settlement.ts:164-174 | every surviving record has a rider id; at most one record per data row; a row with an empty rider cell is dropped |
| StoragePaths.SafeTimestamp | pages/api/upload-settlement.ts:100 | the timestamp keeps its length, has no ':' or '.', and every such character becomes '-' |
| StoragePaths.LastIndexOf | pages/api/upload-settlement.ts:105-107 | the last position of the character, or -1 exactly when it is absent |
| StoragePaths.ExtensionShape | pages/api/upload-settlement.ts:105-107 | the extension is the suffix from the last '.', or ".xlsx" for a name without one |
| StoragePaths.StoragePathKeepsExtension | pages/api/upload-settlement.ts:101-111 | the stored path ends in exactly the original file's extension |
| StoragePaths.StoragePathAsciiUnlessExtension | pages/api/upload-settlement.ts:101-111 | with an ASCII tenant and clock, the path is ASCII exactly when the extension is |
| StoragePaths.NonAsciiExtensionReachesPath | pages/api/upload-settlement.ts:103-111 | a non-ASCII extension reaches the stored path |
| UploadSettlement.ParseWorkbook | pages/api/upload-settlement.ts:141-178 | the parse steps compute `Parsed`: decode, sheet, start row, header, records, and the empty-result error |
| UploadSettlement.IngestionBackend.constructor | pages/api/upload-settlement.ts:22 | the stores start empty apart from the temporary files |
| UploadSettlement.IngestionBackend.HandleUpload | pages/api/upload-settlement.ts:22-228 | the reply is `Ingest`'s, and the stores end as `Ingest`'s writes applied in order |
| UploadSettlement.IngestionBackend.Attempting | pages/api/upload-settlement.ts:23-217 | the guards, the storage write, the `uploads` insert and what follows, as `Attempt` |
| UploadSettlement.IngestionBackend.Settling | pages/api/upload-settlement.ts:122-217 | from the inserted `processing` row to its last status update, as `Settle` |
| UploadSettlement.IngestionBackend.Concluding | pages/api/upload-settlement.ts:188-216 | once the outcome is known, the reply and the status update are `Concluded`'s, from the stores the row insert and the bulk insert left |
| UploadSettlement.IngestionBackend.Processing | pages/api/upload-settlement.ts:141-186 | the parse and the batch insert: the records are appended on success, nothing is written on failure |
| UploadSettlement.IngestionBackend.Complete | pages/api/upload-settlement.ts:188-200 | the 200 reply with the count and the id, and the `completed` update when it takes effect |
| UploadSettlement.IngestionBackend.Fail | pages/api/upload-settlement.ts:202-216 | the error reply, and the `failed` update with its message when the id is known and the update takes effect |
| UploadSettlement.TablesAfterRun | pages/api/upload-settlement.ts:113-227 | over every run: the stored file is not rolled back on a later failure; only the run's own `uploads` row changes; it ends `completed` only on a 200 whose update took effect, `failed` only on an error, and otherwise `processing`; settlement rows are appended only on a 200, as many as reported; failures before the row exists touch no table; the temporary file is removed whenever it was obtained |
| UploadSettlement.AdmissionLadder | pages/api/upload-settlement.ts:23-95 | a request passes the guards exactly when all of these hold: it is a POST; it has a session; the profile is ADMIN or SUPER_ADMIN with a tenant; there is a file; the template id is non-empty; the template's mapping is truthy |
| UploadSettlement.ForbiddenIff | pages/api/upload-settlement.ts:57-65 | the reply is 403 exactly for a signed-in POST whose profile is not ADMIN or SUPER_ADMIN (a rider, or a null role, which is modelled as a rider), or names no tenant |
| UploadSettlement.GuardStatuses | pages/api/upload-settlement.ts:23-95 | the status of each refusal in the order of the guards: 405 for a method other than POST, 401 without a session, 500 for an unreadable profile, 500 for an unparsable form, 400 without a file or a template id, 404 without a truthy mapping; an admitted request gets 200 or 500, and 200 exactly when it was processed |
| UploadSettlement.AdmittedFailuresAre500 | pages/api/upload-settlement.ts:97-217 | once the guards are passed, every error (file read, storage, `uploads` insert, parse, settlement insert) is answered with 500 by the `catch` block |
| UploadSettlement.RefusalsWriteNothing | pages/api/upload-settlement.ts:23-95 | a refused request gets the guard's error and writes nothing; only the temporary file may be removed, and only if the refusal came after the `try` |
| UploadSettlement.TemporaryFileRemoval | pages/api/upload-settlement.ts:218-227 | the temporary file is removed exactly when it was obtained and unlinking works, the 400 and 404 returns included, and it is the last write |
| UploadSettlement.ParsedRecordsNameRiders | pages/api/upload-settlement.ts:164-178 | a successful parse yields at least one record, and every record names a rider |
| UploadSettlement.ProcessedReply | pages/api/upload-settlement.ts:196-200 | a 200 reports the created row's id and a positive count; every inserted row names a rider |
| UploadSettlement.StartRowPastTheEnd | pages/api/upload-settlement.ts:149-177 | a start row past the sheet fails on the first mapping entry; only an empty mapping gives "no valid rows" |
| UploadSettlement.UnnamedFileDefaults | pages/api/upload-settlement.ts:102-127 | a file with no name or an empty name is recorded as 'unknown_file', while its stored path ends in the ".xlsx" that the other default 'unknownfile' leads to |
| UploadSettlement.WorkedExample | pages/api/upload-settlement.ts:141-178 | the two-field example: columns 0 and 1; the blank row is dropped; the empty amount becomes `null` |
| FeeUpdates.ProjectAll | pages/api/update-fees.ts:46-50 | one projected update per item, in order; it throws only when some item is `null` |
| FeeUpdates.Batch | pages/api/update-fees.ts:43-52 | an accepted batch has one write per update, each for its update, with distinct ids |
| FeeUpdates.BatchAcceptedIff | pages/api/update-fees.ts:43-52 | the store accepts the batch exactly when every update names an existing row with typed fees and no id repeats |
| FeeUpdates.BatchSeesOnlyIds | pages/api/update-fees.ts:43-52 | the store's decision depends only on which ids exist |
| FeeUpdates.FeeStore.constructor | pages/api/update-fees.ts:43-44 | the store starts with the given table |
| FeeUpdates.FeeStore.HandleUpdateFees | pages/api/update-fees.ts:11-64 | the reply and the new table are `UpdateFees`' |
| FeeUpdates.UpsertedRows | pages/api/update-fees.ts:40-52 | each named row gets its two fees, every other row and field is unchanged, and no row appears or disappears |
| FeeUpdates.UpsertIdempotent | pages/api/update-fees.ts:40-52 | applying the same updates twice equals applying them once |
| FeeUpdates.UpdateFeesIdempotent | pages/api/update-fees.ts:11-64 | sending the same request twice gives the reply and the table of sending it once |
| FeeUpdates.FeeUpdateEffect | pages/api/update-fees.ts:33-64 | a 200 overwrites the fees of the named rows only; any error leaves the table as it was |
| FeeUpdates.FeeGuards | pages/api/update-fees.ts:12-64 | stated on the request: 405 exactly for a non-POST; 401 exactly for no session; 403 exactly for a profile that is not `ADMIN` with a tenant, so SUPER_ADMIN included; 400 exactly for an absent, non-array or empty `updates`; 500 exactly for an unreadable body, a `null` item or a refused upsert |
| FeeUpdates.TenantIgnored | pages/api/update-fees.ts:43-52 | the outcome does not depend on which tenant a row belongs to |
| FeeUpdates.ProjectionDropsExtras | pages/api/update-fees.ts:46-50 | properties other than `id`, `lease_fee` and `mission_fee` never reach the store |
| Payroll.FeeChanged | pages/admin/payroll.tsx:25-32 | the list keeps its length; the row with that id gets `parseInt(value, 10) \|\| 0` in the named fee and keeps the other fee and every other field; every other row is unchanged |
| Payroll.FeeChangedWithoutMatch | pages/admin/payroll.tsx:28-30 | with no row of that id the list is unchanged |
| Payroll.FeeChangedIdempotent | pages/admin/payroll.tsx:25-32 | typing the same value twice equals typing it once |
| Payroll.TypedFeeValue | pages/admin/payroll.tsx:26 | typing the text of an integer of magnitude at most 2^53 stores that integer; typing text without digits stores 0 |
| Payroll.PayloadEntryFields | pages/admin/payroll.tsx:40-44 | each payload entry carries the row's `id`, `lease_fee` and `mission_fee` |
| Payroll.PayloadProjects | pages/admin/payroll.tsx:40-44 | the endpoint's projection reads back each row's id and fees, in order |
| Payroll.SaveRoundTrip | pages/admin/payroll.tsx:40-52 | saving a non-empty page with distinct ids of existing rows sets each row's fees to those shown, and changes no keys |
| Payroll.EmptySaveRefused | pages/admin/payroll.tsx:40-52 | saving an empty page gets 400 and writes nothing |
| Payroll.SaveAfterChange | pages/admin/payroll.tsx:25-44 | after a fee is typed, the saved payload carries the parsed value for that row |

## Left out

- **I/O.** The following are inputs of the model: the Supabase clients, cookies, and the session and profile queries; `formidable`, `fs.readFile` and `fs.unlink`; the storage upload; `Date`. Console logging, the `Allow` header and the fixed message texts of the replies are not modelled.
- **Spreadsheet decoding.** SheetJS decoding is not modelled. The workbook arrives as named grids of text, integer and boolean cells, or as a decoding failure. Dates, formulas, merged cells and floating-point numbers are not modelled.
- Spreadsheet.StartRow: a row number is given only to a positive integer, to `true` (row 1, since `true - 1` is 0), and to a string of digits. Every other value makes the parse fail with `UnsupportedStartRow`. JavaScript's `-` would turn some of them into an ordinary row, for example `[3]` into row 3 or `" 3"` into row 3. Others give SheetJS a negative, fractional or `NaN` range. Neither the coercions nor SheetJS's handling of such ranges are modelled.
- NumberText.ParseIntReadsDecimal, Payroll.TypedFeeValue, NumberText.IntToDecimal: JavaScript numbers are doubles, while the model's are unbounded integers. `parseInt` rounds a value beyond 2^53 to the nearest double, and `String` writes 1e21 and above in exponent form. The model's `ParseInt` and `IntToDecimal` do neither, so the two lemmas are stated only for magnitudes up to 2^53.
- JsonValues.Lookup: a property read takes the first member with the name. `JSON.parse` and `jsonb` never produce an object with a repeated name (they keep the last one), so the model's first match agrees with them on every object they produce. Member lists with repeated names are not excluded from the model's inputs.
- **Property order.** Object members are enumerated in stored order. JavaScript's rule of putting integer-like keys first is not modelled.
- **Strings.** Strings are sequences of code points, not UTF-16 units.
- **Update outcomes.** Whether each `uploads` status update took effect is an input. The `uploads` type in lib/types/database.types.ts lacks the `error_message` and `processed_records` columns the handler writes, so the update's result cannot be derived.
- **Upload ids.** The id of the new `uploads` row is taken from the database's answer. Its freshness is not modelled.
- Accounts.Role: `profiles.role` is nullable. A null role is modelled as `Rider`: it is not in the allowed roles of the upload handler, and it is not `ADMIN` in the fee endpoint, so both answer 403, as for a rider.
- **Timeouts and concurrency.** There is no request timeout, and no concurrency between requests.
- FeeUpdates.WriteOf: the store's acceptance of the fee upsert is an assumption about the store, not derived from the schema. A batch is taken to be accepted exactly when three things hold: every id names an existing row; every fee is an integer or `null`; no id repeats. Ids and fees of any other JSON type are refused, including a numeric string such as "5" that Postgres would cast. The real statement may be refused in more cases: the `id` column is generated and refuses explicit values on insert, and NOT NULL columns are checked before the conflict is resolved. The input `storeFails` stands for every such refusal of the real store.
- **Fee endpoint authorisation.** Row-level security and any database-side tenant checks are not modelled. The code itself writes with no tenant filter.
- **Payroll page.** The React state setter, rendering, `fetch`, `alert` and the loading flag of the payroll page are not modelled.
