/** Lines 101-111 of pages/api/upload-settlement.ts: the path under which the
    raw file goes into the `settlement-files` bucket. */
module StoragePaths {
  import opened Outcomes
  import NumberText

  /** `iso.replace(/[:.]/g, '-')`. */
  function SafeTimestamp(iso: string): (r: string)
    ensures |r| == |iso|
    ensures forall i :: 0 <= i < |r| ==> r[i] != ':' && r[i] != '.'
    ensures forall i :: 0 <= i < |r| ==> r[i] == (if iso[i] == ':' || iso[i] == '.' then '-' else iso[i])
  {
    if iso == [] then []
    else [if iso[0] == ':' || iso[0] == '.' then '-' else iso[0]] + SafeTimestamp(iso[1..])
  }

  /** `s.lastIndexOf(c)`. */
  function LastIndexOf(s: string, c: char): (i: int)
    ensures -1 <= i < |s|
    ensures i >= 0 ==> s[i] == c && forall j :: i < j < |s| ==> s[j] != c
    ensures i == -1 <==> forall j :: 0 <= j < |s| ==> s[j] != c
  {
    if s == [] then -1
    else if s[|s| - 1] == c then |s| - 1
    else LastIndexOf(s[..|s| - 1], c)
  }

  /** Line 102: `tempFile.originalFilename || 'unknownfile'`. */
  function OriginalFilename(name: Option<string>): string {
    if name.Some? && name.value != "" then name.value else "unknownfile"
  }

  /** Lines 105-107: the suffix from the last '.', or ".xlsx". */
  function Extension(name: string): string {
    var dot := LastIndexOf(name, '.');
    if dot == -1 then ".xlsx" else name[dot..]
  }

  /** Lines 110-111. */
  function StoragePath(tenantId: string, nowIso: string, nowMillis: nat, name: Option<string>): string {
    tenantId + "/" + SafeTimestamp(nowIso) + "-" + "upload-" + NumberText.NatToDecimal(nowMillis)
      + Extension(OriginalFilename(name))
  }

  /** The extension is a suffix of the name that starts with its only '.',
      or ".xlsx" when the name has no '.' at all. */
  lemma ExtensionShape(name: string)
    ensures var ext := Extension(name);
            && ext != [] && ext[0] == '.'
            && (forall j :: 1 <= j < |ext| ==> ext[j] != '.')
            && ('.' in name ==> |ext| <= |name| && ext == name[|name| - |ext|..])
            && ('.' !in name ==> ext == ".xlsx")
  {
  }

  /** The last '.' of `prefix + ext` is the first character of `ext`
      when that is its only '.'. */
  lemma LastDotInSuffix(prefix: string, ext: string)
    requires ext != [] && ext[0] == '.'
    requires forall j :: 1 <= j < |ext| ==> ext[j] != '.'
    ensures LastIndexOf(prefix + ext, '.') == |prefix|
  {
    var s := prefix + ext;
    assert s[|prefix|] == '.';
    assert forall j :: |prefix| < j < |s| ==> s[j] == ext[j - |prefix|];
  }

  /** The stored file keeps the uploaded file's extension: reading the
      extension back off the storage path gives the original one. */
  lemma StoragePathKeepsExtension(tenantId: string, nowIso: string, nowMillis: nat, name: Option<string>)
    ensures Extension(StoragePath(tenantId, nowIso, nowMillis, name)) == Extension(OriginalFilename(name))
  {
    var ext := Extension(OriginalFilename(name));
    ExtensionShape(OriginalFilename(name));
    var prefix := tenantId + "/" + SafeTimestamp(nowIso) + "-" + "upload-" + NumberText.NatToDecimal(nowMillis);
    assert StoragePath(tenantId, nowIso, nowMillis, name) == prefix + ext;
    LastDotInSuffix(prefix, ext);
    assert (prefix + ext)[|prefix|..] == ext;
  }

  predicate IsAscii(s: string) {
    forall i :: 0 <= i < |s| ==> s[i] < '\U{80}'
  }

  /** The path is ASCII whenever the tenant id, the clock text and the
      extension are: the rest of the original name never reaches it. */
  lemma StoragePathAsciiUnlessExtension(tenantId: string, nowIso: string, nowMillis: nat, name: Option<string>)
    requires IsAscii(tenantId) && IsAscii(nowIso)
    ensures IsAscii(StoragePath(tenantId, nowIso, nowMillis, name)) <==> IsAscii(Extension(OriginalFilename(name)))
  {
    var ext := Extension(OriginalFilename(name));
    var ts := SafeTimestamp(nowIso);
    var digits := NumberText.NatToDecimal(nowMillis);
    var prefix := tenantId + "/" + ts + "-" + "upload-" + digits;
    assert IsAscii(ts);
    assert IsAscii(digits);
    assert IsAscii(prefix);
    var path := StoragePath(tenantId, nowIso, nowMillis, name);
    assert path == prefix + ext;
    if IsAscii(ext) {
      assert forall i :: 0 <= i < |path| ==> path[i] == if i < |prefix| then prefix[i] else ext[i - |prefix|];
    } else {
      var k :| 0 <= k < |ext| && !(ext[k] < '\U{80}');
      assert path[|prefix| + k] == ext[k];
    }
  }

  /** The extension is not sanitised: a name ending in ".\U{D55C}" puts that
      non-ASCII character into the storage path. */
  lemma NonAsciiExtensionReachesPath(tenantId: string, nowIso: string, nowMillis: nat)
    ensures var path := StoragePath(tenantId, nowIso, nowMillis, Some("a.\U{D55C}"));
            path[|path| - 1] == '\U{D55C}' && !IsAscii(path)
  {
    var name := "a.\U{D55C}";
    assert LastIndexOf(name, '.') == 1;
    assert Extension(name) == ".\U{D55C}";
  }
}
