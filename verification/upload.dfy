/** The ZIP upload route (app/api/upload/route.ts): the checks on the
    uploaded file, then one pass over the archive's entries that keeps at
    most `MaxFiles` non-blank code files, in archive order.

    Reading the multipart body, unpacking the archive and decoding an
    entry's bytes are supplied as inputs: an `Option` or a failure reason
    in place of the call that may throw. */
module Upload {
  import opened Wrappers
  import opened Text
  import opened Types
  import opened FileUtils
  import opened Http
  import opened Selection

  /** One archive member; `data` is its content decoded as UTF-8, or None
      when reading the entry threw. */
  datatype ZipEntry = ZipEntry(entryName: string, isDirectory: bool, data: Option<string>)

  /** The uploaded bytes read as a ZIP container, or why that threw. */
  datatype Archive = Readable(entries: seq<ZipEntry>) | Unreadable(reason: string)

  datatype UploadedFile = UploadedFile(name: string, size: nat, archive: Archive)

  /** The request body: its `file` field when it parses as form data, or
      why parsing threw. */
  datatype FormData = Form(file: Option<UploadedFile>) | MalformedForm(reason: string)

  /** The success payload; `success: true` is implied by the constructor. */
  datatype Extraction = Extraction(files: seq<CodeFile>, totalFiles: nat, message: string)

  const NoFileMessage: string := "No file uploaded"
  const SizeMessage: string := "File size exceeds limit of " + NatToString(MaxFileSize / 1024 / 1024) + "MB"
  const NotZipMessage: string := "Only ZIP files are supported"
  const NoCodeFilesMessage: string := "No valid code files found in ZIP archive"
  const FailureMessage: string := "Failed to process ZIP file"

  function ExtractedMessage(n: nat): string {
    "Extracted " + NatToString(n) + " code file(s) from ZIP archive"
  }

  /** `s[..n]`, or all of `s` when it is shorter. */
  function Take<T>(s: seq<T>, n: nat): (r: seq<T>)
    ensures |r| == if n < |s| then n else |s|
    ensures r == s[..|r|]
  {
    if n < |s| then s[..n] else s
  }

  // ---------------------------------------------------------------------------
  // One entry
  // ---------------------------------------------------------------------------

  /** An entry the loop counts against the cap: a file whose name passes
      `isCodeFile`. */
  predicate IsCodeEntry(e: ZipEntry) {
    !e.isDirectory && IsCodeFile(e.entryName)
  }

  /** The guarded part of the loop body: decode, drop blank content, detect
      the language, drop `unknown`. For a code entry the last test never
      fires: the entry is kept exactly when it decoded to non-blank text. */
  function Decode(e: ZipEntry): (r: Option<CodeFile>)
    ensures r.Some? ==> e.data == Some(r.value.content) && !IsBlank(r.value.content)
    ensures r.Some? ==> r.value.filename == e.entryName
    ensures r.Some? ==> r.value.language == DetectLanguage(e.entryName) != Unknown
    ensures IsCodeFile(e.entryName) ==> (r.Some? <==> e.data.Some? && !IsBlank(e.data.value))
  {
    match e.data
    case None => None
    case Some(content) =>
      TrimEmptyIffBlank(content);
      if Trim(content) == [] then None
      else
        var language := DetectLanguage(e.entryName);
        if language == Unknown then None
        else Some(CodeFile(e.entryName, content, language))
  }

  /** What an entry contributes when the cap has not been reached. */
  function Keep(e: ZipEntry): Option<CodeFile> {
    if IsCodeEntry(e) then Decode(e) else None
  }

  /** What a kept entry has passed, and what of it the file copies. */
  lemma {:induction false} KeptFile(e: ZipEntry, f: CodeFile)
    requires Keep(e) == Some(f)
    ensures !e.isDirectory && IsCodeFile(e.entryName)
    ensures e.data == Some(f.content) && !IsBlank(f.content)
    ensures f.filename == e.entryName
    ensures f.language == DetectLanguage(e.entryName) != Unknown
  {
  }

  // ---------------------------------------------------------------------------
  // The loop, and the filter it computes
  // ---------------------------------------------------------------------------

  /** Every entry's contribution, in order, with no cap. */
  function Uncapped(entries: seq<ZipEntry>): seq<CodeFile> {
    FilterMap(Keep, entries)
  }

  /** The first entry's contribution heads the uncapped filter. */
  lemma {:induction false} UncappedStep(entries: seq<ZipEntry>)
    requires |entries| > 0
    ensures Keep(entries[0]).None? ==> Uncapped(entries) == Uncapped(entries[1..])
    ensures Keep(entries[0]).Some? ==> Uncapped(entries) == [Keep(entries[0]).value] + Uncapped(entries[1..])
  {
  }

  /** Taking from a sequence with a head takes the head first. */
  lemma {:induction false} TakeCons<T>(x: T, s: seq<T>, n: nat)
    requires n > 0
    ensures Take([x] + s, n) == [x] + Take(s, n - 1)
  {
    if n - 1 < |s| {
      assert ([x] + s)[..n] == [x] + s[..n - 1];
    }
  }

  /** The extraction loop, `kept` holding the files pushed so far. A
      directory or a non-code name is skipped; a code name met with
      `MaxFiles` already kept ends the loop; otherwise the entry is decoded
      and kept or skipped. The result is the kept files followed by as many
      of the remaining entries' contributions as the cap allows. */
  function ExtractFrom(entries: seq<ZipEntry>, kept: seq<CodeFile>): (r: seq<CodeFile>)
    requires |kept| <= MaxFiles
    ensures r == kept + Take(Uncapped(entries), MaxFiles - |kept|)
    decreases |entries|
  {
    if |entries| == 0 then kept
    else
      var e, rest := entries[0], entries[1..];
      UncappedStep(entries);
      if e.isDirectory then ExtractFrom(rest, kept)
      else if !IsCodeFile(e.entryName) then ExtractFrom(rest, kept)
      else if |kept| >= MaxFiles then kept
      else match Decode(e)
        case None => ExtractFrom(rest, kept)
        case Some(f) =>
          TakeCons(f, Uncapped(rest), MaxFiles - |kept|);
          ExtractFrom(rest, kept + [f])
  }

  /** The files one archive yields. */
  function Extract(entries: seq<ZipEntry>): (r: seq<CodeFile>)
    ensures r == Take(Uncapped(entries), MaxFiles)
    ensures |r| <= MaxFiles
  {
    ExtractFrom(entries, [])
  }

  // ---------------------------------------------------------------------------
  // The route
  // ---------------------------------------------------------------------------

  /** `POST /api/upload`: no file, an oversized file, then a name without
      `.zip` are refused with 400 in that order; a body or archive that
      cannot be read gives 500; an archive with no usable code file gives
      400; otherwise the extracted files and their count. */
  function Upload(form: FormData): (r: Response<Extraction>)
    ensures r.Ok? <==>
      && form.Form? && form.file.Some?
      && form.file.value.size <= MaxFileSize
      && EndsWith(form.file.value.name, ".zip")
      && form.file.value.archive.Readable?
      && |Uncapped(form.file.value.archive.entries)| > 0
    ensures r.Ok? ==>
      var entries := form.file.value.archive.entries;
      && r.body.files == Take(Uncapped(entries), MaxFiles)
      && 1 <= |r.body.files| <= MaxFiles
      && r.body.totalFiles == |r.body.files|
      && r.body.message == ExtractedMessage(|r.body.files|)
    ensures r.Error? ==> r.status == BadRequest || r.status == InternalServerError
  {
    match form
    case MalformedForm(reason) => Error(InternalServerError, FailureMessage, Some(reason))
    case Form(None) => Error(BadRequest, NoFileMessage, None)
    case Form(Some(file)) =>
      if file.size > MaxFileSize then Error(BadRequest, SizeMessage, None)
      else if !EndsWith(file.name, ".zip") then Error(BadRequest, NotZipMessage, None)
      else match file.archive
        case Unreadable(reason) => Error(InternalServerError, FailureMessage, Some(reason))
        case Readable(entries) =>
          var files := Extract(entries);
          if |files| == 0 then Error(BadRequest, NoCodeFilesMessage, None)
          else Ok(Extraction(files, |files|, ExtractedMessage(|files|)))
  }

  // ---------------------------------------------------------------------------
  // Properties
  // ---------------------------------------------------------------------------

  /** Every returned file came from an entry that is not a directory,
      whose name is a code file name, and whose content decoded to non-blank
      text; filename and content are copied unchanged, the language is
      known, and the files keep the entries' order. */
  lemma {:induction false} ExtractProvenance(entries: seq<ZipEntry>) returns (idx: seq<nat>)
    ensures |idx| == |Extract(entries)|
    ensures forall k :: 0 <= k < |idx| ==> idx[k] < |entries|
    ensures forall k :: 0 <= k < |idx| ==>
      var e, f := entries[idx[k]], Extract(entries)[k];
      && !e.isDirectory && IsCodeFile(e.entryName)
      && e.data == Some(f.content) && !IsBlank(f.content)
      && f.filename == e.entryName
      && f.language == DetectLanguage(e.entryName) != Unknown
    ensures forall k, l :: 0 <= k < l < |idx| ==> idx[k] < idx[l]
  {
    var files := Extract(entries);
    FilterMapSelects(Keep, entries);
    SelectsPrefix(Keep, Uncapped(entries), entries, |files|);
    idx := SelectionIndices(Keep, files, entries);
    forall k | 0 <= k < |idx|
      ensures var e, f := entries[idx[k]], files[k];
        && !e.isDirectory && IsCodeFile(e.entryName)
        && e.data == Some(f.content) && !IsBlank(f.content)
        && f.filename == e.entryName
        && f.language == DetectLanguage(e.entryName) != Unknown
    {
      KeptFile(entries[idx[k]], files[k]);
    }
  }

  /** An entry whose reading throws is skipped and the entries after it are
      processed as if it were absent. */
  lemma {:induction false} DecodeFailureSkipped(a: seq<ZipEntry>, e: ZipEntry, b: seq<ZipEntry>)
    requires e.data.None?
    ensures Extract(a + [e] + b) == Extract(a + b)
  {
    assert Keep(e) == None;
    assert Uncapped([e]) == [];
    FilterMapAppend(Keep, a + [e], b);
    FilterMapAppend(Keep, a, [e]);
    FilterMapAppend(Keep, a, b);
  }

  /** Once the entries read so far have supplied `MaxFiles` files, nothing
      after them changes the result: the remaining entries are dropped
      without an error. */
  lemma {:induction false} LaterEntriesDropped(a: seq<ZipEntry>, b: seq<ZipEntry>)
    requires |Uncapped(a)| >= MaxFiles
    ensures Extract(a + b) == Extract(a)
  {
    FilterMapAppend(Keep, a, b);
    var u := Uncapped(a);
    assert (u + Uncapped(b))[..MaxFiles] == u[..MaxFiles];
  }

  /** More than `MaxFiles` usable entries give exactly `MaxFiles` files,
      the first ones in archive order. */
  lemma {:induction false} CapReached(entries: seq<ZipEntry>)
    requires |Uncapped(entries)| > MaxFiles
    ensures |Extract(entries)| == MaxFiles
    ensures Extract(entries) == Uncapped(entries)[..MaxFiles]
  {
  }

  /** The refusals, each with its status and message. The size test comes
      before the name test, and a file of exactly `MaxFileSize` bytes
      passes it. */
  lemma {:induction false} UploadRefusals(form: FormData)
    ensures form.MalformedForm? ==> Upload(form) == Error(InternalServerError, FailureMessage, Some(form.reason))
    ensures form == Form(None) ==> Upload(form) == Error(BadRequest, NoFileMessage, None)
    ensures form.Form? && form.file.Some? ==>
      var file := form.file.value;
      && (file.size > MaxFileSize ==> Upload(form) == Error(BadRequest, SizeMessage, None))
      && (file.size <= MaxFileSize && !EndsWith(file.name, ".zip") ==>
            Upload(form) == Error(BadRequest, NotZipMessage, None))
      && (file.size <= MaxFileSize && EndsWith(file.name, ".zip") && file.archive.Unreadable? ==>
            Upload(form) == Error(InternalServerError, FailureMessage, Some(file.archive.reason)))
      && (file.size <= MaxFileSize && EndsWith(file.name, ".zip") && file.archive.Readable?
          && Uncapped(file.archive.entries) == [] ==>
            Upload(form) == Error(BadRequest, NoCodeFilesMessage, None))
  {
  }

  /** The success message names the count: two messages agree only for
      equal counts, so the count can be read back from the text. */
  lemma {:induction false} ExtractedMessageCount(n: nat, m: nat)
    ensures ExtractedMessage(n) == ExtractedMessage(m) <==> n == m
  {
    if ExtractedMessage(n) == ExtractedMessage(m) {
      var pre, post := "Extracted ", " code file(s) from ZIP archive";
      var a, b := NatToString(n), NatToString(m);
      assert |a| == |b|;
      assert a == ExtractedMessage(n)[|pre|..|pre| + |a|];
      assert b == ExtractedMessage(m)[|pre|..|pre| + |b|];
      NatToStringRoundTrip(n);
      NatToStringRoundTrip(m);
    }
  }

  /** The size limit in the message is 250 (MiB). */
  lemma SizeMessageText()
    ensures SizeMessage == "File size exceeds limit of 250MB"
  {
    assert MaxFileSize / 1024 / 1024 == 250;
    assert NatToString(250) == "250";
  }
}
