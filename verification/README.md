# Security analysis routes: upload filtering and fix suggestions

This project models the request-handling core of a web application for code
security analysis. A user uploads a ZIP archive of source code or submits a
snippet. The application finds vulnerabilities, and a text-generation
service proposes a remediation for each finding.

The model covers four parts:

- **The records exchanged** (`lib/types.ts`): findings, suggestions, code
  files, requests and responses. The string-literal unions (severity,
  language, analysis mode) become closed datatypes, each with a name and a
  parser proved mutually inverse.
- **File classification** (`lib/file-utils.ts`):
  - which language an extension stands for;
  - which archive paths count as code files: a skip list of basenames, then
    hidden basenames, then a directory denylist matched as plain substrings,
    then an extension allowlist. The comment at lib/file-utils.ts:47 speaks
    of skipping hidden files and directories, but the code tests only the
    basename for a leading '.', so a file inside a hidden directory other
    than `.git/` is accepted (`FileUtils.HiddenDirectoryAccepted`);
  - the two limits: 250 MiB per upload and 50 files per archive.
- **The upload route** (`POST /api/upload`):
  - checks on the uploaded file;
  - one pass over the archive's entries that keeps at most 50 non-blank code
    files, in archive order.

  The main theorem states what the pass keeps, which is the first 50
  contributions of an uncapped filter over the entries:
  - `break` happens exactly when 50 files are kept and another code file
    appears;
  - an entry that fails to read is skipped without effect;
  - the `unknown`-language branch can never fire for a name that passed
    `isCodeFile`.
- **The fix-suggestion route** (`POST /api/suggest-fixes`):
  - body validation, then the API-key check;
  - one suggestion per finding, in order. A service answer is used when the
    call succeeds, and the fixed fallback (table advice, failure
    explanation, four generic tips) is used when any step of it fails.

  The model proves:
  - a fallback can be recognised exactly when the call failed;
  - one finding's failure changes no other suggestion;
  - there are as many fallbacks as failed calls.

Effects are inputs to the model:
- The multipart body, the archive reader and entry decoding are supplied as
  data, with `Option` or a failure reason standing for "this call threw".
- The text-generation service is a sequence of call outcomes, one per
  finding.
- The environment's API key is an `Option<string>`.

Files:
- `wrappers.dfy`: `Option`.
- `http.dfy`: the route response, either a body or `{error, details}` with a
  status.
- `text.dfy`: the JavaScript string operations used: `toLowerCase`,
  `split(c).pop()`, `includes`, `startsWith`, `endsWith`, `trim`, and
  `${n}`.
- `selection.dfy`: order-preserving filtering, stated generically.
- `types.dfy`, `file_utils.dfy`, `upload.dfy`, `suggest_fixes.dfy`: the core.

## Model

| member | source | states |
|---|---|---|
| Types.ParseSeverity | lib/types.ts:10 | a severity is read exactly from the four literals low, medium, high, critical |
| Types.SeverityNameRoundTrip | lib/types.ts:3 | naming a severity and reading it back is the identity, and a parsed literal is the severity's name |
| Types.ParseLanguage | lib/types.ts:38 | a code file's language is read exactly from the seven literals, `unknown` included |
| Types.ParseRequestLanguage | lib/types.ts:26 | a request's language accepts the six known literals and refuses `unknown`, agreeing with the code-file reading on the accepted ones |
| Types.LanguageNameRoundTrip | lib/types.ts:35-39 | name and parse are inverse on all seven languages; a name is accepted as a request language exactly when the language is not `unknown` |
| Types.ParseTestType | lib/types.ts:27 | the analysis mode is read exactly from static, dynamic, both |
| Types.TestTypeNameRoundTrip | lib/types.ts:30-33 | name and parse of the analysis mode are inverse |
| Text.AfterLast | lib/file-utils.ts:42 | the last field of `split(c)`: a suffix free of the separator, shorter than the input exactly when the separator occurs, preceded by it |
| Text.ToLower | lib/file-utils.ts:7 | lower-casing keeps the length, maps every character pointwise and leaves no upper-case letter |
| Text.TrimEmptyIffBlank | app/api/upload/route.ts:68 | `!content.trim()` holds exactly when every character of the content is JavaScript whitespace |
| Text.NatToStringRoundTrip | app/api/upload/route.ts:103 | the decimal text of a count reads back as that count |
| FileUtils.DetectLanguage | lib/file-utils.ts:6-22 | the result is `unknown` exactly when the lower-cased text after the last '.' is not one of the nine table keys |
| FileUtils.IsCodeFile | lib/file-utils.ts:27-62 | a name accepted as code always has a known language |
| FileUtils.CodeFileIffKnownLanguage | lib/file-utils.ts:28 | a name is code exactly when no exclusion rule applies and its language is known, because the allowlist equals the table's keys |
| FileUtils.ExtensionShape | lib/file-utils.ts:29 | the extension of `stem.ext` is the lower-cased `ext` whatever the stem; a name without '.' is its own extension |
| FileUtils.DetectLanguageIgnoresCase | lib/file-utils.ts:7 | two names equal up to case get the same language |
| FileUtils.LanguageOfExtension | lib/file-utils.ts:9-19 | for any stem and capitalisation: py is Python, js/jsx JavaScript, ts/tsx TypeScript, sh/bash Bash, go Go, java Java, anything else unknown |
| FileUtils.UpperCaseExtension | lib/file-utils.ts:14 | `src/App.TSX` is TypeScript |
| FileUtils.SkipFilesRejected | lib/file-utils.ts:32-45 | a skip-listed basename is never code, bare or in any directory |
| FileUtils.NestedManifestRejected | lib/file-utils.ts:42-45 | `app/package.json` is not code |
| FileUtils.HiddenRejected | lib/file-utils.ts:42-50 | a basename starting with '.' is never code, whether bare or in any directory |
| FileUtils.HiddenDirectoryAccepted | lib/file-utils.ts:47-61 | only the basename is tested for a leading '.': `src/.cache/a.py` is code, although the comment speaks of hidden directories |
| FileUtils.SkippedDirectoryRejected | lib/file-utils.ts:52-59 | a denylisted directory name anywhere in the path rejects it |
| FileUtils.SubstringNotSegment | lib/file-utils.ts:56 | the denylist matches substrings, not path segments: `mydist/a.py` is not code |
| Upload.Decode | app/api/upload/route.ts:63-89 | a kept file copies the entry's name and decoded content, the content is not blank, the language is known; for a code name the file is kept exactly when the entry decoded to non-blank text |
| Upload.KeptFile | app/api/upload/route.ts:44-84 | a kept entry is a non-directory code name with non-blank decoded content, copied unchanged |
| Upload.ExtractFrom | app/api/upload/route.ts:44-90 | the loop from any point returns the files kept so far followed by as many of the remaining entries' contributions as the 50-file cap allows |
| Upload.Extract | app/api/upload/route.ts:42-90 | an archive yields the first 50 contributions of the uncapped filter, so never more than 50 files |
| Upload.Upload | app/api/upload/route.ts:6-116 | success exactly when a file of at most 250 MiB named `*.zip` opens as an archive with a usable code file; then the files are the capped filter, 1 to 50 of them, `totalFiles` counts them and the message is "Extracted N code file(s) from ZIP archive" for that count; every refusal is 400 or 500 |
| Upload.UploadRefusals | app/api/upload/route.ts:11-115 | each refusal with its status and message, in the order no file, size, extension, unreadable archive, no code file; exactly 250 MiB passes |
| Upload.SizeMessageText | app/api/upload/route.ts:21 | the size message reads "File size exceeds limit of 250MB" |
| Upload.ExtractedMessageCount | app/api/upload/route.ts:103 | two success messages are equal exactly when their counts are, so the message names the count |
| Upload.ExtractProvenance | app/api/upload/route.ts:80-84 | every returned file has a distinct source entry, in archive order, that is no directory, has a code name and decoded to this file's non-blank content |
| Upload.DecodeFailureSkipped | app/api/upload/route.ts:86-89 | an entry whose reading throws is skipped as if absent |
| Upload.LaterEntriesDropped | app/api/upload/route.ts:58-61 | once the entries read so far supply 50 files, nothing after them matters |
| Upload.CapReached | lib/file-utils.ts:83 | more than 50 usable entries give exactly the first 50 files |
| SuggestFixes.FallbackSuggestion | app/api/suggest-fixes/route.ts:123-138 | the advice is the table's entry for a listed type and the generic advice otherwise; it is non-empty and starts with neither 'F' nor 'N' |
| SuggestFixes.FailureReason | app/api/suggest-fixes/route.ts:76-98 | the recorded reason is the thrown Error's message, "Unknown error" for a thrown non-Error, "No response from OpenAI" for missing content, and the parser's message for content that is not JSON |
| SuggestFixes.SuggestionFor | app/api/suggest-fixes/route.ts:33-106 | the suggestion keeps its finding; an answer's falsy explanation becomes "No fix available" and "", missing tips become none, fixed code passes through; any failure gives the fallback advice, no fixed code, the explanation "Failed to generate AI suggestion: " followed by the failure reason, and the four tips |
| SuggestFixes.FallbackIffFailure | app/api/suggest-fixes/route.ts:91-105 | a suggestion has all the marks of a fallback exactly when its call failed; no service answer can imitate one |
| SuggestFixes.Assemble | app/api/suggest-fixes/route.ts:29-107 | one suggestion per finding, the i-th made from the i-th finding and outcome |
| SuggestFixes.FailureIsolated | app/api/suggest-fixes/route.ts:33-106 | changing one finding's outcome changes no other finding's suggestion |
| SuggestFixes.FallbackCount | app/api/suggest-fixes/route.ts:91-106 | the number of fallback suggestions equals the number of failed calls |
| SuggestFixes.SuggestFixes | app/api/suggest-fixes/route.ts:5-121 | success exactly when the body parses, code, findings and language are truthy and the API key is set; then the suggestions pair up with the findings; otherwise 500 with details for an unreadable body, 400 for a missing field, 500 for a missing key |
| SuggestFixes.ValidationOrder | app/api/suggest-fixes/route.ts:10-23 | validation comes before the key check, empty code is refused, and an empty list of findings is accepted |

## Left out

- `formatFileSize` (lib/file-utils.ts:67-73): it computes with floating-point logarithms and rounding, and the routes do not call it.
- The page component, the setup scripts and the Next.js configuration are not part of this model.
- The analysis routes that run the static engine and the sandbox, risk aggregation and the prompt construction are not part of this model. Only the record types they exchange are modelled.
- I/O is supplied as data rather than performed: the multipart body, `File.arrayBuffer`, the ZIP reader (AdmZip), `getData().toString('utf8')`, `request.json()`, `process.env` and the OpenAI client. Each possibly-throwing call becomes an `Option` or a failure-reason constructor.
- Console logging is left out; it has no effect on the responses.
- The prompt text and the request parameters sent to the service (model name, temperature, response format) are left out. The model states only how each outcome becomes a suggestion.
- Text.ToLower: lower-cases ASCII A-Z only, whereas `toLowerCase` follows full Unicode case mapping. The nine extension keys consist of ASCII letters only. Outside A-Z only two characters lower-case into ASCII letters: the Kelvin sign (to 'k') and capital I with dot above (to 'i' plus a combining dot). No key contains 'k' or 'i', so the set of names that map to a key, and therefore the classification, is the same.
- Response bodies are reduced to what a client can observe: `success: true` is implied by `Ok`, and an error is its status, message and optional details.
- A non-Error thrown value's `String(error)` is folded into the failure reason text.
- JavaScript truthiness of JSON values is modelled for strings only: a missing, null or empty field is `None` or "". Values of other JSON types in those fields are left out:
  - numbers, booleans or objects in the body's `code` and `language`;
  - the same in the service's `explanation`, `fixedCode` and `preventionTips`;
  - a non-array `vulnerabilities`. A non-empty string is iterated character by character, one service call per character. A non-zero number, `true` or an object makes `for … of` throw, which gives 500.
- The elements of `vulnerabilities` are assumed to be objects. A `null` element makes the prompt construction throw (app/api/suggest-fixes/route.ts:42) inside the per-finding `try`. The `catch` reads `vulnerability.type` again (line 92) and throws out of the loop, so the whole request gets 500. `SuggestFixes.FailureIsolated` and `SuggestFixes.FallbackCount` therefore describe requests whose findings are all objects.
- Property lookups on plain objects are modelled as map lookups. Keys such as `constructor`, which JavaScript resolves through the object prototype, are not modelled.
- `formData.get('file')` returning a text field instead of a file is not modelled.
- The `unknown`-language check in the upload loop (app/api/upload/route.ts:76-78) has no separate branch in the proofs. It is modelled, and `Upload.Decode` proves it never fires after `isCodeFile` accepted the name.
- SuggestFixes.SuggestFixes: requires one service outcome per finding for a parsed body with findings. The real route makes exactly that many sequential calls, so this restates the call count, not a restriction on callers.
- The service-side failures are grouped as follows:
  - a thrown call (with its Error message, or "Unknown error");
  - missing or empty content ("No response from OpenAI");
  - any throw while parsing or reading the answer, including a JSON `null` answer.
