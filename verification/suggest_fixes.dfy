/** The fix-suggestion route (app/api/suggest-fixes/route.ts): validate the
    body, check that the text-generation service is configured, then make
    one suggestion per finding, in order, falling back to a fixed
    suggestion whenever that finding's call fails.

    The service is supplied as a sequence of call outcomes, one per
    finding; parsing the request body is supplied as its result. */
module SuggestFixes {
  import opened Wrappers
  import opened Text
  import opened Types
  import opened Http

  /** The body's three fields; a missing or null field is None. */
  datatype SuggestBody = SuggestBody(
    code: Option<string>,
    vulnerabilities: Option<seq<Vulnerability>>,
    language: Option<string>)

  /** The request body read as JSON, or why reading it threw. */
  datatype RequestBody = Parsed(body: SuggestBody) | Malformed(reason: string)

  /** What one call to the text-generation service came to. */
  datatype AiOutcome =
      /** The call threw: the Error's message, or None when the thrown value is not an Error. */
    | CallFailed(error: Option<string>)
      /** The completion carried no message content (or an empty one). */
    | NoContent
      /** The content is not JSON: the parser's message. */
    | Unparsable(parseError: string)
      /** The parsed answer's three fields, each possibly missing. */
    | Answered(explanation: Option<string>, fixedCode: Option<string>, preventionTips: Option<seq<string>>)

  const RequiredMessage: string := "Code, vulnerabilities, and language are required"
  const NotConfiguredMessage: string := "OPENAI_API_KEY not configured"
  const FailureMessage: string := "Failed to generate security suggestions"
  const NoResponseMessage: string := "No response from OpenAI"
  const UnknownErrorMessage: string := "Unknown error"
  const FailurePrefix: string := "Failed to generate AI suggestion: "
  const NoFixMessage: string := "No fix available"

  /** The tips every fallback suggestion carries. */
  const FallbackTips: seq<string> := [
    "Review the OWASP Top 10 security risks",
    "Implement input validation and sanitization",
    "Follow the principle of least privilege",
    "Keep dependencies up to date"
  ]

  /** Fallback advice for the ten known finding types. Each text is written
      as two literals joined by `+`, the first a few words long: the verifier
      reads the first character of a short literal directly, which
      `TableAdviceShape` relies on. The joined text is the advice unchanged. */
  const FallbackTable: map<string, string> := map[
    "SQL/Command Injection" :=
      "Use parameterized queries or " +
      "prepared statements. Never concatenate user input directly into SQL queries or shell commands.",
    "Cross-Site Scripting (XSS)" :=
      "Sanitize and escape all user " +
      "input before rendering. Use Content Security Policy (CSP) headers. Avoid using innerHTML or dangerouslySetInnerHTML with user data.",
    "Hardcoded Credentials" :=
      "Store credentials in " +
      "environment variables or a secure secrets manager. Never commit sensitive data to version control.",
    "Path Traversal" :=
      "Validate and sanitize file " +
      "paths. Use allowlists for permitted paths. Implement proper access controls.",
    "Insecure Deserialization" :=
      "Validate data before " +
      "deserialization. Use safe alternatives like JSON. Implement integrity checks.",
    "Weak Cryptography" :=
      "Use modern cryptographic " +
      "algorithms (AES-256, SHA-256+). Implement proper key management. Use TLS 1.2+ for network communications.",
    "Open Redirect" :=
      "Validate redirect URLs " +
      "against an allowlist. Avoid using user input directly in redirect functions.",
    "Insufficient Input Validation" :=
      "Implement strict input " +
      "validation. Use allowlists over denylists. Sanitize all user input.",
    "Insecure Randomness" :=
      "Use cryptographically secure " +
      "random number generators (crypto.randomBytes, secrets module).",
    "Server-Side Request Forgery (SSRF)" :=
      "Validate and sanitize URLs. " +
      "Implement allowlists for permitted domains. Use network segmentation."
  ]

  /** Every piece of table advice is non-empty and starts with neither 'F'
      nor 'N'. */
  lemma {:induction false} TableAdviceShape(kind: string)
    requires kind in FallbackTable
    ensures |FallbackTable[kind]| > 0
    ensures FallbackTable[kind][0] != 'F' && FallbackTable[kind][0] != 'N'
  {
  }

  /** Advice for a finding type outside the table (split as above). */
  const GenericFallback: string :=
    "Review security best " +
    "practices for this vulnerability type. Consult OWASP guidelines."

  /** JavaScript falsiness of an optional text field: missing or empty. */
  predicate Falsy(s: Option<string>) {
    s.None? || s.value == ""
  }

  // ---------------------------------------------------------------------------
  // One finding
  // ---------------------------------------------------------------------------

  /** `getFallbackSuggestion`: the table's advice for a known type, the
      generic advice otherwise; never empty, and never beginning the way
      a service-provided fix or the failure text can be told apart by. */
  function FallbackSuggestion(v: Vulnerability): (r: string)
    ensures v.kind in FallbackTable ==> r == FallbackTable[v.kind]
    ensures v.kind !in FallbackTable ==> r == GenericFallback
    ensures |r| > 0 && r[0] != 'F' && r[0] != 'N'
  {
    if v.kind in FallbackTable then
      TableAdviceShape(v.kind);
      FallbackTable[v.kind]
    else
      GenericFallback
  }

  /** The message a failed call leaves in the fallback's explanation: the
      thrown Error's message, "Unknown error" for a thrown value that is no
      Error, "No response from OpenAI" for missing content, and the parser's
      message for content that is not JSON. */
  function FailureReason(o: AiOutcome): (m: string)
    requires !o.Answered?
    ensures o == CallFailed(None) ==> m == UnknownErrorMessage
    ensures o.CallFailed? && o.error.Some? ==> m == o.error.value
    ensures o.NoContent? ==> m == NoResponseMessage
    ensures o.Unparsable? ==> m == o.parseError
  {
    match o
    case CallFailed(error) => error.GetOr(UnknownErrorMessage)
    case NoContent => NoResponseMessage
    case Unparsable(parseError) => parseError
  }

  /** The suggestion for one finding given its call's outcome. An answer's
      missing or empty explanation becomes "No fix available" as the fix
      and "" as the explanation, missing tips become none, and the fixed
      code is passed through; any failure gives the fallback. */
  function SuggestionFor(v: Vulnerability, o: AiOutcome): (s: SecuritySuggestion)
    ensures s.vulnerability == v
    ensures |s.suggestedFix| > 0
    ensures o.Answered? ==> s.fixedCode == o.fixedCode
    ensures o.Answered? && !Falsy(o.explanation) ==>
      s.suggestedFix == s.explanation == o.explanation.value
    ensures o.Answered? && Falsy(o.explanation) ==>
      s.suggestedFix == NoFixMessage && s.explanation == ""
    ensures o.Answered? ==> s.preventionTips == o.preventionTips.GetOr([])
    ensures !o.Answered? ==>
      && s.suggestedFix == FallbackSuggestion(v)
      && s.fixedCode.None?
      && StartsWith(s.explanation, FailurePrefix)
      && s.explanation == FailurePrefix + FailureReason(o)
      && s.preventionTips == FallbackTips
  {
    match o
    case Answered(explanation, fixedCode, tips) =>
      SecuritySuggestion(
        v,
        if Falsy(explanation) then NoFixMessage else explanation.value,
        fixedCode,
        if Falsy(explanation) then "" else explanation.value,
        tips.GetOr([]))
    case _ =>
      var explanation := FailurePrefix + FailureReason(o);
      assert explanation[..|FailurePrefix|] == FailurePrefix;
      SecuritySuggestion(v, FallbackSuggestion(v), None, explanation, FallbackTips)
  }

  /** The marks of a fallback suggestion. */
  predicate IsFallback(s: SecuritySuggestion) {
    && s.suggestedFix == FallbackSuggestion(s.vulnerability)
    && s.fixedCode.None?
    && StartsWith(s.explanation, FailurePrefix)
    && s.preventionTips == FallbackTips
  }

  /** A suggestion is a fallback exactly when its call failed: a service
      answer can never be mistaken for one, whatever it says. */
  lemma {:induction false} FallbackIffFailure(v: Vulnerability, o: AiOutcome)
    ensures IsFallback(SuggestionFor(v, o)) <==> !o.Answered?
  {
    var s := SuggestionFor(v, o);
    if o.Answered? {
      var fallback := FallbackSuggestion(v);
      if Falsy(o.explanation) {
        assert s.suggestedFix[0] == 'N';
      } else if StartsWith(s.explanation, FailurePrefix) {
        assert s.suggestedFix[0] == FailurePrefix[0] == 'F';
      }
    }
  }

  // ---------------------------------------------------------------------------
  // All findings
  // ---------------------------------------------------------------------------

  /** The loop over the findings: one suggestion each, in order, the i-th
      made from the i-th finding and the i-th outcome alone. */
  function Assemble(vulns: seq<Vulnerability>, outcomes: seq<AiOutcome>): (r: seq<SecuritySuggestion>)
    requires |outcomes| == |vulns|
    ensures |r| == |vulns|
    ensures forall i :: 0 <= i < |r| ==> r[i] == SuggestionFor(vulns[i], outcomes[i])
    decreases |vulns|
  {
    if |vulns| == 0 then []
    else
      var rest := Assemble(vulns[1..], outcomes[1..]);
      var r := [SuggestionFor(vulns[0], outcomes[0])] + rest;
      assert forall i :: 1 <= i < |r| ==> r[i] == rest[i - 1];
      r
  }

  /** Changing one finding's outcome changes no other finding's suggestion. */
  lemma {:induction false} FailureIsolated(
    vulns: seq<Vulnerability>, outcomes: seq<AiOutcome>, outcomes': seq<AiOutcome>, j: nat)
    requires |outcomes| == |outcomes'| == |vulns|
    requires forall i :: 0 <= i < |vulns| && i != j ==> outcomes[i] == outcomes'[i]
    ensures forall i :: 0 <= i < |vulns| && i != j ==>
      Assemble(vulns, outcomes)[i] == Assemble(vulns, outcomes')[i]
  {
  }

  function CountFallbacks(ss: seq<SecuritySuggestion>): nat {
    if |ss| == 0 then 0 else (if IsFallback(ss[0]) then 1 else 0) + CountFallbacks(ss[1..])
  }

  function CountFailures(os: seq<AiOutcome>): nat {
    if |os| == 0 then 0 else (if os[0].Answered? then 0 else 1) + CountFailures(os[1..])
  }

  /** As many fallbacks as failed calls: with one failure among three
      findings, three suggestions of which exactly one is a fallback. */
  lemma {:induction false} FallbackCount(vulns: seq<Vulnerability>, outcomes: seq<AiOutcome>)
    requires |outcomes| == |vulns|
    ensures CountFallbacks(Assemble(vulns, outcomes)) == CountFailures(outcomes)
    decreases |vulns|
  {
    if |vulns| > 0 {
      var r := Assemble(vulns, outcomes);
      FallbackIffFailure(vulns[0], outcomes[0]);
      FallbackCount(vulns[1..], outcomes[1..]);
      assert r[1..] == Assemble(vulns[1..], outcomes[1..]);
    }
  }

  // ---------------------------------------------------------------------------
  // The route
  // ---------------------------------------------------------------------------

  /** code, vulnerabilities and language are all truthy; an empty list of
      findings is truthy. */
  predicate ValidBody(b: SuggestBody) {
    !Falsy(b.code) && b.vulnerabilities.Some? && !Falsy(b.language)
  }

  /** The service is asked once per finding of a body that carries findings. */
  predicate OneOutcomePerFinding(req: RequestBody, outcomes: seq<AiOutcome>) {
    req.Parsed? && req.body.vulnerabilities.Some? ==> |outcomes| == |req.body.vulnerabilities.value|
  }

  /** `POST /api/suggest-fixes`: an unreadable body gives 500; a body
      missing code, findings or language gives 400; then a missing API key
      gives 500; otherwise one suggestion per finding, in order. */
  function SuggestFixes(req: RequestBody, apiKey: Option<string>, outcomes: seq<AiOutcome>)
    : (r: Response<seq<SecuritySuggestion>>)
    requires OneOutcomePerFinding(req, outcomes)
    ensures r.Ok? <==> req.Parsed? && ValidBody(req.body) && !Falsy(apiKey)
    ensures r.Ok? ==>
      var vulns := req.body.vulnerabilities.value;
      && |r.body| == |vulns|
      && forall i :: 0 <= i < |vulns| ==>
           r.body[i].vulnerability == vulns[i] && r.body[i] == SuggestionFor(vulns[i], outcomes[i])
    ensures req.Malformed? ==> r == Error(InternalServerError, FailureMessage, Some(req.reason))
    ensures req.Parsed? && !ValidBody(req.body) ==> r == Error(BadRequest, RequiredMessage, None)
    ensures req.Parsed? && ValidBody(req.body) && Falsy(apiKey) ==>
      r == Error(InternalServerError, NotConfiguredMessage, None)
  {
    match req
    case Malformed(reason) => Error(InternalServerError, FailureMessage, Some(reason))
    case Parsed(body) =>
      if Falsy(body.code) || body.vulnerabilities.None? || Falsy(body.language) then
        Error(BadRequest, RequiredMessage, None)
      else if Falsy(apiKey) then
        Error(InternalServerError, NotConfiguredMessage, None)
      else
        Ok(Assemble(body.vulnerabilities.value, outcomes))
  }

  /** Validation comes before the configuration check, an empty code string
      is refused, and an empty list of findings is accepted. */
  lemma {:induction false} ValidationOrder(code: string, vulns: seq<Vulnerability>, language: string, apiKey: Option<string>)
    requires |vulns| == 0
    ensures SuggestFixes(Parsed(SuggestBody(Some(""), Some(vulns), Some(language))), None, [])
      == Error(BadRequest, RequiredMessage, None)
    ensures code != "" && language != "" && !Falsy(apiKey) ==>
      SuggestFixes(Parsed(SuggestBody(Some(code), Some(vulns), Some(language))), apiKey, []) == Ok([])
  {
  }
}
