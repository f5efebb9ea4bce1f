/** The records exchanged by the analysis routes (lib/types.ts). The
    TypeScript string-literal unions become closed datatypes; each has a
    `Name` function giving the literal that travels in JSON and a `Parse`
    function reading it back, proved mutually inverse. */
module Types {
  import opened Wrappers

  // ---------------------------------------------------------------------------
  // Severity: shared by a finding, a report's riskLevel and overallRiskLevel
  // ---------------------------------------------------------------------------

  datatype Severity = Low | Medium | High | Critical

  function SeverityName(s: Severity): string {
    match s
    case Low => "low"
    case Medium => "medium"
    case High => "high"
    case Critical => "critical"
  }

  function ParseSeverity(t: string): (r: Option<Severity>)
    ensures r.Some? <==> t in {"low", "medium", "high", "critical"}
  {
    if t == "low" then Some(Low)
    else if t == "medium" then Some(Medium)
    else if t == "high" then Some(High)
    else if t == "critical" then Some(Critical)
    else None
  }

  /** Name and Parse are inverse on the four severities. */
  lemma {:induction false} SeverityNameRoundTrip(s: Severity, t: string)
    ensures ParseSeverity(SeverityName(s)) == Some(s)
    ensures ParseSeverity(t) == Some(s) ==> SeverityName(s) == t
  {
  }

  // ---------------------------------------------------------------------------
  // Languages: seven for a code file, the six known ones for a request
  // ---------------------------------------------------------------------------

  datatype Language = Python | JavaScript | TypeScript | Bash | Go | Java | Unknown

  /** The six languages a single-snippet request may name. */
  type KnownLanguage = l: Language | l != Unknown witness Python

  function LanguageName(l: Language): string {
    match l
    case Python => "python"
    case JavaScript => "javascript"
    case TypeScript => "typescript"
    case Bash => "bash"
    case Go => "go"
    case Java => "java"
    case Unknown => "unknown"
  }

  /** Reads the language of a code file. */
  function ParseLanguage(t: string): (r: Option<Language>)
    ensures r.Some? <==> t in {"python", "javascript", "typescript", "bash", "go", "java", "unknown"}
  {
    if t == "python" then Some(Python)
    else if t == "javascript" then Some(JavaScript)
    else if t == "typescript" then Some(TypeScript)
    else if t == "bash" then Some(Bash)
    else if t == "go" then Some(Go)
    else if t == "java" then Some(Java)
    else if t == "unknown" then Some(Unknown)
    else None
  }

  /** Reads the language of a single-snippet request: "unknown" is refused. */
  function ParseRequestLanguage(t: string): (r: Option<KnownLanguage>)
    ensures r.Some? <==> t in {"python", "javascript", "typescript", "bash", "go", "java"}
    ensures r.Some? ==> ParseLanguage(t) == Some(r.value)
  {
    match ParseLanguage(t)
    case Some(l) => if l == Unknown then None else Some(l)
    case None => None
  }

  /** Name and Parse are inverse on all seven code-file languages, and on
      exactly the six known ones for a request. */
  lemma {:induction false} LanguageNameRoundTrip(l: Language, t: string)
    ensures ParseLanguage(LanguageName(l)) == Some(l)
    ensures ParseLanguage(t) == Some(l) ==> LanguageName(l) == t
    ensures ParseRequestLanguage(LanguageName(l)).Some? <==> l != Unknown
  {
  }

  // ---------------------------------------------------------------------------
  // Analysis mode
  // ---------------------------------------------------------------------------

  datatype TestType = Static | Dynamic | Both

  function TestTypeName(m: TestType): string {
    match m
    case Static => "static"
    case Dynamic => "dynamic"
    case Both => "both"
  }

  function ParseTestType(t: string): (r: Option<TestType>)
    ensures r.Some? <==> t in {"static", "dynamic", "both"}
  {
    if t == "static" then Some(Static)
    else if t == "dynamic" then Some(Dynamic)
    else if t == "both" then Some(Both)
    else None
  }

  lemma {:induction false} TestTypeNameRoundTrip(m: TestType, t: string)
    ensures ParseTestType(TestTypeName(m)) == Some(m)
    ensures ParseTestType(t) == Some(m) ==> TestTypeName(m) == t
  {
  }

  // ---------------------------------------------------------------------------
  // Records
  // ---------------------------------------------------------------------------

  /** One finding. `type` is free text (the suggestion route keys a table on
      it); location and CWE id are optional. */
  datatype Vulnerability = Vulnerability(
    kind: string,
    severity: Severity,
    description: string,
    location: Option<string>,
    cwe: Option<string>)

  datatype VulnerabilityReport = VulnerabilityReport(
    vulnerabilities: seq<Vulnerability>,
    riskLevel: Severity,
    executionOutput: Option<string>,
    executionError: Option<string>)

  /** A remediation for exactly one finding; only the fixed code is optional. */
  datatype SecuritySuggestion = SecuritySuggestion(
    vulnerability: Vulnerability,
    suggestedFix: string,
    fixedCode: Option<string>,
    explanation: string,
    preventionTips: seq<string>)

  datatype PenTestRequest = PenTestRequest(
    code: string,
    language: KnownLanguage,
    testType: Option<TestType>)

  datatype CodeFile = CodeFile(filename: string, content: string, language: Language)

  datatype MultiFilePenTestRequest = MultiFilePenTestRequest(
    files: seq<CodeFile>,
    testType: Option<TestType>)

  datatype FileAnalysisResult = FileAnalysisResult(
    filename: string,
    language: string,
    report: VulnerabilityReport,
    suggestions: seq<SecuritySuggestion>)

  datatype PenTestResponse = PenTestResponse(
    report: VulnerabilityReport,
    suggestions: seq<SecuritySuggestion>,
    sandboxId: Option<string>,
    timestamp: string)

  datatype MultiFilePenTestResponse = MultiFilePenTestResponse(
    files: seq<FileAnalysisResult>,
    overallRiskLevel: Severity,
    totalVulnerabilities: nat,
    sandboxId: Option<string>,
    timestamp: string)
}
