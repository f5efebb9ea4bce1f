/** Classification of archive entry names (lib/file-utils.ts): which paths
    count as code files and which language an extension stands for, plus
    the two upload limits. */
module FileUtils {
  import opened Wrappers
  import opened Text
  import opened Types

  /** 250 MiB: the largest accepted upload, in bytes. */
  const MaxFileSize: nat := 250 * 1024 * 1024

  /** The most code files one archive may contribute. */
  const MaxFiles: nat := 50

  /** The extension-to-language table. */
  const LanguageMap: map<string, Language> := map[
    "py" := Python,
    "js" := JavaScript,
    "jsx" := JavaScript,
    "ts" := TypeScript,
    "tsx" := TypeScript,
    "sh" := Bash,
    "bash" := Bash,
    "go" := Go,
    "java" := Java
  ]

  /** The extension allowlist of `isCodeFile`. */
  const CodeExtensions: seq<string> := ["py", "js", "jsx", "ts", "tsx", "sh", "bash", "go", "java"]

  /** Exact basenames that are never code, compared case-sensitively. */
  const SkipFiles: seq<string> := [
    "package-lock.json",
    "package.json",
    "tsconfig.json",
    ".gitignore",
    ".env",
    "README.md",
    "LICENSE"
  ]

  /** Directory names rejected wherever they occur in the path, as plain substrings. */
  const SkippedDirectories: seq<string> := ["node_modules/", "__pycache__/", ".git/", "dist/", "build/"]

  /** The lower-cased text after the last '.' of the whole path; the whole
      lower-cased path when it has no '.'. */
  function Extension(filename: string): string {
    ToLower(AfterLast(filename, '.'))
  }

  /** The text after the last '/'. */
  function Basename(filename: string): string {
    AfterLast(filename, '/')
  }

  /** `detectLanguageFromFilename`: total; `Unknown` exactly for an
      extension outside the table. */
  function DetectLanguage(filename: string): (l: Language)
    ensures l == Unknown <==> Extension(filename) !in LanguageMap
  {
    var ext := Extension(filename);
    if ext in LanguageMap then LanguageMap[ext] else Unknown
  }

  predicate IsSkippedName(filename: string) {
    Basename(filename) in SkipFiles
  }

  predicate IsHidden(filename: string) {
    StartsWith(Basename(filename), ".")
  }

  predicate InSkippedDirectory(filename: string) {
    exists d | d in SkippedDirectories :: Contains(filename, d)
  }

  /** The three exclusion rules that come before the extension test. */
  predicate IsExcluded(filename: string) {
    IsSkippedName(filename) || IsHidden(filename) || InSkippedDirectory(filename)
  }

  /** `isCodeFile`: skip list, then hidden files, then directory denylist,
      then the extension allowlist. */
  function IsCodeFile(filename: string): (b: bool)
    ensures b ==> DetectLanguage(filename) != Unknown
  {
    if IsSkippedName(filename) then false
    else if IsHidden(filename) then false
    else if InSkippedDirectory(filename) then false
    else Extension(filename) in CodeExtensions
  }

  // ---------------------------------------------------------------------------
  // Properties
  // ---------------------------------------------------------------------------

  /** The allowlist and the table's keys are the same nine extensions. */
  lemma {:induction false} CodeExtensionsAreTableKeys()
    ensures forall e :: e in CodeExtensions <==> e in LanguageMap
  {
  }

  /** A code file is exactly a non-excluded path whose language is known. */
  lemma {:induction false} CodeFileIffKnownLanguage(filename: string)
    ensures IsCodeFile(filename) <==> !IsExcluded(filename) && DetectLanguage(filename) != Unknown
  {
    CodeExtensionsAreTableKeys();
  }

  /** The extension is the lower-cased text after the last '.', or the whole
      lower-cased name when it has no '.'. */
  lemma {:induction false} ExtensionShape(stem: string, ext: string)
    requires '.' !in ext
    ensures Extension(stem + "." + ext) == ToLower(ext)
    ensures '.' !in stem ==> Extension(stem) == ToLower(stem)
  {
    AfterLastOfJoin(stem, '.', ext);
    assert stem + "." + ext == stem + ['.'] + ext;
  }

  /** Extension matching ignores case: two names equal up to case get the
      same language. */
  lemma {:induction false} DetectLanguageIgnoresCase(f: string, g: string)
    requires ToLower(f) == ToLower(g)
    ensures DetectLanguage(f) == DetectLanguage(g)
  {
    AfterLastToLower(f, '.');
    AfterLastToLower(g, '.');
    assert Extension(f) == AfterLast(ToLower(f), '.');
    assert Extension(g) == AfterLast(ToLower(g), '.');
  }

  /** The table in use: for any stem and any capitalisation of the
      extension, jsx is JavaScript, tsx is TypeScript, and both sh and bash
      are Bash, and so on for the nine keys. */
  lemma {:induction false} LanguageOfExtension(stem: string, ext: string)
    requires '.' !in ext
    ensures ToLower(ext) == "py" ==> DetectLanguage(stem + "." + ext) == Python
    ensures ToLower(ext) in {"js", "jsx"} ==> DetectLanguage(stem + "." + ext) == JavaScript
    ensures ToLower(ext) in {"ts", "tsx"} ==> DetectLanguage(stem + "." + ext) == TypeScript
    ensures ToLower(ext) in {"sh", "bash"} ==> DetectLanguage(stem + "." + ext) == Bash
    ensures ToLower(ext) == "go" ==> DetectLanguage(stem + "." + ext) == Go
    ensures ToLower(ext) == "java" ==> DetectLanguage(stem + "." + ext) == Java
    ensures ToLower(ext) !in CodeExtensions ==> DetectLanguage(stem + "." + ext) == Unknown
  {
    ExtensionShape(stem, ext);
    var e := ToLower(ext);
    assert Extension(stem + "." + ext) == e;
    CodeExtensionsAreTableKeys();
  }

  /** A skip-listed basename is never code, whatever directory holds it. */
  lemma {:induction false} SkipFilesRejected(dir: string, name: string)
    requires name in SkipFiles
    ensures !IsCodeFile(dir + "/" + name)
    ensures '/' !in name ==> !IsCodeFile(name)
  {
    assert '/' !in name;
    AfterLastOfJoin(dir, '/', name);
    assert dir + "/" + name == dir + ['/'] + name;
  }

  /** A basename starting with '.' is never code. */
  lemma {:induction false} HiddenRejected(dir: string, name: string)
    requires '/' !in name && StartsWith(name, ".")
    ensures !IsCodeFile(dir + "/" + name)
    ensures !IsCodeFile(name)
  {
    AfterLastOfJoin(dir, '/', name);
    assert dir + "/" + name == dir + ['/'] + name;
    assert Basename(name) == name;
  }

  /** A path missing one of the characters of `d` does not contain `d`. */
  lemma {:induction false} MissingCharNotContained(s: string, d: string, c: char)
    requires c in d && c !in s
    ensures !Contains(s, d)
  {
  }

  /** The example path of `HiddenDirectoryAccepted`. */
  const CachedScript: string := "src/.cache/a.py"

  lemma {:induction false} CachedScriptBasename()
    ensures Basename(CachedScript) == "a.py"
  {
    assert CachedScript == "src/.cache" + ['/'] + "a.py";
    AfterLastOfJoin("src/.cache", '/', "a.py");
  }

  lemma {:induction false} CachedScriptExtension()
    ensures Extension(CachedScript) == "py"
  {
    assert CachedScript == "src/.cache/a" + ['.'] + "py";
    AfterLastOfJoin("src/.cache/a", '.', "py");
    assert ToLower("py") == "py";
  }

  lemma {:induction false} CachedScriptLetters()
    ensures 'n' !in CachedScript && '_' !in CachedScript && 't' !in CachedScript && 'b' !in CachedScript
  {
  }

  lemma {:induction false} CachedScriptNotDenylisted()
    ensures !InSkippedDirectory(CachedScript)
  {
    var f := CachedScript;
    CachedScriptLetters();
    MissingCharNotContained(f, "node_modules/", 'n');
    MissingCharNotContained(f, "__pycache__/", '_');
    MissingCharNotContained(f, ".git/", 't');
    MissingCharNotContained(f, "dist/", 't');
    MissingCharNotContained(f, "build/", 'b');
  }

  /** Only the basename is tested for a leading '.', so a file inside a
      hidden directory other than `.git/` is code, although the comment
      above that test speaks of hidden directories too. */
  lemma {:induction false} HiddenDirectoryAccepted()
    ensures IsCodeFile(CachedScript)
  {
    CachedScriptBasename();
    CachedScriptExtension();
    CachedScriptNotDenylisted();
    assert "a.py"[..1][0] == 'a';
  }

  /** A denylisted directory name anywhere in the path rejects it, even as
      the tail of a longer name: `mydist/a.py` is not code. */
  lemma {:induction false} SkippedDirectoryRejected(before: string, d: string, after: string)
    requires d in SkippedDirectories
    ensures !IsCodeFile(before + d + after)
  {
    ContainsInfix(before, d, after);
  }

  /** `mydist/a.py` is rejected: "dist/" occurs in it, though no directory is called dist. */
  lemma {:induction false} SubstringNotSegment()
    ensures !IsCodeFile("mydist/a.py")
  {
    SkippedDirectoryRejected("my", "dist/", "a.py");
    assert "my" + "dist/" + "a.py" == "mydist/a.py";
  }

  /** A manifest keeps its skip-listed name when it sits in a directory. */
  lemma {:induction false} NestedManifestRejected()
    ensures !IsCodeFile("app/package.json")
  {
    assert "app" + "/" + "package.json" == "app/package.json";
    SkipFilesRejected("app", "package.json");
  }

  /** An upper-case extension is recognised. */
  lemma {:induction false} UpperCaseExtension()
    ensures DetectLanguage("src/App.TSX") == TypeScript
  {
    assert "src/App" + "." + "TSX" == "src/App.TSX";
    assert ToLower("TSX") == "tsx";
    LanguageOfExtension("src/App", "TSX");
  }
}
