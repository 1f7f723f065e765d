/**
 * scripts/process-branding.js: resolve two names from the environment,
 * then, for each of a fixed list of web-manifest files, substitute the
 * `{{APP_NAME}}` and `{{APP_SHORT_NAME}}` placeholders and write the file
 * back, catching any error so that the remaining files are still handled.
 *
 * The file system is a `FileSystem` object: a map from path to content
 * plus the paths whose read or write throws. Paths are the relative entries
 * of the list; joining them with the working directory is not modelled.
 */
module Branding {
  import opened Wrappers
  import C = AppConstants
  import opened TextReplace

  const APP_NAME_TOKEN := "{{APP_NAME}}"
  const APP_SHORT_NAME_TOKEN := "{{APP_SHORT_NAME}}"
  const FALLBACK_NAME := "Documenso"

  /** The files the script rewrites, in the order it visits them. */
  const WEBMANIFEST_FILES: seq<string> := [
    "apps/remix/public/site.webmanifest",
    "packages/assets/site.webmanifest"
  ]

  datatype Names = Names(appName: string, appShortName: string)

  /** `process.env[name] || 'Documenso'`: unset and empty both fall back. */
  function NameOr(env: C.Env, name: string): (r: string)
    ensures r != []
    ensures name in env && env[name] != "" ==> r == env[name]
    ensures name !in env || env[name] == "" ==> r == "Documenso"
  {
    if name in env && env[name] != "" then env[name] else FALLBACK_NAME
  }

  /** The two names the script substitutes; neither can be empty. */
  function ResolveNames(env: C.Env): (n: Names)
    ensures n.appName != [] && n.appShortName != []
    ensures n.appName == NameOr(env, C.NEXT_PUBLIC_APP_NAME)
    ensures n.appShortName == NameOr(env, C.NEXT_PUBLIC_APP_SHORT_NAME)
  {
    Names(NameOr(env, C.NEXT_PUBLIC_APP_NAME), NameOr(env, C.NEXT_PUBLIC_APP_SHORT_NAME))
  }

  /**
   * The script's `||` and the runtime resolver's `??` agree on the
   * application name except when the variable is set to the empty string.
   */
  lemma ScriptNameAgreesWithResolver(env: C.Env)
    ensures ResolveNames(env).appName == C.AppName(env)
            <==> !(C.NEXT_PUBLIC_APP_NAME in env && env[C.NEXT_PUBLIC_APP_NAME] == "")
    ensures ResolveNames(env).appShortName == C.AppShortName(env)
            <==> !(C.NEXT_PUBLIC_APP_SHORT_NAME in env && env[C.NEXT_PUBLIC_APP_SHORT_NAME] == "")
  {
  }

  /** The two chained `replace` calls: the application name goes first. */
  function Substitute(content: string, names: Names): (r: string)
    ensures r == Join(Split(Join(Split(content, APP_NAME_TOKEN), names.appName), APP_SHORT_NAME_TOKEN), names.appShortName)
    ensures names.appName == APP_NAME_TOKEN && names.appShortName == APP_SHORT_NAME_TOKEN ==> r == content
  {
    ReplaceAllIsJoinOfSplit(content, APP_NAME_TOKEN, names.appName);
    ReplaceAllIsJoinOfSplit(ReplaceAll(content, APP_NAME_TOKEN, names.appName), APP_SHORT_NAME_TOKEN, names.appShortName);
    ReplaceAll(ReplaceAll(content, APP_NAME_TOKEN, names.appName), APP_SHORT_NAME_TOKEN, names.appShortName)
  }

  predicate TokenFree(s: string) {
    !Contains(s, APP_NAME_TOKEN) && !Contains(s, APP_SHORT_NAME_TOKEN)
  }

  /** Content without placeholders is written back unchanged. */
  lemma SubstituteUntouched(content: string, names: Names)
    requires TokenFree(content)
    ensures Substitute(content, names) == content
  {
    ReplaceAllWithoutOccurrence(content, APP_NAME_TOKEN, names.appName);
    ReplaceAllWithoutOccurrence(content, APP_SHORT_NAME_TOKEN, names.appShortName);
  }

  /** A second pass changes nothing when the first left no placeholder behind. */
  lemma SubstituteIdempotentWhenClean(content: string, names: Names)
    requires TokenFree(Substitute(content, names))
    ensures Substitute(Substitute(content, names), names) == Substitute(content, names)
  {
    SubstituteUntouched(Substitute(content, names), names);
  }

  /** A brace-delimited name that is not one of the two placeholders. */
  const OTHER_PLACEHOLDER := "{{OTHER}}"

  /** A placeholder cannot end inside `{{OTHER}}`: it would have to end in "{{". */
  lemma NoTokenEntersOther(x: string, y: string, token: string)
    requires token == APP_NAME_TOKEN || token == APP_SHORT_NAME_TOKEN
    ensures NoStraddle(x, OTHER_PLACEHOLDER + y, token)
  {
    var s := x + (OTHER_PLACEHOLDER + y);
    forall j | 0 <= j < |x| && j + |token| > |x| ensures !OccursAt(s, token, j) {
      // The placeholder would have to match one of the two opening braces of
      // `{{OTHER}}` with a character after its own opening pair.
      var m := if |x| - j == 1 then 2 else |x| - j;
      assert s[j + m] == '{' && token[m] != '{';
    }
  }

  /** A placeholder cannot start inside `{{OTHER}}`: only its first two characters are braces. */
  lemma NoTokenLeavesOther(y: string, token: string)
    requires token == APP_NAME_TOKEN || token == APP_SHORT_NAME_TOKEN
    ensures NoStraddle(OTHER_PLACEHOLDER, y, token)
  {
    var s := OTHER_PLACEHOLDER + y;
    forall j | 0 <= j < |OTHER_PLACEHOLDER| && j + |token| > |OTHER_PLACEHOLDER| ensures !OccursAt(s, token, j) {
      // Either the `O` of `{{OTHER}}` meets the placeholder's opening pair, or
      // the placeholder's first brace meets a character that is not one.
      var m := if j < 2 then 2 - j else 0;
      assert s[j + m] != token[m];
    }
  }

  /** One replacement pass leaves `{{OTHER}}` in place and works on each side of it alone. */
  lemma ReplaceAroundOther(a: string, b: string, token: string, rep: string)
    requires token == APP_NAME_TOKEN || token == APP_SHORT_NAME_TOKEN
    ensures ReplaceAll(a + OTHER_PLACEHOLDER + b, token, rep)
            == ReplaceAll(a, token, rep) + OTHER_PLACEHOLDER + ReplaceAll(b, token, rep)
  {
    assert a + OTHER_PLACEHOLDER + b == a + (OTHER_PLACEHOLDER + b);
    NoTokenEntersOther(a, b, token);
    ReplaceAllDistributes(a, OTHER_PLACEHOLDER + b, token, rep);
    NoTokenLeavesOther(b, token);
    ReplaceAllDistributes(OTHER_PLACEHOLDER, b, token, rep);
    ShortTextIsTokenFree(OTHER_PLACEHOLDER);
    ReplaceAllWithoutOccurrence(OTHER_PLACEHOLDER, token, rep);
    assert ReplaceAll(a + (OTHER_PLACEHOLDER + b), token, rep)
           == ReplaceAll(a, token, rep) + (OTHER_PLACEHOLDER + ReplaceAll(b, token, rep));
  }

  /**
   * Other brace-delimited text is not a placeholder: wherever `{{OTHER}}`
   * stands in the content, it is kept, and the text on each side is
   * substituted as if on its own.
   */
  lemma OtherPlaceholderUntouched(a: string, b: string, names: Names)
    ensures Substitute(a + OTHER_PLACEHOLDER + b, names)
            == Substitute(a, names) + OTHER_PLACEHOLDER + Substitute(b, names)
  {
    ReplaceAroundOther(a, b, APP_NAME_TOKEN, names.appName);
    ReplaceAroundOther(ReplaceAll(a, APP_NAME_TOKEN, names.appName), ReplaceAll(b, APP_NAME_TOKEN, names.appName),
                       APP_SHORT_NAME_TOKEN, names.appShortName);
  }

  lemma ReformsFromInnerToken()
    ensures ReplaceAll("{{APP_NAME}}}}", APP_NAME_TOKEN, "APP_NAME") == "APP_NAME}}"
  {
    var s := "{{APP_NAME}}}}";
    assert OccursAt(s, APP_NAME_TOKEN, 0) && s[12..] == "}}";
    ReplaceAllMatch(s, APP_NAME_TOKEN, "APP_NAME");
    assert ReplaceAll("}}", APP_NAME_TOKEN, "APP_NAME") == "}}";
  }

  lemma ReformsKeepsBrace()
    ensures ReplaceAll("{{{APP_NAME}}}}", APP_NAME_TOKEN, "APP_NAME") == "{APP_NAME}}"
  {
    var s := "{{{APP_NAME}}}}";
    assert s[..12] == "{{{APP_NAME}" && s[1..] == "{{APP_NAME}}}}";
    ReplaceAllSkip(s, APP_NAME_TOKEN, "APP_NAME");
    ReformsFromInnerToken();
  }

  /** Replacing "{{APP_NAME}}" by "APP_NAME" in "{{{{APP_NAME}}}}" re-forms it. */
  lemma NestedPlaceholderReforms()
    ensures ReplaceAll("{{{{APP_NAME}}}}", APP_NAME_TOKEN, "APP_NAME") == "{{APP_NAME}}"
  {
    var s := "{{{{APP_NAME}}}}";
    assert s[..12] == "{{{{APP_NAME" && s[1..] == "{{{APP_NAME}}}}";
    ReplaceAllSkip(s, APP_NAME_TOKEN, "APP_NAME");
    ReformsKeepsBrace();
  }

  /** Text shorter than a placeholder cannot contain one. */
  lemma ShortTextIsTokenFree(s: string)
    requires |s| < |APP_NAME_TOKEN|
    ensures TokenFree(s)
  {
  }

  /**
   * Idempotence is not unconditional: with the application name set to
   * "APP_NAME", removing the inner placeholder of "{{{{APP_NAME}}}}" forms
   * a new one, which a second pass replaces again.
   */
  lemma NotIdempotentInGeneral(shortName: string)
    ensures var names := Names("APP_NAME", shortName);
            && Substitute("{{{{APP_NAME}}}}", names) == "{{APP_NAME}}"
            && Substitute(Substitute("{{{{APP_NAME}}}}", names), names) == "APP_NAME"
  {
    NestedPlaceholderReforms();
    ReplaceAllWithoutOccurrence("{{APP_NAME}}", APP_SHORT_NAME_TOKEN, shortName);
    assert OccursAt("{{APP_NAME}}", APP_NAME_TOKEN, 0);
    ReplaceAllMatch("{{APP_NAME}}", APP_NAME_TOKEN, "APP_NAME");
    ShortTextIsTokenFree("APP_NAME");
    ReplaceAllWithoutOccurrence("APP_NAME", APP_SHORT_NAME_TOKEN, shortName);
  }

  /** The short-name placeholder inside the application name is replaced too. */
  lemma AppNameSubstitutedFirst(shortName: string)
    ensures Substitute("{{APP_NAME}}", Names("{{APP_SHORT_NAME}}", shortName)) == shortName
  {
    assert ReplaceAll("{{APP_NAME}}", APP_NAME_TOKEN, "{{APP_SHORT_NAME}}") == "{{APP_SHORT_NAME}}";
    assert ReplaceAll("{{APP_SHORT_NAME}}", APP_SHORT_NAME_TOKEN, shortName) == shortName;
  }

  /** `error.message` is not modelled; only which call threw. */
  datatype IoError = ReadError | WriteError

  /** The per-file log line: processed, not found, or error. */
  datatype FileOutcome =
    | Processed(path: string)
    | NotFound(path: string)
    | Failed(path: string, error: IoError)

  /** A snapshot of the file system. */
  datatype Disk = Disk(files: map<string, string>, readFailures: set<string>, writeFailures: set<string>)

  class FileSystem {
    var files: map<string, string>
    /** Paths whose `readFileSync` throws although they exist. */
    const readFailures: set<string>
    /** Paths whose `writeFileSync` throws; the file is then left as it was. */
    const writeFailures: set<string>

    constructor (files: map<string, string>, readFailures: set<string>, writeFailures: set<string>)
      ensures State() == Disk(files, readFailures, writeFailures)
    {
      this.files := files;
      this.readFailures := readFailures;
      this.writeFailures := writeFailures;
    }

    function State(): Disk
      reads this
    {
      Disk(files, readFailures, writeFailures)
    }

    /** `fs.existsSync(path)`. */
    method ExistsSync(path: string) returns (b: bool)
      ensures b <==> path in files
    {
      b := path in files;
    }

    /** `fs.readFileSync(path, 'utf8')`: throws for a missing or unreadable file. */
    method ReadFileSync(path: string) returns (r: Result<string, IoError>)
      ensures r.Success? <==> path in files && path !in readFailures
      ensures r.Success? ==> r.value == files[path]
      ensures r.Failure? ==> r.error == ReadError
    {
      if path in files && path !in readFailures {
        r := Success(files[path]);
      } else {
        r := Failure(ReadError);
      }
    }

    /** `fs.writeFileSync(path, content, 'utf8')`: creates or overwrites. */
    method WriteFileSync(path: string, content: string) returns (ok: bool)
      modifies this
      ensures ok <==> path !in writeFailures
      ensures files == if ok then old(files)[path := content] else old(files)
    {
      ok := path !in writeFailures;
      if ok {
        files := files[path := content];
      }
    }
  }

  /** What `processFile(path)` logs. */
  function ProcessFileOutcome(d: Disk, path: string): (r: FileOutcome)
    ensures r.path == path && !r.NotFound?
    ensures r.Processed? <==> path in d.files && path !in d.readFailures && path !in d.writeFailures
    ensures r == Failed(path, ReadError) <==> path !in d.files || path in d.readFailures
    ensures r == Failed(path, WriteError) ==> path in d.files && path !in d.readFailures
  {
    if path !in d.files || path in d.readFailures then Failed(path, ReadError)
    else if path in d.writeFailures then Failed(path, WriteError)
    else Processed(path)
  }

  /** The file system after `processFile(path)`. */
  function ProcessFileEffect(d: Disk, path: string, names: Names): (r: Disk)
    ensures r.files.Keys == d.files.Keys
    ensures r.readFailures == d.readFailures && r.writeFailures == d.writeFailures
    ensures forall p :: p in d.files && p != path ==> r.files[p] == d.files[p]
    ensures path in d.files ==> r.files[path] == (if ProcessFileOutcome(d, path).Processed?
                                                   then Substitute(d.files[path], names) else d.files[path])
  {
    if ProcessFileOutcome(d, path).Processed?
    then d.(files := d.files[path := Substitute(d.files[path], names)])
    else d
  }

  /** One iteration of the `forEach`: skip a missing file, else process it. */
  function VisitOutcome(d: Disk, path: string): (r: FileOutcome)
    ensures r.path == path
    ensures r.NotFound? <==> path !in d.files
  {
    if path in d.files then ProcessFileOutcome(d, path) else NotFound(path)
  }

  function Visit(d: Disk, path: string, names: Names): (r: Disk)
    ensures r.files.Keys == d.files.Keys
    ensures r.readFailures == d.readFailures && r.writeFailures == d.writeFailures
    ensures path !in d.files ==> r == d
    ensures path in d.files ==> r == ProcessFileEffect(d, path, names)
    ensures forall p :: p in d.files && p != path ==> r.files[p] == d.files[p]
  {
    if path in d.files then ProcessFileEffect(d, path, names) else d
  }

  /** The file system after visiting `paths` in order. */
  function Run(d: Disk, paths: seq<string>, names: Names): (r: Disk)
    ensures r.files.Keys == d.files.Keys
    ensures r.readFailures == d.readFailures && r.writeFailures == d.writeFailures
    decreases |paths|
  {
    if paths == [] then d
    else Visit(Run(d, paths[..|paths| - 1], names), paths[|paths| - 1], names)
  }

  /** The log of visiting `paths` in order, one outcome per path. */
  function Report(d: Disk, paths: seq<string>, names: Names): (r: seq<FileOutcome>)
    ensures |r| == |paths|
    decreases |paths|
  {
    if paths == [] then []
    else
      var before := paths[..|paths| - 1];
      Report(d, before, names) + [VisitOutcome(Run(d, before, names), paths[|paths| - 1])]
  }

  /** `processFile(filePath)`: the try block with its catch. */
  method ProcessFile(fs: FileSystem, path: string, names: Names) returns (outcome: FileOutcome)
    modifies fs
    ensures outcome == ProcessFileOutcome(old(fs.State()), path)
    ensures fs.State() == ProcessFileEffect(old(fs.State()), path, names)
  {
    var read := fs.ReadFileSync(path);
    match read
    case Failure(e) =>
      outcome := Failed(path, e);
    case Success(content) =>
      content := ReplaceAll(content, APP_NAME_TOKEN, names.appName);
      content := ReplaceAll(content, APP_SHORT_NAME_TOKEN, names.appShortName);
      var ok := fs.WriteFileSync(path, content);
      outcome := if ok then Processed(path) else Failed(path, WriteError);
  }

  /** The body of the `forEach`: process the file if it exists, else log it as missing. */
  method VisitFile(fs: FileSystem, path: string, names: Names) returns (outcome: FileOutcome)
    modifies fs
    ensures outcome == VisitOutcome(old(fs.State()), path)
    ensures fs.State() == Visit(old(fs.State()), path, names)
  {
    var found := fs.ExistsSync(path);
    if found {
      outcome := ProcessFile(fs, path, names);
    } else {
      outcome := NotFound(path);
    }
  }

  /** The `forEach` over the file list. */
  method ProcessAll(fs: FileSystem, paths: seq<string>, names: Names) returns (report: seq<FileOutcome>)
    modifies fs
    ensures fs.State() == Run(old(fs.State()), paths, names)
    ensures report == Report(old(fs.State()), paths, names)
  {
    ghost var d0 := fs.State();
    report := [];
    var i := 0;
    while i < |paths|
      invariant 0 <= i <= |paths|
      invariant fs.State() == Run(d0, paths[..i], names)
      invariant report == Report(d0, paths[..i], names)
    {
      var path := paths[i];
      ghost var before := fs.State();
      var outcome := VisitFile(fs, path, names);
      report := report + [outcome];
      assert paths[..i + 1][..i] == paths[..i];
      assert paths[..i + 1][i] == path;
      assert Run(d0, paths[..i + 1], names) == Visit(before, path, names);
      i := i + 1;
    }
    assert paths[..|paths|] == paths;
  }

  /** The whole script: resolve the names, then process the manifest files. */
  method ProcessBranding(fs: FileSystem, env: C.Env) returns (report: seq<FileOutcome>)
    modifies fs
    ensures fs.State() == Run(old(fs.State()), WEBMANIFEST_FILES, ResolveNames(env))
    ensures report == Report(old(fs.State()), WEBMANIFEST_FILES, ResolveNames(env))
  {
    report := ProcessAll(fs, WEBMANIFEST_FILES, ResolveNames(env));
  }

  /** Processing leaves every file outside the list as it was. */
  lemma {:induction false} RunFrame(d: Disk, paths: seq<string>, names: Names)
    ensures forall q :: q in d.files && q !in paths ==> Run(d, paths, names).files[q] == d.files[q]
    decreases |paths|
  {
    if paths != [] {
      var before := paths[..|paths| - 1];
      RunFrame(d, before, names);
      forall q | q in d.files && q !in paths
        ensures Run(d, paths, names).files[q] == d.files[q]
      {
        assert q !in before;
      }
    }
  }

  /** The report has one entry per path, in the order of the list. */
  lemma {:induction false} ReportFollowsList(d: Disk, paths: seq<string>, names: Names)
    ensures forall i :: 0 <= i < |paths| ==> Report(d, paths, names)[i].path == paths[i]
    decreases |paths|
  {
    if paths != [] {
      var before := paths[..|paths| - 1];
      ReportFollowsList(d, before, names);
      forall i | 0 <= i < |paths| ensures Report(d, paths, names)[i].path == paths[i] {
        if i < |before| {
          assert Report(d, paths, names)[i] == Report(d, before, names)[i];
          assert before[i] == paths[i];
        }
      }
    }
  }

  /** The content of `path` after processing it from the initial disk. */
  function FileAfter(d: Disk, path: string, names: Names): string
    requires path in d.files
  {
    ProcessFileEffect(d, path, names).files[path]
  }

  predicate Distinct(paths: seq<string>) {
    forall i, j :: 0 <= i < j < |paths| ==> paths[i] != paths[j]
  }

  lemma LastNotBefore(paths: seq<string>)
    requires paths != [] && Distinct(paths)
    ensures Distinct(paths[..|paths| - 1])
    ensures paths[|paths| - 1] !in paths[..|paths| - 1]
  {
    var n := |paths| - 1;
    forall i | 0 <= i < n ensures paths[..n][i] != paths[n] {
      assert paths[..n][i] == paths[i];
    }
  }

  /** Visiting a path not visited yet sees it as it was at the start. */
  lemma VisitSeesInitialState(d: Disk, before: seq<string>, last: string, names: Names)
    requires last !in before
    ensures VisitOutcome(Run(d, before, names), last) == VisitOutcome(d, last)
    ensures last in d.files ==> Visit(Run(d, before, names), last, names).files[last] == FileAfter(d, last, names)
  {
    RunFrame(d, before, names);
  }

  /**
   * Fault isolation: when the list has no repeated path, each file's
   * outcome depends only on that file, whatever happened to the files
   * before it.
   */
  lemma {:induction false} ReportIsolatesFiles(d: Disk, paths: seq<string>, names: Names)
    requires Distinct(paths)
    ensures forall i :: 0 <= i < |paths| ==> Report(d, paths, names)[i] == VisitOutcome(d, paths[i])
    decreases |paths|
  {
    if paths != [] {
      var n := |paths| - 1;
      var before := paths[..n];
      LastNotBefore(paths);
      ReportIsolatesFiles(d, before, names);
      VisitSeesInitialState(d, before, paths[n], names);
      forall i | 0 <= i < |paths| ensures Report(d, paths, names)[i] == VisitOutcome(d, paths[i]) {
        if i < n {
          assert Report(d, paths, names)[i] == Report(d, before, names)[i];
          assert before[i] == paths[i];
        }
      }
    }
  }

  /**
   * Fault isolation for contents: when the list has no repeated path, each
   * listed file ends up substituted if it could be read and written, and
   * unchanged otherwise, whatever happened to the other files.
   */
  lemma {:induction false} RunIsolatesFiles(d: Disk, paths: seq<string>, names: Names)
    requires Distinct(paths)
    ensures forall p :: p in paths && p in d.files ==> Run(d, paths, names).files[p] == FileAfter(d, p, names)
    decreases |paths|
  {
    if paths != [] {
      var n := |paths| - 1;
      var before := paths[..n];
      var last := paths[n];
      LastNotBefore(paths);
      RunIsolatesFiles(d, before, names);
      VisitSeesInitialState(d, before, last, names);
      forall p | p in paths && p in d.files ensures Run(d, paths, names).files[p] == FileAfter(d, p, names) {
        if p != last {
          var k :| 0 <= k < |paths| && paths[k] == p;
          assert k < n && before[k] == p;
        }
      }
    }
  }

  /** Visiting files without placeholders changes nothing. */
  lemma {:induction false} RunUnchangedWhenClean(d: Disk, paths: seq<string>, names: Names)
    requires forall p :: p in paths && p in d.files ==> TokenFree(d.files[p])
    ensures Run(d, paths, names) == d
    decreases |paths|
  {
    if paths != [] {
      var before := paths[..|paths| - 1];
      var last := paths[|paths| - 1];
      RunUnchangedWhenClean(d, before, names);
      if last in d.files {
        SubstituteUntouched(d.files[last], names);
        assert d.files[last := d.files[last]] == d.files;
      }
    }
  }

  /**
   * Running the pass a second time changes nothing once the first run left
   * no placeholder in the listed files.
   */
  lemma SecondRunIsNoOp(d: Disk, paths: seq<string>, names: Names)
    requires var d' := Run(d, paths, names);
             forall p :: p in paths && p in d'.files ==> TokenFree(d'.files[p])
    ensures Run(Run(d, paths, names), paths, names) == Run(d, paths, names)
  {
    RunUnchangedWhenClean(Run(d, paths, names), paths, names);
  }

  /**
   * The script rewrites at most its two manifest files, each from its own
   * initial content, and reports on both in list order.
   */
  lemma ScriptTouchesOnlyManifests(d: Disk, env: C.Env)
    ensures var names := ResolveNames(env);
            && Run(d, WEBMANIFEST_FILES, names).files.Keys == d.files.Keys
            && (forall q :: q in d.files && q !in WEBMANIFEST_FILES ==>
                  Run(d, WEBMANIFEST_FILES, names).files[q] == d.files[q])
            && (forall p :: p in WEBMANIFEST_FILES && p in d.files ==>
                  Run(d, WEBMANIFEST_FILES, names).files[p] == FileAfter(d, p, names))
            && Report(d, WEBMANIFEST_FILES, names)
               == [VisitOutcome(d, WEBMANIFEST_FILES[0]), VisitOutcome(d, WEBMANIFEST_FILES[1])]
  {
    var names := ResolveNames(env);
    RunFrame(d, WEBMANIFEST_FILES, names);
    RunIsolatesFiles(d, WEBMANIFEST_FILES, names);
    ReportIsolatesFiles(d, WEBMANIFEST_FILES, names);
  }

  /**
   * A manifest whose write throws is reported as failed and left as it
   * was, while the other manifest is still processed.
   */
  lemma WriteFailureDoesNotStopBatch(first: string, second: string, env: C.Env)
    ensures var d := Disk(map[WEBMANIFEST_FILES[0] := first, WEBMANIFEST_FILES[1] := second],
                          {}, {WEBMANIFEST_FILES[0]});
            var names := ResolveNames(env);
            && Report(d, WEBMANIFEST_FILES, names)
               == [Failed(WEBMANIFEST_FILES[0], WriteError), Processed(WEBMANIFEST_FILES[1])]
            && Run(d, WEBMANIFEST_FILES, names).files
               == map[WEBMANIFEST_FILES[0] := first, WEBMANIFEST_FILES[1] := Substitute(second, names)]
  {
    var d := Disk(map[WEBMANIFEST_FILES[0] := first, WEBMANIFEST_FILES[1] := second],
                  {}, {WEBMANIFEST_FILES[0]});
    var names := ResolveNames(env);
    ScriptTouchesOnlyManifests(d, env);
    assert WEBMANIFEST_FILES[0] != WEBMANIFEST_FILES[1];
  }
}
