/**
 * The deterministic part of the multi-agent web-app generator: relative-path validation,
 * the size- and count-limited parser of a generated file bundle, the tolerant QA and
 * governance report parsers, the build context with its last-writer-wins file merge, the
 * output limit checks and the fixed stage order of a build with its governance gate.
 *
 * Every agent call is an input: an `Invocation` either returns the agent's text together
 * with what `json.loads` made of it, or raises with a message.
 */
module GatewayBuilder {
  import opened Wrappers
  import opened Dicts
  import opened PyText
  import opened Json

  datatype AgentType =
    | PlanningAgent | UiuxAgent | FrontendAgent | BackendAgent
    | PwaAgent | QaAgent | GovernanceAgent | DeploymentAgent

  datatype BuildStage =
    | Planning | Design | Frontend | Backend | Pwa | Qa | Governance | Complete | Failed

  /** One agent's answer; list fields not set by a stage are empty, compliance defaults to true. */
  datatype AgentResponse = AgentResponse(
    agentType: AgentType,
    stage: BuildStage,
    content: string,
    files: Dict<string, string>,
    suggestions: seq<Json>,
    errors: seq<Json>,
    warnings: seq<Json>,
    dependencies: seq<string>,
    governanceCompliant: bool)

  /** What `json.loads` gave for an agent's text (`None` when it raised), and `json.dumps` of its "package_json". */
  datatype Reply = Reply(text: string, parsed: Option<Json>, packageJsonText: string)

  /** One call of an agent: it returns, or raises an exception whose `str` is `message`. */
  datatype Invocation = Returned(reply: Reply) | Raised(message: string)

  /** The outcome of each agent call a build can make, one per stage. */
  datatype Replies = Replies(
    planning: Invocation, uiux: Invocation, frontend: Invocation, backend: Invocation,
    pwa: Invocation, qa: Invocation, governance: Invocation)

  /** The stages at which an agent runs; `Complete` and `Failed` only end a build. */
  predicate IsAgentStage(s: BuildStage) {
    s != Complete && s != Failed
  }

  function ReplyFor(replies: Replies, s: BuildStage): Invocation
    requires IsAgentStage(s)
  {
    match s
    case Planning => replies.planning
    case Design => replies.uiux
    case Frontend => replies.frontend
    case Backend => replies.backend
    case Pwa => replies.pwa
    case Qa => replies.qa
    case Governance => replies.governance
  }

  function StagesOf(rs: seq<AgentResponse>): (r: seq<BuildStage>)
    ensures |r| == |rs| && forall i :: 0 <= i < |rs| ==> r[i] == rs[i].stage
  {
    seq(|rs|, i requires 0 <= i < |rs| => rs[i].stage)
  }

  // ---------------------------------------------------------------------------------------
  // Relative paths
  // ---------------------------------------------------------------------------------------

  /** The pattern `^[A-Za-z]:[\\/]`: a drive letter, a colon and a slash or backslash. */
  predicate HasDrivePrefix(p: string) {
    |p| >= 3 && IsAsciiLetter(p[0]) && p[1] == ':' && (p[2] == '\\' || p[2] == '/')
  }

  /** `p` with every backslash turned into a slash. */
  function Normalized(p: string): string {
    ReplaceChar(p, '\\', '/')
  }

  /** The parts of a split path other than "" and ".". */
  function DropTrivial(parts: seq<string>): (r: seq<string>)
    ensures forall x :: x in r <==> x in parts && x != "" && x != "."
    decreases |parts|
  {
    if parts == [] then []
    else (if parts[0] == "" || parts[0] == "." then [] else [parts[0]]) + DropTrivial(parts[1..])
  }

  /** The segments the traversal check looks at. */
  function Segments(p: string): seq<string> {
    DropTrivial(Split(Normalized(p), '/'))
  }

  /** `_validate_relpath`: `None` for an acceptable relative path, otherwise the first objection. */
  function ValidateRelpath(p: string): Option<string> {
    if p == "" then Some("empty path")
    else if '\0' in p then Some("null byte")
    else if StartsWith(p, "/") || HasDrivePrefix(p) then Some("absolute path not allowed")
    else if ".." in Segments(p) then Some("path traversal '..' not allowed")
    else None
  }

  /** Some stretch of `q` between slashes (or the ends) is exactly "..". */
  ghost predicate HasDotDotSegment(q: string) {
    exists i, j :: PieceAt(q, '/', i, j) && q[i..j] == ".."
  }

  /**
   * The objection `_validate_relpath` raises, in the order it checks: the empty path, a NUL
   * character, a leading slash or drive prefix, and finally a ".." segment once backslashes
   * are read as slashes; any other path is accepted.
   */
  lemma ValidateRelpathCases(p: string)
    ensures ValidateRelpath(p) == Some("empty path") <==> p == []
    ensures ValidateRelpath(p) == Some("null byte") <==> p != [] && '\0' in p
    ensures ValidateRelpath(p) == Some("absolute path not allowed") <==>
      p != [] && '\0' !in p && (p[0] == '/' || HasDrivePrefix(p))
    ensures ValidateRelpath(p) == Some("path traversal '..' not allowed") <==>
      p != [] && '\0' !in p && p[0] != '/' && !HasDrivePrefix(p) && HasDotDotSegment(Normalized(p))
    ensures ValidateRelpath(p) == None <==>
      p != [] && '\0' !in p && p[0] != '/' && !HasDrivePrefix(p) && !HasDotDotSegment(Normalized(p))
  {
    SplitPieces(Normalized(p), '/', "..");
    assert StartsWith(p, "/") <==> p != [] && p[0] == '/';
  }

  // ---------------------------------------------------------------------------------------
  // package.json
  // ---------------------------------------------------------------------------------------

  /** The keys of `pkg[key]` when it is an object, as `pkg.get(key, {})` is read. */
  function BlockKeys(pkg: Dict<string, Json>, key: string): seq<string> {
    match GetOr(pkg, key, Obj([]))
    case Obj(block) => Keys(block)
    case _ => []
  }

  /** `_deps_from_package_json_obj`. */
  function DepsFromPackageJson(pkg: Dict<string, Json>): seq<string> {
    SortedSet(BlockKeys(pkg, "dependencies") + BlockKeys(pkg, "devDependencies"))
  }

  /** The dependencies are sorted, duplicate-free and are the names in either block. */
  lemma DepsFromPackageJsonCorrect(pkg: Dict<string, Json>)
    ensures StrictlySorted(DepsFromPackageJson(pkg))
    ensures forall d :: d in DepsFromPackageJson(pkg) <==>
      d in BlockKeys(pkg, "dependencies") || d in BlockKeys(pkg, "devDependencies")
  {
    SortedSetCorrect(BlockKeys(pkg, "dependencies") + BlockKeys(pkg, "devDependencies"));
  }

  /** Whether some path of `paths` starts with `prefix`. */
  function AnyStartsWith(paths: seq<string>, prefix: string): (r: bool)
    ensures r <==> exists p :: p in paths && StartsWith(p, prefix)
    decreases |paths|
  {
    if paths == [] then false
    else if StartsWith(paths[0], prefix) then true
    else
      assert forall p :: p in paths[1..] ==> p in paths;
      assert forall p :: p in paths ==> p == paths[0] || p in paths[1..];
      AnyStartsWith(paths[1..], prefix)
  }

  /** `_infer_package_json_path`: frontend/ wins over backend/. */
  function InferPackageJsonPath(files: Dict<string, string>): (r: Option<string>)
    ensures r == Some("frontend/package.json") <==> exists p :: p in Keys(files) && StartsWith(p, "frontend/")
    ensures r == Some("backend/package.json") <==>
      (forall p :: p in Keys(files) ==> !StartsWith(p, "frontend/"))
      && exists p :: p in Keys(files) && StartsWith(p, "backend/")
    ensures r == None <==> forall p :: p in Keys(files) ==> !StartsWith(p, "frontend/") && !StartsWith(p, "backend/")
  {
    if AnyStartsWith(Keys(files), "frontend/") then Some("frontend/package.json")
    else if AnyStartsWith(Keys(files), "backend/") then Some("backend/package.json")
    else None
  }

  // ---------------------------------------------------------------------------------------
  // QA and governance reports
  // ---------------------------------------------------------------------------------------

  datatype QaReport = QaReport(critical: seq<Json>, warnings: seq<Json>, suggestions: seq<Json>)

  datatype GovernanceReport = GovernanceReport(
    compliant: bool, critical: seq<Json>, warnings: seq<Json>, suggestions: seq<Json>)

  /** The items of `fields[key]` when it is a list (a missing key reads as `[]`), else `fallback`. */
  function ListField(fields: Dict<string, Json>, key: string, fallback: seq<Json>): seq<Json> {
    match GetOr(fields, key, Arr([]))
    case Arr(items) => items
    case _ => fallback
  }

  const QaInvalid := "QA output invalid JSON"
  const QaCriticalNotList := "QA critical not a list"
  const GovernanceInvalid := "Governance output invalid JSON"
  const GovernanceCriticalNotList := "Governance critical not a list"

  /** `_parse_qa_json`. */
  function ParseQaJson(parsed: Option<Json>): QaReport {
    match parsed
    case Some(Obj(fields)) =>
      QaReport(
        ListField(fields, "critical", [Str(QaCriticalNotList)]),
        ListField(fields, "warnings", []),
        ListField(fields, "suggestions", []))
    case _ => QaReport([Str(QaInvalid)], [], [])
  }

  /** `_parse_governance_json`. */
  function ParseGovernanceJson(parsed: Option<Json>): GovernanceReport {
    match parsed
    case Some(Obj(fields)) =>
      GovernanceReport(
        Truthy(GetOr(fields, "compliant", Bool(false))),
        ListField(fields, "critical", [Str(GovernanceCriticalNotList)]),
        ListField(fields, "warnings", []),
        ListField(fields, "suggestions", []))
    case _ => GovernanceReport(false, [Str(GovernanceInvalid)], [], [])
  }

  /**
   * How a report list is read from what its key looks up to: a list gives its items, a missing
   * key gives `[]`, any other value gives `fallback`.
   */
  lemma ListFieldCases(fields: Dict<string, Json>, key: string, fallback: seq<Json>)
    ensures Get(fields, key) == None ==> ListField(fields, key, fallback) == []
    ensures Get(fields, key).Some? && Get(fields, key).value.Arr? ==>
      ListField(fields, key, fallback) == Get(fields, key).value.items
    ensures Get(fields, key).Some? && !Get(fields, key).value.Arr? ==>
      ListField(fields, key, fallback) == fallback
  {
  }

  /**
   * A QA object is read key by key: each of "critical", "warnings" and "suggestions" gives its
   * list when it holds one and `[]` when it is missing; a "critical" that is not a list gives
   * the single finding "QA critical not a list", a "warnings" or "suggestions" that is not a
   * list gives `[]`. Nothing else in the object matters; see `ParseReportsByKeys`.
   */
  lemma ParseQaJsonTolerant(fields: Dict<string, Json>)
    ensures var r := ParseQaJson(Some(Obj(fields)));
      && (Get(fields, "critical") == None ==> r.critical == [])
      && (Get(fields, "critical").Some? && Get(fields, "critical").value.Arr? ==>
            r.critical == Get(fields, "critical").value.items)
      && (Get(fields, "critical").Some? && !Get(fields, "critical").value.Arr? ==>
            r.critical == [Str(QaCriticalNotList)])
      && (Get(fields, "warnings").Some? && Get(fields, "warnings").value.Arr? ==>
            r.warnings == Get(fields, "warnings").value.items)
      && (!(Get(fields, "warnings").Some? && Get(fields, "warnings").value.Arr?) ==> r.warnings == [])
      && (Get(fields, "suggestions").Some? && Get(fields, "suggestions").value.Arr? ==>
            r.suggestions == Get(fields, "suggestions").value.items)
      && (!(Get(fields, "suggestions").Some? && Get(fields, "suggestions").value.Arr?) ==> r.suggestions == [])
  {
    ListFieldCases(fields, "critical", [Str(QaCriticalNotList)]);
    ListFieldCases(fields, "warnings", []);
    ListFieldCases(fields, "suggestions", []);
  }

  /**
   * A governance object is read like a QA object, with its own message for a "critical" that is
   * not a list; "compliant" is the truthiness of whatever value it holds, and false when missing.
   */
  lemma ParseGovernanceJsonTolerant(fields: Dict<string, Json>)
    ensures var r := ParseGovernanceJson(Some(Obj(fields)));
      && (Get(fields, "compliant") == None ==> !r.compliant)
      && (Get(fields, "compliant").Some? ==> r.compliant == Truthy(Get(fields, "compliant").value))
      && (Get(fields, "critical") == None ==> r.critical == [])
      && (Get(fields, "critical").Some? && Get(fields, "critical").value.Arr? ==>
            r.critical == Get(fields, "critical").value.items)
      && (Get(fields, "critical").Some? && !Get(fields, "critical").value.Arr? ==>
            r.critical == [Str(GovernanceCriticalNotList)])
      && (Get(fields, "warnings").Some? && Get(fields, "warnings").value.Arr? ==>
            r.warnings == Get(fields, "warnings").value.items)
      && (!(Get(fields, "warnings").Some? && Get(fields, "warnings").value.Arr?) ==> r.warnings == [])
      && (Get(fields, "suggestions").Some? && Get(fields, "suggestions").value.Arr? ==>
            r.suggestions == Get(fields, "suggestions").value.items)
      && (!(Get(fields, "suggestions").Some? && Get(fields, "suggestions").value.Arr?) ==> r.suggestions == [])
  {
    ListFieldCases(fields, "critical", [Str(GovernanceCriticalNotList)]);
    ListFieldCases(fields, "warnings", []);
    ListFieldCases(fields, "suggestions", []);
  }

  /**
   * Both reports depend only on what "compliant", "critical", "warnings" and "suggestions"
   * look up to: extra keys and key order make no difference. In particular two objects holding
   * the same pairs, in any order, give the same reports.
   */
  lemma ParseReportsByKeys(fields: Dict<string, Json>, other: Dict<string, Json>)
    requires forall k :: k in ["compliant", "critical", "warnings", "suggestions"] ==> Get(fields, k) == Get(other, k)
    ensures ParseQaJson(Some(Obj(fields))) == ParseQaJson(Some(Obj(other)))
    ensures ParseGovernanceJson(Some(Obj(fields))) == ParseGovernanceJson(Some(Obj(other)))
  {
    assert Get(fields, "compliant") == Get(other, "compliant");
    assert Get(fields, "critical") == Get(other, "critical");
    assert Get(fields, "warnings") == Get(other, "warnings");
    assert Get(fields, "suggestions") == Get(other, "suggestions");
  }

  /** Reordering the pairs of a parsed object never changes either report. */
  lemma ParseReportsOrderFree(fields: Dict<string, Json>, other: Dict<string, Json>)
    requires DistinctKeys(fields) && DistinctKeys(other)
    requires forall x :: x in fields <==> x in other
    ensures ParseQaJson(Some(Obj(fields))) == ParseQaJson(Some(Obj(other)))
    ensures ParseGovernanceJson(Some(Obj(fields))) == ParseGovernanceJson(Some(Obj(other)))
  {
    forall k | k in ["compliant", "critical", "warnings", "suggestions"]
      ensures Get(fields, k) == Get(other, k)
    {
      GetSamePairs(fields, other, k);
    }
    ParseReportsByKeys(fields, other);
  }

  /**
   * A QA object that holds the three lists, in any order and next to any other keys, is read
   * back list for list; anything that is not an object is the single critical finding
   * "QA output invalid JSON".
   */
  lemma ParseQaJsonRoundTrip(fields: Dict<string, Json>, critical: seq<Json>, warnings: seq<Json>,
                             suggestions: seq<Json>, other: Option<Json>)
    requires DistinctKeys(fields)
    requires ("critical", Arr(critical)) in fields && ("warnings", Arr(warnings)) in fields
    requires ("suggestions", Arr(suggestions)) in fields
    ensures ParseQaJson(Some(Obj(fields))) == QaReport(critical, warnings, suggestions)
    ensures !(other.Some? && other.value.Obj?) ==> ParseQaJson(other) == QaReport([Str(QaInvalid)], [], [])
  {
    StoredFound(fields, "critical", Arr(critical));
    StoredFound(fields, "warnings", Arr(warnings));
    StoredFound(fields, "suggestions", Arr(suggestions));
    ParseQaJsonTolerant(fields);
  }

  /**
   * A governance object that holds "compliant" and the three lists, in any order and next to
   * any other keys, is read back as written; anything that is not an object is non-compliant
   * with the single critical finding "Governance output invalid JSON".
   */
  lemma ParseGovernanceJsonRoundTrip(fields: Dict<string, Json>, compliant: bool, critical: seq<Json>,
                                     warnings: seq<Json>, suggestions: seq<Json>, other: Option<Json>)
    requires DistinctKeys(fields)
    requires ("compliant", Bool(compliant)) in fields && ("critical", Arr(critical)) in fields
    requires ("warnings", Arr(warnings)) in fields && ("suggestions", Arr(suggestions)) in fields
    ensures ParseGovernanceJson(Some(Obj(fields))) == GovernanceReport(compliant, critical, warnings, suggestions)
    ensures !(other.Some? && other.value.Obj?) ==>
      ParseGovernanceJson(other) == GovernanceReport(false, [Str(GovernanceInvalid)], [], [])
  {
    StoredFound(fields, "compliant", Bool(compliant));
    StoredFound(fields, "critical", Arr(critical));
    StoredFound(fields, "warnings", Arr(warnings));
    StoredFound(fields, "suggestions", Arr(suggestions));
    ParseGovernanceJsonTolerant(fields);
  }

  lemma StoredFound(fields: Dict<string, Json>, k: string, v: Json)
    requires DistinctKeys(fields) && (k, v) in fields
    ensures Get(fields, k) == Some(v)
  {
    var i :| 0 <= i < |fields| && fields[i] == (k, v);
    GetAt(fields, i);
  }

  // ---------------------------------------------------------------------------------------
  // Planning dependencies
  // ---------------------------------------------------------------------------------------

  /** The names the planning text is searched for. */
  const DepVocabulary: seq<string> :=
    ["react", "vite", "tailwind", "express", "drizzle", "zod", "postgresql", "workbox"]

  /** The vocabulary words that occur in `text` as whole words, ignoring case. */
  function WordsFound(text: string, vocabulary: seq<string>): (r: seq<string>)
    ensures forall w :: w in r <==> w in vocabulary && HasWord(Lower(text), w)
    decreases |vocabulary|
  {
    if vocabulary == [] then []
    else
      (if HasWord(Lower(text), vocabulary[0]) then [vocabulary[0]] else [])
      + WordsFound(text, vocabulary[1..])
  }

  /** `_extract_deps_from_text`. */
  function DepsFromText(text: string): seq<string> {
    SortedSet(WordsFound(text, DepVocabulary))
  }

  /** The planning dependencies are sorted, duplicate-free, and exactly the vocabulary words the text mentions. */
  lemma DepsFromTextCorrect(text: string)
    ensures StrictlySorted(DepsFromText(text))
    ensures forall w :: w in DepsFromText(text) <==> w in DepVocabulary && HasWord(Lower(text), w)
  {
    SortedSetCorrect(WordsFound(text, DepVocabulary));
  }

  // ---------------------------------------------------------------------------------------
  // Sizes
  // ---------------------------------------------------------------------------------------

  /** Total UTF-8 size of the contents of `files`. */
  function SizeOf(files: Dict<string, string>): nat
    decreases |files|
  {
    if files == [] then 0 else Utf8Length(files[0].1) + SizeOf(files[1..])
  }

  /** Size of the content stored under `k`, 0 when absent. */
  function SizeAt(files: Dict<string, string>, k: string): nat {
    match Get(files, k)
    case Some(c) => Utf8Length(c)
    case None => 0
  }

  /** `files[k] = c` replaces the size of the old content of `k` by that of `c`. */
  lemma {:induction false} SizePut(files: Dict<string, string>, k: string, c: string)
    ensures SizeOf(Put(files, k, c)) + SizeAt(files, k) == SizeOf(files) + Utf8Length(c)
    decreases |files|
  {
    if files != [] && files[0].0 != k {
      SizePut(files[1..], k, c);
    }
  }

  // ---------------------------------------------------------------------------------------
  // The build context
  // ---------------------------------------------------------------------------------------

  /** The files of all responses merged in order, later responses overriding earlier ones. */
  function Merged(rs: seq<AgentResponse>): Dict<string, string>
    decreases |rs|
  {
    if rs == [] then [] else PutAll(Merged(rs[..|rs| - 1]), rs[|rs| - 1].files)
  }

  /** Response `i` is the last one whose files include `p`. */
  ghost predicate LatestWriter(rs: seq<AgentResponse>, p: string, i: int) {
    0 <= i < |rs| && p in Keys(rs[i].files) && forall j :: i < j < |rs| ==> p !in Keys(rs[j].files)
  }

  /**
   * Last writer wins: a path maps to its content in the latest response that has it, and a
   * path no response has is absent.
   */
  lemma {:induction false} MergedLatest(rs: seq<AgentResponse>, p: string)
    requires forall i :: 0 <= i < |rs| ==> DistinctKeys(rs[i].files)
    ensures (forall i :: 0 <= i < |rs| ==> p !in Keys(rs[i].files)) ==> Get(Merged(rs), p) == None
    ensures forall i :: LatestWriter(rs, p, i) ==> Get(Merged(rs), p) == Get(rs[i].files, p)
    decreases |rs|
  {
    if rs != [] {
      var init := rs[..|rs| - 1];
      var last := rs[|rs| - 1];
      MergedLatest(init, p);
      GetPutAll(Merged(init), last.files, p);
      GetNone(Merged(init), p);
      forall i | LatestWriter(rs, p, i) ensures Get(Merged(rs), p) == Get(rs[i].files, p) {
        if i < |rs| - 1 {
          assert LatestWriter(init, p, i);
        }
      }
      if forall i :: 0 <= i < |rs| ==> p !in Keys(rs[i].files) {
        assert p !in Keys(last.files);
        GetNone(Merged(init), p);
      }
    }
  }

  /** All error entries of `rs`, in order. */
  function ErrorsOf(rs: seq<AgentResponse>): seq<Json>
    decreases |rs|
  {
    if rs == [] then [] else ErrorsOf(rs[..|rs| - 1]) + rs[|rs| - 1].errors
  }

  lemma ErrorsOfAppend(rs: seq<AgentResponse>, r: AgentResponse)
    ensures ErrorsOf(rs + [r]) == ErrorsOf(rs) + r.errors
  {
    assert (rs + [r])[..|rs|] == rs;
  }

  /** The state a build accumulates: the responses so far, the current stage and the errors seen. */
  class BuildContext {
    const projectName: string
    const description: string
    var responses: seq<AgentResponse>
    var currentStage: BuildStage
    var errorsEncountered: seq<Json>

    constructor (projectName: string, description: string)
      ensures this.projectName == projectName && this.description == description
      ensures responses == [] && currentStage == Planning && errorsEncountered == []
    {
      this.projectName := projectName;
      this.description := description;
      responses := [];
      currentStage := Planning;
      errorsEncountered := [];
    }

    /** `add_response`: log the response, move to its stage, collect its errors. */
    method AddResponse(r: AgentResponse)
      modifies this
      ensures responses == old(responses) + [r]
      ensures currentStage == r.stage
      ensures errorsEncountered == old(errorsEncountered) + r.errors
    {
      responses := responses + [r];
      currentStage := r.stage;
      if r.errors != [] {
        errorsEncountered := errorsEncountered + r.errors;
      }
    }

    /** `last_content`: the content of the latest response for `stage`, or "" when there is none. */
    method LastContent(stage: BuildStage) returns (content: string)
      ensures (exists i :: 0 <= i < |responses| && responses[i].stage == stage) ==>
        (exists i :: 0 <= i < |responses| && responses[i].stage == stage && content == responses[i].content
          && forall j :: i < j < |responses| ==> responses[j].stage != stage)
      ensures (forall i :: 0 <= i < |responses| ==> responses[i].stage != stage) ==> content == ""
    {
      var k := |responses|;
      while k > 0
        invariant 0 <= k <= |responses|
        invariant forall j :: k <= j < |responses| ==> responses[j].stage != stage
      {
        k := k - 1;
        if responses[k].stage == stage {
          return responses[k].content;
        }
      }
      return "";
    }

    /** `merged_files`: every response's files assigned in order into one dictionary. */
    method MergedFiles() returns (out: Dict<string, string>)
      ensures out == Merged(responses)
    {
      out := [];
      var i := 0;
      while i < |responses|
        invariant 0 <= i <= |responses|
        invariant out == Merged(responses[..i])
      {
        var files := responses[i].files;
        var j := 0;
        while j < |files|
          invariant 0 <= j <= |files|
          invariant out == PutAll(Merged(responses[..i]), files[..j])
        {
          PutAllAppend(Merged(responses[..i]), files[..j], files[j]);
          assert files[..j + 1] == files[..j] + [files[j]];
          out := Put(out, files[j].0, files[j].1);
          j := j + 1;
        }
        assert files[..j] == files;
        assert responses[..i + 1][..i] == responses[..i];
        i := i + 1;
      }
      assert responses[..i] == responses;
    }
  }

  // ---------------------------------------------------------------------------------------
  // The builder
  // ---------------------------------------------------------------------------------------

  /** One entry of the "files" list, as the bundle parser sees it. */
  datatype Item = Skip(message: string) | Keep(path: string, content: string, size: nat)

  /** The state of the bundle loop: files kept, errors so far, running byte total. */
  datatype Scan = Scan(files: Dict<string, string>, errors: seq<string>, total: nat)

  datatype StepResult = Continue(next: Scan) | Stop(last: Scan)

  /** What `_parse_file_bundle` returns. */
  datatype Bundle = Bundle(files: Dict<string, string>, deps: seq<string>, errors: seq<string>)

  const InvalidBundle := "Invalid JSON output for file bundle"
  const FilesNotList := "'files' must be a list"
  const TotalTooLarge := "Total output too large; exceeded max_total_bytes"
  const TooManyFiles := "Too many files; exceeded max_files"
  const GovernanceBlocked := "Governance non-compliant: blocking file generation"

  /** The messages with which the bundle loop stops. */
  predicate IsStopMessage(m: string) {
    m == TotalTooLarge || m == TooManyFiles
  }

  function Max0(n: int): nat {
    if n < 0 then 0 else n
  }

  /** `files[i]` rendered for messages. */
  function ItemLabel(i: nat): string {
    "files[" + NatToString(i) + "]"
  }

  /** The agents' configuration and limits; nothing here changes after construction. */
  class DayZeroBuilderV2 {
    const governanceLevel: string
    const maxFiles: int
    const maxTotalBytes: int
    const maxFileBytes: int

    constructor (governanceLevel: string, maxFiles: int, maxTotalBytes: int, maxFileBytes: int)
      ensures this.governanceLevel == governanceLevel && this.maxFiles == maxFiles
      ensures this.maxTotalBytes == maxTotalBytes && this.maxFileBytes == maxFileBytes
    {
      this.governanceLevel := governanceLevel;
      this.maxFiles := maxFiles;
      this.maxTotalBytes := maxTotalBytes;
      this.maxFileBytes := maxFileBytes;
    }

    /** The constructor's defaults: "standard" governance, 300 files, 8 000 000 bytes, 1 000 000 per file. */
    constructor Default()
      ensures governanceLevel == "standard" && maxFiles == 300
      ensures maxTotalBytes == 8_000_000 && maxFileBytes == 1_000_000
    {
      governanceLevel := "standard";
      maxFiles := 300;
      maxTotalBytes := 8_000_000;
      maxFileBytes := 1_000_000;
    }

    // ---- the file bundle ----

    /**
     * One list entry: it is skipped with a message when it is not an object, its content is not
     * a string, its path is invalid or its content is over `max_file_bytes`; otherwise it is kept.
     */
    function ClassifyItem(item: Json, i: nat): (r: Item)
      ensures r.Keep? ==> ValidateRelpath(r.path) == None && r.size == Utf8Length(r.content) && r.size <= maxFileBytes
    {
      if !item.Obj? then Skip(ItemLabel(i) + " is not an object")
      else
        var path := Strip(PyStr(GetOr(item.fields, "path", Str(""))));
        var content := GetOr(item.fields, "content", Str(""));
        if !content.Str? then
          Skip((if path == "" then ItemLabel(i) else path) + " content is not a string")
        else
          match ValidateRelpath(path)
          case Some(err) => Skip("Invalid path '" + path + "': " + err)
          case None =>
            var b := Utf8Length(content.s);
            if b > maxFileBytes then Skip("File too large: " + path + " (" + NatToString(b) + " bytes)")
            else Keep(path, content.s, b)
    }

    /** No skipped entry's message reads like one of the two messages that stop the loop. */
    lemma ClassifyItemMessage(item: Json, i: nat)
      ensures ClassifyItem(item, i).Skip? ==> !IsStopMessage(ClassifyItem(item, i).message)
    {
      var r := ClassifyItem(item, i);
      if r.Skip? {
        StopMessagesEnd(r.message);
        if item.Obj? {
          var path := Strip(PyStr(GetOr(item.fields, "path", Str(""))));
          var content := GetOr(item.fields, "content", Str(""));
          if !content.Str? {
            EndsWith((if path == "" then ItemLabel(i) else path), " content is not a string");
          } else if ValidateRelpath(path).Some? {
            var err := ValidateRelpath(path).value;
            EndsWith("Invalid path '" + path + "': ", err);
          } else {
            var b := Utf8Length(content.s);
            EndsWith("File too large: " + path + " (" + NatToString(b), " bytes)");
          }
        } else {
          EndsWith(ItemLabel(i), " is not an object");
        }
      }
    }

    /** One turn of the bundle loop on entry `i`: go on with a new state, or stop in one. */
    function Step(item: Json, i: nat, st: Scan): StepResult {
      match ClassifyItem(item, i)
      case Skip(msg) => Continue(st.(errors := st.errors + [msg]))
      case Keep(path, content, b) =>
        if st.total + b > maxTotalBytes then
          Stop(Scan(st.files, st.errors + [TotalTooLarge], st.total + b))
        else
          var files := Put(st.files, path, content);
          if |files| > maxFiles then Stop(Scan(files, st.errors + [TooManyFiles], st.total + b))
          else Continue(Scan(files, st.errors, st.total + b))
    }

    /** The bundle loop from entry `i` on, starting in state `st`. */
    function ScanFrom(items: seq<Json>, i: nat, st: Scan): Scan
      requires i <= |items|
      decreases |items| - i
    {
      if i == |items| then st
      else
        match Step(items[i], i, st)
        case Continue(next) => ScanFrom(items, i + 1, next)
        case Stop(last) => last
    }

    /** Kept files have distinct, valid paths and contents within `max_file_bytes`. */
    ghost predicate SafeFiles(files: Dict<string, string>) {
      DistinctKeys(files)
      && forall e :: e in files ==> ValidateRelpath(e.0) == None && Utf8Length(e.1) <= maxFileBytes
    }

    /** What holds at the head of the bundle loop. */
    ghost predicate Running(st: Scan) {
      SafeFiles(st.files)
      && SizeOf(st.files) <= st.total
      && (st.total <= maxTotalBytes || st.files == [])
      && |st.files| <= Max0(maxFiles)
      && forall k :: 0 <= k < |st.errors| ==> !IsStopMessage(st.errors[k])
    }

    /** What the bundle loop promises about its final state. */
    ghost predicate ScanOutcome(r: Scan) {
      FilesOutcome(r.files) && StopsLast(r.errors)
    }

    /** The files are safe, within the byte budget unless empty, and at most `max_files` + 1. */
    ghost predicate FilesOutcome(files: Dict<string, string>) {
      SafeFiles(files)
      && (SizeOf(files) <= maxTotalBytes || files == [])
      && |files| <= Max0(maxFiles) + 1
    }

    /** A stop message can only be the last error. */
    ghost predicate StopsLast(errors: seq<string>) {
      forall k :: 0 <= k < |errors| - 1 ==> !IsStopMessage(errors[k])
    }

    /**
     * The bundle loop keeps only safe files, never more than `max_total_bytes` of them in all
     * and at most `max_files` + 1 of them; a stop message can only be the last error.
     */
    lemma {:induction false} ScanSafe(items: seq<Json>, i: nat, st: Scan)
      requires i <= |items| && Running(st)
      ensures ScanOutcome(ScanFrom(items, i, st))
      decreases |items| - i
    {
      if i == |items| {
        StopOutcome(st, st.files, st.total, []);
      } else {
        StepSafe(items[i], i, st);
        match Step(items[i], i, st)
        case Continue(next) => ScanSafe(items, i + 1, next);
        case Stop(last) =>
      }
    }

    /**
     * The loop stops at the first kept entry that pushes the running total over
     * `max_total_bytes`: that entry is not added, "Total output too large" is the last error,
     * and the entries after it are never looked at.
     */
    lemma StopsOverBudget(items: seq<Json>, i: nat, st: Scan, path: string, content: string, b: nat)
      requires i < |items| && ClassifyItem(items[i], i) == Keep(path, content, b)
      requires st.total + b > maxTotalBytes
      ensures ScanFrom(items, i, st) == Scan(st.files, st.errors + [TotalTooLarge], st.total + b)
      ensures forall later :: i < |later| && later[..i + 1] == items[..i + 1] ==>
        ScanFrom(later, i, st) == ScanFrom(items, i, st)
    {
      assert Step(items[i], i, st).Stop?;
      StoppedAt(items, i, st);
      forall later | i < |later| && later[..i + 1] == items[..i + 1]
        ensures ScanFrom(later, i, st) == ScanFrom(items, i, st)
      {
        assert later[i] == later[..i + 1][i] == items[i];
        StoppedAt(later, i, st);
      }
    }

    /**
     * The loop stops at the first kept entry within the byte budget that takes the dictionary
     * past `max_files`: that entry is added, "Too many files" is the last error, and the entries
     * after it are never looked at.
     */
    lemma StopsOverCount(items: seq<Json>, i: nat, st: Scan, path: string, content: string, b: nat)
      requires i < |items| && ClassifyItem(items[i], i) == Keep(path, content, b)
      requires st.total + b <= maxTotalBytes && |Put(st.files, path, content)| > maxFiles
      ensures ScanFrom(items, i, st) == Scan(Put(st.files, path, content), st.errors + [TooManyFiles], st.total + b)
      ensures Get(ScanFrom(items, i, st).files, path) == Some(content)
      ensures forall later :: i < |later| && later[..i + 1] == items[..i + 1] ==>
        ScanFrom(later, i, st) == ScanFrom(items, i, st)
    {
      GetPut(st.files, path, content, path);
      assert Step(items[i], i, st).Stop?;
      StoppedAt(items, i, st);
      forall later | i < |later| && later[..i + 1] == items[..i + 1]
        ensures ScanFrom(later, i, st) == ScanFrom(items, i, st)
      {
        assert later[i] == later[..i + 1][i] == items[i];
        StoppedAt(later, i, st);
      }
    }

    /** A turn that stops ends the loop in the state it stops in. */
    lemma StoppedAt(items: seq<Json>, i: nat, st: Scan)
      requires i < |items| && Step(items[i], i, st).Stop?
      ensures ScanFrom(items, i, st) == Step(items[i], i, st).last
    {
    }

    /** One turn of the loop from a safe state continues in a safe state or stops in a good final one. */
    lemma StepSafe(item: Json, i: nat, st: Scan)
      requires Running(st)
      ensures Step(item, i, st).Continue? ==> Running(Step(item, i, st).next)
      ensures Step(item, i, st).Stop? ==> ScanOutcome(Step(item, i, st).last)
    {
      ClassifyItemMessage(item, i);
      match ClassifyItem(item, i)
      case Skip(msg) =>
      case Keep(path, content, b) =>
        KeepStep(st, path, content, b);
        var files := Put(st.files, path, content);
        if st.total + b > maxTotalBytes {
          StopOutcome(st, st.files, st.total + b, [TotalTooLarge]);
        } else if |files| > maxFiles {
          StopOutcome(st, files, st.total + b, [TooManyFiles]);
        }
    }

    /** A final state whose files are within bounds and whose earlier errors are not stop messages. */
    lemma StopOutcome(st: Scan, files: Dict<string, string>, total: nat, last: seq<string>)
      requires SafeFiles(files) && (SizeOf(files) <= maxTotalBytes || files == [])
      requires |files| <= Max0(maxFiles) + 1 && |last| <= 1
      requires forall k :: 0 <= k < |st.errors| ==> !IsStopMessage(st.errors[k])
      ensures ScanOutcome(Scan(files, st.errors + last, total))
    {
      StopsOnlyLast(st.errors, last);
      assert FilesOutcome(files);
    }

    lemma StopsOnlyLast(errors: seq<string>, last: seq<string>)
      requires |last| <= 1 && forall k :: 0 <= k < |errors| ==> !IsStopMessage(errors[k])
      ensures StopsLast(errors + last)
    {
      var errs := errors + last;
      forall k | 0 <= k < |errs| - 1 ensures !IsStopMessage(errs[k]) {
        assert errs[k] == errors[k];
      }
    }

    /** Keeping a safe file within the byte budget keeps the files safe and within budget. */
    lemma KeepStep(st: Scan, path: string, content: string, b: nat)
      requires Running(st)
      requires ValidateRelpath(path) == None && b == Utf8Length(content) && b <= maxFileBytes
      ensures var files := Put(st.files, path, content);
        SafeFiles(files) && |files| <= |st.files| + 1
        && (st.total + b <= maxTotalBytes ==> SizeOf(files) <= st.total + b && files != [])
    {
      var files := Put(st.files, path, content);
      PutKeys(st.files, path, content);
      PutElements(st.files, path, content);
      SizePut(st.files, path, content);
    }

    /** Adds the serialized package.json where `_infer_package_json_path` puts it, unless a file is already there. */
    function WithPackageJson(files: Dict<string, string>, text: string): Dict<string, string> {
      match InferPackageJsonPath(files)
      case Some(p) => if p in Keys(files) then files else Put(files, p, text)
      case None => files
    }

    /** `_parse_file_bundle` on what `json.loads` made of the agent's text. */
    function BundleOf(parsed: Option<Json>, preferPackageJson: bool, packageJsonText: string): Bundle {
      match parsed
      case Some(Obj(obj)) =>
        (match GetOr(obj, "files", Arr([]))
         case Arr(items) =>
           var scan := ScanFrom(items, 0, Scan([], [], 0));
           var packageJson := Get(obj, "package_json");
           if preferPackageJson && packageJson.Some? && packageJson.value.Obj? then
             Bundle(WithPackageJson(scan.files, packageJsonText), DepsFromPackageJson(packageJson.value.fields), scan.errors)
           else Bundle(scan.files, [], scan.errors)
         case _ => Bundle([], [], [FilesNotList]))
      case _ => Bundle([], [], [InvalidBundle])
    }

    /** The loop of `_parse_file_bundle` over the "files" list, with the running byte total. */
    method ScanItems(items: seq<Json>) returns (files: Dict<string, string>, errors: seq<string>, totalBytes: nat)
      ensures Scan(files, errors, totalBytes) == ScanFrom(items, 0, Scan([], [], 0))
    {
      ghost var final := ScanFrom(items, 0, Scan([], [], 0));
      files, errors, totalBytes := [], [], 0;
      var i := 0;
      while i < |items|
        invariant 0 <= i <= |items|
        invariant ScanFrom(items, i, Scan(files, errors, totalBytes)) == final
      {
        var stop;
        files, errors, totalBytes, stop := ScanItem(items[i], i, files, errors, totalBytes);
        if stop {
          break;
        }
        i := i + 1;
      }
    }

    /** One turn of that loop, on entry `i`: `stop` is set where the loop breaks. */
    method ScanItem(item: Json, i: nat, files: Dict<string, string>, errors: seq<string>, totalBytes: nat)
      returns (files': Dict<string, string>, errors': seq<string>, totalBytes': nat, stop: bool)
      ensures Step(item, i, Scan(files, errors, totalBytes)) ==
        if stop then Stop(Scan(files', errors', totalBytes')) else Continue(Scan(files', errors', totalBytes'))
    {
      files', errors', totalBytes', stop := files, errors, totalBytes, false;
      if !item.Obj? {
        errors' := errors + [ItemLabel(i) + " is not an object"];
        return;
      }
      var path := Strip(PyStr(GetOr(item.fields, "path", Str(""))));
      var content := GetOr(item.fields, "content", Str(""));
      if !content.Str? {
        errors' := errors + [(if path == "" then ItemLabel(i) else path) + " content is not a string"];
        return;
      }
      var pathErr := ValidateRelpath(path);
      if pathErr.Some? {
        errors' := errors + ["Invalid path '" + path + "': " + pathErr.value];
        return;
      }
      var b := Utf8Length(content.s);
      if b > maxFileBytes {
        errors' := errors + ["File too large: " + path + " (" + NatToString(b) + " bytes)"];
        return;
      }
      assert ClassifyItem(item, i) == Keep(path, content.s, b);
      totalBytes' := totalBytes + b;
      if totalBytes' > maxTotalBytes {
        errors' := errors + [TotalTooLarge];
        stop := true;
        return;
      }
      files' := Put(files, path, content.s);
      if |files'| > maxFiles {
        errors' := errors + [TooManyFiles];
        stop := true;
      }
    }

    /** `_parse_file_bundle`. */
    method ParseFileBundle(parsed: Option<Json>, preferPackageJson: bool, packageJsonText: string)
      returns (files: Dict<string, string>, deps: seq<string>, errors: seq<string>)
      ensures Bundle(files, deps, errors) == BundleOf(parsed, preferPackageJson, packageJsonText)
    {
      if !(parsed.Some? && parsed.value.Obj?) {
        return [], [], [InvalidBundle];
      }
      var obj := parsed.value.fields;
      var filesList := GetOr(obj, "files", Arr([]));
      if !filesList.Arr? {
        return [], [], [FilesNotList];
      }
      var totalBytes;
      files, errors, totalBytes := ScanItems(filesList.items);
      deps := [];
      var packageJson := Get(obj, "package_json");
      if preferPackageJson && packageJson.Some? && packageJson.value.Obj? {
        deps := DepsFromPackageJson(packageJson.value.fields);
        var pkgPath := InferPackageJsonPath(files);
        if pkgPath.Some? && pkgPath.value !in Keys(files) {
          files := Put(files, pkgPath.value, packageJsonText);
        }
      }
    }

    /**
     * A reply that is not an object, or whose "files" is not a list, gives no files, no
     * dependencies and exactly one error; dependencies only ever come from a "package_json"
     * object when it is preferred.
     */
    lemma BundleRejects(parsed: Option<Json>, preferPackageJson: bool, packageJsonText: string)
      ensures var b := BundleOf(parsed, preferPackageJson, packageJsonText);
        !(parsed.Some? && parsed.value.Obj?) ==> b.files == [] && b.deps == [] && b.errors == [InvalidBundle]
      ensures var b := BundleOf(parsed, preferPackageJson, packageJsonText);
        parsed.Some? && parsed.value.Obj? && !GetOr(parsed.value.fields, "files", Arr([])).Arr? ==>
          b.files == [] && b.deps == [] && b.errors == [FilesNotList]
      ensures var b := BundleOf(parsed, preferPackageJson, packageJsonText);
        b.deps != [] ==>
          (preferPackageJson && parsed.Some? && parsed.value.Obj?
           && exists pkg :: Get(parsed.value.fields, "package_json") == Some(Obj(pkg)) && b.deps == DepsFromPackageJson(pkg))
    {
    }

    /**
     * The package.json entry goes under frontend/ when a scanned path starts with frontend/,
     * else under backend/ when one starts with backend/; it is appended only when that path
     * is not taken, so no scanned file is ever replaced.
     */
    lemma PackageJsonPlacement(files: Dict<string, string>, text: string)
      ensures var r := WithPackageJson(files, text);
        r == files || exists p :: p !in Keys(files) && r == files + [(p, text)] && InferPackageJsonPath(files) == Some(p)
      ensures (forall p :: p in Keys(files) ==> !StartsWith(p, "frontend/") && !StartsWith(p, "backend/"))
        ==> WithPackageJson(files, text) == files
    {
      match InferPackageJsonPath(files)
      case Some(p) =>
        if p !in Keys(files) { PutNew(files, p, text); }
      case None =>
    }

    /**
     * The files of a parsed bundle are the scanned files, safe as `ScanSafe` says, plus at most
     * the package.json entry at a path no scanned file takes; its errors are the scan's.
     */
    lemma BundleSafe(parsed: Option<Json>, preferPackageJson: bool, packageJsonText: string)
      requires parsed.Some? && parsed.value.Obj? && GetOr(parsed.value.fields, "files", Arr([])).Arr?
      ensures var scan := ScanFrom(GetOr(parsed.value.fields, "files", Arr([])).items, 0, Scan([], [], 0));
        var b := BundleOf(parsed, preferPackageJson, packageJsonText);
        ScanOutcome(scan) && b.errors == scan.errors
        && (b.files == scan.files
            || exists p :: p !in Keys(scan.files) && b.files == scan.files + [(p, packageJsonText)]
                 && InferPackageJsonPath(scan.files) == Some(p))
    {
      var scan := ScanFrom(GetOr(parsed.value.fields, "files", Arr([])).items, 0, Scan([], [], 0));
      ScanSafe(GetOr(parsed.value.fields, "files", Arr([])).items, 0, Scan([], [], 0));
      PackageJsonPlacement(scan.files, packageJsonText);
    }

    // ---- writing ----

    /** The objection to writing one file, checked in the loop of `_write_all_files`. */
    function FileError(p: string, c: string): Option<string> {
      match ValidateRelpath(p)
      case Some(err) => Some("Invalid output path '" + p + "': " + err)
      case None => if Utf8Length(c) > maxFileBytes then Some("File too large: " + p) else None
    }

    /** The limit checks `_write_all_files` makes before writing anything. */
    function LimitError(files: Dict<string, string>): Option<string> {
      if files == [] then Some("No files generated")
      else if |files| > maxFiles then
        Some("Too many files: " + NatToString(|files|) + " > " + IntToString(maxFiles))
      else if SizeOf(files) > maxTotalBytes then
        Some("Total output too large: " + NatToString(SizeOf(files)) + " > " + IntToString(maxTotalBytes))
      else None
    }

    /** Index of the first file from `i` on that cannot be written, or `|files|`. */
    function FirstBad(files: Dict<string, string>, i: nat): (k: nat)
      requires i <= |files|
      ensures i <= k <= |files|
      ensures forall j :: i <= j < k ==> FileError(files[j].0, files[j].1) == None
      ensures k < |files| ==> FileError(files[k].0, files[k].1).Some?
      decreases |files| - i
    {
      if i == |files| then i
      else if FileError(files[i].0, files[i].1).Some? then i
      else FirstBad(files, i + 1)
    }

    /** The exception `_write_all_files` raises, if any. */
    function WriteError(files: Dict<string, string>): Option<string> {
      if LimitError(files).Some? then LimitError(files)
      else
        var k := FirstBad(files, 0);
        if k < |files| then FileError(files[k].0, files[k].1) else None
    }

    /** The files `_write_all_files` has written when it returns or raises: a prefix of `files`. */
    function WrittenFiles(files: Dict<string, string>): Dict<string, string> {
      if LimitError(files).Some? then [] else files[..FirstBad(files, 0)]
    }

    /**
     * `_write_all_files` on the merged files: the limit checks, then each file in order is
     * validated and written; a failure raises and leaves the earlier files written.
     */
    method WriteAllFiles(files: Dict<string, string>) returns (written: Dict<string, string>, err: Option<string>)
      ensures written == WrittenFiles(files) && err == WriteError(files)
    {
      written := [];
      err := LimitError(files);
      if err.Some? {
        return;
      }
      var i := 0;
      while i < |files|
        invariant 0 <= i <= FirstBad(files, 0)
        invariant written == files[..i]
      {
        var (relPath, content) := files[i];
        var fileErr := FileError(relPath, content);
        if fileErr.Some? {
          err := fileErr;
          return;
        }
        written := written + [(relPath, content)];
        i := i + 1;
      }
    }

    /**
     * Whatever `_write_all_files` writes has a valid relative path and fits `max_file_bytes`;
     * it writes everything exactly when it raises nothing, and then the limits all hold.
     */
    lemma WrittenSafe(files: Dict<string, string>)
      ensures WrittenFiles(files) <= files
      ensures forall e :: e in WrittenFiles(files) ==> ValidateRelpath(e.0) == None && Utf8Length(e.1) <= maxFileBytes
      ensures WriteError(files) == None <==>
        (WrittenFiles(files) == files && files != [] && |files| <= maxFiles && SizeOf(files) <= maxTotalBytes)
    {
      if LimitError(files).None? {
        var k := FirstBad(files, 0);
        forall e | e in files[..k] ensures ValidateRelpath(e.0) == None && Utf8Length(e.1) <= maxFileBytes {
          var j :| 0 <= j < k && files[j] == e;
        }
        if k < |files| {
          assert |files[..k]| < |files|;
        }
      }
    }

    // ---- the build ----

    /** Governance runs only at the "strict" and "audit" levels. */
    predicate Gated() {
      governanceLevel == "strict" || governanceLevel == "audit"
    }

    /** The stages `run` goes through, in order. */
    function Plan(includeBackend: bool): (plan: seq<BuildStage>)
      ensures forall s :: s in plan ==> IsAgentStage(s)
    {
      if includeBackend then
        if Gated() then [Planning, Design, Frontend, Backend, Pwa, Qa, Governance]
        else [Planning, Design, Frontend, Backend, Pwa, Qa]
      else
        if Gated() then [Planning, Design, Frontend, Pwa, Qa, Governance]
        else [Planning, Design, Frontend, Pwa, Qa]
    }

    /** Where each stage sits in a plan. */
    predicate PlanShaped(plan: seq<BuildStage>, includeBackend: bool, gated: bool) {
      var b := if includeBackend then 1 else 0;
      |plan| == 5 + b + (if gated then 1 else 0)
      && plan[0] == Planning && plan[1] == Design && plan[2] == Frontend
      && (includeBackend ==> plan[3] == Backend)
      && plan[3 + b] == Pwa && plan[4 + b] == Qa
      && (gated ==> plan[5 + b] == Governance)
    }

    lemma PlanShape(includeBackend: bool)
      ensures PlanShaped(Plan(includeBackend), includeBackend, Gated())
    {
    }

    /** The response a stage runner builds from its agent's reply. */
    function Respond(stage: BuildStage, reply: Reply): (r: AgentResponse)
      requires IsAgentStage(stage)
      ensures r.stage == stage && r.content == reply.text
    {
      match stage
      case Planning =>
        AgentResponse(PlanningAgent, Planning, reply.text, [], [], [], [], DepsFromText(reply.text), true)
      case Design =>
        AgentResponse(UiuxAgent, Design, reply.text, [], [Str("Mobile-first"), Str("A11y-first"), Str("Offline UX")],
          [], [], [], true)
      case Frontend => BundleResponse(FrontendAgent, Frontend, reply, true)
      case Backend => BundleResponse(BackendAgent, Backend, reply, true)
      case Pwa => BundleResponse(PwaAgent, Pwa, reply, false)
      case Qa =>
        var q := ParseQaJson(reply.parsed);
        AgentResponse(QaAgent, Qa, reply.text, [], q.suggestions, q.critical, q.warnings, [], true)
      case Governance =>
        var g := ParseGovernanceJson(reply.parsed);
        AgentResponse(GovernanceAgent, Governance, reply.text, [], g.suggestions, g.critical, g.warnings, [], g.compliant)
    }

    function BundleResponse(agent: AgentType, stage: BuildStage, reply: Reply, preferPackageJson: bool): AgentResponse {
      var b := BundleOf(reply.parsed, preferPackageJson, reply.packageJsonText);
      AgentResponse(agent, stage, reply.text, b.files, [], Strs(b.errors), [], b.deps, true)
    }

    /** Index of the first stage of `plan` whose agent raises, or `|plan|`. */
    function FirstRaised(plan: seq<BuildStage>, replies: Replies): (n: nat)
      requires forall s :: s in plan ==> IsAgentStage(s)
      ensures n <= |plan|
      ensures forall i :: 0 <= i < n ==> ReplyFor(replies, plan[i]).Returned?
      ensures n < |plan| ==> ReplyFor(replies, plan[n]).Raised?
      decreases |plan|
    {
      if plan == [] then 0
      else if ReplyFor(replies, plan[0]).Raised? then 0
      else
        assert forall s :: s in plan[1..] ==> s in plan;
        1 + FirstRaised(plan[1..], replies)
    }

    /** The agents of the first `k` stages of `plan` all returned. */
    ghost predicate AllReturned(plan: seq<BuildStage>, replies: Replies, k: nat)
      requires forall s :: s in plan ==> IsAgentStage(s)
    {
      k <= |plan| && forall i :: 0 <= i < k ==> ReplyFor(replies, plan[i]).Returned?
    }

    /** The responses of the first `k` stages of `plan`, in order. */
    ghost function ResponsesUpTo(plan: seq<BuildStage>, replies: Replies, k: nat): (rs: seq<AgentResponse>)
      requires forall s :: s in plan ==> IsAgentStage(s)
      requires AllReturned(plan, replies, k)
      ensures |rs| == k
      decreases k
    {
      if k == 0 then []
      else ResponsesUpTo(plan, replies, k - 1) + [Respond(plan[k - 1], ReplyFor(replies, plan[k - 1]).reply)]
    }

    lemma ResponsesUpToNext(plan: seq<BuildStage>, replies: Replies, k: nat, reply: Reply)
      requires forall s :: s in plan ==> IsAgentStage(s)
      requires AllReturned(plan, replies, k) && k < |plan| && ReplyFor(replies, plan[k]) == Returned(reply)
      ensures AllReturned(plan, replies, k + 1)
      ensures ResponsesUpTo(plan, replies, k + 1) == ResponsesUpTo(plan, replies, k) + [Respond(plan[k], reply)]
    {
    }

    /** The responses a build logs: one per stage, up to the first agent that raises. */
    ghost function Responses(plan: seq<BuildStage>, replies: Replies): seq<AgentResponse>
      requires forall s :: s in plan ==> IsAgentStage(s)
    {
      ResponsesUpTo(plan, replies, FirstRaised(plan, replies))
    }

    /** Stages that all returned up to `k`, where the plan ends or an agent raises, end at `k`. */
    lemma FirstRaisedIs(plan: seq<BuildStage>, replies: Replies, k: nat)
      requires forall s :: s in plan ==> IsAgentStage(s)
      requires AllReturned(plan, replies, k)
      requires k == |plan| || ReplyFor(replies, plan[k]).Raised?
      ensures FirstRaised(plan, replies) == k
    {
    }

    /** The exception that ends a build, if any: an agent's, the governance gate's, or the writer's. */
    ghost function RunFailure(includeBackend: bool, replies: Replies): Option<string> {
      var plan := Plan(includeBackend);
      var n := FirstRaised(plan, replies);
      if n < |plan| then Some(ReplyFor(replies, plan[n]).message)
      else
        var rs := Responses(plan, replies);
        if Gated() && !rs[|rs| - 1].governanceCompliant then Some(GovernanceBlocked)
        else WriteError(Merged(rs))
    }

    /**
     * A build whose agent stages stopped at stage `k`, with `failure` raised there or none when
     * the plan ran out, fails and writes as `Conclude` decides from the responses logged so far.
     */
    lemma RunEndsAt(includeBackend: bool, replies: Replies, k: nat, failure: Option<string>)
      requires AllReturned(Plan(includeBackend), replies, k)
      requires failure.None? ==> k == |Plan(includeBackend)|
      requires failure.Some? ==> k < |Plan(includeBackend)| && ReplyFor(replies, Plan(includeBackend)[k]) == Raised(failure.value)
      ensures Responses(Plan(includeBackend), replies) == ResponsesUpTo(Plan(includeBackend), replies, k)
      ensures failure.Some? ==> RunFailure(includeBackend, replies) == failure && RunWritten(includeBackend, replies) == []
      ensures failure.None? ==>
        var rs := ResponsesUpTo(Plan(includeBackend), replies, k);
        rs != [] &&
        if Gated() && !rs[|rs| - 1].governanceCompliant then
          RunFailure(includeBackend, replies) == Some(GovernanceBlocked) && RunWritten(includeBackend, replies) == []
        else
          RunFailure(includeBackend, replies) == WriteError(Merged(rs)) && RunWritten(includeBackend, replies) == WrittenFiles(Merged(rs))
    {
      PlanShape(includeBackend);
      FirstRaisedIs(Plan(includeBackend), replies, k);
    }

    /** The files a build writes. */
    ghost function RunWritten(includeBackend: bool, replies: Replies): Dict<string, string> {
      var plan := Plan(includeBackend);
      var n := FirstRaised(plan, replies);
      if n < |plan| then []
      else
        var rs := Responses(plan, replies);
        if Gated() && !rs[|rs| - 1].governanceCompliant then []
        else WrittenFiles(Merged(rs))
    }

    /** A stage runner: the agent's reply turned into that stage's response. */
    method StageResponse(stage: BuildStage, reply: Reply) returns (r: AgentResponse)
      requires IsAgentStage(stage)
      ensures r == Respond(stage, reply)
    {
      if stage == Frontend || stage == Backend || stage == Pwa {
        var files, deps, errors := ParseFileBundle(reply.parsed, stage != Pwa, reply.packageJsonText);
        var agent := if stage == Frontend then FrontendAgent else if stage == Backend then BackendAgent else PwaAgent;
        r := AgentResponse(agent, stage, reply.text, files, [], Strs(errors), [], deps, true);
      } else {
        r := Respond(stage, reply);
      }
    }

    lemma {:induction false} ResponsesUpToAt(plan: seq<BuildStage>, replies: Replies, k: nat, i: nat)
      requires forall s :: s in plan ==> IsAgentStage(s)
      requires AllReturned(plan, replies, k) && i < k
      ensures ResponsesUpTo(plan, replies, k)[i] == Respond(plan[i], ReplyFor(replies, plan[i]).reply)
      decreases k
    {
      if i < k - 1 {
        ResponsesUpToAt(plan, replies, k - 1, i);
      }
    }

    /**
     * A build logs one response per stage it runs, in the order of the plan, and stops at the
     * first agent that raises: it logs every stage exactly when no agent raises.
     */
    lemma RunFollowsPlan(includeBackend: bool, replies: Replies)
      ensures var plan := Plan(includeBackend); var rs := Responses(plan, replies);
        StagesOf(rs) == plan[..|rs|]
        && (|rs| == |plan| <==> forall s :: s in plan ==> ReplyFor(replies, s).Returned?)
        && (|rs| < |plan| ==> ReplyFor(replies, plan[|rs|]).Raised?)
    {
      var plan := Plan(includeBackend);
      var n := FirstRaised(plan, replies);
      var rs := Responses(plan, replies);
      forall i | 0 <= i < n ensures StagesOf(rs)[i] == plan[i] {
        ResponsesUpToAt(plan, replies, n, i);
      }
    }

    /** The governance agent returned a review that says the project complies. */
    predicate GovernanceApproves(replies: Replies) {
      replies.governance.Returned? && ParseGovernanceJson(replies.governance.reply.parsed).compliant
    }

    /**
     * How a build ends: with the first agent exception and nothing written; at the "strict" and
     * "audit" levels, blocked with nothing written when governance does not approve; otherwise
     * with the outcome of writing the merged files.
     */
    lemma RunOutcome(includeBackend: bool, replies: Replies)
      ensures var plan := Plan(includeBackend); var n := FirstRaised(plan, replies);
        var rs := Responses(plan, replies);
        (n < |plan| ==>
          RunFailure(includeBackend, replies) == Some(ReplyFor(replies, plan[n]).message)
          && RunWritten(includeBackend, replies) == [])
        && (n == |plan| && Gated() && !GovernanceApproves(replies) ==>
          RunFailure(includeBackend, replies) == Some(GovernanceBlocked) && RunWritten(includeBackend, replies) == [])
        && (n == |plan| && (!Gated() || GovernanceApproves(replies)) ==>
          RunFailure(includeBackend, replies) == WriteError(Merged(rs))
          && RunWritten(includeBackend, replies) == WrittenFiles(Merged(rs)))
    {
      var plan := Plan(includeBackend);
      var n := FirstRaised(plan, replies);
      if n == |plan| && Gated() {
        PlanShape(includeBackend);
        ResponsesUpToAt(plan, replies, n, n - 1);
      }
    }

    /**
     * Whatever a build writes is a prefix of the merged files, each with a valid relative path
     * and within `max_file_bytes`. A build completes exactly when every agent returned, the
     * governance gate passed, and all merged files were written within the limits.
     */
    lemma RunWritesSafely(includeBackend: bool, replies: Replies)
      ensures var rs := Responses(Plan(includeBackend), replies); var w := RunWritten(includeBackend, replies);
        w <= Merged(rs)
        && (forall e :: e in w ==> ValidateRelpath(e.0) == None && Utf8Length(e.1) <= maxFileBytes)
        && (RunFailure(includeBackend, replies).None? <==>
          FirstRaised(Plan(includeBackend), replies) == |Plan(includeBackend)|
          && (!Gated() || GovernanceApproves(replies))
          && w == Merged(rs) && Merged(rs) != [] && |Merged(rs)| <= maxFiles && SizeOf(Merged(rs)) <= maxTotalBytes)
    {
      RunOutcome(includeBackend, replies);
      WrittenSafe(Merged(Responses(Plan(includeBackend), replies)));
    }

    /**
     * How far a build has got: the first `k` stages of `plan` returned and were logged, and a
     * failure, if any, is the exception raised by stage `k`'s agent.
     */
    ghost predicate Progress(ctx: BuildContext, plan: seq<BuildStage>, replies: Replies, k: nat, failure: Option<string>)
      requires forall s :: s in plan ==> IsAgentStage(s)
      reads ctx
    {
      AllReturned(plan, replies, k) && ctx.responses == ResponsesUpTo(plan, replies, k)
      && ctx.errorsEncountered == ErrorsOf(ctx.responses)
      && (failure.Some? ==> k < |plan| && ReplyFor(replies, plan[k]) == Raised(failure.value))
    }

    /**
     * Runs `stage`, stage `k` of `plan`, and logs its response, or records the exception its
     * agent raised; once a stage has raised, later stages do not run.
     */
    method Advance(ctx: BuildContext, stage: BuildStage, replies: Replies, plan: seq<BuildStage>, k: nat,
                   failure: Option<string>)
      returns (failure': Option<string>, k': nat)
      requires forall s :: s in plan ==> IsAgentStage(s)
      requires Progress(ctx, plan, replies, k, failure)
      requires failure.None? ==> k < |plan| && plan[k] == stage
      modifies ctx
      ensures Progress(ctx, plan, replies, k', failure')
      ensures failure.Some? ==> failure' == failure && k' == k && ctx.responses == old(ctx.responses)
      ensures failure'.None? ==> failure.None? && k' == k + 1
      ensures failure.None? && failure'.Some? ==> k' == k
    {
      failure', k' := failure, k;
      if failure.None? {
        match ReplyFor(replies, stage)
        case Raised(m) =>
          failure' := Some(m);
        case Returned(reply) =>
          var r := StageResponse(stage, reply);
          ResponsesUpToNext(plan, replies, k, reply);
          ErrorsOfAppend(ctx.responses, r);
          ctx.AddResponse(r);
          k' := k + 1;
      }
    }

    /**
     * The agent stages of `run`, in order: planning, design, frontend, backend when asked for,
     * pwa, qa and, at the "strict" and "audit" levels, governance. The first exception ends them.
     */
    method RunAgents(ctx: BuildContext, plan: seq<BuildStage>, includeBackend: bool, gated: bool, replies: Replies)
      returns (failure: Option<string>, k: nat)
      requires forall s :: s in plan ==> IsAgentStage(s)
      requires PlanShaped(plan, includeBackend, gated)
      requires ctx.responses == [] && ctx.errorsEncountered == []
      modifies ctx
      ensures Progress(ctx, plan, replies, k, failure)
      ensures failure.None? ==> k == |plan|
    {
      failure, k := RunBuildAgents(ctx, plan, includeBackend, gated, replies);
      failure, k := RunReviewAgents(ctx, plan, includeBackend, gated, replies, failure, k);
    }

    /** The agent stages of `run` that produce the app: planning, design, frontend and, when asked for, backend. */
    method RunBuildAgents(ctx: BuildContext, plan: seq<BuildStage>, includeBackend: bool, gated: bool, replies: Replies)
      returns (failure: Option<string>, k: nat)
      requires forall s :: s in plan ==> IsAgentStage(s)
      requires PlanShaped(plan, includeBackend, gated)
      requires ctx.responses == [] && ctx.errorsEncountered == []
      modifies ctx
      ensures Progress(ctx, plan, replies, k, failure)
      ensures failure.None? ==> k == 3 + if includeBackend then 1 else 0
    {
      failure, k := None, 0;
      failure, k := Advance(ctx, Planning, replies, plan, k, failure);
      failure, k := Advance(ctx, Design, replies, plan, k, failure);
      failure, k := Advance(ctx, Frontend, replies, plan, k, failure);
      if includeBackend {
        failure, k := Advance(ctx, Backend, replies, plan, k, failure);
      }
    }

    /** The agent stages of `run` after the frontend and backend: pwa, qa and, when gated, governance. */
    method RunReviewAgents(ctx: BuildContext, plan: seq<BuildStage>, includeBackend: bool, gated: bool, replies: Replies,
                           failure: Option<string>, k: nat)
      returns (failure': Option<string>, k': nat)
      requires forall s :: s in plan ==> IsAgentStage(s)
      requires PlanShaped(plan, includeBackend, gated)
      requires Progress(ctx, plan, replies, k, failure)
      requires failure.None? ==> k == 3 + if includeBackend then 1 else 0
      modifies ctx
      ensures Progress(ctx, plan, replies, k', failure')
      ensures failure'.None? ==> k' == |plan|
    {
      failure', k' := Advance(ctx, Pwa, replies, plan, k, failure);
      failure', k' := Advance(ctx, Qa, replies, plan, k', failure');
      if gated {
        failure', k' := Advance(ctx, Governance, replies, plan, k', failure');
      }
    }

    /**
     * The end of `run` once the agent stages stopped at stage `k` of the plan: an exception
     * already raised stands; otherwise, at the "strict" and "audit" levels, a non-compliant
     * governance review blocks writing, and else the merged files are written.
     */
    method Conclude(ctx: BuildContext, failure: Option<string>, ghost includeBackend: bool, ghost replies: Replies, ghost k: nat)
      returns (failure': Option<string>, written: Dict<string, string>)
      requires AllReturned(Plan(includeBackend), replies, k) && ctx.responses == ResponsesUpTo(Plan(includeBackend), replies, k)
      requires failure.None? ==> k == |Plan(includeBackend)|
      requires failure.Some? ==> k < |Plan(includeBackend)| && ReplyFor(replies, Plan(includeBackend)[k]) == Raised(failure.value)
      ensures failure' == RunFailure(includeBackend, replies)
      ensures written == RunWritten(includeBackend, replies)
    {
      RunEndsAt(includeBackend, replies, k, failure);
      failure', written := failure, [];
      if failure.None? && Gated() && !ctx.responses[|ctx.responses| - 1].governanceCompliant {
        failure' := Some(GovernanceBlocked);
      }
      if failure'.None? {
        var merged := ctx.MergedFiles();
        written, failure' := WriteAllFiles(merged);
      }
    }

    /**
     * `run`: the agent stages; at the "strict" and "audit" levels a non-compliant governance
     * review blocks writing; then the merged files are written. Any exception ends the build
     * as failed with its message logged.
     */
    method Run(projectName: string, projectDescription: string, includeBackend: bool, replies: Replies)
      returns (ctx: BuildContext, written: Dict<string, string>)
      ensures fresh(ctx)
      ensures ctx.projectName == projectName && ctx.description == projectDescription
      ensures ctx.responses == Responses(Plan(includeBackend), replies)
      ensures ctx.currentStage == if RunFailure(includeBackend, replies).None? then Complete else Failed
      ensures ctx.errorsEncountered == ErrorsOf(ctx.responses) +
        (if RunFailure(includeBackend, replies).Some? then [Str(RunFailure(includeBackend, replies).value)] else [])
      ensures written == RunWritten(includeBackend, replies)
    {
      ctx := new BuildContext(projectName, projectDescription);
      written := [];
      var plan := Plan(includeBackend);
      PlanShape(includeBackend);
      var failure, k := RunAgents(ctx, plan, includeBackend, Gated(), replies);
      FirstRaisedIs(plan, replies, k);
      failure, written := Conclude(ctx, failure, includeBackend, replies, k);
      Finish(ctx, failure);
    }

    /** The last step of `run`: mark the build complete, or failed with the exception's message logged. */
    method Finish(ctx: BuildContext, failure: Option<string>)
      modifies ctx
      ensures ctx.responses == old(ctx.responses)
      ensures ctx.currentStage == if failure.None? then Complete else Failed
      ensures ctx.errorsEncountered == old(ctx.errorsEncountered) + if failure.Some? then [Str(failure.value)] else []
    {
      if failure.None? {
        ctx.currentStage := Complete;
      } else {
        ctx.currentStage := Failed;
        ctx.errorsEncountered := ctx.errorsEncountered + [Str(failure.value)];
      }
    }
  }

  /** A string `pre + tail` ends like `tail`: used to tell messages apart. */
  lemma EndsWith(pre: string, tail: string)
    requires tail != []
    ensures (pre + tail)[|pre + tail| - 1] == tail[|tail| - 1]
  {
  }

  /** Both stop messages end in 's'; no objection of `_validate_relpath` does. */
  lemma StopMessagesEnd(m: string)
    ensures IsStopMessage(m) ==> m != [] && m[|m| - 1] == 's'
    ensures forall p :: ValidateRelpath(p).Some? ==>
      ValidateRelpath(p).value != [] && ValidateRelpath(p).value[|ValidateRelpath(p).value| - 1] != 's'
  {
  }
}
