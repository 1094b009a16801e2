/** The Codex invocation as the compiled JavaScript build writes it. It
    differs from the TypeScript sources: the command and its leading
    arguments come from the detected installation, `exec` brings `--json`,
    the caller's model is passed trimmed, only the read-only sandbox is
    accepted, approval is passed only in interactive mode, the prompt is
    trimmed and left out when blank, and a missing CLI is reported
    according to the installation. */
module CodexExecutorDist {
  import opened Wrappers
  import opened Text
  import opened OutputParser
  import opened CodexExecutorSrc

  const JSON_FLAG := "--json"
  const PROJECT_CODEX_MISSING := "项目内Codex二进制文件未找到。请尝试: npm run build-codex 或联系支持团队"

  /** What `detectCodexPaths` returns: the program to run, the arguments
      that must precede everything else, and whether it is the copy
      inside the project. */
  datatype PathInfo = PathInfo(command: string, args: seq<string>, isProjectLocal: bool)

  function DistExecPart(o: ExecOptions): seq<string> {
    if UsesExec(o) then [EXEC, JSON_FLAG] else []
  }

  /** `if (model && model.trim())`: the trimmed model, when not blank. */
  function DistModelPart(o: ExecOptions): (r: seq<string>)
    ensures r != [] <==> o.model.Some? && Trim(o.model.value) != ""
    ensures r != [] ==> r == [MODEL_FLAG, Trim(o.model.value)]
  {
    if o.model.Some? && o.model.value != "" && Trim(o.model.value) != "" then [MODEL_FLAG, Trim(o.model.value)]
    else
      assert o.model.Some? && o.model.value == "" ==> Trim(o.model.value) == "";
      []
  }

  /** Only the read-only sandbox gets through. */
  predicate SandboxRejected(o: ExecOptions) {
    Given(o.sandbox) && o.sandbox.value != READ_ONLY
  }

  function DistSandboxPart(o: ExecOptions): seq<string> {
    if Given(o.sandbox) then [SANDBOX_FLAG, READ_ONLY] else []
  }

  /** The approval policy only without `exec`. */
  function DistApprovalPart(o: ExecOptions): seq<string> {
    if Given(o.approval) && !UsesExec(o) then [APPROVAL_FLAG, o.approval.value] else []
  }

  /** `if (prompt && prompt.trim())`: the trimmed prompt, when not blank. */
  function PromptPart(prompt: string): (r: seq<string>)
    ensures r != [] <==> Trim(prompt) != ""
    ensures r != [] ==> r == [Trim(prompt)]
  {
    if prompt != "" && Trim(prompt) != "" then [Trim(prompt)]
    else
      assert prompt == "" ==> Trim(prompt) == "";
      []
  }

  function DistOptionArgs(o: ExecOptions, path: PathInfo): seq<string> {
    path.args
    + DistExecPart(o)
    + DistModelPart(o)
    + DistSandboxPart(o)
    + DistApprovalPart(o)
    + ImageArgs(Images(o.image))
    + ConfigArgs(o.config)
    + FlagIfGiven(WORKING_DIR_FLAG, o.workingDir)
    + FlagIfGiven(PROFILE_FLAG, o.profile)
  }

  /** The vector passed to the detected command, or the sandbox violation
      thrown before anything runs. */
  function DistArgs(prompt: string, o: ExecOptions, path: PathInfo): (r: Result<seq<string>>)
    ensures r.Failure? <==> SandboxRejected(o)
    ensures r.Failure? ==> r.error == SANDBOX_VIOLATION
    ensures r.Success? ==> r.value == DistOptionArgs(o, path) + PromptPart(prompt)
  {
    if SandboxRejected(o) then Failure(SANDBOX_VIOLATION)
    else Success(DistOptionArgs(o, path) + PromptPart(prompt))
  }

  /** The detected installation's arguments come first, then `exec
      --json` when `exec` is enabled; a non-blank prompt is the last
      argument, trimmed, and a blank one adds nothing. */
  lemma DistArgsLayout(prompt: string, o: ExecOptions, path: PathInfo)
    requires !SandboxRejected(o)
    ensures var args := DistArgs(prompt, o, path).value;
      && |path.args| <= |args| && args[..|path.args|] == path.args
      && (UsesExec(o) ==> |path.args| + 2 <= |args| && args[|path.args|..|path.args| + 2] == [EXEC, JSON_FLAG])
      && (Trim(prompt) != "" ==> args[|args| - 1] == Trim(prompt))
      && (Trim(prompt) == "" ==> args == DistOptionArgs(o, path))
  {
    var head := path.args + DistExecPart(o);
    var m, sb, ap := DistModelPart(o), DistSandboxPart(o), DistApprovalPart(o);
    var im, c := ImageArgs(Images(o.image)), ConfigArgs(o.config);
    var w, pr := FlagIfGiven(WORKING_DIR_FLAG, o.workingDir), FlagIfGiven(PROFILE_FLAG, o.profile);
    var tail := m + sb + ap + im + c + w + pr;
    Regroup(head, m, sb, ap, im, c, w, pr);
    assert DistOptionArgs(o, path) == head + tail;
    var pp := PromptPart(prompt);
    Layout(path.args, DistExecPart(o), tail, pp);
    assert DistArgs(prompt, o, path).value == path.args + DistExecPart(o) + tail + pp;
    assert pp == [] ==> head + tail + pp == head + tail;
  }

  /** A chain of concatenations regrouped after its first link. */
  lemma Regroup<T>(h: seq<T>, a: seq<T>, b: seq<T>, c: seq<T>, d: seq<T>, e: seq<T>, f: seq<T>, g: seq<T>)
    ensures h + a + b + c + d + e + f + g == h + (a + b + c + d + e + f + g)
  {
  }

  /** Where the pieces of `p + x + t + q` sit. */
  lemma Layout<T>(p: seq<T>, x: seq<T>, t: seq<T>, q: seq<T>)
    ensures var s := p + x + t + q;
      && |p| + |x| <= |s| && s[..|p|] == p && s[|p|..|p| + |x|] == x
      && (q != [] ==> s[|s| - 1] == q[|q| - 1])
  {
    var s := p + x + t + q;
    assert s == p + (x + (t + q));
    assert s[..|p|] == p;
    assert s[|p|..|p| + |x|] == x;
  }

  /** With `exec` the approval policy is ignored: the vector is the one
      built without it. */
  lemma ApprovalIgnoredWithExec(prompt: string, o: ExecOptions, path: PathInfo)
    requires UsesExec(o)
    ensures DistArgs(prompt, o, path) == DistArgs(prompt, o.(approval := None), path)
  {
    var o2 := o.(approval := None);
    assert DistApprovalPart(o) == [] == DistApprovalPart(o2);
    assert DistExecPart(o2) == DistExecPart(o) && DistModelPart(o2) == DistModelPart(o);
    assert DistSandboxPart(o2) == DistSandboxPart(o);
  }

  /** Whatever sandbox was asked for, an accepted vector can only ever
      request read-only access: `-s` is always followed by `read-only`. */
  lemma OnlyReadOnlySandbox(o: ExecOptions)
    ensures !SandboxRejected(o) ==> DistSandboxPart(o) == [] || DistSandboxPart(o) == [SANDBOX_FLAG, READ_ONLY]
    ensures !SandboxRejected(o) && Given(o.sandbox) ==> o.sandbox.value == READ_ONLY
  {
  }

  /** The argument construction, push by push; the sandbox check throws
      before the remaining options are looked at. */
  method BuildDistArgs(prompt: string, o: ExecOptions, path: PathInfo) returns (r: Result<seq<string>>)
    ensures r == DistArgs(prompt, o, path)
  {
    var args := path.args;
    if UsesExec(o) {
      args := args + [EXEC];
      args := args + [JSON_FLAG];
    }
    assert args == path.args + DistExecPart(o);
    ghost var before := args;
    if o.model.Some? && o.model.value != "" && Trim(o.model.value) != "" {
      args := args + [MODEL_FLAG, Trim(o.model.value)];
    } else {
      assert args == args + [];
    }
    assert args == before + DistModelPart(o);
    before := args;
    if Given(o.sandbox) {
      if o.sandbox.value != READ_ONLY {
        return Failure(SANDBOX_VIOLATION);
      }
      args := args + [SANDBOX_FLAG, READ_ONLY];
    } else {
      assert args == args + [];
    }
    assert args == before + DistSandboxPart(o);
    before := args;
    if Given(o.approval) && !UsesExec(o) {
      args := args + [APPROVAL_FLAG, o.approval.value];
    } else {
      assert args == args + [];
    }
    assert args == before + DistApprovalPart(o);
    args := PushImages(args, Images(o.image));
    args := PushConfig(args, o.config);
    args := PushIfGiven(args, WORKING_DIR_FLAG, o.workingDir);
    args := PushIfGiven(args, PROFILE_FLAG, o.profile);
    before := args;
    if prompt != "" && Trim(prompt) != "" {
      args := args + [Trim(prompt)];
    } else {
      assert args == args + [];
    }
    assert args == before + PromptPart(prompt);
    r := Success(args);
  }

  /** The catch block: a missing CLI is reported as the project's own
      binary missing exactly for the project-local installation, and as
      the global CLI missing otherwise; every other test is as in the
      TypeScript sources. */
  function ClassifyDist(message: string, isProjectLocal: bool): (r: string)
    ensures MentionsNotFound(message) ==> r == (if isProjectLocal then PROJECT_CODEX_MISSING else CODEX_NOT_FOUND)
    ensures !MentionsNotFound(message) ==> r == ClassifyRest(message)
  {
    if MentionsNotFound(message) then
      if isProjectLocal then PROJECT_CODEX_MISSING else CODEX_NOT_FOUND
    else ClassifyRest(message)
  }

  /** The two builds classify alike except for a missing project-local
      CLI. */
  lemma ClassifyAgrees(message: string, isProjectLocal: bool)
    ensures !(MentionsNotFound(message) && isProjectLocal) ==> ClassifyDist(message, isProjectLocal) == Classify(message)
    ensures MentionsNotFound(message) && isProjectLocal ==> ClassifyDist(message, isProjectLocal) == PROJECT_CODEX_MISSING
  {
  }

  /** `executeCodex` of the build as a value: the sandbox violation escapes
      unclassified, since it is thrown before the `try`; `run` is
      `executeCommand(command, args, onProgress, timeout)`. */
  function DistResult(prompt: string, o: ExecOptions, path: PathInfo,
                      run: (string, seq<string>, Option<int>) -> Result<string>,
                      parse: string -> Option<JsonRecord>, now: nat -> string, cwd: string): (r: Result<CodexOutput>)
    ensures SandboxRejected(o) ==> r == Failure(SANDBOX_VIOLATION)
  {
    match DistArgs(prompt, o, path)
    case Failure(e) => Failure(e)
    case Success(args) =>
      match run(path.command, args, o.timeout)
      case Failure(e) => Failure(ClassifyDist(e, path.isProjectLocal))
      case Success(raw) =>
        var out := Parsed(raw, parse, now, cwd);
        if AuthInResponse(out.response) then Failure(ClassifyDist(AUTHENTICATION_FAILED, path.isProjectLocal))
        else Success(out)
  }

  /** An accepted option set runs the CLI once with the built vector: the
      call succeeds with the parsed output exactly when the CLI succeeds and
      its reply does not mention authentication, a reply that does becomes
      the authentication error, and a CLI failure carries the build's
      classification of its message. */
  lemma DistResultCases(prompt: string, o: ExecOptions, path: PathInfo,
                        run: (string, seq<string>, Option<int>) -> Result<string>,
                        parse: string -> Option<JsonRecord>, now: nat -> string, cwd: string)
    requires !SandboxRejected(o)
    ensures var r := DistResult(prompt, o, path, run, parse, now, cwd);
      var raw := run(path.command, DistArgs(prompt, o, path).value, o.timeout);
      && (r.Success? <==> raw.Success? && !AuthInResponse(Parsed(raw.value, parse, now, cwd).response))
      && (r.Success? ==> r.value == Parsed(raw.value, parse, now, cwd))
      && (raw.Failure? ==> r.error == ClassifyDist(raw.error, path.isProjectLocal))
      && (raw.Success? && AuthInResponse(Parsed(raw.value, parse, now, cwd).response) ==> r == Failure(AUTHENTICATION_FAILED))
  {
    DistAuthenticationKept(path.isProjectLocal);
  }

  /** The build's catch block passes the authentication message on
      unchanged, like the TypeScript one. */
  lemma DistAuthenticationKept(isProjectLocal: bool)
    ensures ClassifyDist(AUTHENTICATION_FAILED, isProjectLocal) == AUTHENTICATION_FAILED
  {
    AuthenticationMessageKept();
    ClassifyAgrees(AUTHENTICATION_FAILED, isProjectLocal);
  }

  /** A rejected sandbox never reaches the CLI, whatever `run` would do. */
  lemma SandboxBeforeRun(prompt: string, o: ExecOptions, path: PathInfo,
                         run1: (string, seq<string>, Option<int>) -> Result<string>,
                         run2: (string, seq<string>, Option<int>) -> Result<string>,
                         parse: string -> Option<JsonRecord>, now: nat -> string, cwd: string)
    requires SandboxRejected(o)
    ensures DistResult(prompt, o, path, run1, parse, now, cwd) == DistResult(prompt, o, path, run2, parse, now, cwd)
  {
  }

  /** `executeCodex` of the build. */
  method ExecuteCodexDist(prompt: string, o: ExecOptions, path: PathInfo,
                          run: (string, seq<string>, Option<int>) -> Result<string>,
                          parse: string -> Option<JsonRecord>, now: nat -> string, cwd: string)
    returns (r: Result<CodexOutput>)
    ensures r == DistResult(prompt, o, path, run, parse, now, cwd)
  {
    var built := BuildDistArgs(prompt, o, path);
    if built.Failure? {
      return Failure(built.error);
    }
    var raw := run(path.command, built.value, o.timeout);
    match raw {
      case Failure(e) =>
        r := Failure(ClassifyDist(e, path.isProjectLocal));
      case Success(text) =>
        var out := ParseCodexOutput(text, parse, now, cwd);
        if AuthInResponse(out.response) {
          r := Failure(ClassifyDist(AUTHENTICATION_FAILED, path.isProjectLocal));
        } else {
          r := Success(out);
        }
    }
  }

  /** `getSandboxFallbacks` of the build: always read-only alone. */
  function GetSandboxFallbacksDist(sandbox: string): (r: seq<string>)
    ensures r == [READ_ONLY] && ValidateSandboxMode(r[0])
  {
    [READ_ONLY]
  }
}
