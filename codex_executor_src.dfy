/** The Codex invocation as the TypeScript sources write it: the argument
    vector built from the caller's options, the classification of what
    went wrong, the option validators and fallbacks, and the text shown to
    an MCP client. */
module CodexExecutorSrc {
  import opened Wrappers
  import opened Text
  import opened Folds
  import opened OutputParser

  // ---------------------------------------------------------------------
  // Constants

  const EXEC := "exec"
  const MODEL_FLAG := "-m"
  const CONFIG_FLAG := "-c"
  const SANDBOX_FLAG := "-s"
  const APPROVAL_FLAG := "-a"
  const IMAGE_FLAG := "-i"
  const PROFILE_FLAG := "-p"
  const WORKING_DIR_FLAG := "-C"

  const GPT5 := "gpt-5"

  const READ_ONLY := "read-only"
  const WORKSPACE_WRITE := "workspace-write"
  const DANGER_FULL_ACCESS := "danger-full-access"
  const SandboxModes: seq<string> := [READ_ONLY, WORKSPACE_WRITE, DANGER_FULL_ACCESS]
  const UNTRUSTED := "untrusted"
  const ON_REQUEST := "on-request"
  const ApprovalPolicies: seq<string> := [UNTRUSTED, "on-failure", ON_REQUEST, "never"]

  const QUOTA_EXCEEDED := "Rate limit exceeded"
  /** Written in three pieces, so that facts about its characters reduce
      to facts about short texts. */
  const AUTHENTICATION_FAILED := AUTH_PART_1 + AUTH_PART_2 + AUTH_PART_3
  const AUTH_PART_1 := "Authentication failed - "
  const AUTH_PART_2 := "please check your OpenAI "
  const AUTH_PART_3 := "API key or login status"
  const CODEX_NOT_FOUND := "Codex CLI not found - please install with 'npm install -g @openai/codex'"
  /** Written in pieces for the same reason. */
  const SANDBOX_VIOLATION := "Operation blocked by " + "sandbox" + " policy"

  // ---------------------------------------------------------------------
  // Options

  /** `image?: string | string[]`. */
  datatype ImageArg = NoImage | ImagePath(path: string) | ImageList(paths: seq<string>)

  /** `config?: string | Record<string, any>`; an object's entries are in
      `Object.entries` order, each value already rendered as the source
      renders it (`JSON.stringify` for objects, `String` otherwise). */
  datatype ConfigArg = NoConfig | ConfigText(text: string) | ConfigEntries(entries: seq<(string, string)>)

  /** The options record of `executeCodex`; `None` is `undefined`. */
  datatype ExecOptions = ExecOptions(
    model: Option<string>,
    sandbox: Option<string>,
    approval: Option<string>,
    image: ImageArg,
    config: ConfigArg,
    timeout: Option<int>,
    workingDir: Option<string>,
    profile: Option<string>,
    useExec: Option<bool>)

  /** A string option that is present and truthy (not `""`). */
  predicate Given(o: Option<string>) {
    o.Some? && o.value != ""
  }

  /** `useExec = true`: the destructuring default. */
  predicate UsesExec(o: ExecOptions) {
    o.useExec.GetOr(true)
  }

  /** A flag and its value when the option is given. */
  function FlagIfGiven(flag: string, o: Option<string>): (r: seq<string>)
    ensures Given(o) ==> r == [flag, o.value]
    ensures !Given(o) ==> r == []
  {
    if Given(o) then [flag, o.value] else []
  }

  /** `if (image)` then `Array.isArray(image) ? image : [image]`: an empty
      path is falsy, an array (even an empty one) is not. */
  function Images(image: ImageArg): seq<string> {
    match image
    case NoImage => []
    case ImagePath(p) => if p != "" then [p] else []
    case ImageList(ps) => ps
  }

  function ImagePair(path: string): seq<string> {
    [IMAGE_FLAG, path]
  }

  /** `-i <path>` for every image, in order. */
  function ImageArgs(paths: seq<string>): seq<string> {
    FlatMap(paths, ImagePair)
  }

  function ConfigSetting(e: (string, string)): string {
    e.0 + "=" + e.1
  }

  function ConfigPair(e: (string, string)): seq<string> {
    [CONFIG_FLAG, ConfigSetting(e)]
  }

  /** `-c <config>` for a non-empty string; `-c key=value` for every entry
      of an object, in entry order. */
  function ConfigArgs(config: ConfigArg): seq<string> {
    match config
    case NoConfig => []
    case ConfigText(t) => if t != "" then [CONFIG_FLAG, t] else []
    case ConfigEntries(es) => FlatMap(es, ConfigPair)
  }

  /** Every image is passed as `-i <path>`, in the order given. */
  lemma ImagesInOrder(paths: seq<string>)
    ensures |ImageArgs(paths)| == 2 * |paths|
    ensures forall k :: 0 <= k < |paths| ==> ImageArgs(paths)[2 * k] == IMAGE_FLAG && ImageArgs(paths)[2 * k + 1] == paths[k]
  {
    FlatMapPairs(paths, ImagePair, IMAGE_FLAG, (p: string) => p);
  }

  /** Every config entry is passed as `-c key=value`, in entry order. */
  lemma ConfigEntriesInOrder(es: seq<(string, string)>)
    ensures var r := ConfigArgs(ConfigEntries(es));
      && |r| == 2 * |es|
      && forall k :: 0 <= k < |es| ==> r[2 * k] == CONFIG_FLAG && r[2 * k + 1] == es[k].0 + "=" + es[k].1
  {
    FlatMapPairs(es, ConfigPair, CONFIG_FLAG, ConfigSetting);
  }

  // ---------------------------------------------------------------------
  // The argument vector

  function ExecPart(o: ExecOptions): seq<string> {
    if UsesExec(o) then [EXEC] else []
  }

  /** The model flag always names `gpt-5`. */
  function ModelPart(o: ExecOptions): seq<string> {
    if Given(o.model) then [MODEL_FLAG, GPT5] else []
  }

  /** Everything before the prompt: `exec` first unless disabled, then the
      model, sandbox, approval, images, configuration, working directory
      and profile. */
  function OptionArgs(o: ExecOptions): seq<string> {
    ExecPart(o)
    + ModelPart(o)
    + FlagIfGiven(SANDBOX_FLAG, o.sandbox)
    + FlagIfGiven(APPROVAL_FLAG, o.approval)
    + ImageArgs(Images(o.image))
    + ConfigArgs(o.config)
    + FlagIfGiven(WORKING_DIR_FLAG, o.workingDir)
    + FlagIfGiven(PROFILE_FLAG, o.profile)
  }

  /** The vector `executeCodex` passes to `codex`: the prompt is the last
      argument, unchanged, and `exec` leads whenever it is enabled. */
  function CodexArgs(prompt: string, o: ExecOptions): (args: seq<string>)
    ensures |args| >= 1 && args[|args| - 1] == prompt
    ensures UsesExec(o) ==> args[0] == EXEC
  {
    var args := OptionArgs(o) + [prompt];
    assert UsesExec(o) ==> args[0] == ExecPart(o)[0];
    args
  }

  /** The caller's model is never passed: any truthy model yields the same
      vector, with `-m gpt-5` right after the optional `exec`. */
  lemma ModelValueIgnored(prompt: string, o: ExecOptions, m: string)
    requires Given(o.model) && m != ""
    ensures CodexArgs(prompt, o) == CodexArgs(prompt, o.(model := Some(m)))
    ensures var e := if UsesExec(o) then 1 else 0;
      CodexArgs(prompt, o)[e..e + 2] == [MODEL_FLAG, GPT5]
  {
    var o2 := o.(model := Some(m));
    assert ExecPart(o2) == ExecPart(o) && ModelPart(o2) == ModelPart(o);
    var head := ExecPart(o) + ModelPart(o);
    var args := CodexArgs(prompt, o);
    PrefixOfConcat(head, args);
  }

  /** The `images.forEach` loop. */
  method PushImages(args: seq<string>, images: seq<string>) returns (r: seq<string>)
    ensures r == args + ImageArgs(images)
  {
    r := args;
    var i := 0;
    while i < |images|
      invariant 0 <= i <= |images|
      invariant r == args + ImageArgs(images[..i])
    {
      assert images[..i + 1] == images[..i] + [images[i]];
      FlatMapSnoc(images[..i], images[i], ImagePair);
      r := r + [IMAGE_FLAG, images[i]];
      i := i + 1;
    }
    assert images[..i] == images;
  }

  /** The `Object.entries(config).forEach` loop. */
  method PushConfigEntries(args: seq<string>, es: seq<(string, string)>) returns (r: seq<string>)
    ensures r == args + FlatMap(es, ConfigPair)
  {
    r := args;
    var i := 0;
    while i < |es|
      invariant 0 <= i <= |es|
      invariant r == args + FlatMap(es[..i], ConfigPair)
    {
      assert es[..i + 1] == es[..i] + [es[i]];
      FlatMapSnoc(es[..i], es[i], ConfigPair);
      var (key, value) := es[i];
      r := r + [CONFIG_FLAG, key + "=" + value];
      i := i + 1;
    }
    assert es[..i] == es;
  }

  /** The argument construction of `executeCodex`, push by push. */
  method BuildArgs(prompt: string, o: ExecOptions) returns (args: seq<string>)
    ensures args == CodexArgs(prompt, o)
  {
    args := [];
    if UsesExec(o) {
      args := args + [EXEC];
    }
    assert args == ExecPart(o);
    if Given(o.model) {
      args := args + [MODEL_FLAG, GPT5];
    } else {
      assert args == args + [];
    }
    args := PushIfGiven(args, SANDBOX_FLAG, o.sandbox);
    args := PushIfGiven(args, APPROVAL_FLAG, o.approval);
    args := PushImages(args, Images(o.image));
    args := PushConfig(args, o.config);
    args := PushIfGiven(args, WORKING_DIR_FLAG, o.workingDir);
    args := PushIfGiven(args, PROFILE_FLAG, o.profile);
    args := args + [prompt];
  }

  /** `if (value) args.push(flag, value)`. */
  method PushIfGiven(args: seq<string>, flag: string, value: Option<string>) returns (r: seq<string>)
    ensures r == args + FlagIfGiven(flag, value)
  {
    r := args;
    if Given(value) {
      r := r + [flag, value.value];
    } else {
      assert r == r + [];
    }
  }

  /** `if (config)`: the string pushed as it is, or the entries' loop. */
  method PushConfig(args: seq<string>, config: ConfigArg) returns (r: seq<string>)
    ensures r == args + ConfigArgs(config)
  {
    r := args;
    match config {
      case NoConfig =>
        assert r == r + [];
      case ConfigText(t) =>
        if t != "" {
          r := r + [CONFIG_FLAG, t];
        } else {
          assert r == r + [];
        }
      case ConfigEntries(es) =>
        r := PushConfigEntries(r, es);
    }
  }

  // ---------------------------------------------------------------------
  // What went wrong

  predicate MentionsNotFound(message: string) {
    Contains(message, "ENOENT") || Contains(message, "not found")
  }

  predicate MentionsAuth(message: string) {
    Contains(message, "UNAUTHENTICATED") || Contains(message, "authentication")
  }

  predicate MentionsQuota(message: string) {
    Contains(message, "RESOURCE_EXHAUSTED") || Contains(message, "rate limit")
  }

  predicate MentionsSandbox(message: string) {
    Contains(message, "PERMISSION_DENIED") || Contains(message, "sandbox")
  }

  /** The catch block after the not-found test: authentication, then
      quota, then sandbox; anything else is rethrown as it is. */
  function ClassifyRest(message: string): (r: string)
    ensures r == message || r in [AUTHENTICATION_FAILED, QUOTA_EXCEEDED, SANDBOX_VIOLATION]
    ensures MentionsAuth(message) ==> r == AUTHENTICATION_FAILED
    ensures !MentionsAuth(message) && MentionsQuota(message) ==> r == QUOTA_EXCEEDED
    ensures !MentionsAuth(message) && !MentionsQuota(message) && MentionsSandbox(message) ==> r == SANDBOX_VIOLATION
    ensures !MentionsAuth(message) && !MentionsQuota(message) && !MentionsSandbox(message) ==> r == message
  {
    if MentionsAuth(message) then AUTHENTICATION_FAILED
    else if MentionsQuota(message) then QUOTA_EXCEEDED
    else if MentionsSandbox(message) then SANDBOX_VIOLATION
    else message
  }

  /** The whole catch block: a missing CLI first, then the rest. An
      unrecognised error keeps its message; everything recognised becomes
      one of the four canonical messages, the earliest test winning. */
  function Classify(message: string): (r: string)
    ensures r == message || r in [CODEX_NOT_FOUND, AUTHENTICATION_FAILED, QUOTA_EXCEEDED, SANDBOX_VIOLATION]
    ensures MentionsNotFound(message) ==> r == CODEX_NOT_FOUND
    ensures !MentionsNotFound(message) ==> r == ClassifyRest(message)
  {
    if MentionsNotFound(message) then CODEX_NOT_FOUND else ClassifyRest(message)
  }

  /** The earlier test wins: a message that mentions several causes is
      reported as the first of them in the order not found, authentication,
      quota, sandbox. */
  lemma ClassifyPriority(message: string)
    ensures MentionsNotFound(message) ==> Classify(message) == CODEX_NOT_FOUND
    ensures !MentionsNotFound(message) && MentionsAuth(message) ==> Classify(message) == AUTHENTICATION_FAILED
    ensures !MentionsNotFound(message) && !MentionsAuth(message) && MentionsQuota(message) ==> Classify(message) == QUOTA_EXCEEDED
  {
  }

  /** A message without `E`, `m` or `x`, and without `nd` or `au`, names
      none of the causes the catch block tests for, so the block passes it
      on unchanged. */
  lemma {:induction false} Unrecognised(m: string)
    requires 'E' !in m && 'm' !in m && 'x' !in m
    requires PairFree(m, 'n', 'd') && PairFree(m, 'a', 'u')
    ensures !MentionsNotFound(m) && !MentionsAuth(m) && !MentionsQuota(m) && !MentionsSandbox(m)
    ensures Classify(m) == m
  {
    MissingChar(m, "ENOENT", 'E');
    MissingChar(m, "UNAUTHENTICATED", 'E');
    MissingChar(m, "RESOURCE_EXHAUSTED", 'E');
    MissingChar(m, "PERMISSION_DENIED", 'E');
    MissingChar(m, "rate limit", 'm');
    MissingChar(m, "sandbox", 'x');
    MissingPair(m, "not found", 7);
    MissingPair(m, "authentication", 0);
  }

  lemma AuthenticationLacksE()
    ensures 'E' !in AUTHENTICATION_FAILED
  {
    assert 'E' !in AUTH_PART_1 && 'E' !in AUTH_PART_2 && 'E' !in AUTH_PART_3;
  }

  lemma AuthenticationLacksM()
    ensures 'm' !in AUTHENTICATION_FAILED
  {
    assert 'm' !in AUTH_PART_1 && 'm' !in AUTH_PART_2 && 'm' !in AUTH_PART_3;
  }

  lemma AuthenticationLacksX()
    ensures 'x' !in AUTHENTICATION_FAILED
  {
    assert 'x' !in AUTH_PART_1 && 'x' !in AUTH_PART_2 && 'x' !in AUTH_PART_3;
  }

  lemma AuthenticationLacksNd()
    ensures PairFree(AUTHENTICATION_FAILED, 'n', 'd')
  {
    assert PairFree(AUTH_PART_1, 'n', 'd') && PairFree(AUTH_PART_2, 'n', 'd') && PairFree(AUTH_PART_3, 'n', 'd');
    PairFreeConcat(AUTH_PART_1, AUTH_PART_2, 'n', 'd');
    PairFreeConcat(AUTH_PART_1 + AUTH_PART_2, AUTH_PART_3, 'n', 'd');
  }

  lemma AuthenticationLacksAu()
    ensures PairFree(AUTHENTICATION_FAILED, 'a', 'u')
  {
    assert PairFree(AUTH_PART_1, 'a', 'u') && PairFree(AUTH_PART_2, 'a', 'u') && PairFree(AUTH_PART_3, 'a', 'u');
    PairFreeConcat(AUTH_PART_1, AUTH_PART_2, 'a', 'u');
    PairFreeConcat(AUTH_PART_1 + AUTH_PART_2, AUTH_PART_3, 'a', 'u');
  }

  /** The authentication message names no cause the catch block tests
      for, and so passes through it unchanged. */
  lemma AuthenticationMessageKept()
    ensures !MentionsNotFound(AUTHENTICATION_FAILED) && !MentionsAuth(AUTHENTICATION_FAILED)
    ensures !MentionsQuota(AUTHENTICATION_FAILED) && !MentionsSandbox(AUTHENTICATION_FAILED)
    ensures Classify(AUTHENTICATION_FAILED) == AUTHENTICATION_FAILED
  {
    AuthenticationLacksE();
    AuthenticationLacksM();
    AuthenticationLacksX();
    AuthenticationLacksNd();
    AuthenticationLacksAu();
    Unrecognised(AUTHENTICATION_FAILED);
  }

  /** The letters of the sandbox message that rule out the tool's earlier
      diagnoses (it has no `u`, `v` or `m`), and the word that selects its
      permission diagnosis. */
  lemma SandboxViolationLacksU()
    ensures 'u' !in SANDBOX_VIOLATION
  {
    assert 'u' !in "Operation blocked by " && 'u' !in "sandbox" && 'u' !in " policy";
  }

  lemma SandboxViolationLacksV()
    ensures 'v' !in SANDBOX_VIOLATION
  {
    assert 'v' !in "Operation blocked by " && 'v' !in "sandbox" && 'v' !in " policy";
  }

  lemma SandboxViolationLacksM()
    ensures 'm' !in SANDBOX_VIOLATION
  {
    assert 'm' !in "Operation blocked by " && 'm' !in "sandbox" && 'm' !in " policy";
  }

  lemma SandboxViolationNamesSandbox()
    ensures Contains(SANDBOX_VIOLATION, "sandbox")
  {
    ContainsInConcat("Operation blocked by ", "sandbox", " policy");
  }

  /** The check on a successful run's parsed reply. */
  predicate AuthInResponse(response: string) {
    Contains(response, "authentication") || Contains(response, "unauthenticated")
  }

  /** `executeCodex` as a value. `run` is `executeCommand("codex", args,
      onProgress, timeout)`: the raw output or the message it rejects
      with. A reply mentioning authentication is turned into the
      authentication error, which then passes through the catch block
      like any other. */
  function CodexResult(prompt: string, o: ExecOptions, run: (seq<string>, Option<int>) -> Result<string>,
                       parse: string -> Option<JsonRecord>, now: nat -> string, cwd: string): Result<CodexOutput>
  {
    match run(CodexArgs(prompt, o), o.timeout)
    case Failure(e) => Failure(Classify(e))
    case Success(raw) =>
      var out := Parsed(raw, parse, now, cwd);
      if AuthInResponse(out.response) then Failure(Classify(AUTHENTICATION_FAILED)) else Success(out)
  }

  /** A successful call returns the parsed output of what the CLI printed,
      and only when the reply does not mention authentication; a reply
      that does becomes the authentication error; a failed call carries a
      classified message. */
  lemma CodexResultCases(prompt: string, o: ExecOptions, run: (seq<string>, Option<int>) -> Result<string>,
                         parse: string -> Option<JsonRecord>, now: nat -> string, cwd: string)
    ensures var r := CodexResult(prompt, o, run, parse, now, cwd);
      && (r.Success? <==> run(CodexArgs(prompt, o), o.timeout).Success?
                          && !AuthInResponse(Parsed(run(CodexArgs(prompt, o), o.timeout).value, parse, now, cwd).response))
      && (r.Success? ==> r.value == Parsed(run(CodexArgs(prompt, o), o.timeout).value, parse, now, cwd))
      && (run(CodexArgs(prompt, o), o.timeout).Failure? ==> r.error == Classify(run(CodexArgs(prompt, o), o.timeout).error))
      && (run(CodexArgs(prompt, o), o.timeout).Success?
          && AuthInResponse(Parsed(run(CodexArgs(prompt, o), o.timeout).value, parse, now, cwd).response) ==>
            r == Failure(AUTHENTICATION_FAILED))
  {
    AuthenticationMessageKept();
  }

  /** `executeCodex`. */
  method ExecuteCodex(prompt: string, o: ExecOptions, run: (seq<string>, Option<int>) -> Result<string>,
                      parse: string -> Option<JsonRecord>, now: nat -> string, cwd: string)
    returns (r: Result<CodexOutput>)
    ensures r == CodexResult(prompt, o, run, parse, now, cwd)
  {
    var args := BuildArgs(prompt, o);
    var raw := run(args, o.timeout);
    match raw {
      case Failure(e) =>
        r := Failure(Classify(e));
      case Success(text) =>
        var out := ParseCodexOutput(text, parse, now, cwd);
        if AuthInResponse(out.response) {
          r := Failure(Classify(AUTHENTICATION_FAILED));
        } else {
          r := Success(out);
        }
    }
  }

  // ---------------------------------------------------------------------
  // Validators and fallbacks

  /** `validateSandboxMode`: one of the three modes. */
  function ValidateSandboxMode(sandbox: string): (r: bool)
    ensures r <==> sandbox == READ_ONLY || sandbox == WORKSPACE_WRITE || sandbox == DANGER_FULL_ACCESS
  {
    sandbox in SandboxModes
  }

  /** `validateApprovalPolicy`: one of the four policies. */
  function ValidateApprovalPolicy(approval: string): (r: bool)
    ensures r <==> approval == "untrusted" || approval == "on-failure" || approval == "on-request" || approval == "never"
  {
    approval in ApprovalPolicies
  }

  /** `validateModel`: the known model, or any name starting with `gpt-`
      or `o`. */
  function ValidateModel(model: string): (r: bool)
    ensures r <==> StartsWith(model, "gpt-") || StartsWith(model, "o")
  {
    assert StartsWith(GPT5, "gpt-");
    model == GPT5 || StartsWith(model, "gpt-") || StartsWith(model, "o")
  }

  /** `getModelFallbacks`: only `gpt-5`, whatever the model. */
  function GetModelFallbacks(model: string): (r: seq<string>)
    ensures r == [GPT5] && ValidateModel(r[0])
  {
    assert StartsWith(GPT5, "gpt-");
    [GPT5]
  }

  /** How much a sandbox mode allows. */
  function Permissiveness(mode: string): nat {
    if mode == DANGER_FULL_ACCESS then 2 else if mode == WORKSPACE_WRITE then 1 else 0
  }

  /** `getSandboxFallbacks`. */
  function GetSandboxFallbacks(sandbox: string): (r: seq<string>)
    ensures sandbox == DANGER_FULL_ACCESS ==> r == [WORKSPACE_WRITE, READ_ONLY]
    ensures sandbox == WORKSPACE_WRITE ==> r == [READ_ONLY]
    ensures sandbox == READ_ONLY ==> r == []
    ensures !ValidateSandboxMode(sandbox) ==> r == [READ_ONLY]
  {
    if sandbox == DANGER_FULL_ACCESS then [WORKSPACE_WRITE, READ_ONLY]
    else if sandbox == WORKSPACE_WRITE then [READ_ONLY]
    else if sandbox == READ_ONLY then []
    else [READ_ONLY]
  }

  /** Fallbacks only ever step down: every fallback is a valid mode, each
      allows strictly less than the one before it (starting from the
      requested mode when that is valid), and the list, when not empty,
      ends in the safest mode. */
  lemma FallbacksStepDown(sandbox: string)
    ensures var r := GetSandboxFallbacks(sandbox);
      && (forall i :: 0 <= i < |r| ==> ValidateSandboxMode(r[i]))
      && (ValidateSandboxMode(sandbox) ==> forall i :: 0 <= i < |r| ==> Permissiveness(r[i]) < Permissiveness(sandbox))
      && (forall i, j :: 0 <= i < j < |r| ==> Permissiveness(r[j]) < Permissiveness(r[i]))
      && (r != [] ==> r[|r| - 1] == READ_ONLY)
      && (r == [] <==> sandbox == READ_ONLY)
  {
    var r := GetSandboxFallbacks(sandbox);
    assert READ_ONLY != WORKSPACE_WRITE && READ_ONLY != DANGER_FULL_ACCESS && WORKSPACE_WRITE != DANGER_FULL_ACCESS;
    if sandbox == DANGER_FULL_ACCESS {
      assert Permissiveness(r[0]) == 1 && Permissiveness(r[1]) == 0;
    }
  }

  // ---------------------------------------------------------------------
  // The text for an MCP client

  const MCP_CONFIG_HEADER := "**Configuration:**\n"
  const CODEX_RESPONSE_LINE := "Codex response:\n"

  const WORKDIR_LABEL := "- Working Directory: "

  /** The configuration block: shown when asked for and some metadata key
      exists, with a line for each truthy model, sandbox, approval and
      working directory, then a blank line. */
  function McpConfigBlock(m: Metadata, includeMetadata: bool): (r: string)
    ensures r != "" <==> includeMetadata && |m| > 0
    ensures r != "" ==> StartsWith(r, MCP_CONFIG_HEADER)
    ensures r != "" ==>
              r == MCP_CONFIG_HEADER + ConfigLine(MODEL_LABEL, m, "model") + ConfigLine(SANDBOX_LABEL, m, "sandbox")
                   + ConfigLine(APPROVAL_LABEL, m, "approval") + ConfigLine(WORKDIR_LABEL, m, "workdir") + "\n"
  {
    if includeMetadata && |m| > 0 then
      var lines := ConfigLine(MODEL_LABEL, m, "model") + ConfigLine(SANDBOX_LABEL, m, "sandbox")
                   + ConfigLine(APPROVAL_LABEL, m, "approval") + ConfigLine(WORKDIR_LABEL, m, "workdir");
      StartsWithPrefix(MCP_CONFIG_HEADER, lines + "\n");
      HeadedLines(MCP_CONFIG_HEADER, ConfigLine(MODEL_LABEL, m, "model"), ConfigLine(SANDBOX_LABEL, m, "sandbox"),
                  ConfigLine(APPROVAL_LABEL, m, "approval"), ConfigLine(WORKDIR_LABEL, m, "workdir"), "\n");
      MCP_CONFIG_HEADER + (lines + "\n")
    else ""
  }

  /** `formatCodexResponseForMCP`: the configuration block exactly when
      asked for and metadata exists, the reasoning block exactly when asked
      for and present, then `Codex response:`, the reply and the token
      footer at the end. */
  function FormatCodexResponseForMcp(output: CodexOutput, includeThinking: bool, includeMetadata: bool): (r: string)
    ensures r == McpConfigBlock(output.metadata, includeMetadata) + ReasoningBlock(includeThinking, output.thinking)
                 + (CODEX_RESPONSE_LINE + output.response + TokenFooter(output.tokensUsed))
    ensures StartsWith(r, MCP_CONFIG_HEADER) <==> includeMetadata && |output.metadata| > 0
    ensures var rest := r[|McpConfigBlock(output.metadata, includeMetadata)|..];
              StartsWith(rest, REASONING_HEADER) <==> includeThinking && output.thinking.Some? && output.thinking.value != ""
    ensures EndsWith(r, CODEX_RESPONSE_LINE + output.response + TokenFooter(output.tokensUsed))
    ensures includeThinking && output.thinking.Some? && output.thinking.value != "" ==>
              Contains(r, REASONING_HEADER + output.thinking.value + "\n\n")
  {
    var config := McpConfigBlock(output.metadata, includeMetadata);
    var reasoning := ReasoningBlock(includeThinking, output.thinking);
    var tail := CODEX_RESPONSE_LINE + output.response + TokenFooter(output.tokensUsed);
    StartsWithConcat(REASONING_HEADER, output.thinking.GetOr(""), "\n\n");
    StartsWithConcat(CODEX_RESPONSE_LINE, output.response, TokenFooter(output.tokensUsed));
    McpLayout(config, reasoning, tail);
    config + reasoning + tail
  }

  /** The blocks in order: the header leads exactly when the configuration
      block is there, the reasoning header follows it exactly when the
      reasoning is there, the reply is at the end. */
  lemma McpLayout(config: string, reasoning: string, tail: string)
    requires config != "" ==> StartsWith(config, MCP_CONFIG_HEADER)
    requires reasoning == "" || StartsWith(reasoning, REASONING_HEADER)
    requires StartsWith(tail, CODEX_RESPONSE_LINE)
    ensures StartsWith(config + reasoning + tail, MCP_CONFIG_HEADER) <==> config != ""
    ensures EndsWith(config + reasoning + tail, tail) && Contains(config + reasoning + tail, reasoning)
    ensures StartsWith((config + reasoning + tail)[|config|..], REASONING_HEADER) <==> reasoning != ""
  {
    McpConfigLeads(config, reasoning, tail);
    ThreeParts(config, reasoning, tail);
    McpReasoningLeads(config, reasoning, tail);
  }

  /** The configuration header leads exactly when the block is there. */
  lemma McpConfigLeads(config: string, reasoning: string, tail: string)
    requires config != "" ==> StartsWith(config, MCP_CONFIG_HEADER)
    requires reasoning == "" || StartsWith(reasoning, REASONING_HEADER)
    requires StartsWith(tail, CODEX_RESPONSE_LINE)
    ensures StartsWith(config + reasoning + tail, MCP_CONFIG_HEADER) <==> config != ""
  {
    McpAfterConfig(reasoning, tail);
    McpConfigHeader(config, reasoning + tail);
    assert config + reasoning + tail == config + (reasoning + tail);
  }

  /** After the configuration block, the reasoning header leads exactly
      when the reasoning block is there. */
  lemma McpReasoningLeads(config: string, reasoning: string, tail: string)
    requires reasoning == "" || StartsWith(reasoning, REASONING_HEADER)
    requires StartsWith(tail, CODEX_RESPONSE_LINE)
    ensures StartsWith((config + reasoning + tail)[|config|..], REASONING_HEADER) <==> reasoning != ""
  {
    assert tail[0] == tail[..|CODEX_RESPONSE_LINE|][0];
    OptionalHead(reasoning, tail, REASONING_HEADER, 0);
    assert (config + reasoning + tail)[|config|..] == reasoning + tail;
  }

  /** What may follow the configuration block differs from its header in
      the third character. */
  lemma McpAfterConfig(reasoning: string, tail: string)
    requires reasoning == "" || StartsWith(reasoning, REASONING_HEADER)
    requires StartsWith(tail, CODEX_RESPONSE_LINE)
    ensures |reasoning + tail| > 2 && (reasoning + tail)[2] != 'C'
  {
    if reasoning == "" {
      assert reasoning + tail == tail;
      assert tail[2] == tail[..|CODEX_RESPONSE_LINE|][2];
    } else {
      assert (reasoning + tail)[2] == reasoning[..|REASONING_HEADER|][2];
    }
  }

  /** A text starts with the header exactly when the configuration block
      is there. */
  lemma McpConfigHeader(config: string, rest: string)
    requires config != "" ==> StartsWith(config, MCP_CONFIG_HEADER)
    requires |rest| > 2 && rest[2] != 'C'
    ensures StartsWith(config + rest, MCP_CONFIG_HEADER) <==> config != ""
  {
    var r := config + rest;
    if config == "" {
      assert r[2] == rest[2];
      assert MCP_CONFIG_HEADER[2] == 'C';
    } else {
      assert r[..|MCP_CONFIG_HEADER|] == config[..|MCP_CONFIG_HEADER|];
    }
  }
}
