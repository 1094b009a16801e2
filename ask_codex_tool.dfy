/** The `ask-codex` tool of the build: checks the query, runs the CLI with
    `exec` through the build's executor, and renders the output, or advice
    for the failure it recognises, as text for the client. */
module AskCodexTool {
  import opened Wrappers
  import opened Text
  import opened OutputParser
  import Src = CodexExecutorSrc
  import Dist = CodexExecutorDist

  // ---------------------------------------------------------------------
  // The prompt enhancer

  const GUIDELINES_INTRO := "\n\n## Response Format Guidelines:\n- Provide clear, structured analysis\n- Use markdown formatting for readability\n- Include code examples when relevant\n- Explain technical concepts clearly"
  const FOCUS_LINE := "\n- Focus on actionable insights"
  const GUIDELINES := GUIDELINES_INTRO + FOCUS_LINE
  const REASONING_LINE := "\n- Include your reasoning process"
  const ASSUMPTIONS_LINE := "\n- Note any assumptions or limitations"
  const LONG_PROMPT := 50

  /** Requests that look like an analysis: long, or naming a file, or asking
      to analyze or review. */
  predicate IsComplex(userPrompt: string)
  {
    |userPrompt| > LONG_PROMPT || Contains(userPrompt, "@") || Contains(userPrompt, "analyze")
    || Contains(userPrompt, "review")
  }

  /** The optional guideline lines. */
  function Extras(includeThinking: bool, includeMetadata: bool): string
  {
    (if includeThinking then REASONING_LINE else "") + (if includeMetadata then ASSUMPTIONS_LINE else "")
  }

  /** `buildCodexPrompt`: the request, followed by the formatting guidelines
      when it looks like an analysis; both options default to true. */
  function BuildCodexPrompt(userPrompt: string, includeThinking: Option<bool>, includeMetadata: Option<bool>): (r: string)
    ensures StartsWith(r, userPrompt)
    ensures !IsComplex(userPrompt) ==> r == userPrompt
    ensures IsComplex(userPrompt) ==>
              r == userPrompt + GUIDELINES + Extras(includeThinking.GetOr(true), includeMetadata.GetOr(true))
  {
    var r := if IsComplex(userPrompt) then
               userPrompt + GUIDELINES + Extras(includeThinking.GetOr(true), includeMetadata.GetOr(true))
             else userPrompt;
    assert r[..|userPrompt|] == userPrompt;
    r
  }

  /** A text ends with `a` only if its last but one characters agree. */
  lemma EndsWithMismatch(x: string, a: string)
    requires |x| >= 2 && |a| >= 2 && x[|x| - 2] != a[|a| - 2]
    ensures !EndsWith(x, a)
  {
    if |a| <= |x| {
      assert x[|x| - |a|..][|a| - 2] == x[|x| - 2];
    }
  }

  /** The reasoning line leads the extras exactly when asked for. */
  lemma ReasoningIff(t: bool, m: bool)
    ensures StartsWith(Extras(t, m), REASONING_LINE) <==> t
  {
    var e := Extras(t, m);
    if t {
      assert e[..|REASONING_LINE|] == REASONING_LINE;
    } else {
      assert REASONING_LINE[3] == 'I' && ASSUMPTIONS_LINE[3] == 'N';
      assert e == "" || e == ASSUMPTIONS_LINE;
    }
  }

  /** After text ending like the focus line, the assumptions line ends the
      result exactly when asked for. */
  lemma AssumptionsIff(x: string, t: bool, m: bool)
    requires |x| >= 2 && x[|x| - 2] == 't'
    ensures EndsWith(x + Extras(t, m), ASSUMPTIONS_LINE) <==> m
  {
    var e := Extras(t, m);
    var r := x + e;
    if m {
      assert r[|r| - |ASSUMPTIONS_LINE|..] == ASSUMPTIONS_LINE;
    } else {
      assert ASSUMPTIONS_LINE[|ASSUMPTIONS_LINE| - 2] == 'n';
      if t {
        assert e == REASONING_LINE;
        assert REASONING_LINE[|REASONING_LINE| - 2] == 's';
        assert r[|r| - 2] == e[|e| - 2];
      } else {
        assert r == x;
      }
      EndsWithMismatch(r, ASSUMPTIONS_LINE);
    }
  }

  /** The reasoning line follows the guidelines exactly when `includeThinking`
      holds, and the prompt ends with the assumptions line exactly when
      `includeMetadata` holds. */
  lemma GuidelineLines(userPrompt: string, includeThinking: Option<bool>, includeMetadata: Option<bool>)
    requires IsComplex(userPrompt)
    ensures var r := BuildCodexPrompt(userPrompt, includeThinking, includeMetadata);
            var head := userPrompt + GUIDELINES;
            StartsWith(r, head)
            && (StartsWith(r[|head|..], REASONING_LINE) <==> includeThinking.GetOr(true))
            && (EndsWith(r, ASSUMPTIONS_LINE) <==> includeMetadata.GetOr(true))
  {
    var t := includeThinking.GetOr(true);
    var m := includeMetadata.GetOr(true);
    var head := userPrompt + GUIDELINES;
    var e := Extras(t, m);
    var r := head + e;
    assert r[..|head|] == head;
    assert r[|head|..] == e;
    ReasoningIff(t, m);
    assert FOCUS_LINE[|FOCUS_LINE| - 2] == 't';
    assert head == (userPrompt + GUIDELINES_INTRO) + FOCUS_LINE;
    assert head[|head| - 2] == FOCUS_LINE[|FOCUS_LINE| - 2];
    AssumptionsIff(head, t, m);
  }

  // ---------------------------------------------------------------------
  // The arguments

  const INVALID_QUERY := "You must provide a valid query or instruction for Codex analysis"
  const DEFAULT_TIMEOUT := 180000

  /** The tool's arguments after schema validation. */
  datatype AskArgs = AskArgs(
    prompt: Option<string>,
    model: Option<string>,
    sandbox: Option<string>,
    approval: Option<string>,
    image: Src.ImageArg,
    config: Src.ConfigArg,
    timeout: Option<int>,
    workingDir: Option<string>,
    profile: Option<string>,
    includeThinking: Option<bool>,
    includeMetadata: Option<bool>)

  /** `timeout || 180000`: an absent or zero timeout becomes three minutes. */
  function EffectiveTimeout(timeout: Option<int>): (r: int)
    ensures timeout.None? || timeout == Some(0) ==> r == DEFAULT_TIMEOUT
    ensures timeout.Some? && timeout.value != 0 ==> r == timeout.value
  {
    if timeout.Some? && timeout.value != 0 then timeout.value else DEFAULT_TIMEOUT
  }

  /** The options handed to the executor: the caller's, with the effective
      timeout and `exec` always on. */
  function OptionsFor(a: AskArgs): (o: Src.ExecOptions)
    ensures o.timeout == Some(EffectiveTimeout(a.timeout)) && o.useExec == Some(true)
    ensures o.model == a.model && o.sandbox == a.sandbox && o.approval == a.approval
    ensures o.workingDir == a.workingDir && o.profile == a.profile
    ensures o.image == a.image && o.config == a.config
  {
    Src.ExecOptions(a.model, a.sandbox, a.approval, a.image, a.config,
                    Some(EffectiveTimeout(a.timeout)), a.workingDir, a.profile, Some(true))
  }

  // ---------------------------------------------------------------------
  // Diagnosing a failure

  /** The causes the catch block tells apart, in the order it tests them. */
  datatype Cause = NotFound | Unauthorized | OverQuota | TimedOut | NotPermitted | BadModel | Unrecognised

  predicate MentionsNotFound(m: string) { Contains(m, "not found") || Contains(m, "command not found") }
  predicate MentionsAuth(m: string) {
    Contains(m, "authentication") || Contains(m, "unauthorized") || Contains(m, "invalid api key")
  }
  predicate MentionsQuota(m: string) {
    Contains(m, "quota") || Contains(m, "rate limit") || Contains(m, "usage limit")
  }
  predicate MentionsTimeout(m: string) { Contains(m, "timeout") }
  predicate MentionsPermission(m: string) {
    Contains(m, "sandbox") || Contains(m, "permission") || Contains(m, "access denied")
  }
  predicate MentionsModel(m: string) { Contains(m, "model") || Contains(m, "unsupported") }

  /** The first cause, in the order not found, authentication, quota,
      timeout, permission, model, that the message mentions. */
  function CauseOf(m: string): Cause
  {
    if MentionsNotFound(m) then NotFound
    else if MentionsAuth(m) then Unauthorized
    else if MentionsQuota(m) then OverQuota
    else if MentionsTimeout(m) then TimedOut
    else if MentionsPermission(m) then NotPermitted
    else if MentionsModel(m) then BadModel
    else Unrecognised
  }

  /** The tests run in order: each cause is reported exactly when the
      message mentions it and none of the causes tested before. */
  lemma CascadeOrder(m: string)
    ensures CauseOf(m) == NotFound <==> MentionsNotFound(m)
    ensures CauseOf(m) == Unauthorized <==> !MentionsNotFound(m) && MentionsAuth(m)
    ensures CauseOf(m) == OverQuota <==> !MentionsNotFound(m) && !MentionsAuth(m) && MentionsQuota(m)
    ensures CauseOf(m) == TimedOut <==> !MentionsNotFound(m) && !MentionsAuth(m) && !MentionsQuota(m) && MentionsTimeout(m)
    ensures CauseOf(m) == NotPermitted <==> !MentionsNotFound(m) && !MentionsAuth(m) && !MentionsQuota(m)
                                            && !MentionsTimeout(m) && MentionsPermission(m)
    ensures CauseOf(m) == BadModel <==> !MentionsNotFound(m) && !MentionsAuth(m) && !MentionsQuota(m)
                                        && !MentionsTimeout(m) && !MentionsPermission(m) && MentionsModel(m)
    ensures CauseOf(m) == Unrecognised <==> !MentionsNotFound(m) && !MentionsAuth(m) && !MentionsQuota(m)
                                            && !MentionsTimeout(m) && !MentionsPermission(m) && !MentionsModel(m)
  {
  }

  /** The second test for a missing CLI adds nothing: `command not found`
      already says `not found`. */
  lemma CommandNotFoundSubsumed(m: string)
    ensures MentionsNotFound(m) <==> Contains(m, "not found")
  {
    if Contains(m, "command not found") {
      ContainsInConcat("command ", "not found", "");
      assert "command " + "not found" + "" == "command not found";
      ContainsTransitive(m, "command not found", "not found");
    }
  }

  /** Every reply to a failure opens with this mark, then a title for the cause. */
  const MARK := "❌ **"

  function Title(c: Cause): string
  {
    match c
    case NotFound => "Codex CLI Not Found**: "
    case Unauthorized => "Authentication Failed**: "
    case OverQuota => "Usage Limit Reached**: "
    case TimedOut => "Request Timeout**: "
    case NotPermitted => "Permission Error**: "
    case BadModel => "Model Error**: "
    case Unrecognised => "Codex Execution Error**: "
  }

  const NOT_FOUND_TEXT := "\n\n**Quick Fix:**\n```bash\nnpm install -g @openai/codex\n```\n\n**Verification:** Run `codex --version` to confirm installation."
  const AUTH_TEXT := "\n\n**Setup Options:**\n1. **API Key:** `export OPENAI_API_KEY=your-key`\n2. **Login:** `codex login` (requires ChatGPT subscription)\n3. **Config:** Add key to `~/.codex/config.toml`\n\n**Troubleshooting:** Verify key has Codex access in OpenAI dashboard."
  const QUOTA_TEXT := "\n\n**Immediate Solutions:**\n1. **Wait and retry:** Rate limits reset periodically\n2. **Check quota:** Visit OpenAI dashboard for usage details\n\n**Note:** Only GPT-5 model is supported"
  const TIMEOUT_TEXT := "Operation took longer than expected\n\n**Solutions:**\n1. **Increase timeout:** Add `timeout: 300000` (5 minutes)\n2. **Simplify request:** Break complex queries into smaller parts  \n3. **Retry request:** GPT-5 is the only supported model\n4. **Check connectivity:** Ensure stable internet connection"
  const PERMISSION_HEAD := "\n\n**Permission Solutions:**\n1. **Relax sandbox:** Use `sandbox: \""
  const PERMISSION_MID := "\"`\n2. **Approval policy:** Try `approval: \""
  const PERMISSION_FULL := "\"`  \n3. **Full access:** Use `sandbox: \""
  const PERMISSION_TAIL := "\"` (caution!)\n4. **Check file permissions:** Ensure Codex can access target files"
  const MODEL_HEAD := "Requested model may not be available\n\n**Model Alternatives:**\n- **GPT-5:** `model: \""
  const MODEL_TAIL := "\"` (only supported model)\n\n**Check:** Verify model availability in your OpenAI account."
  const GENERIC_MODEL := "\n\n**Request Configuration:**\n- **Model:** "
  const GENERIC_SANDBOX := "\n- **Sandbox:** "
  const GENERIC_APPROVAL := "  \n- **Approval:** "
  const GENERIC_DIR := "\n- **Working Directory:** "
  const GENERIC_TAIL := "\n\n**Debug Steps:**\n1. Verify Codex CLI installation: `codex --version`\n2. Check authentication: `codex login` or API key\n3. Test with simpler query: `codex \"Hello world\"`\n4. Try different model or sandbox mode"

  /** `value || fallback` for an optional string. */
  function OrElse(value: Option<string>, fallback: string): (r: string)
    ensures value.Some? && value.value != "" ==> r == value.value
    ensures value.None? || value.value == "" ==> r == fallback
  {
    if value.Some? && value.value != "" then value.value else fallback
  }

  /** The request's settings as the generic reply lists them, defaults named. */
  function Settings(a: AskArgs): string
  {
    GENERIC_MODEL + OrElse(a.model, "gpt-5 (default)")
    + GENERIC_SANDBOX + OrElse(a.sandbox, "read-only (default)")
    + GENERIC_APPROVAL + OrElse(a.approval, "untrusted (default)")
    + GENERIC_DIR + OrElse(a.workingDir, "current directory") + GENERIC_TAIL
  }

  /** What follows the title: fixed advice for a recognised cause, else the
      error and the request's settings, with their defaults named. */
  function CauseText(c: Cause, message: string, a: AskArgs): string
  {
    match c
    case NotFound => Src.CODEX_NOT_FOUND + NOT_FOUND_TEXT
    case Unauthorized => Src.AUTHENTICATION_FAILED + AUTH_TEXT
    case OverQuota => Src.QUOTA_EXCEEDED + QUOTA_TEXT
    case TimedOut => TIMEOUT_TEXT
    case NotPermitted =>
      Src.SANDBOX_VIOLATION + PERMISSION_HEAD + Src.WORKSPACE_WRITE + PERMISSION_MID + Src.ON_REQUEST
      + PERMISSION_FULL + Src.DANGER_FULL_ACCESS + PERMISSION_TAIL
    case BadModel => MODEL_HEAD + Src.GPT5 + MODEL_TAIL
    case Unrecognised => message + Settings(a)
  }

  /** The reply for a cause: the mark, the cause's title, its advice; an
      unrecognised error is quoted. */
  function Reply(c: Cause, message: string, a: AskArgs): (r: string)
    ensures StartsWith(r, MARK + Title(c))
    ensures c == Unrecognised ==> Contains(r, message)
  {
    var t := CauseText(c, message, a);
    StartsWithPrefix(MARK + Title(c), t);
    if c == Unrecognised then
      StartsWithPrefix(message, Settings(a));
      ContainsAfter(MARK + Title(c), t, message);
      MARK + Title(c) + t
    else MARK + Title(c) + t
  }

  /** The catch block: the reply for the first cause the message mentions. */
  function ErrorReply(message: string, a: AskArgs): (r: string)
    ensures StartsWith(r, MARK + Title(CauseOf(message)))
    ensures CauseOf(message) == Unrecognised ==> Contains(r, message)
  {
    Reply(CauseOf(message), message, a)
  }

  /** The titles differ in their first or seventh character. */
  lemma TitlesDistinct(c1: Cause, c2: Cause)
    requires Title(c1)[0] == Title(c2)[0] && Title(c1)[6] == Title(c2)[6]
    ensures c1 == c2
  {
    assert Title(NotFound)[0] == 'C' && Title(NotFound)[6] == 'C';
    assert Title(Unrecognised)[0] == 'C' && Title(Unrecognised)[6] == 'E';
    assert Title(Unauthorized)[0] == 'A' && Title(OverQuota)[0] == 'U' && Title(TimedOut)[0] == 'R';
    assert Title(NotPermitted)[0] == 'P' && Title(BadModel)[0] == 'M';
  }

  /** Replies that agree have the same cause, whatever advice follows the
      titles: the title right after the mark tells the cause. */
  lemma TitleDeterminesCause(c1: Cause, t1: string, c2: Cause, t2: string)
    requires MARK + Title(c1) + t1 == MARK + Title(c2) + t2
    ensures c1 == c2
  {
    var r := MARK + Title(c1) + t1;
    assert |Title(c1)| >= 7 && |Title(c2)| >= 7;
    assert r[|MARK|] == Title(c1)[0] && r[|MARK| + 6] == Title(c1)[6];
    assert r[|MARK|] == Title(c2)[0] && r[|MARK| + 6] == Title(c2)[6];
    TitlesDistinct(c1, c2);
  }

  // ---------------------------------------------------------------------
  // The tool

  /** `execute`: a missing or blank query is refused before anything runs;
      otherwise the trimmed query goes to the build's executor with `exec`,
      and its output, or its failure, becomes the reply. The executor's
      effects are `path`, `run`, `parse`, `now` and `cwd`. */
  function AskCodex(a: AskArgs, path: Dist.PathInfo,
                    run: (string, seq<string>, Option<int>) -> Result<string>,
                    parse: string -> Option<JsonRecord>, now: nat -> string, cwd: string): (r: Result<string>)
    ensures r.Failure? <==> a.prompt.None? || Trim(a.prompt.value) == ""
    ensures r.Failure? ==> r.error == INVALID_QUERY
    ensures r.Success? ==>
              match Dist.DistResult(Trim(a.prompt.value), OptionsFor(a), path, run, parse, now, cwd)
              case Success(out) =>
                r.value == Src.FormatCodexResponseForMcp(out, a.includeThinking.GetOr(true), a.includeMetadata.GetOr(true))
              case Failure(e) => r.value == ErrorReply(e, a)
  {
    if a.prompt.None? || Trim(a.prompt.value) == "" then Failure(INVALID_QUERY)
    else
      match Dist.DistResult(Trim(a.prompt.value), OptionsFor(a), path, run, parse, now, cwd)
      case Success(out) =>
        Success(Src.FormatCodexResponseForMcp(out, a.includeThinking.GetOr(true), a.includeMetadata.GetOr(true)))
      case Failure(e) => Success(ErrorReply(e, a))
  }

  /** A sandbox other than read-only never reaches the CLI: the executor's
      violation comes back as the reply to that error, whatever `run` does. */
  lemma SandboxRefusedBeforeRun(a: AskArgs, path: Dist.PathInfo,
                                run: (string, seq<string>, Option<int>) -> Result<string>,
                                parse: string -> Option<JsonRecord>, now: nat -> string, cwd: string)
    requires a.prompt.Some? && Trim(a.prompt.value) != ""
    requires a.sandbox.Some? && a.sandbox.value != "" && a.sandbox.value != Src.READ_ONLY
    ensures AskCodex(a, path, run, parse, now, cwd) == Success(ErrorReply(Src.SANDBOX_VIOLATION, a))
  {
    assert Dist.SandboxRejected(OptionsFor(a));
  }

  /** A message that names the sandbox, and lacks `u`, `v` and `m`, is
      a permission problem: those letters rule out every cause tested
      before it. */
  lemma {:induction false} PermissionOnly(m: string)
    requires 'u' !in m && 'v' !in m && 'm' !in m
    requires Contains(m, "sandbox")
    ensures CauseOf(m) == NotPermitted
  {
    MissingChar(m, "not found", 'u');
    MissingChar(m, "command not found", 'u');
    MissingChar(m, "authentication", 'u');
    MissingChar(m, "unauthorized", 'u');
    MissingChar(m, "invalid api key", 'v');
    MissingChar(m, "quota", 'u');
    MissingChar(m, "rate limit", 'm');
    MissingChar(m, "usage limit", 'u');
    MissingChar(m, "timeout", 'u');
  }

  /** The sandbox message is diagnosed as a permission problem, so a
      refused sandbox gets the permission reply. */
  lemma SandboxViolationNotPermitted()
    ensures CauseOf(Src.SANDBOX_VIOLATION) == NotPermitted
  {
    Src.SandboxViolationLacksU();
    Src.SandboxViolationLacksV();
    Src.SandboxViolationLacksM();
    Src.SandboxViolationNamesSandbox();
    PermissionOnly(Src.SANDBOX_VIOLATION);
  }
}
