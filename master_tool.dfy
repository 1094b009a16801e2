/** The `ask-codex-master` tool: checks its prompt, runs the Master
    pipeline, and renders the plan, or a diagnosis of what went wrong, as
    Markdown text for the client. */
module MasterTool {
  import opened Wrappers
  import opened Text
  import opened Folds
  import Registry
  import Master
  import CodexExecutorSrc

  // ---------------------------------------------------------------------
  // The argument check

  const PROMPT_REQUIRED := "Master工具需要有效的prompt参数"

  /** The prompt argument, when it is a non-empty string. */
  function PromptOf(v: Registry.ArgValue): (r: Option<string>)
    ensures r.Some? <==> v.Str? && v.s != ""
    ensures r.Some? ==> r.value == v.s
  {
    if v.Str? && Registry.Truthy(v) then Some(v.s) else None
  }

  /** `includeAnalysis`, true when absent, else judged by truthiness. */
  function IncludeAnalysis(v: Registry.ArgValue): (r: bool)
    ensures v == Registry.Undefined ==> r
    ensures v != Registry.Undefined ==> r == Registry.Truthy(v)
  {
    if v == Registry.Undefined then true else Registry.Truthy(v)
  }

  // ---------------------------------------------------------------------
  // The monitor script path

  /** The pieces of the monitor script's Windows path: drive, folders, file. */
  const SCRIPT_PIECES: seq<string> := ["H:", "A_test", "牛马", "scripts", "monitor_progress.ps1"]

  /** The path as the string literal actually reads: JavaScript drops the
      backslash of an escape it does not know, so the separators vanish. */
  const MONITOR_SCRIPT_AS_WRITTEN: string := Concat(SCRIPT_PIECES)

  /** The path as evidently intended, with its separators. */
  const MONITOR_SCRIPT: string := Join(SCRIPT_PIECES, "\\")

  lemma PiecesHaveNoSeparator()
    ensures forall i :: 0 <= i < |SCRIPT_PIECES| ==> '\\' !in SCRIPT_PIECES[i]
  {
    assert SCRIPT_PIECES[4] == "monitor_progress" + ".ps1";
  }

  /** A string made of pieces that avoid a character avoids it too. */
  lemma {:induction false} ConcatAvoids(parts: seq<string>, c: char)
    requires forall i :: 0 <= i < |parts| ==> c !in parts[i]
    ensures c !in Concat(parts)
    decreases |parts|
  {
    if parts != [] {
      ConcatAvoids(parts[1..], c);
      assert Concat(parts) == parts[0] + Concat(parts[1..]);
    }
  }

  /** As written, the path has no folder structure left: it splits into a
      single component. */
  lemma ScriptPathAsWrittenIsFlat()
    ensures Split(MONITOR_SCRIPT_AS_WRITTEN, '\\') == [MONITOR_SCRIPT_AS_WRITTEN]
  {
    PiecesHaveNoSeparator();
    ConcatAvoids(SCRIPT_PIECES, '\\');
    SplitNoSeparator(MONITOR_SCRIPT_AS_WRITTEN, '\\');
  }

  /** As intended, the path splits back into drive, folders and file. */
  lemma ScriptPathHasFolders()
    ensures Split(MONITOR_SCRIPT, '\\') == SCRIPT_PIECES
  {
    PiecesHaveNoSeparator();
    SplitJoin(SCRIPT_PIECES, '\\');
  }

  // ---------------------------------------------------------------------
  // The plan as Markdown

  const TITLE := "# 🎯 牛马Master执行计划\n\n"
  const MONITOR_HEAD := "## 📊 实时进度监控\n\n"
  const MONITOR_COMMAND := "🔗 **PowerShell监控命令**:\n```powershell\npowershell -ExecutionPolicy Bypass -File \""
  const MONITOR_FILE := "\"\n```\n\n📁 **进度文件**: `"
  const MONITOR_TAIL := "`\n📈 运行上方命令可在独立窗口中查看8路并行分析的详细实时进度\n\n"
  const SUMMARY_HEAD := "## 📋 方案摘要\n\n"
  const STEPS_HEAD := "## 🚀 执行步骤\n\n"
  const NO_STEPS_LINE := "请根据下方详细分析执行相应操作\n"
  const TIME_HEAD := "## ⏰ 预计耗时\n\n"
  const ANALYSIS_HEAD := "## 🔍 详细分析过程\n\n"
  const FOOTER_HEAD := "---\n*🤖 由牛马Master并行分析引擎生成 | 8路并行分析 | "
  const FOOTER_TAIL := "*\n"

  predicate Given(s: Option<string>) { s.Some? && s.value != "" }

  /** The monitoring section, present only when both the progress file and
      the script are given; it names both. */
  function MonitorBlock(progressFile: Option<string>, monitorScript: Option<string>): (r: string)
    ensures r != "" <==> Given(progressFile) && Given(monitorScript)
    ensures r != "" ==> StartsWith(r, MONITOR_HEAD)
                        && Contains(r, monitorScript.value) && Contains(r, progressFile.value)
  {
    if Given(progressFile) && Given(monitorScript) then
      var a := MONITOR_HEAD + MONITOR_COMMAND;
      var b := MONITOR_FILE + progressFile.value + MONITOR_TAIL;
      ContainsInConcat(a, monitorScript.value, b);
      ContainsInConcat(a + monitorScript.value + MONITOR_FILE, progressFile.value, MONITOR_TAIL);
      assert a + monitorScript.value + b == a + monitorScript.value + MONITOR_FILE + progressFile.value + MONITOR_TAIL;
      var r := a + monitorScript.value + b;
      assert r[..|MONITOR_HEAD|] == MONITOR_HEAD;
      r
    else ""
  }

  function StepLine(step: string): string { step + "\n" }

  /** One line per step, or the fallback line when there are none. */
  function StepLines(steps: seq<string>): (r: string)
  {
    if steps == [] then NO_STEPS_LINE else ConcatMap(steps, StepLine)
  }

  /** The step lines are the steps joined by newlines, with a final newline. */
  lemma {:induction false} StepLinesJoin(steps: seq<string>)
    requires steps != []
    ensures ConcatMap(steps, StepLine) == Join(steps, "\n") + "\n"
    decreases |steps|
  {
    if |steps| > 1 {
      StepLinesJoin(steps[1..]);
    }
  }

  /** Steps without line breaks are emitted one per line, in order: the
      lines read back are the steps. */
  lemma StepsOnePerLine(steps: seq<string>)
    requires steps != []
    requires forall i :: 0 <= i < |steps| ==> '\n' !in steps[i]
    ensures var r := StepLines(steps); |r| >= 1 && Split(r[..|r| - 1], '\n') == steps
  {
    StepLinesJoin(steps);
    var r := StepLines(steps);
    assert r[..|r| - 1] == Join(steps, "\n");
    SplitJoin(steps, '\n');
  }

  /** The detailed analysis, present only when asked for and non-empty. */
  function AnalysisBlock(includeAnalysis: bool, analysis: string): (r: string)
    ensures r != "" <==> includeAnalysis && analysis != ""
    ensures r != "" ==> StartsWith(r, ANALYSIS_HEAD) && r[|ANALYSIS_HEAD|..] == analysis + "\n\n"
  {
    var r := if includeAnalysis && analysis != "" then ANALYSIS_HEAD + analysis + "\n\n" else "";
    assert r != "" ==> r[..|ANALYSIS_HEAD|] == ANALYSIS_HEAD;
    r
  }

  function SummaryBlock(summary: string): (r: string)
    ensures StartsWith(r, SUMMARY_HEAD)
  {
    var r := SUMMARY_HEAD + summary + "\n\n";
    assert r[..|SUMMARY_HEAD|] == SUMMARY_HEAD;
    r
  }

  function TimeBlock(estimatedTime: string): string { TIME_HEAD + estimatedTime + "\n\n" }

  function Footer(now: string): string { FOOTER_HEAD + now + FOOTER_TAIL }

  /** A text starts with what its first part starts with. */
  lemma StartsWithFirst(x: string, a: string, y: string)
    requires StartsWith(x, a)
    ensures StartsWith(x + y, a)
  {
    assert (x + y)[..|a|] == x[..|a|];
  }

  /** What follows the monitoring section: the summary, the steps, the
      estimate, the optional analysis and the footer. */
  function AfterMonitor(plan: Master.ExecutionPlan, includeAnalysis: bool, now: string): (r: string)
    ensures StartsWith(r, SUMMARY_HEAD)
  {
    var s := SummaryBlock(plan.summary);
    var rest := STEPS_HEAD + StepLines(plan.steps) + "\n" + TimeBlock(plan.estimatedTime)
                + AnalysisBlock(includeAnalysis, plan.analysis) + Footer(now);
    StartsWithFirst(s, SUMMARY_HEAD, rest);
    s + rest
  }

  /** `formatMasterResponse`; `now` stands for the local time printed in the footer. */
  function MasterResponse(plan: Master.ExecutionPlan, includeAnalysis: bool,
                          progressFile: Option<string>, monitorScript: Option<string>, now: string): string
  {
    TITLE + (MonitorBlock(progressFile, monitorScript) + AfterMonitor(plan, includeAnalysis, now))
  }

  /** Text that differs from `a` at some position does not start with `t + a` after `t`. */
  lemma Mismatch(t: string, a: string, x: string, k: nat)
    requires k < |a| && k < |x| && a[k] != x[k]
    ensures !StartsWith(t + x, t + a)
  {
    assert (t + x)[|t| + k] == x[k];
    assert (t + a)[|t| + k] == a[k];
  }

  lemma StartsAfter(t: string, a: string, x: string, y: string)
    requires StartsWith(x, a)
    ensures StartsWith(t + (x + y), t + a)
  {
    assert (t + (x + y))[..|t + a|] == t + a;
  }

  /** The reply opens with the monitoring section exactly when both the
      progress file and the script are given; otherwise the summary comes first. */
  lemma MonitorSectionIff(plan: Master.ExecutionPlan, includeAnalysis: bool,
                          progressFile: Option<string>, monitorScript: Option<string>, now: string)
    ensures var r := MasterResponse(plan, includeAnalysis, progressFile, monitorScript, now);
            StartsWith(r, TITLE + MONITOR_HEAD) <==> Given(progressFile) && Given(monitorScript)
  {
    var m := MonitorBlock(progressFile, monitorScript);
    var after := AfterMonitor(plan, includeAnalysis, now);
    if Given(progressFile) && Given(monitorScript) {
      StartsAfter(TITLE, MONITOR_HEAD, m, after);
    } else {
      assert m + after == after;
      assert after[3] == SUMMARY_HEAD[3] != MONITOR_HEAD[3];
      Mismatch(TITLE, MONITOR_HEAD, after, 3);
    }
  }

  /** Appends the step lines to `head`: one line per step, or the fallback line. */
  method AppendSteps(head: string, steps: seq<string>) returns (response: string)
    ensures response == head + StepLines(steps)
  {
    response := head;
    if |steps| > 0 {
      var i := 0;
      while i < |steps|
        invariant 0 <= i <= |steps|
        invariant response == head + ConcatMap(steps[..i], StepLine)
      {
        ConcatMapSnoc(steps[..i], steps[i], StepLine);
        assert steps[..i + 1] == steps[..i] + [steps[i]];
        response := response + steps[i] + "\n";
        i := i + 1;
      }
      assert steps[..i] == steps;
    } else {
      response := response + NO_STEPS_LINE;
    }
  }

  /** The same reply built the way the tool builds it: appended piece by
      piece, one line per step. */
  method FormatMasterResponse(plan: Master.ExecutionPlan, includeAnalysis: bool,
                              progressFile: Option<string>, monitorScript: Option<string>, now: string)
    returns (response: string)
    ensures response == MasterResponse(plan, includeAnalysis, progressFile, monitorScript, now)
  {
    var monitor := "";
    if Given(progressFile) && Given(monitorScript) {
      monitor := MonitorBlock(progressFile, monitorScript);
    }
    var steps := AppendSteps(STEPS_HEAD, plan.steps);
    var rest := steps + "\n" + TimeBlock(plan.estimatedTime);
    var analysis := "";
    if includeAnalysis && plan.analysis != "" {
      analysis := AnalysisBlock(includeAnalysis, plan.analysis);
    }
    rest := rest + analysis + Footer(now);
    response := TITLE + (monitor + (SummaryBlock(plan.summary) + rest));
  }

  // ---------------------------------------------------------------------
  // Diagnosing a failure

  /** Every reply to a failure opens with this mark, followed by a word for the cause. */
  const MARK := "❌ **牛马Master"

  const NOT_FOUND_WORD := "执行失败**: "
  const NOT_FOUND_TEXT := "Codex CLI未找到\n\n**解决方案:**\n1. 安装Codex CLI: `npm install -g @openai/codex`\n2. 验证安装: `codex --version`\n3. 登录订阅账户: `codex login`\n\n**注意**: 牛马Master需要Codex CLI支持才能运行"
  const AUTH_WORD := "认证失败**: "
  const AUTH_TEXT := "\n\n**Master级认证要求:**\n- 需要有效的Codex CLI Pro订阅（$200/月）\n- 确保已登录: `codex login`\n- Master模式需要稳定的API访问权限"
  const TIMEOUT_WORD := "超时**: "
  const TIMEOUT_TEXT := "分析任务复杂度超出预期\n\n**Master超时处理:**\n1. **任务过于复杂**: 请尝试简化需求或分批处理\n2. **网络问题**: 检查网络连接稳定性\n3. **降级使用**: 可以使用单路 `ask-codex` 工具\n4. **重试**: Master包含错误恢复机制，可以重试\n\n**建议**: 复杂的全项目分析可能需要分批执行"
  const QUOTA_WORD := "资源限制**: "
  const QUOTA_TEXT := "API配额或速率限制\n\n**Master资源管理:**\n- Master模式会并发调用8个Codex实例\n- 可能快速消耗API配额\n- 建议在非高峰时段使用Master模式\n- 或使用单路 `ask-codex` 节省配额"
  const GENERIC_WORD := "执行错误**: "
  const GENERIC_DIAGNOSIS := "\n\n**Master诊断信息:**\n- **原始需求**: "
  const GENERIC_KIND := "\n- **错误类型**: "
  const GENERIC_TAIL := "\n- **建议**: 可以尝试使用简化版 `ask-codex` 工具\n\n**调试步骤:**\n1. 确认Codex CLI正常: `codex \"hello world\"`\n2. 检查订阅状态\n3. 尝试简单的Master任务测试\n4. 如持续失败，请使用单路分析工具"

  const INTERNAL := "内部调度错误"
  const EXTERNAL := "外部依赖错误"
  const UNKNOWN_PROMPT := "未知"
  const QUOTE_LIMIT := 200

  /** The causes the catch block tells apart, in the order it tests them. */
  datatype Cause = NotFound | Unauthorized | TimedOut | OverQuota | Unrecognised

  const NOT_FOUND_KEY := "not found"
  const COMMAND_NOT_FOUND_KEY := "command not found"

  function CauseOf(message: string): (c: Cause)
  {
    if Contains(message, NOT_FOUND_KEY) || Contains(message, COMMAND_NOT_FOUND_KEY) then NotFound
    else if Contains(message, "authentication") || Contains(message, "unauthorized") then Unauthorized
    else if Contains(message, "timeout") then TimedOut
    else if Contains(message, "quota") || Contains(message, "rate limit") then OverQuota
    else Unrecognised
  }

  /** The second test for a missing CLI adds nothing: a message saying
      `command not found` already says `not found`. */
  lemma CommandNotFoundSubsumed(message: string)
    ensures Contains(message, COMMAND_NOT_FOUND_KEY) ==> Contains(message, NOT_FOUND_KEY)
  {
    if Contains(message, COMMAND_NOT_FOUND_KEY) {
      ContainsInConcat("command ", NOT_FOUND_KEY, "");
      assert "command " + NOT_FOUND_KEY + "" == COMMAND_NOT_FOUND_KEY;
      ContainsTransitive(message, COMMAND_NOT_FOUND_KEY, NOT_FOUND_KEY);
    }
  }

  /** The requested task as quoted in the diagnosis: the first 200
      characters, marked with `...` when there were more. */
  function Quote(prompt: string): (r: string)
    ensures prompt == "" ==> r == UNKNOWN_PROMPT
    ensures prompt != "" && |prompt| <= QUOTE_LIMIT ==> r == prompt
    ensures |prompt| > QUOTE_LIMIT ==> |r| == QUOTE_LIMIT + 3 && r[..QUOTE_LIMIT] == prompt[..QUOTE_LIMIT]
                                       && EndsWith(r, "...")
  {
    if prompt == "" then UNKNOWN_PROMPT
    else if |prompt| > QUOTE_LIMIT then prompt[..QUOTE_LIMIT] + "..."
    else prompt
  }

  /** Errors that mention the Master are reported as internal. */
  function ErrorKind(message: string): (r: string)
    ensures r == INTERNAL <==> Contains(message, "Master")
    ensures r == INTERNAL || r == EXTERNAL
  {
    assert INTERNAL[0] != EXTERNAL[0];
    if Contains(message, "Master") then INTERNAL else EXTERNAL
  }

  /** The cause word that follows the mark. */
  function CauseWord(c: Cause): string
  {
    match c
    case NotFound => NOT_FOUND_WORD
    case Unauthorized => AUTH_WORD
    case TimedOut => TIMEOUT_WORD
    case OverQuota => QUOTA_WORD
    case Unrecognised => GENERIC_WORD
  }

  /** What follows the cause word: fixed advice for a recognised cause,
      else the error, the quoted request and the kind of error. */
  function CauseText(c: Cause, message: string, prompt: string): string
  {
    match c
    case NotFound => NOT_FOUND_TEXT
    case Unauthorized => CodexExecutorSrc.AUTHENTICATION_FAILED + AUTH_TEXT
    case TimedOut => TIMEOUT_TEXT
    case OverQuota => QUOTA_TEXT
    case Unrecognised => message + GENERIC_DIAGNOSIS + Quote(prompt) + GENERIC_KIND + ErrorKind(message) + GENERIC_TAIL
  }

  /** The catch block: a fixed reply for each recognised cause, else a
      diagnosis quoting the error and the request. */
  function ErrorReply(message: string, prompt: string): (r: string)
    ensures CauseOf(message) == NotFound ==> r == MARK + NOT_FOUND_WORD + NOT_FOUND_TEXT
    ensures CauseOf(message) == Unauthorized ==> r == MARK + AUTH_WORD + (CodexExecutorSrc.AUTHENTICATION_FAILED + AUTH_TEXT)
    ensures CauseOf(message) == TimedOut ==> r == MARK + TIMEOUT_WORD + TIMEOUT_TEXT
    ensures CauseOf(message) == OverQuota ==> r == MARK + QUOTA_WORD + QUOTA_TEXT
    ensures CauseOf(message) == Unrecognised ==>
              r == MARK + GENERIC_WORD + (message + GENERIC_DIAGNOSIS + Quote(prompt) + GENERIC_KIND
                                          + ErrorKind(message) + GENERIC_TAIL)
  {
    var c := CauseOf(message);
    MARK + CauseWord(c) + CauseText(c, message, prompt)
  }

  /** The earlier test wins: a missing CLI over authentication, over a
      timeout, over the quota. */
  lemma CascadeOrder(message: string)
    ensures CauseOf(message) == NotFound <==> Contains(message, NOT_FOUND_KEY)
    ensures CauseOf(message) == Unauthorized <==>
              !Contains(message, NOT_FOUND_KEY) && (Contains(message, "authentication") || Contains(message, "unauthorized"))
    ensures CauseOf(message) == TimedOut <==>
              && !Contains(message, NOT_FOUND_KEY) && !Contains(message, "authentication") && !Contains(message, "unauthorized")
              && Contains(message, "timeout")
    ensures CauseOf(message) == OverQuota <==>
              && !Contains(message, NOT_FOUND_KEY) && !Contains(message, "authentication") && !Contains(message, "unauthorized")
              && !Contains(message, "timeout") && (Contains(message, "quota") || Contains(message, "rate limit"))
  {
    CommandNotFoundSubsumed(message);
  }

  /** Every reply opens with the mark and the title of its cause. */
  lemma ReplyOpensWithCause(message: string, prompt: string)
    ensures var r := ErrorReply(message, prompt);
            var w := CauseWord(CauseOf(message));
            StartsWith(r, MARK + w) && |r| >= |MARK| + 3 && r[|MARK|] == w[0] && r[|MARK| + 2] == w[2]
  {
    var c := CauseOf(message);
    var w := CauseWord(c);
    var t := CauseText(c, message, prompt);
    assert |w| >= 3;
    StartsWithPrefix(MARK + w, t);
    assert (MARK + w + t)[|MARK|] == w[0];
    assert (MARK + w + t)[|MARK| + 2] == w[2];
  }

  /** The cause words differ in their first or third character. */
  lemma CauseWordsDistinct(c1: Cause, c2: Cause)
    requires CauseWord(c1)[0] == CauseWord(c2)[0] && CauseWord(c1)[2] == CauseWord(c2)[2]
    ensures c1 == c2
  {
    assert NOT_FOUND_WORD[0] == '执' && NOT_FOUND_WORD[2] == '失';
    assert GENERIC_WORD[0] == '执' && GENERIC_WORD[2] == '错';
    assert AUTH_WORD[0] == '认' && TIMEOUT_WORD[0] == '超' && QUOTA_WORD[0] == '资';
  }

  /** Different causes never give the same reply, so the reply tells the cause. */
  lemma ReplyDeterminesCause(m1: string, p1: string, m2: string, p2: string)
    requires ErrorReply(m1, p1) == ErrorReply(m2, p2)
    ensures CauseOf(m1) == CauseOf(m2)
  {
    ReplyOpensWithCause(m1, p1);
    ReplyOpensWithCause(m2, p2);
    CauseWordsDistinct(CauseOf(m1), CauseOf(m2));
  }

  // ---------------------------------------------------------------------
  // The tool

  /** `execute`: the prompt check comes before anything else; then the
      outcome of the Master run (its plan, or the message of what was thrown
      on the way) becomes the reply. */
  function ExecuteMasterTool(prompt: Registry.ArgValue, includeAnalysis: Registry.ArgValue,
                             outcome: Result<Master.ExecutionPlan>, progressFile: string, now: string): (r: Result<string>)
    ensures r.Failure? <==> PromptOf(prompt).None?
    ensures r.Failure? ==> r.error == PROMPT_REQUIRED
    ensures r.Success? && outcome.Success? ==>
              r.value == MasterResponse(outcome.value, IncludeAnalysis(includeAnalysis),
                                        Some(progressFile), Some(MONITOR_SCRIPT), now)
    ensures r.Success? && outcome.Failure? ==> r.value == ErrorReply(outcome.error, prompt.s)
  {
    match PromptOf(prompt)
    case None => Failure(PROMPT_REQUIRED)
    case Some(p) =>
      match outcome
      case Success(plan) =>
        Success(MasterResponse(plan, IncludeAnalysis(includeAnalysis), Some(progressFile), Some(MONITOR_SCRIPT), now))
      case Failure(message) => Success(ErrorReply(message, p))
  }
}
