/** The rule-based scheduler of `src/master/index.ts`: complexity scoring,
    decomposition into at most eight sub-tasks, the fan-out over them, the
    merged report and the execution plan read back from the synthesis
    reply. The class has no mutable state, so its methods become the
    functions and methods of this module. */
module Master {
  import opened Wrappers
  import opened Text
  import opened Folds
  import opened OutputParser

  const MAX_PARALLEL := 8

  function Min(a: int, b: int): int {
    if a <= b then a else b
  }

  // ---------------------------------------------------------------------
  // Complexity analysis

  datatype Complexity = Simple | Medium | Complex

  datatype TaskType = General | UiState | AudioPlayback | Architecture

  datatype TaskAnalysis = TaskAnalysis(complexity: Complexity, suggestedTasks: int, taskType: TaskType)

  const ComplexKeywords: seq<string> :=
    ["全面分析", "整体架构", "所有", "全部", "完整", "深度分析",
     "项目", "系统", "架构", "性能", "安全", "优化",
     "问题排查", "错误分析", "代码审查"]

  const MediumKeywords: seq<string> :=
    ["分析", "检查", "优化", "修复", "改进", "找出",
     "实现", "功能", "模块", "组件"]

  /** How many of the keywords occur in `s`. */
  function Matches(s: string, keys: seq<string>): nat {
    CountWhere(keys, k => Contains(s, k))
  }

  /** The task type, from the first special pair of words that occurs. */
  function TaskTypeOf(lower: string): TaskType {
    if Contains(lower, "按钮") && Contains(lower, "状态") then UiState
    else if Contains(lower, "音频") && Contains(lower, "播放") then AudioPlayback
    else if Contains(lower, "架构") || Contains(lower, "设计") then Architecture
    else General
  }

  /** The cap each special task type puts on the number of sub-tasks. */
  function Cap(t: TaskType, n: int): (r: int)
    ensures r <= n
    ensures t == UiState ==> r <= 4
    ensures t == AudioPlayback ==> r <= 5
    ensures t == Architecture ==> r <= 6
  {
    match t
    case UiState => Min(4, n)
    case AudioPlayback => Min(5, n)
    case Architecture => Min(6, n)
    case General => n
  }

  /** The scoring rules over the prompt's length, its complex and medium
      keyword counts and its task type. */
  function Estimate(len: nat, cm: nat, mm: nat, t: TaskType): (a: TaskAnalysis)
    ensures 1 <= a.suggestedTasks <= MAX_PARALLEL
    ensures a.taskType == t
    ensures cm >= 2 ==> a.complexity == Complex && a.suggestedTasks == Cap(t, Min(8, cm + 2))
    ensures cm < 2 && (cm >= 1 || mm >= 2) ==> a.complexity == Medium && a.suggestedTasks == Cap(t, Min(4, mm + 1))
    ensures cm == 0 && mm < 2 ==> (a.complexity == Complex <==> len > 200) && (a.complexity == Simple <==> len <= 100)
    ensures cm == 0 && mm < 2 && len > 200 ==> a.suggestedTasks == Cap(t, Min(6, (len + 99) / 100))
    ensures cm == 0 && mm < 2 && 100 < len <= 200 ==> a.complexity == Medium && a.suggestedTasks == Cap(t, 3)
    ensures cm == 0 && mm < 2 && len <= 100 ==> a.suggestedTasks == 1
  {
    var (c0, n0) := if len > 200 then (Complex, Min(6, (len + 99) / 100))
                    else if len > 100 then (Medium, 3)
                    else (Simple, 1);
    var (c1, n1) := if cm >= 2 then (Complex, Min(8, cm + 2))
                    else if cm >= 1 || mm >= 2 then (Medium, Min(4, mm + 1))
                    else (c0, n0);
    TaskAnalysis(c1, Cap(t, n1), t)
  }

  /** `analyzeTaskComplexity`: the length sets a first estimate, keyword
      matches in the lower-cased prompt override it, and the task type caps
      it. Two or more complex keywords always mean a complex task with
      `matches + 2` sub-tasks (at most eight) before the cap; whatever the
      prompt, between one and eight sub-tasks are suggested. */
  function AnalyzeTaskComplexity(prompt: string): (a: TaskAnalysis)
    ensures 1 <= a.suggestedTasks <= MAX_PARALLEL
    ensures a.taskType == TaskTypeOf(ToLower(prompt))
    ensures var cm := Matches(ToLower(prompt), ComplexKeywords);
      cm >= 2 ==> a.complexity == Complex && a.suggestedTasks == Cap(a.taskType, Min(8, cm + 2))
    ensures var cm := Matches(ToLower(prompt), ComplexKeywords);
      var mm := Matches(ToLower(prompt), MediumKeywords);
      cm < 2 && (cm >= 1 || mm >= 2) ==> a.complexity == Medium && a.suggestedTasks == Cap(a.taskType, Min(4, mm + 1))
    ensures var cm := Matches(ToLower(prompt), ComplexKeywords);
      var mm := Matches(ToLower(prompt), MediumKeywords);
      cm == 0 && mm < 2 ==>
        && (a.complexity == Complex <==> |prompt| > 200)
        && (a.complexity == Simple <==> |prompt| <= 100)
        && (|prompt| > 200 ==> a.suggestedTasks == Cap(a.taskType, Min(6, (|prompt| + 99) / 100)))
        && (100 < |prompt| <= 200 ==> a.complexity == Medium && a.suggestedTasks == Cap(a.taskType, 3))
        && (|prompt| <= 100 ==> a.suggestedTasks == 1)
  {
    var lower := ToLower(prompt);
    Estimate(|prompt|, Matches(lower, ComplexKeywords), Matches(lower, MediumKeywords), TaskTypeOf(lower))
  }

  // ---------------------------------------------------------------------
  // Decomposition

  datatype SubTask = SubTask(id: string, prompt: string, index: int)

  function TaskId(i: nat): string {
    "task_" + NatToString(i)
  }

  function Task(i: nat, prompt: string): SubTask {
    SubTask(TaskId(i), prompt, i)
  }

  const UI_PROMPTS: seq<string> :=
    ["分析UI按钮组件的实现和状态管理机制：", "分析按钮状态更新的事件处理和回调机制：",
     "分析音频播放完成后的状态同步逻辑：", "分析相关的日志记录和调试信息："]

  const AUDIO_PROMPTS: seq<string> :=
    ["分析音频播放管理器的实现：", "分析音频播放完成事件的处理：", "分析UI与音频状态的同步机制："]

  /** The prompt of the i-th generic sub-task. */
  function GenericPrompt(i: nat, prompt: string): string {
    "从第" + NatToString(i) + "个角度深度分析：" + prompt
  }

  /** The tasks of a template: the k-th carries the k-th prefix. */
  function Templated(prefixes: seq<string>, prompt: string): seq<SubTask> {
    seq(|prefixes|, i requires 0 <= i < |prefixes| => Task(i + 1, prefixes[i] + prompt))
  }

  function GenericTasks(n: nat, prompt: string): seq<SubTask> {
    seq(n, i requires 0 <= i < n => Task(i + 1, GenericPrompt(i + 1, prompt)))
  }

  /** Whether the ui-state template applies. */
  predicate UiTemplate(prompt: string, a: TaskAnalysis) {
    a.taskType == UiState && Contains(prompt, "按钮") && Contains(prompt, "状态")
  }

  /** The list built before the final `slice`. */
  function Candidates(prompt: string, a: TaskAnalysis): seq<SubTask> {
    if UiTemplate(prompt, a) then Templated(if a.suggestedTasks >= 4 then UI_PROMPTS else UI_PROMPTS[..3], prompt)
    else if a.taskType == AudioPlayback then Templated(AUDIO_PROMPTS, prompt)
    else GenericTasks(if a.suggestedTasks >= 1 then a.suggestedTasks else 0, prompt)
  }

  /** Every candidate task is numbered by its position and asks about the
      user's prompt. */
  lemma CandidatesNumbered(prompt: string, a: TaskAnalysis)
    ensures var c := Candidates(prompt, a);
      forall i :: 0 <= i < |c| ==> c[i].id == TaskId(i + 1) && c[i].index == i + 1 && EndsWith(c[i].prompt, prompt)
  {
    if UiTemplate(prompt, a) {
      TemplatedNumbered(if a.suggestedTasks >= 4 then UI_PROMPTS else UI_PROMPTS[..3], prompt);
    } else if a.taskType == AudioPlayback {
      TemplatedNumbered(AUDIO_PROMPTS, prompt);
    } else {
      GenericNumbered(if a.suggestedTasks >= 1 then a.suggestedTasks else 0, prompt);
    }
  }

  lemma TemplatedNumbered(prefixes: seq<string>, prompt: string)
    ensures var c := Templated(prefixes, prompt);
      forall i :: 0 <= i < |c| ==> c[i].id == TaskId(i + 1) && c[i].index == i + 1 && EndsWith(c[i].prompt, prompt)
  {
    var c := Templated(prefixes, prompt);
    forall i | 0 <= i < |c|
      ensures EndsWith(c[i].prompt, prompt)
    {
      var q := c[i].prompt;
      assert q[|q| - |prompt|..] == prompt;
    }
  }

  lemma GenericNumbered(n: nat, prompt: string)
    ensures var c := GenericTasks(n, prompt);
      forall i :: 0 <= i < |c| ==> c[i].id == TaskId(i + 1) && c[i].index == i + 1 && EndsWith(c[i].prompt, prompt)
  {
    var c := GenericTasks(n, prompt);
    forall i | 0 <= i < |c|
      ensures EndsWith(c[i].prompt, prompt)
    {
      var q := c[i].prompt;
      assert q[|q| - |prompt|..] == prompt;
    }
  }

  /** `Array.prototype.slice(0, end)`: a negative end counts from the back. */
  function SlicePrefix<T>(xs: seq<T>, end: int): (r: seq<T>)
    ensures |r| <= |xs| && r == xs[..|r|]
    ensures end >= 0 ==> |r| == Min(end, |xs|)
    ensures end < 0 ==> |r| == (if |xs| + end >= 0 then |xs| + end else 0)
  {
    if end >= 0 then xs[..Min(end, |xs|)]
    else if |xs| + end >= 0 then xs[..|xs| + end]
    else []
  }

  /** `generateSmartSubtasks` as a value. For a non-negative suggestion the
      list is never longer than eight or than the suggestion; outside the
      templates it is exactly the suggested number of generic tasks asking
      for the i-th angle; and whatever the branch, the k-th task has id
      `task_k` and index k, and its prompt ends with the user's prompt. */
  function SmartSubtasks(prompt: string, a: TaskAnalysis): (r: seq<SubTask>)
    ensures a.suggestedTasks >= 0 ==> |r| <= Min(MAX_PARALLEL, a.suggestedTasks)
    ensures !UiTemplate(prompt, a) && a.taskType != AudioPlayback && 0 <= a.suggestedTasks <= MAX_PARALLEL ==>
              && |r| == a.suggestedTasks
              && forall i :: 0 <= i < |r| ==> r[i] == SubTask(TaskId(i + 1), GenericPrompt(i + 1, prompt), i + 1)
    ensures forall i :: 0 <= i < |r| ==>
              r[i].id == TaskId(i + 1) && r[i].index == i + 1 && EndsWith(r[i].prompt, prompt)
  {
    var c := Candidates(prompt, a);
    CandidatesNumbered(prompt, a);
    SlicePrefix(c, Min(MAX_PARALLEL, a.suggestedTasks))
  }

  /** `generateSmartSubtasks`: the template pushes, or the generic loop. */
  method GenerateSmartSubtasks(prompt: string, a: TaskAnalysis) returns (subtasks: seq<SubTask>)
    ensures subtasks == SmartSubtasks(prompt, a)
  {
    subtasks := [];
    if a.taskType == UiState && Contains(prompt, "按钮") && Contains(prompt, "状态") {
      subtasks := subtasks + [Task(1, UI_PROMPTS[0] + prompt), Task(2, UI_PROMPTS[1] + prompt), Task(3, UI_PROMPTS[2] + prompt)];
      if a.suggestedTasks >= 4 {
        subtasks := subtasks + [Task(4, UI_PROMPTS[3] + prompt)];
        assert subtasks == Templated(UI_PROMPTS, prompt);
      } else {
        assert subtasks == Templated(UI_PROMPTS[..3], prompt);
      }
    } else if a.taskType == AudioPlayback {
      subtasks := subtasks + [Task(1, AUDIO_PROMPTS[0] + prompt), Task(2, AUDIO_PROMPTS[1] + prompt), Task(3, AUDIO_PROMPTS[2] + prompt)];
      assert subtasks == Templated(AUDIO_PROMPTS, prompt);
    } else {
      var i := 1;
      while i <= a.suggestedTasks
        invariant 1 <= i && (a.suggestedTasks >= 1 ==> i <= a.suggestedTasks + 1) && (a.suggestedTasks < 1 ==> i == 1)
        invariant subtasks == GenericTasks(i - 1, prompt)
      {
        subtasks := subtasks + [Task(i, GenericPrompt(i, prompt))];
        i := i + 1;
      }
    }
    assert subtasks == Candidates(prompt, a);
    subtasks := SlicePrefix(subtasks, Min(MAX_PARALLEL, a.suggestedTasks));
  }

  /** `analyzeAndDecompose`: one task carrying the prompt verbatim when one
      is suggested, the smart decomposition otherwise. */
  function AnalyzeAndDecompose(prompt: string): (tasks: seq<SubTask>)
    ensures AnalyzeTaskComplexity(prompt).suggestedTasks == 1 ==> tasks == [SubTask("task_1", prompt, 1)]
    ensures 1 <= |tasks| <= MAX_PARALLEL
  {
    Decompose(prompt, AnalyzeTaskComplexity(prompt))
  }

  /** A short prompt that names no complex keyword and at most one medium
      keyword is not split: it runs as the single task `task_1`. */
  lemma ShortPlainPromptSingleTask(prompt: string)
    requires |prompt| <= 100
    requires Matches(ToLower(prompt), ComplexKeywords) == 0 && Matches(ToLower(prompt), MediumKeywords) < 2
    ensures AnalyzeAndDecompose(prompt) == [SubTask("task_1", prompt, 1)]
  {
  }

  /** The decomposition for a given analysis: a single task carrying the
      prompt itself when one is suggested, the smart sub-tasks otherwise. */
  function Decompose(prompt: string, a: TaskAnalysis): (tasks: seq<SubTask>)
    requires 1 <= a.suggestedTasks <= MAX_PARALLEL
    ensures a.suggestedTasks == 1 ==> tasks == [SubTask("task_1", prompt, 1)]
    ensures a.suggestedTasks > 1 ==> |tasks| >= 2 && tasks == SmartSubtasks(prompt, a)
    ensures 1 <= |tasks| <= MAX_PARALLEL
  {
    if a.suggestedTasks == 1 then
      FirstTask(prompt);
      [Task(1, prompt)]
    else
      SeveralCandidates(prompt, a);
      SmartSubtasks(prompt, a)
  }

  lemma FirstTask(prompt: string)
    ensures Task(1, prompt) == SubTask("task_1", prompt, 1)
  {
    assert NatToString(1) == ['1'];
  }

  /** With two or more suggested, all three branches build at least two
      tasks. */
  lemma SeveralCandidates(prompt: string, a: TaskAnalysis)
    requires a.suggestedTasks >= 2
    ensures |SmartSubtasks(prompt, a)| >= 2
  {
    if !UiTemplate(prompt, a) && a.taskType != AudioPlayback {
      assert |GenericTasks(a.suggestedTasks, prompt)| == a.suggestedTasks;
    }
  }

  // ---------------------------------------------------------------------
  // Fan-out

  const FAILED_MARK := "执行失败"

  /** The response recorded for a sub-task whose invocation failed. */
  function FailedResponse(error: string): (r: string)
    ensures Contains(r, FAILED_MARK)
  {
    var detail := ": " + error;
    ContainsInConcat("⚠️ 子任务", FAILED_MARK, detail);
    "⚠️ 子任务" + FAILED_MARK + detail
  }

  const FailedMetadata: Metadata :=
    map["version" := "1.0.0", "workdir" := "", "model" := "gpt-5", "provider" := "openai",
        "approval" := "untrusted", "sandbox" := "read-only"]

  /** The result standing in for a failed sub-task; `stamp` is the clock
      reading taken when it failed. */
  function FailedOutput(t: SubTask, error: string, stamp: string): CodexOutput {
    CodexOutput(FailedMetadata, t.prompt, None, FailedResponse(error), Some(0), [stamp], "")
  }

  /** One sub-task: its invocation's output, or the stand-in on failure. */
  function RunTask(t: SubTask, run: string -> Result<CodexOutput>, stamp: string): CodexOutput {
    match run(t.prompt)
    case Success(o) => o
    case Failure(e) => FailedOutput(t, e, stamp)
  }

  /** `executeParallel` as an order-preserving map: `run(p)` is the outcome
      of invoking Codex on prompt `p`, and `now(i)` the clock reading when
      the i-th task failed. One result per task, in task order; a failure
      is recorded in its own slot and leaves the others alone. */
  function ExecuteParallel(tasks: seq<SubTask>, run: string -> Result<CodexOutput>, now: nat -> string): (rs: seq<CodexOutput>)
    ensures |rs| == |tasks|
    ensures forall i :: 0 <= i < |tasks| && run(tasks[i].prompt).Success? ==> rs[i] == run(tasks[i].prompt).value
    ensures forall i :: 0 <= i < |tasks| && run(tasks[i].prompt).Failure? ==>
              && rs[i].userInstructions == tasks[i].prompt && rs[i].tokensUsed == Some(0)
              && Contains(rs[i].response, FAILED_MARK)
  {
    var rs := seq(|tasks|, i requires 0 <= i < |tasks| => RunTask(tasks[i], run, now(i)));
    assert forall i :: 0 <= i < |tasks| ==> rs[i] == RunTask(tasks[i], run, now(i));
    rs
  }

  // ---------------------------------------------------------------------
  // Merged report

  const MERGE_HEADER := "# 🎯 牛马Master并行分析结果\n\n"

  /** The section of the k-th result. */
  function Section(k: nat, r: CodexOutput): string {
    "## 📋 分析" + NatToString(k) + "\n\n"
    + "**任务**: " + r.userInstructions + "\n\n"
    + "**结果**:\n" + r.response + "\n\n"
    + "---\n\n"
  }

  /** The results paired with their position, counted from 1. */
  function Numbered(rs: seq<CodexOutput>): (ps: seq<(nat, CodexOutput)>)
    ensures |ps| == |rs| && forall i :: 0 <= i < |rs| ==> ps[i] == (i + 1, rs[i])
  {
    seq(|rs|, i requires 0 <= i < |rs| => (i + 1, rs[i]))
  }

  function SectionOf(p: (nat, CodexOutput)): string {
    Section(p.0, p.1)
  }

  /** One section per result, in result order. */
  function Sections(rs: seq<CodexOutput>): string {
    ConcatMap(Numbered(rs), SectionOf)
  }

  /** A result counts as a success when its response does not mention the
      failure mark. */
  predicate Succeeded(r: CodexOutput) {
    !Contains(r.response, FAILED_MARK)
  }

  function SuccessCount(rs: seq<CodexOutput>): (n: nat)
    ensures n <= |rs|
  {
    CountWhere(rs, Succeeded)
  }

  /** The token total, a missing count taken as zero. */
  function TotalTokens(rs: seq<CodexOutput>): int
    decreases |rs|
  {
    if rs == [] then 0 else rs[0].tokensUsed.GetOr(0) + TotalTokens(rs[1..])
  }

  /** The statistics block; `clock` is the local time text. */
  function Stats(rs: seq<CodexOutput>, clock: string): string {
    "## 📊 执行统计\n\n"
    + "- 总任务数: " + NatToString(|rs|) + "\n"
    + "- 成功任务: " + NatToString(SuccessCount(rs)) + "\n"
    + "- 失败任务: " + NatToString(|rs| - SuccessCount(rs)) + "\n"
    + "- 消耗Token: " + IntToString(TotalTokens(rs)) + "\n"
    + "- 执行时间: " + clock + "\n\n"
  }

  function MergedReport(rs: seq<CodexOutput>, clock: string): string {
    MERGE_HEADER + Sections(rs) + Stats(rs, clock)
  }

  /** `mergeResults`: the `forEach` appending one section per result, then
      the statistics. */
  method MergeResults(results: seq<CodexOutput>, clock: string) returns (merged: string)
    ensures merged == MergedReport(results, clock)
  {
    merged := MERGE_HEADER;
    var i := 0;
    while i < |results|
      invariant 0 <= i <= |results|
      invariant merged == MERGE_HEADER + SectionsUpTo(results, i)
    {
      SectionsStep(results, i);
      merged := merged + Section(i + 1, results[i]);
      i := i + 1;
    }
    assert Numbered(results)[..i] == Numbered(results);
    merged := merged + Stats(results, clock);
  }

  /** The sections of the first `i` results. */
  function SectionsUpTo(rs: seq<CodexOutput>, i: nat): string
    requires i <= |rs|
  {
    ConcatMap(Numbered(rs)[..i], SectionOf)
  }

  lemma SectionsStep(rs: seq<CodexOutput>, i: nat)
    requires i < |rs|
    ensures SectionsUpTo(rs, i + 1) == SectionsUpTo(rs, i) + Section(i + 1, rs[i])
  {
    var ps := Numbered(rs);
    assert ps[..i + 1] == ps[..i] + [ps[i]];
    ConcatMapSnoc(ps[..i], ps[i], SectionOf);
  }

  /** The k-th section of the report describes the k-th result: sections
      follow result order and are numbered from 1. */
  lemma ReportHasEverySection(rs: seq<CodexOutput>, clock: string, j: nat)
    requires j < |rs|
    ensures Contains(MergedReport(rs, clock), Section(j + 1, rs[j]))
  {
    ConcatMapContains(Numbered(rs), SectionOf, j);
    ContainsBetween(MERGE_HEADER, Sections(rs), Stats(rs, clock), Section(j + 1, rs[j]));
  }

  /** Successes and failures partition the results. */
  lemma SuccessAndFailure(rs: seq<CodexOutput>)
    ensures SuccessCount(rs) + CountWhere(rs, (r: CodexOutput) => !Succeeded(r)) == |rs|
  {
    CountSplits(rs, Succeeded);
  }

  /** A failed invocation is never counted as a success: the report counts
      at most as many successes as there were successful invocations. */
  lemma FailuresNotCounted(tasks: seq<SubTask>, run: string -> Result<CodexOutput>, now: nat -> string)
    ensures SuccessCount(ExecuteParallel(tasks, run, now)) <= CountWhere(tasks, (t: SubTask) => run(t.prompt).Success?)
  {
    var rs := ExecuteParallel(tasks, run, now);
    SuccessesAmongRuns(tasks, run, now, rs);
  }

  lemma {:induction false} SuccessesAmongRuns(tasks: seq<SubTask>, run: string -> Result<CodexOutput>, now: nat -> string,
                                              rs: seq<CodexOutput>)
    requires |rs| == |tasks|
    requires forall i :: 0 <= i < |tasks| && run(tasks[i].prompt).Failure? ==> Contains(rs[i].response, FAILED_MARK)
    ensures CountWhere(rs, Succeeded) <= CountWhere(tasks, (t: SubTask) => run(t.prompt).Success?)
    decreases |tasks|
  {
    if tasks != [] {
      assert forall i :: 1 <= i < |tasks| ==> tasks[1..][i - 1] == tasks[i] && rs[1..][i - 1] == rs[i];
      SuccessesAmongRuns(tasks[1..], run, now, rs[1..]);
    }
  }

  /** Failed sub-tasks add nothing to the token total. */
  lemma {:induction false} FailedTokensZero(tasks: seq<SubTask>, run: string -> Result<CodexOutput>, now: nat -> string)
    ensures TotalTokens(ExecuteParallel(tasks, run, now)) == SucceededTokens(tasks, run)
    decreases |tasks|
  {
    if tasks != [] {
      var rs := ExecuteParallel(tasks, run, now);
      var now1 := (i: nat) => now(i + 1);
      FailedTokensZero(tasks[1..], run, now1);
      assert ExecuteParallel(tasks[1..], run, now1) == rs[1..];
    }
  }

  /** The tokens reported by the successful invocations. */
  function SucceededTokens(tasks: seq<SubTask>, run: string -> Result<CodexOutput>): int
    decreases |tasks|
  {
    if tasks == [] then 0
    else (match run(tasks[0].prompt) case Success(o) => o.tokensUsed.GetOr(0) case Failure(_) => 0)
         + SucceededTokens(tasks[1..], run)
  }

  // ---------------------------------------------------------------------
  // Execution plan

  datatype ExecutionPlan = ExecutionPlan(summary: string, steps: seq<string>, analysis: string, estimatedTime: string)

  datatype PlanSection = NoSection | SummarySection | StepsSection | AnalysisSection

  /** The loop's locals: `currentSection`, `summary`, `steps`, `analysis`. */
  datatype PlanState = PlanState(section: PlanSection, summary: string, steps: seq<string>, analysis: string)

  const PlanInit := PlanState(NoSection, "", [], "")

  const SUMMARY_LABEL := "SUMMARY:"
  const STEPS_LABEL := "STEPS:"
  const ANALYSIS_LABEL := "ANALYSIS:"

  /** `/^\d+\./`: one or more digits, then a dot. */
  predicate IsNumbered(t: string) {
    var d := LeadingDigits(t);
    |d| >= 1 && |d| < |t| && t[|d|] == '.'
  }

  /** A trimmed line that opens a section. */
  predicate IsHeader(t: string) {
    StartsWith(t, SUMMARY_LABEL) || StartsWith(t, STEPS_LABEL) || StartsWith(t, ANALYSIS_LABEL)
  }

  /** One iteration of the plan loop. */
  function PlanStep(st: PlanState, line: string): PlanState {
    var t := Trim(line);
    if StartsWith(t, SUMMARY_LABEL) then st.(summary := Trim(t[|SUMMARY_LABEL|..]), section := SummarySection)
    else if StartsWith(t, STEPS_LABEL) then st.(section := StepsSection)
    else if StartsWith(t, ANALYSIS_LABEL) then st.(section := AnalysisSection)
    else if st.section == StepsSection && IsNumbered(t) then st.(steps := st.steps + [t])
    else if st.section == AnalysisSection then st.(analysis := st.analysis + line + "\n")
    else st
  }

  const PLAN_FALLBACK_SUMMARY := "基于牛马Master并行分析生成的方案"
  const PLAN_FALLBACK_STEP := "请参考下方详细分析结果进行操作"
  const PLAN_TIME := "预计15-30分钟"

  /** The plan built from what the loop collected. Without a summary and
      without steps the whole response is the analysis; otherwise a
      missing summary, step list or analysis gets its default. Either way
      the summary and the step list are never empty. */
  function PlanFrom(st: PlanState, response: string): (p: ExecutionPlan)
    ensures p.summary != "" && p.steps != [] && p.estimatedTime == PLAN_TIME
    ensures st.summary == "" && st.steps == [] ==>
              p == ExecutionPlan(PLAN_FALLBACK_SUMMARY, [PLAN_FALLBACK_STEP], response, PLAN_TIME)
    ensures !(st.summary == "" && st.steps == []) ==>
              && (st.summary != "" ==> p.summary == st.summary)
              && (st.steps != [] ==> p.steps == st.steps)
              && p.analysis == (if Trim(st.analysis) != "" then Trim(st.analysis) else response)
  {
    if st.summary == "" && st.steps == [] then
      ExecutionPlan(PLAN_FALLBACK_SUMMARY, [PLAN_FALLBACK_STEP], response, PLAN_TIME)
    else
      ExecutionPlan(if st.summary != "" then st.summary else "执行方案已生成",
                    if |st.steps| > 0 then st.steps else ["请根据分析结果执行相应操作"],
                    if Trim(st.analysis) != "" then Trim(st.analysis) else response,
                    PLAN_TIME)
  }

  /** `parseExecutionPlan` as a value. */
  function PlanOf(response: string): ExecutionPlan {
    PlanFrom(Fold(PlanInit, Split(response, '\n'), PlanStep), response)
  }

  /** `parseExecutionPlan`. */
  method ParseExecutionPlan(response: string) returns (plan: ExecutionPlan)
    ensures plan == PlanOf(response)
  {
    var lines := Split(response, '\n');
    var st := ReadPlanLines(lines);
    plan := PlanFrom(st, response);
  }

  /** The plan loop: the lines in order, each through the loop body. */
  method ReadPlanLines(lines: seq<string>) returns (st: PlanState)
    ensures st == Fold(PlanInit, lines, PlanStep)
  {
    st := PlanInit;
    var i := 0;
    while i < |lines|
      invariant 0 <= i <= |lines|
      invariant Fold(st, lines[i..], PlanStep) == Fold(PlanInit, lines, PlanStep)
    {
      FoldUnroll(st, lines, i, PlanStep);
      st := ReadPlanLine(st, lines[i]);
      i := i + 1;
    }
    assert lines[i..] == [];
  }

  /** The body of the plan loop: `st` holds the current section and what
      was collected so far. */
  method ReadPlanLine(st: PlanState, line: string) returns (next: PlanState)
    ensures next == PlanStep(st, line)
  {
    var trimmedLine := Trim(line);
    next := st;
    if StartsWith(trimmedLine, SUMMARY_LABEL) {
      next := next.(summary := Trim(trimmedLine[|SUMMARY_LABEL|..]), section := SummarySection);
    } else if StartsWith(trimmedLine, STEPS_LABEL) {
      next := next.(section := StepsSection);
    } else if StartsWith(trimmedLine, ANALYSIS_LABEL) {
      next := next.(section := AnalysisSection);
    } else if st.section == StepsSection && IsNumbered(trimmedLine) {
      next := next.(steps := st.steps + [trimmedLine]);
    } else if st.section == AnalysisSection {
      next := next.(analysis := st.analysis + line + "\n");
    }
  }

  /** The numbered lines among `body`, trimmed, in order. */
  function NumberedLines(body: seq<string>): seq<string> {
    FlatMap(body, NumberedPart)
  }

  /** What a line adds to the steps inside the STEPS section. */
  function NumberedPart(line: string): seq<string> {
    if IsNumbered(Trim(line)) then [Trim(line)] else []
  }

  predicate InSteps(st: PlanState) {
    st.section == StepsSection
  }

  predicate NotHeader(line: string) {
    !IsHeader(Trim(line))
  }

  /** Lines that open no section. */
  predicate NoHeaders(body: seq<string>) {
    forall i :: 0 <= i < |body| ==> !IsHeader(Trim(body[i]))
  }

  lemma StepLineStep(st: PlanState, line: string)
    requires !IsHeader(Trim(line))
    ensures var e := PlanStep(st, line);
      && e.section == st.section && e.summary == st.summary
      && e.steps == st.steps + (if st.section == StepsSection && IsNumbered(Trim(line)) then [Trim(line)] else [])
  {
  }

  /** Inside the STEPS section, up to the next header, exactly the numbered
      lines are collected as steps, trimmed and in order; outside it no
      step is collected. */
  lemma StepsCollected(st: PlanState, body: seq<string>)
    requires NoHeaders(body)
    ensures var e := Fold(st, body, PlanStep);
      && InSteps(e) == InSteps(st)
      && e.steps == st.steps + (if InSteps(st) then NumberedLines(body) else [])
  {
    forall s: PlanState, l: string | NotHeader(l)
      ensures InSteps(PlanStep(s, l)) == InSteps(s)
      ensures PlanStep(s, l).steps == s.steps + (if InSteps(s) then NumberedPart(l) else [])
    {
      StepLineStep(s, l);
    }
    FoldCollects(st, body, PlanStep, (s: PlanState) => s.steps, InSteps, NotHeader, NumberedPart);
  }

  const PlanPromptHead := "\n基于以下并行分析结果，为用户生成具体的执行计划：\n\n原始需求："
  const PlanPromptMid := "\n\n分析结果：\n"
  const PlanPromptTail :=
    "\n\n请生成一个清晰的执行计划，包含：\n\nSUMMARY: [一句话总结整体方案]\n\nSTEPS:\n1. [具体的第一步操作]\n2. [具体的第二步操作]\n...\n\n"
    + "ANALYSIS: [深入的技术分析和建议]\n\n要求：\n1. 步骤要具体可执行，包含命令、文件路径等细节\n2. 按照重要性和依赖关系排序\n"
    + "3. 考虑风险和最佳实践\n4. 如果发现问题，要给出具体的解决方案\n5. 保持专业和准确\n"

  /** The synthesis prompt, which quotes the request and the merged report. */
  function PlanPrompt(original: string, merged: string): (r: string)
    ensures Contains(r, original) && Contains(r, merged)
  {
    ContainsInConcat(PlanPromptHead, original, PlanPromptMid + merged + PlanPromptTail);
    assert PlanPromptHead + original + (PlanPromptMid + merged + PlanPromptTail)
           == PlanPromptHead + original + PlanPromptMid + merged + PlanPromptTail;
    ContainsInConcat(PlanPromptHead + original + PlanPromptMid, merged, PlanPromptTail);
    PlanPromptHead + original + PlanPromptMid + merged + PlanPromptTail
  }

  /** `generateExecutionPlan`: the plan read from the synthesis reply, or,
      when the synthesis fails, the basic plan whose analysis is the
      merged report itself. */
  function GenerateExecutionPlan(original: string, merged: string, run: string -> Result<CodexOutput>): (p: ExecutionPlan)
    ensures p.summary != "" && |p.steps| >= 1
    ensures run(PlanPrompt(original, merged)).Failure? ==> p.analysis == merged && |p.steps| == 3
    ensures run(PlanPrompt(original, merged)).Success? ==> p == PlanOf(run(PlanPrompt(original, merged)).value.response)
  {
    match run(PlanPrompt(original, merged))
    case Success(o) => PlanOf(o.response)
    case Failure(_) =>
      ExecutionPlan("基于多路并行分析生成的执行方案",
                    ["1. 请查看上述详细分析结果", "2. 根据分析建议逐步执行相应操作", "3. 如有问题可进一步咨询牛马Master"],
                    merged, "根据任务复杂度而定")
  }

  /** `execute`: decompose, fan out, merge, plan. No step throws (the fan-out
      and the synthesis catch their failures), so a plan always comes
      back, with a summary and at least one step. */
  function Execute(prompt: string, run: string -> Result<CodexOutput>, now: nat -> string, clock: string): (p: ExecutionPlan)
    ensures p.summary != "" && |p.steps| >= 1
  {
    var tasks := AnalyzeAndDecompose(prompt);
    var results := ExecuteParallel(tasks, run, now);
    GenerateExecutionPlan(prompt, MergedReport(results, clock), run)
  }
}
