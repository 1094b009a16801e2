# Codex MCP bridge: a verified model of its core

The bridge is an MCP server that hands questions to the OpenAI Codex CLI
and turns what the CLI prints into answers. Its core is string and state
logic in five parts. This project models each part in Dafny and proves
properties of the model.

- **Output parser** (`output_parser.dfy`, module `OutputParser`).
  `parseCodexOutput` first chooses a format. If some non-blank line looks
  like a JSON record and parses, it reads line-delimited JSON records and
  dispatches on the message type. Otherwise it runs the legacy text state
  machine, whose section markers lead from header to metadata to content.
  A post-pass then promotes substantive thinking lines into an empty
  response, and a fixed sentinel stands in when nothing was found.
  `parseMetadata`, `formatCodexResponse` and `isErrorResponse` are the
  helpers around it. Each loop is a method proved equal to a fold
  (`Folds.Fold`) over the lines. The lemmas about that fold say what each
  field of the result collects.
- **Master scheduler** (`master.dfy`, module `Master`). It scores a
  prompt's complexity by keywords and length, then builds templated or
  generic sub-tasks, capped at 8. The fan-out is modelled as an
  order-preserving map of per-task outcomes, where a failure becomes a
  synthetic result. It then merges the results into a report with
  statistics and parses the synthesised plan by its labelled sections,
  with fallbacks.
- **Codex executors**. There are two builds of `executeCodex` with
  different behaviour: the TypeScript source (`codex_executor_src.dfy`)
  and the shipped JavaScript (`codex_executor_dist.dfy`). Each turns an
  option record into an argument vector and maps error text to a
  canonical message by ordered substring tests. The source build always
  sends model `gpt-5`. The shipped build:
  - rejects every sandbox other than `read-only` before running anything;
  - adds `--json` after `exec`;
  - passes the approval policy only in interactive mode;
  - trims the model and the prompt.
- **Command runner** (`command_executor.dfy`, module `CommandExecutor`).
  `executeCommand` is the class `CommandRun`. It has one method per event
  (stdout data, stderr data, timer, spawn error, close, host signal).
  Its fields are:
  - the two buffers;
  - the progress cursor;
  - the write-once settle guard;
  - the armed timer;
  - the progress reports and the signals sent, kept so that contracts can
    state them.

  Both builds share these handlers. They differ only in how the process
  is launched. The source build rewrites `.cmd`/`.bat` commands on
  Windows to `cmd /c` (`WrapForWindows`). The shipped build asks for a
  shell instead (`ShouldUseShell`).
- **Tool-level logic**:
  - the registry (`registry.dfy`): lookup, prompt definitions, tool
    dispatch, and the prompt-message builder, whose loop is a method of the
    class `ToolRegistry`;
  - the master tool (`master_tool.dfy`): argument checks, the response
    formatter and the error cascade;
  - the shipped `ask-codex` tool (`ask_codex_tool.dfy`): the prompt
    enhancer, the blank-prompt check, timeout defaulting, the call into the
    shipped executor and the error cascade.

Shared text and sequence helpers are in `text.dfy` (trimming, splitting,
joining, substring tests, decimal rendering) and `folds.dfy` (left fold,
concatenating and counting maps). `wrappers.dfy` holds `Option` and
`Result`.

Effects are parameters:
- the JSON parser is a function from a line to an optional record;
- the clock is a function from the event's position to a stamp, or a
  given string;
- the CLI call is a function from the vector to a result;
- the working directory is a given string;
- the result of the executable probe is a given `PathInfo`.

Behaviour of the code worth noting:
- The shipped `ask-codex` tool sends `prompt.trim()` to the executor.
  Its `buildCodexPrompt` is defined but never called, so `AskCodex` does
  not use `BuildCodexPrompt`. The enhancer is still modelled on its own.
- The shipped tool formats its answer with the shipped build's
  `formatCodexResponseForMCP`. That function has the same text as the
  source build's, so `AskCodex` uses `CodexExecutorSrc.FormatCodexResponseForMcp`.
- The source build's `executeCodex` ignores the caller's model value.
- The runner's timeout rejection reads `Command timed out after <n>ms`.
  It does not contain `timeout`, the word both tools' timeout reply
  tests for (`TimeoutMessageLacksTimeoutWord`), so that reply is chosen
  only for a message from elsewhere that uses the word.

## Model

| member | source | states |
|---|---|---|
| OutputParser.OutputLines | src/utils/outputParser.ts:5 | the lines kept are exactly the non-blank pieces of the raw text split at newlines |
| OutputParser.DetectJson | src/utils/outputParser.ts:18-28 | JSON mode holds iff some line is trimmed-braced and parses |
| OutputParser.DetectJsonFormat | src/utils/outputParser.ts:18-28 | the detection loop computes `DetectJson` |
| OutputParser.SessionMetadata | src/utils/outputParser.ts:41-50 | session metadata has exactly the eight keys; each of version, workdir, model, provider, approval and sandbox is the record's value when truthy, else its default (`v0.22.0+`, the working directory, `gpt-5`, `openai`, `untrusted`, `read-only`); reasoning effort and summaries are the record's |
| OutputParser.FirstSession | src/utils/outputParser.ts:39-54 | the record found is a session record |
| OutputParser.HandleMessage | src/utils/outputParser.ts:68-120 | the switch on the message type computes `Dispatch` |
| OutputParser.DispatchParts | src/utils/outputParser.ts:68-120 | a message appends its response part to the response, its thinking part to thinking, leaves instructions and stamps unchanged, and sets tokens only for a token count |
| OutputParser.ParseJsonLines | src/utils/outputParser.ts:32-134 | the JSON loop computes the fold of `Apply` over the per-line inputs |
| OutputParser.ApplyParts | src/utils/outputParser.ts:32-134 | one line changes every field by exactly its part: response, thinking, instructions, one stamp per event, tokens, and metadata only from the first session record |
| OutputParser.EventStepParts | src/utils/outputParser.ts:63-126 | a non-session, non-prompt record adds a stamp iff it is an event and routes its message and simple-message text |
| OutputParser.JsonResponseAccumulates | src/utils/outputParser.ts:32-134 | the final response is the concatenation of every line's response part, in order |
| OutputParser.JsonThinkingAccumulates | src/utils/outputParser.ts:68-120 | the final thinking is the concatenation of every line's thinking part, in order |
| OutputParser.JsonInstructionsAccumulate | src/utils/outputParser.ts:57-60 | the user instructions are the concatenation of every prompt line plus newline |
| OutputParser.JsonTimestampsPerEvent | src/utils/outputParser.ts:63-66 | one stamp is appended per event line and earlier stamps are kept |
| OutputParser.JsonTokensLastWins | src/utils/outputParser.ts:91-98 | tokensUsed is the last token count seen, or unchanged when there is none |
| OutputParser.JsonMetadataFirstWins | src/utils/outputParser.ts:39-54 | metadata comes from the first session record only, and later ones are skipped |
| OutputParser.BracketTimestampCaptures | src/utils/outputParser.ts:146-149 | a captured stamp is non-empty, free of `]`, and is the line's bracketed prefix; every such prefix is the one captured |
| OutputParser.TokensAt | src/utils/outputParser.ts:152-156 | a count is read only after the `tokens used:` label and is non-negative |
| OutputParser.TokensUsedIn | src/utils/outputParser.ts:152-156 | a count is read only from a line containing `tokens used:` and is non-negative |
| OutputParser.Transition | src/utils/outputParser.ts:158-178 | a line moves the section iff it is a marker; a dashed rule moves header to metadata to content |
| OutputParser.LegacyStep | src/utils/outputParser.ts:142-203 | at most one stamp is added; a token line sets the count and records nothing; a marker records nothing |
| OutputParser.RecordContentLine | src/utils/outputParser.ts:180-202 | the per-section recording computes `RecordLine` |
| OutputParser.ParseLegacyLines | src/utils/outputParser.ts:142-203 | the legacy loop computes the fold of `LegacyStep` |
| OutputParser.LegacyStepRecords | src/utils/outputParser.ts:158-202 | one line adds at most itself to thinking or response, and only a content line |
| OutputParser.RecordLineRecords | src/utils/outputParser.ts:180-202 | recording a non-marker, non-token line adds at most that content line |
| OutputParser.LegacyRecordsOnlyContent | src/utils/outputParser.ts:142-203 | every recorded thinking or response line is an input content line; markers and token lines are never recorded |
| OutputParser.LegacyTokensLastWins | src/utils/outputParser.ts:152-156 | the legacy token count is the last one seen |
| OutputParser.KeyValueAtFirstColon | src/utils/outputParser.ts:256-262 | a line yields an entry iff it has a colon not at index 0, split at the first colon into trimmed key and value |
| OutputParser.MetadataKeys | src/utils/outputParser.ts:253-266 | a key is present iff some line sets it |
| OutputParser.MetadataLastWins | src/utils/outputParser.ts:256-262 | a key's value is the one from the last line setting it |
| OutputParser.ParseMetadata | src/utils/outputParser.ts:253-266 | the metadata loop computes the map fold |
| OutputParser.PromoteMovesSubstantiveLines | src/utils/outputParser.ts:217-237 | with an empty response, substantive thinking lines become the response and the rest stay; with no such line, or a non-empty response, nothing changes |
| OutputParser.FilteredLinesRejoin | src/utils/outputParser.ts:224-232 | the kept lines re-joined with newlines split back into exactly those lines |
| OutputParser.Finish | src/utils/outputParser.ts:212-247 | the response is never empty, and other fields pass through; a non-blank response is kept trimmed, and the thinking is absent exactly when it trims to empty; with a blank response, reasoning with substantive lines gives them up as the response, and the thinking left is absent exactly when no lifecycle line remains, otherwise it is those lines; with no substantive line the sentinel is the response and the trimmed thinking is kept |
| OutputParser.Parsed | src/utils/outputParser.ts:4-251 | the parsed output's response is non-empty, its thinking if present is non-empty, and it keeps the raw text |
| OutputParser.ParseCodexOutput | src/utils/outputParser.ts:4-251 | the whole parser computes `Parsed` |
| OutputParser.ConfigLine | src/utils/outputParser.ts:274-276 | a `- Label: value` line is there iff its key is truthy, and then carries that key's value |
| OutputParser.ConfigBlock | src/utils/outputParser.ts:271-278 | the configuration block appears iff the model or the sandbox is truthy; it is the header, the model, sandbox and approval lines each present iff its key is truthy, and a blank line |
| OutputParser.ReasoningBlock | src/utils/outputParser.ts:281-284 | the reasoning block is there iff thinking is asked for and non-empty, and then holds the thinking |
| OutputParser.FormatCodexResponse | src/utils/outputParser.ts:268-296 | the text is the configuration block, the reasoning block and the response with its token footer, in that order; it opens with the configuration header iff model or sandbox is set, and the reasoning header follows the configuration block iff thinking is asked for and present |
| OutputParser.IsErrorResponse | src/utils/outputParser.ts:310-324 | an output is an error iff its lower-cased response contains one of the keywords |
| Master.Cap | src/master/index.ts:141-151 | the type caps never raise the count: UI at most 4, audio at most 5, architecture at most 6 |
| Master.Estimate | src/master/index.ts:116-151 | the suggested count lies in 1..8; two or more complex keywords give `complex` and min(8, matches + 2) before the caps; otherwise one complex or two medium keywords give `medium` and min(4, medium matches + 1); with neither, over 200 characters give `complex` and min(6, ceil(length / 100)), over 100 give `medium` and 3, before the caps, and shorter prompts give one task |
| Master.AnalyzeTaskComplexity | src/master/index.ts:99-154 | the analysis of a prompt has the same bounds, keyword rules and length rules, keywords counted in the lower-cased prompt and length in the prompt itself |
| Master.CandidatesNumbered | src/master/index.ts:163-189 | every candidate sub-task i has id `task_i`, index i, and a prompt ending with the input |
| Master.GenericNumbered | src/master/index.ts:182-188 | generic sub-tasks are numbered 1..n in order and end with the input |
| Master.SlicePrefix | src/master/index.ts:191 | `slice(0, n)` keeps a prefix of length min(n, length), with JavaScript's negative-end rule |
| Master.SmartSubtasks | src/master/index.ts:159-192 | at most min(8, suggested) sub-tasks; in the generic case exactly the suggested number, each `从第i个角度深度分析：` + prompt |
| Master.GenerateSmartSubtasks | src/master/index.ts:159-192 | the generation loop computes `SmartSubtasks` |
| Master.AnalyzeAndDecompose | src/master/index.ts:66-94 | between 1 and 8 tasks; a suggested count of 1 yields exactly `task_1` with the verbatim prompt |
| Master.ShortPlainPromptSingleTask | src/master/index.ts:116-128 | a prompt of at most 100 characters with no complex keyword and fewer than two medium keywords runs as the single task `task_1` with the verbatim prompt |
| Master.Decompose | src/master/index.ts:75-91 | one task for a count of 1, otherwise two or more smart sub-tasks |
| Master.FirstTask | src/master/index.ts:78-82 | the single task is `{id: task_1, prompt, index: 1}` |
| Master.SeveralCandidates | src/master/index.ts:159-191 | a suggested count of 2 or more yields at least two sub-tasks |
| Master.FailedResponse | src/master/index.ts:229 | a failure response contains `执行失败` |
| Master.ExecuteParallel | src/master/index.ts:198-243 | one result per task in task order; a success passes through; a failure has the task prompt, token count 0 and the failure mark |
| Master.Numbered | src/master/index.ts:253 | results are paired with 1-based positions in order |
| Master.SuccessCount | src/master/index.ts:261 | the success count never exceeds the result count |
| Master.MergeResults | src/master/index.ts:248-274 | the merge loop builds the report from section 1 to n followed by the statistics |
| Master.SectionsStep | src/master/index.ts:253-258 | each loop turn appends exactly the next numbered section |
| Master.ReportHasEverySection | src/master/index.ts:248-274 | the report contains section j for every result j |
| Master.SuccessAndFailure | src/master/index.ts:261-265 | successes plus failures equal the total |
| Master.FailuresNotCounted | src/master/index.ts:198-261 | successes in the report never exceed the tasks whose run succeeded |
| Master.SuccessesAmongRuns | src/master/index.ts:240-261 | any results that mark every failed run have no more successes than succeeded runs |
| Master.FailedTokensZero | src/master/index.ts:230-262 | the token total equals the tokens of the succeeded runs: failures count 0 |
| Master.ParseExecutionPlan | src/master/index.ts:342-383 | the plan parser computes `PlanOf` |
| Master.ReadPlanLines | src/master/index.ts:350-365 | the plan loop computes the fold of the line step |
| Master.ReadPlanLine | src/master/index.ts:351-364 | the loop body computes the line step |
| Master.StepLineStep | src/master/index.ts:351-364 | a non-header line keeps the section and summary and adds itself, trimmed, as a step iff in STEPS and numbered |
| Master.StepsCollected | src/master/index.ts:356-361 | a header-free run of lines in STEPS adds exactly its numbered lines, in order |
| Master.PlanFrom | src/master/index.ts:367-382 | the plan always has a summary and a step; with neither summary nor steps the fallback's analysis is the whole response; otherwise found values are kept |
| Master.PlanPrompt | src/master/index.ts:282-307 | the synthesis prompt contains the original request and the merged report |
| Master.GenerateExecutionPlan | src/master/index.ts:279-337 | a failed synthesis returns a three-step plan whose analysis is the merged report; a successful one is the parsed plan |
| Master.Execute | src/master/index.ts:35-61 | the scheduler always returns a plan with a summary and at least one step |
| CodexExecutorSrc.FlagIfGiven | src/utils/codexExecutor.ts:55-62 | a truthy value emits the flag and the value, otherwise nothing |
| CodexExecutorSrc.ImagesInOrder | src/utils/codexExecutor.ts:64-70 | each image emits `-i <path>`, in the given order |
| CodexExecutorSrc.ConfigEntriesInOrder | src/utils/codexExecutor.ts:72-83 | each config entry emits `-c key=value`, in entry order |
| CodexExecutorSrc.CodexArgs | src/utils/codexExecutor.ts:41-96 | the prompt is always the last argument, unchanged; `exec` comes first when exec mode holds |
| CodexExecutorSrc.ModelValueIgnored | src/utils/codexExecutor.ts:49-52 | any truthy model emits `-m gpt-5`, and the caller's value never reaches the vector |
| CodexExecutorSrc.PushImages | src/utils/codexExecutor.ts:64-70 | the image loop appends the image arguments |
| CodexExecutorSrc.PushConfigEntries | src/utils/codexExecutor.ts:77-81 | the entry loop appends the entry arguments |
| CodexExecutorSrc.PushConfig | src/utils/codexExecutor.ts:72-83 | a string config emits `-c` and the string; an entry config emits one pair per entry |
| CodexExecutorSrc.PushIfGiven | src/utils/codexExecutor.ts:85-93 | the optional push appends the flag pair exactly when the value is truthy |
| CodexExecutorSrc.BuildArgs | src/utils/codexExecutor.ts:41-96 | the builder computes `CodexArgs` |
| CodexExecutorSrc.ClassifyRest | src/utils/codexExecutor.ts:120-132 | auth, then quota, then sandbox; anything else is passed on unchanged |
| CodexExecutorSrc.Classify | src/utils/codexExecutor.ts:112-133 | not-found wins over all other tests, and the result is the message or one of the four canonical texts |
| CodexExecutorSrc.ClassifyPriority | src/utils/codexExecutor.ts:116-126 | the order of the first three tests: not found over authentication over quota |
| CodexExecutorSrc.Unrecognised | src/utils/codexExecutor.ts:116-132 | a message without `E`, `m`, `x`, `nd` or `au` passes none of the catch block's tests and is passed on unchanged |
| CodexExecutorSrc.AuthenticationMessageKept | src/utils/codexExecutor.ts:104-132 | the authentication message passes none of the catch block's tests, so it comes out of the block unchanged |
| CodexExecutorSrc.CodexResultCases | src/utils/codexExecutor.ts:100-133 | a call succeeds with the parsed output iff the CLI succeeds and the reply does not mention authentication; a reply that does fails with the authentication message; a CLI failure is classified |
| CodexExecutorSrc.ExecuteCodex | src/utils/codexExecutor.ts:14-134 | the method computes `CodexResult` |
| CodexExecutorSrc.ValidateSandboxMode | src/utils/codexExecutor.ts:193-195 | exactly the three sandbox modes are valid |
| CodexExecutorSrc.ValidateApprovalPolicy | src/utils/codexExecutor.ts:197-199 | exactly the four approval policies are valid |
| CodexExecutorSrc.ValidateModel | src/utils/codexExecutor.ts:201-203 | a model is valid iff it starts with `gpt-` or `o` |
| CodexExecutorSrc.GetModelFallbacks | src/utils/codexExecutor.ts:205-208 | the only fallback is `gpt-5`, a valid model |
| CodexExecutorSrc.GetSandboxFallbacks | src/utils/codexExecutor.ts:210-221 | danger to [workspace-write, read-only], workspace-write to [read-only], read-only to [], anything else to [read-only] |
| CodexExecutorSrc.FallbacksStepDown | src/utils/codexExecutor.ts:210-221 | fallbacks are valid, strictly less permissive than a valid mode and than each other, end in read-only, and are empty only for read-only |
| CodexExecutorSrc.McpConfigBlock | src/utils/codexExecutor.ts:169-176 | the configuration block appears iff asked for and the metadata is non-empty; it is the header, the model, sandbox, approval and working-directory lines each present iff its key is truthy, and a blank line |
| CodexExecutorSrc.FormatCodexResponseForMcp | src/utils/codexExecutor.ts:162-191 | the text is the configuration block, the reasoning block and `Codex response:` with the reply and token footer, in that order; it opens with the configuration header iff that block is shown, and the reasoning header follows the configuration block iff thinking is asked for and present |
| CodexExecutorDist.DistModelPart | dist/utils/codexExecutor.js:125-129 | a model is emitted trimmed, and only when non-blank after trimming |
| CodexExecutorDist.PromptPart | dist/utils/codexExecutor.js:173-177 | the prompt is emitted trimmed, and only when non-blank |
| CodexExecutorDist.DistArgs | dist/utils/codexExecutor.js:112-177 | any sandbox other than read-only fails with the sandbox violation; otherwise the option arguments followed by the prompt part |
| CodexExecutorDist.DistArgsLayout | dist/utils/codexExecutor.js:118-177 | the path arguments come first, then `exec --json` in exec mode; a non-blank trimmed prompt is last |
| CodexExecutorDist.ApprovalIgnoredWithExec | dist/utils/codexExecutor.js:137-144 | in exec mode the approval policy does not affect the vector |
| CodexExecutorDist.OnlyReadOnlySandbox | dist/utils/codexExecutor.js:130-136 | an accepted sandbox is read-only and emits `-s read-only` or nothing |
| CodexExecutorDist.BuildDistArgs | dist/utils/codexExecutor.js:112-177 | the builder computes `DistArgs` |
| CodexExecutorDist.ClassifyDist | dist/utils/codexExecutor.js:205-226 | not found maps to the project-local message iff the binary is project-local, otherwise to the CLI-missing message; the rest as in the source build |
| CodexExecutorDist.ClassifyAgrees | dist/utils/codexExecutor.js:205-226 | the two builds classify alike except for a project-local not-found |
| CodexExecutorDist.DistResult | dist/utils/codexExecutor.js:112-227 | a rejected sandbox fails with the sandbox violation |
| CodexExecutorDist.DistResultCases | dist/utils/codexExecutor.js:193-226 | an accepted call succeeds with the parsed output iff the CLI succeeds and the reply does not mention authentication; a reply that does fails with the authentication message; a CLI failure is classified with the project-local rule |
| CodexExecutorDist.DistAuthenticationKept | dist/utils/codexExecutor.js:199-226 | the build's catch block passes the authentication message on unchanged |
| CodexExecutorDist.SandboxBeforeRun | dist/utils/codexExecutor.js:131-136 | a rejected sandbox never reaches the CLI: the result does not depend on the run |
| CodexExecutorDist.ExecuteCodexDist | dist/utils/codexExecutor.js:112-227 | the method computes `DistResult` |
| CodexExecutorDist.GetSandboxFallbacksDist | dist/utils/codexExecutor.js:285-288 | the only fallback is read-only |
| CommandExecutor.WrapForWindows | src/utils/commandExecutor.ts:15-23 | on win32 a `.cmd`/`.bat` command becomes `cmd` with `/c`, the command and the arguments; otherwise nothing changes; never a shell |
| CommandExecutor.WrapKeepsCommand | src/utils/commandExecutor.ts:19-23 | the caller's arguments are kept as the suffix, and the command is kept or passed right after `/c` |
| CommandExecutor.ShouldUseShell | dist/utils/commandExecutor.js:7-24 | a shell is used iff on win32 and the command contains `.cmd` or `.bat` |
| CommandExecutor.ShellInvocation | dist/utils/commandExecutor.js:29-34 | command and arguments are passed unchanged; the shell flag is `shouldUseShell`, so a shell is used iff on win32 and the command contains `.cmd` or `.bat` |
| CommandExecutor.TimeoutOutcome | src/utils/commandExecutor.ts:40-47 | a timeout rejects with `Command timed out after <timeout>ms`, the timeout written in decimal |
| CommandExecutor.TimeoutMessageNamesTimeout | src/utils/commandExecutor.ts:40-47 | two timeouts give the same rejection iff they are equal |
| CommandExecutor.TimeoutMessageLacksTimeoutWord | dist/utils/commandExecutor.js:47 | the timeout rejection never contains the word `timeout`, for any timeout |
| CommandExecutor.ErrorOutcome | src/utils/commandExecutor.ts:84-88 | a spawn error rejects with the not-found message iff it mentions ENOENT, otherwise with the spawn-failure text and the message |
| CommandExecutor.FailureDetail | src/utils/commandExecutor.ts:103 | the detail is the trimmed stderr, or a non-empty default when that is blank |
| CommandExecutor.CloseOutcome | src/utils/commandExecutor.ts:97-105 | exit 0 resolves with the trimmed stdout; any other code rejects with the code and the detail |
| CommandExecutor.CodeTextHasNoColon | src/utils/commandExecutor.ts:104 | the rendered exit code contains no colon |
| CommandExecutor.FailureNamesCode | src/utils/commandExecutor.ts:104 | equal failure messages name the same code and detail |
| CommandExecutor.FailureDetailRecoverable | src/utils/commandExecutor.ts:104 | the detail is exactly what follows the code and `: ` |
| CommandExecutor.CommandRun.constructor | src/utils/commandExecutor.ts:32-48 | empty buffers, cursor 0, unsettled, with a timer armed iff the timeout is present and non-zero |
| CommandExecutor.CommandRun.OnStdout | src/utils/commandExecutor.ts:50-59 | data is appended; with progress, the new suffix is reported and the reports concatenate to stdout |
| CommandExecutor.CommandRun.OnStderr | src/utils/commandExecutor.ts:61-76 | data is appended to stderr and nothing else changes |
| CommandExecutor.CommandRun.OnTimeout | src/utils/commandExecutor.ts:39-47 | an armed timer settles with the timeout outcome and kills the child once |
| CommandExecutor.CommandRun.OnError | src/utils/commandExecutor.ts:78-90 | settles with the error outcome unless already settled, and disarms the timer |
| CommandExecutor.CommandRun.OnClose | src/utils/commandExecutor.ts:92-107 | settles with the close outcome unless already settled, and disarms the timer |
| CommandExecutor.CommandRun.OnHostSignal | src/utils/commandExecutor.ts:110-120 | forwards one SIGTERM only while unsettled |
| Registry.Find | src/tools/registry.ts:75 | the first tool with that name, or none iff no tool has it |
| Registry.ToolExists | src/tools/registry.ts:26-28 | true iff some registered tool has the name |
| Registry.FindAfterRegister | src/tools/index.ts:8-14 | registering more tools never changes what an earlier name finds |
| Registry.DefinitionOf | src/tools/registry.ts:63-67 | a definition keeps the name and description, and uses the declared arguments or else the schema's |
| Registry.PromptDefinitions | src/tools/registry.ts:60-68 | one definition per tool with a prompt |
| Registry.DefinitionsInOrder | src/tools/registry.ts:60-68 | definitions follow registry order |
| Registry.DefinitionsExact | src/tools/registry.ts:60-68 | a definition is listed iff it is that of a tool with a prompt |
| Registry.ExecuteTool | src/tools/registry.ts:70-92 | an unknown name fails with `Unknown tool: <name>`; invalid arguments fail naming the issues; otherwise the tool runs on the checked arguments |
| Registry.Lookup | src/tools/registry.ts:102-104 | a found value is that of an entry with the key; a missing key is undefined |
| Registry.EntryParam | src/tools/registry.ts:106-114 | `prompt` is skipped; `true` gives `[key]`; false, null and undefined give nothing; other values give `(key: value)` |
| Registry.FlatMapCount | src/tools/registry.ts:106-114 | a map emitting at most one item per entry emits as many as the entries that qualify |
| Registry.PromptFirstOnly | src/tools/registry.ts:102-114 | a truthy prompt comes first, and the count is that prompt plus one per emitted entry |
| Registry.MessageText | src/tools/registry.ts:116 | with no parameters exactly `Use the <name> tool`, otherwise that text, `: ` and the parameters joined by spaces |
| Registry.PromptMessage | src/tools/registry.ts:94-117 | fails iff the tool is missing or has no prompt; otherwise the message over the parameter strings |
| Registry.ToolRegistry.constructor | src/tools/registry.ts:24 | the registry starts empty |
| Registry.ToolRegistry.Register | src/tools/index.ts:8-14 | registration appends the tools in order |
| Registry.ToolRegistry.GetPromptMessage | src/tools/registry.ts:94-117 | the collecting loop computes `PromptMessage` over the registered tools |
| MasterTool.PromptOf | src/tools/ask-codex-master.tool.ts:49-52 | a prompt is accepted iff it is a non-empty string |
| MasterTool.IncludeAnalysis | src/tools/ask-codex-master.tool.ts:44-47 | includeAnalysis defaults to true, otherwise its truthiness |
| MasterTool.ScriptPathAsWrittenIsFlat | src/tools/ask-codex-master.tool.ts:61 | the monitor path as written has no backslash at all |
| MasterTool.ScriptPathHasFolders | src/tools/ask-codex-master.tool.ts:61 | the intended monitor path splits at backslashes into its folders |
| MasterTool.MonitorBlock | src/tools/ask-codex-master.tool.ts:166-185 | the monitor block appears iff both progress file and script are given, and names both |
| MasterTool.MonitorSectionIff | src/tools/ask-codex-master.tool.ts:161-185 | the response opens with the monitor section iff both are given |
| MasterTool.StepLinesJoin | src/tools/ask-codex-master.tool.ts:197-200 | the steps are the newline join of the steps plus a final newline |
| MasterTool.StepsOnePerLine | src/tools/ask-codex-master.tool.ts:196-203 | newline-free steps come back one per line, in order |
| MasterTool.AppendSteps | src/tools/ask-codex-master.tool.ts:195-205 | the step loop appends the step lines |
| MasterTool.AnalysisBlock | src/tools/ask-codex-master.tool.ts:211-215 | the analysis section appears iff includeAnalysis and a non-empty analysis, and holds that analysis |
| MasterTool.SummaryBlock | src/tools/ask-codex-master.tool.ts:187-193 | the summary section opens with its heading |
| MasterTool.AfterMonitor | src/tools/ask-codex-master.tool.ts:187-219 | everything after the monitor block opens with the summary heading |
| MasterTool.FormatMasterResponse | src/tools/ask-codex-master.tool.ts:161-222 | the formatter computes `MasterResponse` |
| MasterTool.CommandNotFoundSubsumed | src/tools/ask-codex-master.tool.ts:99 | `command not found` adds nothing to the `not found` test |
| MasterTool.Quote | src/tools/ask-codex-master.tool.ts:145 | an empty prompt is `未知`; up to 200 characters verbatim; longer prompts are cut to 200 plus `...` |
| MasterTool.ErrorKind | src/tools/ask-codex-master.tool.ts:146 | internal iff the message contains `Master`, otherwise external |
| MasterTool.ErrorReply | src/tools/ask-codex-master.tool.ts:94-154 | each cause gives its fixed reply; the generic reply carries the message, the quoted prompt and the error kind |
| MasterTool.CascadeOrder | src/tools/ask-codex-master.tool.ts:99-142 | the tests run in order: not found, authentication/unauthorized, timeout, quota/rate limit, generic |
| MasterTool.ReplyOpensWithCause | src/tools/ask-codex-master.tool.ts:99-142 | every reply opens with the mark and its cause's title |
| MasterTool.CauseWordsDistinct | src/tools/ask-codex-master.tool.ts:99-142 | the cause titles differ from each other |
| MasterTool.ReplyDeterminesCause | src/tools/ask-codex-master.tool.ts:99-142 | equal replies come from the same cause |
| MasterTool.ExecuteMasterTool | src/tools/ask-codex-master.tool.ts:43-155 | fails iff the prompt is missing; a plan is formatted with the progress file and the monitor script; a failure becomes the cascade reply |
| AskCodexTool.BuildCodexPrompt | dist/tools/ask-codex.tool.js:36-56 | always starts with the user prompt; a short prompt without `@`/`analyze`/`review` is unchanged; otherwise the guidelines are appended |
| AskCodexTool.ReasoningIff | dist/tools/ask-codex.tool.js:48-50 | the reasoning line is present iff includeThinking |
| AskCodexTool.AssumptionsIff | dist/tools/ask-codex.tool.js:51-53 | the assumptions line is present iff includeMetadata |
| AskCodexTool.GuidelineLines | dist/tools/ask-codex.tool.js:42-53 | for a complex prompt, both lines follow their flags, with true as the default |
| AskCodexTool.EffectiveTimeout | dist/tools/ask-codex.tool.js:94 | an absent or zero timeout becomes 180000, any other is kept |
| AskCodexTool.OptionsFor | dist/tools/ask-codex.tool.js:95-105 | the executor gets the caller's model, sandbox, approval, image, config, working directory and profile, the effective timeout and exec mode |
| AskCodexTool.CascadeOrder | dist/tools/ask-codex.tool.js:113-169 | the tests run in order: not found, auth, quota, timeout, permission, model, generic |
| AskCodexTool.CommandNotFoundSubsumed | dist/tools/ask-codex.tool.js:113 | `command not found` adds nothing to the `not found` test |
| AskCodexTool.OrElse | dist/tools/ask-codex.tool.js:172-175 | a truthy value or else the fallback text |
| AskCodexTool.Reply | dist/tools/ask-codex.tool.js:110-182 | each reply opens with the mark and its cause's title; the generic one carries the message |
| AskCodexTool.ErrorReply | dist/tools/ask-codex.tool.js:110-182 | the reply opens with the mark and the title of the first cause the message mentions; an unrecognised message is quoted in it |
| AskCodexTool.PermissionOnly | dist/tools/ask-codex.tool.js:113-141 | a message naming the sandbox without `u`, `v` or `m` is diagnosed as a permission problem |
| AskCodexTool.SandboxViolationNotPermitted | dist/tools/ask-codex.tool.js:134-141 | the sandbox-violation message is diagnosed as a permission problem |
| AskCodexTool.TitlesDistinct | dist/tools/ask-codex.tool.js:113-169 | the cause titles differ from each other |
| AskCodexTool.TitleDeterminesCause | dist/tools/ask-codex.tool.js:110-182 | a reply's opening determines its cause |
| AskCodexTool.AskCodex | dist/tools/ask-codex.tool.js:78-182 | fails iff the prompt is blank; otherwise the shipped executor's output is formatted, or its error becomes the cascade reply |
| AskCodexTool.SandboxRefusedBeforeRun | dist/tools/ask-codex.tool.js:95-107 | a non-read-only sandbox never runs the CLI: the reply is the one to the sandbox-violation message, whatever the run would do (`SandboxViolationNotPermitted` makes it the permission reply) |

## Left out

- `JSON.parse` and `JSON.stringify` are foreign code. A line's parse is a
  parameter from the line to an optional record. Config values are given
  already rendered.
- Clocks: the JSON-mode stamps (`Date`) are a function of the event's
  position. `toLocaleString` in the statistics and the footer is a given
  string.
- `process.cwd()` is the given string `cwd`.
- The concurrency of `Promise.all` in `executeParallel` is left out. The
  fan-out is a sequential map over per-task outcomes.
- Logging, `onProgress` notifications in the tools and the scheduler, and
  the progress-file writer are left out. Only the command runner's
  progress reports are modelled, as a field.
- `detectCodexPaths` probes the filesystem and runs processes, so its
  result is a given `PathInfo`.
- Process spawning, pipes, timers and `process.on` registration are not
  modelled as operating-system effects. They become the event methods of
  `CommandRun`.
- The stderr signature checks only log, so `OnStderr` models only the
  append.
- `executeCodexApply` is a placeholder with no logic.
- `getToolDefinitions`, the zod schemas and `extractPromptArguments` are
  foreign validation code. A tool's schema arguments and a `validate`
  function stand in for them.
- `extractCodeBlocks` and `extractDiffBlocks` are regex helpers outside
  the parser's control flow.
- The source build's `ask-codex` and `exec-codex` tools are not part of
  this model. The `apply-diff` tool, the simple tools and the server loop
  are not part of it either.
- Numbers are unbounded integers.
  - NaN and fractional token counts are left out.
  - A token count of 0 is treated as falsy, as in JavaScript.
- String lengths count characters, not UTF-16 code units. This affects
  the 200-character quote, the 50-character prompt test and the
  10-character substantive test.
- `toLowerCase` is modelled for ASCII letters only.
- Object entries keep insertion order. JavaScript's ordering of
  integer-like keys is left out.
- CodexExecutorSrc.CodexResult: the function has no contract of its own.
  Its behaviour is stated in `CodexResultCases`.
- CodexExecutorDist.DistResult: its own contract states only the sandbox
  rejection. The run, parse and classification path is stated in
  `DistResultCases`.
- MasterTool.ExecuteMasterTool: the reply names the monitor script by the
  corrected path `MONITOR_SCRIPT`, not by the literal as the program
  writes it (`MONITOR_SCRIPT_AS_WRITTEN`, see Findings).
- MasterTool.ExecuteMasterTool: the scheduler's outcome is a parameter.
  It is not tied to `Master.Execute`, which never fails; the failure case
  stands for what the surrounding `try` would catch.
- MasterTool.MasterResponse and MasterTool.StepLines have no contract of
  their own. `MonitorSectionIff`, `StepLinesJoin` and `StepsOnePerLine`
  state their texts.
- The two executors' authentication and sandbox messages are written in
  short pieces. The pieces join to the same text.

## Findings

| source | as written | input that shows it | evidently intended | confidence | as-written member | corrected member |
|---|---|---|---|---|---|---|
| src/tools/ask-codex-master.tool.ts:61 | the monitor script path is an ordinary string literal with single backslashes; in JavaScript `\A`, `\牛` and `\s` are not escapes, so the backslashes are dropped and the path has no separators | the literal itself, with no input needed | a Windows path with backslash separators between its folders | not executed | MasterTool.ScriptPathAsWrittenIsFlat | MasterTool.ScriptPathHasFolders |
