/** The parser that turns the text printed by `codex exec` into a structured
    `CodexOutput`: detection of the line-delimited JSON event format, the fold
    over JSON events, the fold over the older sectioned text format, the
    clean-up and promotion post-pass, the metadata `key: value` parser, the
    Markdown formatter and the error-keyword test. */
module OutputParser {
  import opened Wrappers
  import opened Text
  import opened Folds

  /** Placeholder response used when nothing was extracted. */
  const NO_RESPONSE := "解析输出时未找到有效响应内容"
  const STARTED_LABEL := "任务开始"
  const FINISHED_LABEL := "任务完成"

  /** `output.metadata`: the configuration keys the parser found. */
  type Metadata = map<string, string>

  /** The `msg` object of a JSON event. A falsy or absent string field is
      `""`; a falsy or absent token field is `0`. `msgType` is the value
      as string concatenation renders it. */
  datatype Message = Message(
    msgType: string,
    message: string,
    inputTokens: int,
    outputTokens: int,
    totalTokens: int)

  /** The fields of one parsed JSON line that the parser reads. Falsy or
      absent string fields are `""`; `prompt` is `""` also when it is not a
      string; `hasId` is `id !== undefined`; `msg` is `None` when falsy. */
  datatype JsonRecord = JsonRecord(
    version: string,
    workdir: string,
    model: string,
    provider: string,
    approval: string,
    sandbox: string,
    reasoningEffort: string,
    reasoningSummaries: string,
    prompt: string,
    hasId: bool,
    msg: Option<Message>,
    message: string)

  /** `CodexOutput`; `thinking` is `None` for `undefined`, as is
      `tokensUsed`. */
  datatype CodexOutput = CodexOutput(
    metadata: Metadata,
    userInstructions: string,
    thinking: Option<string>,
    response: string,
    tokensUsed: Option<int>,
    timestamps: seq<string>,
    rawOutput: string)

  /** JavaScript's `a || b` on strings. */
  function Or(a: string, b: string): string {
    if a != "" then a else b
  }

  predicate NonBlank(line: string) {
    !IsBlank(line)
  }

  /** The lines of the raw output that are not blank, in order. */
  function OutputLines(raw: string): (lines: seq<string>)
    ensures forall i :: 0 <= i < |lines| ==> !IsBlank(lines[i])
    ensures forall l :: l in lines <==> l in Split(raw, '\n') && !IsBlank(l)
  {
    Filter(Split(raw, '\n'), NonBlank)
  }

  // ---------------------------------------------------------------------
  // Format detection

  /** A line that, trimmed, is braced and is accepted by `JSON.parse`.
      `parse` abstracts `JSON.parse`: `None` when it throws or yields null. */
  predicate LooksLikeJson(line: string, parse: string -> Option<JsonRecord>) {
    var t := Trim(line);
    StartsWith(t, "{") && EndsWith(t, "}") && parse(t).Some?
  }

  /** Whether the output is in the JSON event format. */
  function DetectJson(lines: seq<string>, parse: string -> Option<JsonRecord>): (r: bool)
    ensures r <==> exists i :: 0 <= i < |lines| && LooksLikeJson(lines[i], parse)
    decreases |lines|
  {
    if lines == [] then false
    else if LooksLikeJson(lines[0], parse) then true
    else
      var r := DetectJson(lines[1..], parse);
      assert forall i :: 1 <= i < |lines| ==> lines[i] == lines[1..][i - 1];
      r
  }

  /** The detection loop, which stops at the first JSON line. */
  method DetectJsonFormat(lines: seq<string>, parse: string -> Option<JsonRecord>) returns (isJson: bool)
    ensures isJson == DetectJson(lines, parse)
  {
    isJson := false;
    var i := 0;
    while i < |lines|
      invariant 0 <= i <= |lines|
      invariant !isJson
      invariant forall j :: 0 <= j < i ==> !LooksLikeJson(lines[j], parse)
    {
      if LooksLikeJson(lines[i], parse) {
        isJson := true;
        return;
      }
      i := i + 1;
    }
  }

  // ---------------------------------------------------------------------
  // JSON event format

  /** The kinds the `switch (msgType)` distinguishes. */
  datatype MsgKind = TaskStarted | AgentMessage | Reasoning | TokenCount | ErrorEvent | Completion | OtherKind

  function KindOf(msgType: string): MsgKind {
    if msgType == "task_started" then TaskStarted
    else if msgType == "agent_message" then AgentMessage
    else if msgType == "thinking" || msgType == "reasoning" then Reasoning
    else if msgType == "token_count" then TokenCount
    else if msgType == "error" then ErrorEvent
    else if msgType == "completion" || msgType == "task_completed" then Completion
    else OtherKind
  }

  /** The parser's locals while it reads JSON lines. */
  datatype JsonState = JsonState(
    metadata: Metadata,
    sessionStarted: bool,
    userInstructions: string,
    thinking: string,
    response: string,
    tokensUsed: Option<int>,
    timestamps: seq<string>)

  const JsonInit := JsonState(map[], false, "", "", "", None, [])

  /** A record carrying session configuration. */
  predicate IsSession(r: JsonRecord) {
    r.reasoningSummaries != "" || r.model != "" || r.workdir != ""
  }

  const SessionKeys: set<string> := {"version", "workdir", "model", "provider", "approval", "sandbox", "reasoning_effort", "reasoning_summaries"}

  /** The metadata a session record sets, with the defaults for falsy fields;
      `cwd` is `process.cwd()`. */
  function SessionMetadata(r: JsonRecord, cwd: string): (m: Metadata)
    ensures m.Keys == SessionKeys
    ensures m["version"] != "" && m["model"] != "" && m["provider"] != ""
    ensures m["approval"] != "" && m["sandbox"] != ""
    ensures r.version != "" ==> m["version"] == r.version
    ensures r.version == "" ==> m["version"] == "v0.22.0+"
    ensures r.workdir != "" ==> m["workdir"] == r.workdir
    ensures r.workdir == "" ==> m["workdir"] == cwd
    ensures r.model != "" ==> m["model"] == r.model
    ensures r.model == "" ==> m["model"] == "gpt-5"
    ensures r.provider != "" ==> m["provider"] == r.provider
    ensures r.provider == "" ==> m["provider"] == "openai"
    ensures r.approval != "" ==> m["approval"] == r.approval
    ensures r.approval == "" ==> m["approval"] == "untrusted"
    ensures r.sandbox != "" ==> m["sandbox"] == r.sandbox
    ensures r.sandbox == "" ==> m["sandbox"] == "read-only"
    ensures m["reasoning_effort"] == r.reasoningEffort
    ensures m["reasoning_summaries"] == r.reasoningSummaries
  {
    map[
      "version" := Or(r.version, "v0.22.0+"),
      "workdir" := Or(r.workdir, cwd),
      "model" := Or(r.model, "gpt-5"),
      "provider" := Or(r.provider, "openai"),
      "approval" := Or(r.approval, "untrusted"),
      "sandbox" := Or(r.sandbox, "read-only"),
      "reasoning_effort" := r.reasoningEffort,
      "reasoning_summaries" := r.reasoningSummaries
    ]
  }

  /** The value a `token_count` message sets `tokensUsed` to, if any. */
  function TokenCountValue(m: Message): Option<int> {
    if KindOf(m.msgType) != TokenCount then None
    else if m.inputTokens != 0 && m.outputTokens != 0 then Some(m.inputTokens + m.outputTokens)
    else if m.totalTokens != 0 then Some(m.totalTokens)
    else None
  }

  /** The `switch (msgType)` over one message event. */
  function Dispatch(st: JsonState, m: Message): JsonState {
    match KindOf(m.msgType)
    case TaskStarted =>
      if m.message != "" then st.(thinking := st.thinking + STARTED_LABEL + ": " + m.message + "\n") else st
    case AgentMessage =>
      if m.message != "" then st.(response := st.response + m.message + "\n") else st
    case Reasoning =>
      if m.message != "" then st.(thinking := st.thinking + m.message + "\n") else st
    case TokenCount =>
      (match TokenCountValue(m)
       case Some(n) => st.(tokensUsed := Some(n))
       case None => st)
    case ErrorEvent =>
      if m.message != "" then st.(response := st.response + "错误: " + m.message + "\n") else st
    case Completion =>
      if m.message != "" then st.(thinking := st.thinking + FINISHED_LABEL + ": " + m.message + "\n") else st
    case OtherKind =>
      if m.message != "" then st.(thinking := st.thinking + "[" + m.msgType + "] " + m.message + "\n") else st
  }

  /** A message event: an id and a truthy `msg`, after the session and
      prompt checks. */
  predicate IsEvent(r: JsonRecord) {
    !IsSession(r) && r.prompt == "" && r.hasId && r.msg.Some?
  }

  /** What the JSON loop sees on a line: nothing to do for a blank line,
      otherwise the outcome of `JSON.parse` on the trimmed line. */
  datatype LineInput = Skip | Unparsable(text: string) | Decoded(record: JsonRecord)

  function ReadLine(line: string, parse: string -> Option<JsonRecord>): LineInput {
    if IsBlank(line) then Skip
    else match parse(Trim(line))
      case None => Unparsable(line)
      case Some(r) => Decoded(r)
  }

  /** The body of the JSON loop for what was read from `line`; `now(k)` is
      the clock reading taken for the k-th message event. */
  function Apply(st: JsonState, input: LineInput, now: nat -> string, cwd: string): JsonState {
    match input
    case Skip => st
    case Unparsable(line) => st.(response := st.response + line + "\n")
    case Decoded(r) =>
      if IsSession(r) then
        if !st.sessionStarted then st.(metadata := SessionMetadata(r, cwd), sessionStarted := true) else st
      else if r.prompt != "" then
        st.(userInstructions := st.userInstructions + r.prompt + "\n")
      else EventStep(st, r, now)
  }

  /** A record that is neither a session nor a prompt: a message event is
      stamped and dispatched, and a plain `message` goes to the response. */
  function EventStep(st: JsonState, r: JsonRecord, now: nat -> string): JsonState {
    var st1 := if r.hasId && r.msg.Some? then
                 Dispatch(st.(timestamps := st.timestamps + [now(|st.timestamps|)]), r.msg.value)
               else st;
    if r.message != "" && r.msg.None? then st1.(response := st1.response + r.message + "\n") else st1
  }

  /** What the JSON loop reads from each line. */
  function Inputs(lines: seq<string>, parse: string -> Option<JsonRecord>): seq<LineInput> {
    seq(|lines|, i requires 0 <= i < |lines| => ReadLine(lines[i], parse))
  }

  /** One iteration of the JSON loop, as the step of a fold. */
  function JsonStepper(now: nat -> string, cwd: string): (JsonState, LineInput) -> JsonState {
    (s: JsonState, x: LineInput) => Apply(s, x, now, cwd)
  }

  /** The JSON loop from state `st` over what was read from the lines. */
  function JsonFold(st: JsonState, inputs: seq<LineInput>, now: nat -> string, cwd: string): JsonState {
    Fold(st, inputs, JsonStepper(now, cwd))
  }

  /** The `switch (msgType)` of the JSON loop. */
  method HandleMessage(st: JsonState, m: Message) returns (next: JsonState)
    ensures next == Dispatch(st, m)
  {
    next := st;
    match KindOf(m.msgType) {
      case TaskStarted =>
        if m.message != "" { next := st.(thinking := st.thinking + STARTED_LABEL + ": " + m.message + "\n"); }
      case AgentMessage =>
        if m.message != "" { next := st.(response := st.response + m.message + "\n"); }
      case Reasoning =>
        if m.message != "" { next := st.(thinking := st.thinking + m.message + "\n"); }
      case TokenCount =>
        if m.inputTokens != 0 && m.outputTokens != 0 {
          next := st.(tokensUsed := Some(m.inputTokens + m.outputTokens));
        } else if m.totalTokens != 0 {
          next := st.(tokensUsed := Some(m.totalTokens));
        }
      case ErrorEvent =>
        if m.message != "" { next := st.(response := st.response + "错误: " + m.message + "\n"); }
      case Completion =>
        if m.message != "" { next := st.(thinking := st.thinking + FINISHED_LABEL + ": " + m.message + "\n"); }
      case OtherKind =>
        if m.message != "" { next := st.(thinking := st.thinking + "[" + m.msgType + "] " + m.message + "\n"); }
    }
  }

  /** The JSON loop over the non-blank lines; `st` holds the parser's
      locals. */
  method ParseJsonLines(lines: seq<string>, parse: string -> Option<JsonRecord>, now: nat -> string, cwd: string)
    returns (st: JsonState)
    ensures st == JsonFold(JsonInit, Inputs(lines, parse), now, cwd)
  {
    ghost var inputs := Inputs(lines, parse);
    st := JsonInit;
    var i := 0;
    while i < |lines|
      invariant 0 <= i <= |lines|
      invariant JsonFold(st, inputs[i..], now, cwd) == JsonFold(JsonInit, inputs, now, cwd)
    {
      var line := lines[i];
      assert inputs[i..][1..] == inputs[i + 1..];
      var next := st;
      if !IsBlank(line) {
        var parsed := parse(Trim(line));
        if parsed.None? {
          next := st.(response := st.response + line + "\n");
        } else {
          var r := parsed.value;
          if IsSession(r) {
            if !st.sessionStarted {
              next := st.(metadata := SessionMetadata(r, cwd), sessionStarted := true);
            }
          } else if r.prompt != "" {
            next := st.(userInstructions := st.userInstructions + r.prompt + "\n");
          } else {
            if r.hasId && r.msg.Some? {
              next := st.(timestamps := st.timestamps + [now(|st.timestamps|)]);
              next := HandleMessage(next, r.msg.value);
            }
            if r.message != "" && r.msg.None? {
              next := next.(response := next.response + r.message + "\n");
            }
          }
        }
      }
      assert next == Apply(st, inputs[i], now, cwd);
      st := next;
      i := i + 1;
    }
    assert inputs[i..] == [];
  }

  // Per-line contributions: what a line appends, independently of the state.

  /** What a message appends to `response`. */
  function MessageResponsePart(m: Message): string {
    if m.message == "" then ""
    else match KindOf(m.msgType)
      case AgentMessage => m.message + "\n"
      case ErrorEvent => "错误: " + m.message + "\n"
      case _ => ""
  }

  /** What a message appends to `thinking`. */
  function MessageThinkingPart(m: Message): string {
    if m.message == "" then ""
    else match KindOf(m.msgType)
      case TaskStarted => STARTED_LABEL + ": " + m.message + "\n"
      case Reasoning => m.message + "\n"
      case Completion => FINISHED_LABEL + ": " + m.message + "\n"
      case OtherKind => "[" + m.msgType + "] " + m.message + "\n"
      case _ => ""
  }

  /** What one line appends to `response`: an unparsable line itself, a
      message event's reply or error, or a plain `message`. */
  function ResponsePart(input: LineInput): string {
    match input
    case Skip => ""
    case Unparsable(line) => line + "\n"
    case Decoded(r) =>
      if IsSession(r) || r.prompt != "" then ""
      else (if IsEvent(r) then MessageResponsePart(r.msg.value) else "")
           + (if r.message != "" && r.msg.None? then r.message + "\n" else "")
  }

  /** What one line appends to `thinking`. */
  function ThinkingPart(input: LineInput): string {
    if input.Decoded? && IsEvent(input.record) then MessageThinkingPart(input.record.msg.value) else ""
  }

  /** What one line appends to `userInstructions`. */
  function InstructionPart(input: LineInput): string {
    if input.Decoded? && !IsSession(input.record) && input.record.prompt != "" then input.record.prompt + "\n" else ""
  }

  predicate IsEventInput(input: LineInput) {
    input.Decoded? && IsEvent(input.record)
  }

  predicate IsSessionInput(input: LineInput) {
    input.Decoded? && IsSession(input.record)
  }

  /** The `tokensUsed` assignment a line makes, if any. */
  function TokenValue(input: LineInput): Option<int> {
    if IsEventInput(input) then TokenCountValue(input.record.msg.value) else None
  }

  /** The first session record among the inputs. */
  function FirstSession(inputs: seq<LineInput>): (r: Option<JsonRecord>)
    ensures r.Some? ==> IsSession(r.value)
    decreases |inputs|
  {
    if inputs == [] then None
    else if IsSessionInput(inputs[0]) then Some(inputs[0].record)
    else FirstSession(inputs[1..])
  }

  lemma DispatchParts(st: JsonState, m: Message)
    ensures var e := Dispatch(st, m);
      && e.response == st.response + MessageResponsePart(m)
      && e.thinking == st.thinking + MessageThinkingPart(m)
      && e.userInstructions == st.userInstructions && e.timestamps == st.timestamps
      && e.tokensUsed == (if TokenCountValue(m).Some? then TokenCountValue(m) else st.tokensUsed)
  {
    var k := KindOf(m.msgType);
    if m.message == "" {
      assert MessageResponsePart(m) == "" && MessageThinkingPart(m) == "";
    } else {
      match k
      case TaskStarted =>
        assert st.thinking + STARTED_LABEL + ": " + m.message + "\n" == st.thinking + (STARTED_LABEL + ": " + m.message + "\n");
      case AgentMessage =>
        assert st.response + m.message + "\n" == st.response + (m.message + "\n");
      case Reasoning =>
        assert st.thinking + m.message + "\n" == st.thinking + (m.message + "\n");
      case TokenCount =>
      case ErrorEvent =>
        assert st.response + "错误: " + m.message + "\n" == st.response + ("错误: " + m.message + "\n");
      case Completion =>
        assert st.thinking + FINISHED_LABEL + ": " + m.message + "\n" == st.thinking + (FINISHED_LABEL + ": " + m.message + "\n");
      case OtherKind =>
        assert st.thinking + "[" + m.msgType + "] " + m.message + "\n" == st.thinking + ("[" + m.msgType + "] " + m.message + "\n");
    }
  }

  lemma ApplyParts(st: JsonState, input: LineInput, now: nat -> string, cwd: string)
    ensures var e := Apply(st, input, now, cwd);
      && e.response == st.response + ResponsePart(input)
      && e.thinking == st.thinking + ThinkingPart(input)
      && e.userInstructions == st.userInstructions + InstructionPart(input)
      && e.timestamps == st.timestamps + (if IsEventInput(input) then [now(|st.timestamps|)] else [])
      && e.tokensUsed == (if TokenValue(input).Some? then TokenValue(input) else st.tokensUsed)
      && e.sessionStarted == (st.sessionStarted || IsSessionInput(input))
      && e.metadata == (if !st.sessionStarted && IsSessionInput(input)
                        then SessionMetadata(input.record, cwd) else st.metadata)
  {
    match input
    case Skip =>
    case Unparsable(line) =>
      assert st.response + line + "\n" == st.response + (line + "\n");
    case Decoded(r) =>
      if IsSession(r) {
      } else if r.prompt != "" {
        assert st.userInstructions + r.prompt + "\n" == st.userInstructions + (r.prompt + "\n");
      } else {
        EventStepParts(st, r, now);
      }
  }

  lemma EventStepParts(st: JsonState, r: JsonRecord, now: nat -> string)
    requires !IsSession(r) && r.prompt == ""
    ensures var e := EventStep(st, r, now);
      && e.response == st.response + ResponsePart(Decoded(r))
      && e.thinking == st.thinking + ThinkingPart(Decoded(r))
      && e.userInstructions == st.userInstructions
      && e.timestamps == st.timestamps + (if IsEvent(r) then [now(|st.timestamps|)] else [])
      && e.tokensUsed == (if TokenValue(Decoded(r)).Some? then TokenValue(Decoded(r)) else st.tokensUsed)
      && e.sessionStarted == st.sessionStarted && e.metadata == st.metadata
  {
    var st0 := if r.hasId && r.msg.Some? then st.(timestamps := st.timestamps + [now(|st.timestamps|)]) else st;
    var st1 := if r.hasId && r.msg.Some? then Dispatch(st0, r.msg.value) else st;
    if r.hasId && r.msg.Some? {
      DispatchParts(st0, r.msg.value);
    }
    var tail := if r.message != "" && r.msg.None? then r.message + "\n" else "";
    var head := if IsEvent(r) then MessageResponsePart(r.msg.value) else "";
    assert ResponsePart(Decoded(r)) == head + tail;
    assert st1.response == st.response + head;
    if r.message != "" && r.msg.None? {
      assert st1.response + r.message + "\n" == st.response + head + tail;
    } else {
      assert st1.response == st.response + head + tail;
    }
  }

  /** The JSON fold is a concatenation of per-line contributions: each line
      appends its own text to `response`, in input order, whatever came
      before it. */
  lemma JsonResponseAccumulates(st: JsonState, inputs: seq<LineInput>, now: nat -> string, cwd: string)
    ensures JsonFold(st, inputs, now, cwd).response == st.response + ConcatMap(inputs, ResponsePart)
  {
    var step := JsonStepper(now, cwd);
    forall s, x ensures step(s, x).response == s.response + ResponsePart(x) {
      ApplyParts(s, x, now, cwd);
    }
    FoldAppends(st, inputs, step, (s: JsonState) => s.response, ResponsePart);
  }

  /** Likewise for `thinking`. */
  lemma JsonThinkingAccumulates(st: JsonState, inputs: seq<LineInput>, now: nat -> string, cwd: string)
    ensures JsonFold(st, inputs, now, cwd).thinking == st.thinking + ConcatMap(inputs, ThinkingPart)
  {
    var step := JsonStepper(now, cwd);
    forall s, x ensures step(s, x).thinking == s.thinking + ThinkingPart(x) {
      ApplyParts(s, x, now, cwd);
    }
    FoldAppends(st, inputs, step, (s: JsonState) => s.thinking, ThinkingPart);
  }

  /** Likewise for `userInstructions`. */
  lemma JsonInstructionsAccumulate(st: JsonState, inputs: seq<LineInput>, now: nat -> string, cwd: string)
    ensures JsonFold(st, inputs, now, cwd).userInstructions == st.userInstructions + ConcatMap(inputs, InstructionPart)
  {
    var step := JsonStepper(now, cwd);
    forall s, x ensures step(s, x).userInstructions == s.userInstructions + InstructionPart(x) {
      ApplyParts(s, x, now, cwd);
    }
    FoldAppends(st, inputs, step, (s: JsonState) => s.userInstructions, InstructionPart);
  }

  /** Each message event adds exactly one timestamp after the earlier ones. */
  lemma JsonTimestampsPerEvent(st: JsonState, inputs: seq<LineInput>, now: nat -> string, cwd: string)
    ensures var e := JsonFold(st, inputs, now, cwd);
      |e.timestamps| == |st.timestamps| + CountWhere(inputs, IsEventInput) && e.timestamps[..|st.timestamps|] == st.timestamps
  {
    var step := JsonStepper(now, cwd);
    forall s, x ensures |step(s, x).timestamps| == |s.timestamps| + (if IsEventInput(x) then 1 else 0)
                        && step(s, x).timestamps[..|s.timestamps|] == s.timestamps {
      ApplyParts(s, x, now, cwd);
    }
    FoldGrows(st, inputs, step, (s: JsonState) => s.timestamps, IsEventInput);
  }

  /** `tokensUsed` is the value of the last token count reported. */
  lemma JsonTokensLastWins(st: JsonState, inputs: seq<LineInput>, now: nat -> string, cwd: string)
    ensures var v := LastValue(inputs, TokenValue);
      JsonFold(st, inputs, now, cwd).tokensUsed == (if v.Some? then v else st.tokensUsed)
  {
    var step := JsonStepper(now, cwd);
    forall s, x ensures step(s, x).tokensUsed == (if TokenValue(x).Some? then TokenValue(x) else s.tokensUsed) {
      ApplyParts(s, x, now, cwd);
    }
    FoldKeepsLast(st, inputs, step, (s: JsonState) => s.tokensUsed, TokenValue);
  }

  /** Only the first session record sets the metadata; later ones are
      skipped, and without one the metadata stays as it was. */
  lemma {:induction false} JsonMetadataFirstWins(st: JsonState, inputs: seq<LineInput>, now: nat -> string, cwd: string)
    ensures var e := JsonFold(st, inputs, now, cwd);
      && e.sessionStarted == (st.sessionStarted || FirstSession(inputs).Some?)
      && e.metadata == (if st.sessionStarted || FirstSession(inputs).None? then st.metadata
                        else SessionMetadata(FirstSession(inputs).value, cwd))
    decreases |inputs|
  {
    if inputs != [] {
      var st1 := Apply(st, inputs[0], now, cwd);
      ApplyParts(st, inputs[0], now, cwd);
      JsonMetadataFirstWins(st1, inputs[1..], now, cwd);
      assert JsonFold(st, inputs, now, cwd) == JsonFold(st1, inputs[1..], now, cwd);
    }
  }

  // ---------------------------------------------------------------------
  // Sectioned text format

  datatype Section = Header | MetadataSection | Content | InstructionsSection | ThinkingSection | ResponseSection

  /** The parser's locals while it reads sectioned text. */
  datatype LegacyState = LegacyState(
    section: Section,
    metadataLines: seq<string>,
    thinkingLines: seq<string>,
    responseLines: seq<string>,
    userInstructions: string,
    tokensUsed: Option<int>,
    timestamps: seq<string>)

  const LegacyInit := LegacyState(Header, [], [], [], "", None, [])

  /** The capture of `/^\[([^\]]+)\]/`: the text between a leading `[` and
      the first `]`, when it is not empty. */
  function BracketTimestamp(line: string): Option<string> {
    if |line| >= 1 && line[0] == '[' && IndexOf(line[1..], ']').Some? && IndexOf(line[1..], ']').value >= 1
    then Some(line[1..1 + IndexOf(line[1..], ']').value])
    else None
  }

  /** A captured stamp is a bracketed prefix without `]` inside, and every
      such prefix is the one captured. */
  lemma BracketTimestampCaptures(line: string)
    ensures var r := BracketTimestamp(line);
      r.Some? ==> r.value != "" && ']' !in r.value && StartsWith(line, "[" + r.value + "]")
    ensures forall t :: t != "" && ']' !in t && StartsWith(line, "[" + t + "]") ==> BracketTimestamp(line) == Some(t)
  {
    if BracketTimestamp(line).Some? {
      BracketPrefix(line, IndexOf(line[1..], ']').value);
    }
    forall t | t != "" && ']' !in t && StartsWith(line, "[" + t + "]")
      ensures BracketTimestamp(line) == Some(t)
    {
      BracketCapture(line, t);
    }
  }

  lemma BracketPrefix(line: string, k: nat)
    requires |line| >= 1 && line[0] == '[' && IndexOf(line[1..], ']') == Some(k)
    ensures ']' !in line[1..1 + k] && StartsWith(line, "[" + line[1..1 + k] + "]")
  {
    var t := line[1..1 + k];
    assert t == line[1..][..k];
    var w := "[" + t + "]";
    assert line[..k + 2] == w by {
      assert forall i | 1 <= i <= k :: w[i] == t[i - 1] == line[i];
    }
  }

  /** A bracketed prefix without `]` inside is what the first `]` closes. */
  lemma BracketCapture(line: string, t: string)
    requires t != "" && ']' !in t && StartsWith(line, "[" + t + "]")
    ensures |line| >= 1 && line[0] == '[' && IndexOf(line[1..], ']') == Some(|t|) && line[1..1 + |t|] == t
  {
    var rest := line[|t| + 2..];
    assert line == "[" + t + "]" + rest;
    assert line[1..] == t + [']'] + rest;
    IndexOfAfterPiece(t, ']', rest);
  }

  /** The number matched by `/tokens used:\s*(\d+)/` at the start of `s`. */
  function TokensAt(s: string): (r: Option<int>)
    ensures r.Some? ==> StartsWith(s, "tokens used:") && r.value >= 0
  {
    if StartsWith(s, "tokens used:") then
      var digits := LeadingDigits(TrimStart(s[12..]));
      if digits != "" then Some(DigitsValue(digits)) else None
    else None
  }

  /** The number matched by `/tokens used:\s*(\d+)/` anywhere in the line,
      at its leftmost match. */
  function TokensUsedIn(line: string): (r: Option<int>)
    ensures r.Some? ==> Contains(line, "tokens used:") && r.value >= 0
    decreases |line|
  {
    match TokensAt(line)
    case Some(n) => Some(n)
    case None => if line == [] then None else TokensUsedIn(line[1..])
  }

  /** A line that changes or keeps the section and is never recorded. */
  predicate IsMarker(line: string) {
    Contains(line, "OpenAI Codex") || StartsWith(line, "--------") || Contains(line, "User instructions:")
    || Contains(line, "thinking") || Contains(line, "codex")
  }

  /** The section after a marker line; `None` for a line that is not one.
      A dashed separator advances only header to metadata and metadata to
      content. */
  function Transition(line: string, sec: Section): (r: Option<Section>)
    ensures r.Some? <==> IsMarker(line)
    ensures StartsWith(line, "--------") && !Contains(line, "OpenAI Codex") ==>
      r == Some(match sec case Header => MetadataSection case MetadataSection => Content case _ => sec)
  {
    if Contains(line, "OpenAI Codex") then Some(Header)
    else if StartsWith(line, "--------") then
      Some(if sec == Header then MetadataSection else if sec == MetadataSection then Content else sec)
    else if Contains(line, "User instructions:") then Some(InstructionsSection)
    else if Contains(line, "thinking") then Some(ThinkingSection)
    else if Contains(line, "codex") then Some(ResponseSection)
    else None
  }

  /** The `switch (currentSection)` over a content line. */
  function RecordLine(st: LegacyState, line: string): LegacyState {
    match st.section
    case MetadataSection =>
      if !IsBlank(line) then st.(metadataLines := st.metadataLines + [Trim(line)]) else st
    case InstructionsSection =>
      if !IsBlank(line) && !Contains(line, "User instructions:") then st.(userInstructions := st.userInstructions + line + "\n") else st
    case ThinkingSection =>
      if !IsBlank(line) && !Contains(line, "thinking") then st.(thinkingLines := st.thinkingLines + [line]) else st
    case ResponseSection =>
      if !IsBlank(line) && !Contains(line, "codex") && !Contains(line, "tokens used:") then st.(responseLines := st.responseLines + [line]) else st
    case _ => st
  }

  predicate SameRecorded(a: LegacyState, b: LegacyState) {
    a.metadataLines == b.metadataLines && a.thinkingLines == b.thinkingLines
    && a.responseLines == b.responseLines && a.userInstructions == b.userInstructions
  }

  /** The timestamps with the line's bracketed timestamp, if any, appended. */
  function Stamped(ts: seq<string>, line: string): (r: seq<string>)
    ensures |ts| <= |r| <= |ts| + 1 && r[..|ts|] == ts
  {
    match BracketTimestamp(line) case Some(t) => ts + [t] case None => ts
  }

  /** One iteration of the sectioned-text loop. A token line only sets the
      count; a marker line records nothing; at most one timestamp is added. */
  function LegacyStep(st: LegacyState, line: string): (r: LegacyState)
    ensures |st.timestamps| <= |r.timestamps| <= |st.timestamps| + 1 && r.timestamps[..|st.timestamps|] == st.timestamps
    ensures TokensUsedIn(line).Some? ==> r.tokensUsed == TokensUsedIn(line) && r.section == st.section && SameRecorded(r, st)
    ensures TokensUsedIn(line).None? ==> r.tokensUsed == st.tokensUsed
    ensures IsMarker(line) ==> SameRecorded(r, st)
  {
    var ts := Stamped(st.timestamps, line);
    match TokensUsedIn(line)
    case Some(n) => st.(timestamps := ts, tokensUsed := Some(n))
    case None =>
      match Transition(line, st.section)
      case Some(sec) => st.(timestamps := ts, section := sec)
      case None => RecordLine(st.(timestamps := ts), line)
  }

  /** The sectioned-text loop from state `st`. */
  function LegacyFold(st: LegacyState, lines: seq<string>): LegacyState {
    Fold(st, lines, LegacyStep)
  }

  /** The `switch (currentSection)` of the sectioned-text loop. */
  method RecordContentLine(st: LegacyState, line: string) returns (next: LegacyState)
    ensures next == RecordLine(st, line)
  {
    next := st;
    match st.section {
      case MetadataSection =>
        if !IsBlank(line) { next := st.(metadataLines := st.metadataLines + [Trim(line)]); }
      case InstructionsSection =>
        if !IsBlank(line) && !Contains(line, "User instructions:") {
          next := st.(userInstructions := st.userInstructions + line + "\n");
        }
      case ThinkingSection =>
        if !IsBlank(line) && !Contains(line, "thinking") { next := st.(thinkingLines := st.thinkingLines + [line]); }
      case ResponseSection =>
        if !IsBlank(line) && !Contains(line, "codex") && !Contains(line, "tokens used:") {
          next := st.(responseLines := st.responseLines + [line]);
        }
      case _ =>
    }
  }

  /** The sectioned-text loop over the non-blank lines; `st` holds the
      parser's locals. */
  method ParseLegacyLines(lines: seq<string>) returns (st: LegacyState)
    ensures st == LegacyFold(LegacyInit, lines)
  {
    st := LegacyInit;
    var i := 0;
    while i < |lines|
      invariant 0 <= i <= |lines|
      invariant LegacyFold(st, lines[i..]) == LegacyFold(LegacyInit, lines)
    {
      var line := lines[i];
      assert lines[i..][1..] == lines[i + 1..];
      var next := st;
      var stamp := BracketTimestamp(line);
      if stamp.Some? {
        next := next.(timestamps := next.timestamps + [stamp.value]);
      }
      var tokens := TokensUsedIn(line);
      if tokens.Some? {
        next := next.(tokensUsed := Some(tokens.value));
      } else {
        var section := Transition(line, st.section);
        if section.Some? {
          next := next.(section := section.value);
        } else {
          next := RecordContentLine(next, line);
        }
      }
      assert next == LegacyStep(st, line);
      st := next;
      i := i + 1;
    }
    assert lines[i..] == [];
  }

  /** A line the sectioned-text parser may record: not blank, not a token
      line and not a marker. */
  predicate IsContentLine(line: string) {
    !IsBlank(line) && TokensUsedIn(line).None? && !IsMarker(line)
  }

  /** What one step may do to the recorded reasoning and response lines:
      keep them, or append `line`, a content line. */
  predicate RecordsContent(st: LegacyState, r: LegacyState, line: string) {
    && (r.thinkingLines == st.thinkingLines || (r.thinkingLines == st.thinkingLines + [line] && IsContentLine(line)))
    && (r.responseLines == st.responseLines
        || (r.responseLines == st.responseLines + [line] && IsContentLine(line) && !Contains(line, "tokens used:")))
  }

  lemma LegacyStepRecords(st: LegacyState, line: string)
    ensures var r := LegacyStep(st, line);
      && (r.thinkingLines == st.thinkingLines || (r.thinkingLines == st.thinkingLines + [line] && IsContentLine(line)))
      && (r.responseLines == st.responseLines
          || (r.responseLines == st.responseLines + [line] && IsContentLine(line) && !Contains(line, "tokens used:")))
  {
    var r := LegacyStep(st, line);
    if TokensUsedIn(line).Some? || IsMarker(line) {
      assert SameRecorded(r, st);
    } else {
      var st0 := st.(timestamps := r.timestamps);
      assert Transition(line, st.section).None?;
      assert r == RecordLine(st0, line);
      RecordLineRecords(st0, line);
    }
    assert RecordsContent(st, r, line);
  }

  lemma RecordLineRecords(st: LegacyState, line: string)
    requires TokensUsedIn(line).None? && !IsMarker(line)
    ensures RecordsContent(st, RecordLine(st, line), line)
  {
    var r := RecordLine(st, line);
    if !IsBlank(line) {
      assert IsContentLine(line);
    }
    match st.section
    case ThinkingSection =>
      assert r.responseLines == st.responseLines;
    case ResponseSection =>
      assert r.thinkingLines == st.thinkingLines;
    case _ =>
      assert r.thinkingLines == st.thinkingLines && r.responseLines == st.responseLines;
  }

  /** Every recorded reasoning or response line is a content line of the
      input, so no marker line and no token line is ever recorded, and the
      reply never holds a line mentioning `tokens used:`. */
  lemma {:induction false} LegacyRecordsOnlyContent(st: LegacyState, lines: seq<string>)
    ensures var e := LegacyFold(st, lines);
      && (forall l :: l in e.thinkingLines ==> l in st.thinkingLines || (l in lines && IsContentLine(l)))
      && (forall l :: l in e.responseLines ==>
            l in st.responseLines || (l in lines && IsContentLine(l) && !Contains(l, "tokens used:")))
    decreases |lines|
  {
    if lines != [] {
      var st1 := LegacyStep(st, lines[0]);
      LegacyStepRecords(st, lines[0]);
      LegacyRecordsOnlyContent(st1, lines[1..]);
      assert forall l :: l in lines[1..] ==> l in lines;
      assert LegacyFold(st, lines) == LegacyFold(st1, lines[1..]);
    }
  }

  /** The token count is the one on the last line that reports one. */
  lemma LegacyTokensLastWins(st: LegacyState, lines: seq<string>)
    ensures var v := LastValue(lines, TokensUsedIn);
      LegacyFold(st, lines).tokensUsed == (if v.Some? then v else st.tokensUsed)
  {
    FoldKeepsLast(st, lines, LegacyStep, (s: LegacyState) => s.tokensUsed, TokensUsedIn);
  }

  // ---------------------------------------------------------------------
  // Metadata lines

  /** The trimmed key and value of a line whose first colon is not its
      first character. */
  function KeyValue(line: string): Option<(string, string)> {
    match IndexOf(line, ':')
    case Some(ci) => if ci > 0 then Some((Trim(line[..ci]), Trim(line[ci + 1..]))) else None
    case None => None
  }

  /** A line yields a pair exactly when it has a colon and does not start
      with one; the key is the text before the first colon and the value
      the text after it, both trimmed. */
  lemma KeyValueAtFirstColon(line: string)
    ensures KeyValue(line).Some? <==> ':' in line && line[0] != ':'
    ensures KeyValue(line).Some? ==>
      exists ci :: 0 < ci < |line| && line[ci] == ':' && ':' !in line[..ci]
                   && KeyValue(line).value == (Trim(line[..ci]), Trim(line[ci + 1..]))
  {
  }

  /** The map built by reading lines in order through an entry parser, a
      later entry for a key replacing an earlier one. */
  function MetadataFold(lines: seq<string>, entry: string -> Option<(string, string)>): Metadata
    decreases |lines|
  {
    if lines == [] then map[]
    else
      var m := MetadataFold(lines[..|lines| - 1], entry);
      match entry(lines[|lines| - 1])
      case Some(kv) => m[kv.0 := kv.1]
      case None => m
  }

  /** The metadata map `parseMetadata` builds. */
  function MetadataOf(lines: seq<string>): Metadata {
    MetadataFold(lines, KeyValue)
  }

  /** The line sets key `k`. */
  predicate SetsKey(entry: string -> Option<(string, string)>, line: string, k: string) {
    entry(line).Some? && entry(line).value.0 == k
  }

  /** A key is present exactly when some line sets it. */
  lemma {:induction false} MetadataKeys(lines: seq<string>, entry: string -> Option<(string, string)>, k: string)
    ensures k in MetadataFold(lines, entry) <==> exists i :: 0 <= i < |lines| && SetsKey(entry, lines[i], k)
    decreases |lines|
  {
    if lines != [] {
      var init := lines[..|lines| - 1];
      var last := lines[|lines| - 1];
      MetadataKeys(init, entry, k);
      assert k in MetadataFold(lines, entry) <==> k in MetadataFold(init, entry) || SetsKey(entry, last, k);
      if k in MetadataFold(init, entry) {
        var i :| 0 <= i < |init| && SetsKey(entry, init[i], k);
        assert lines[i] == init[i];
      } else if SetsKey(entry, last, k) {
        assert SetsKey(entry, lines[|lines| - 1], k);
      }
      if exists i :: 0 <= i < |lines| && SetsKey(entry, lines[i], k) {
        var i :| 0 <= i < |lines| && SetsKey(entry, lines[i], k);
        if i < |init| {
          assert init[i] == lines[i];
        }
      }
    }
  }

  /** The value of a key is the one on the last line that sets it. */
  lemma {:induction false} MetadataLastWins(lines: seq<string>, entry: string -> Option<(string, string)>, k: string, i: nat)
    requires i < |lines| && SetsKey(entry, lines[i], k)
    requires forall j :: i < j < |lines| ==> !SetsKey(entry, lines[j], k)
    ensures k in MetadataFold(lines, entry) && MetadataFold(lines, entry)[k] == entry(lines[i]).value.1
    decreases |lines|
  {
    var init := lines[..|lines| - 1];
    if i < |lines| - 1 {
      assert forall j :: 0 <= j < |init| ==> init[j] == lines[j];
      MetadataLastWins(init, entry, k, i);
    }
  }

  method ParseMetadata(lines: seq<string>) returns (metadata: Metadata)
    ensures metadata == MetadataOf(lines)
  {
    metadata := map[];
    var i := 0;
    while i < |lines|
      invariant 0 <= i <= |lines|
      invariant metadata == MetadataOf(lines[..i])
    {
      var line := lines[i];
      assert lines[..i + 1][..i] == lines[..i];
      assert lines[..i + 1][i] == line;
      ghost var unfolded := MetadataFold(lines[..i + 1], KeyValue);
      assert unfolded == match KeyValue(line) case Some(kv) => metadata[kv.0 := kv.1] case None => metadata;
      var colon := IndexOf(line, ':');
      if colon.Some? && colon.value > 0 {
        var key := Trim(line[..colon.value]);
        var value := Trim(line[colon.value + 1..]);
        assert KeyValue(line) == Some((key, value));
        metadata := metadata[key := value];
      } else {
        assert KeyValue(line).None?;
      }
      i := i + 1;
    }
    assert lines[..i] == lines;
  }

  // ---------------------------------------------------------------------
  // Clean-up and output

  /** A reasoning line that looks like real content. */
  predicate IsSubstantive(line: string) {
    |Trim(line)| > 10 && !Contains(line, STARTED_LABEL) && !Contains(line, FINISHED_LABEL) && !StartsWith(line, "[")
  }

  /** A lifecycle or tagged reasoning line, kept as reasoning. */
  predicate IsLifecycle(line: string) {
    Contains(line, STARTED_LABEL) || Contains(line, FINISHED_LABEL) || StartsWith(line, "[")
  }

  /** With no response but some reasoning, the substantive reasoning lines
      become the response and only the lifecycle lines stay as reasoning. */
  function Promote(response: string, thinking: string): (string, string) {
    if response == "" && thinking != "" then
      var lines := Split(thinking, '\n');
      var substantive := Filter(lines, IsSubstantive);
      if |substantive| > 0 then (Join(substantive, "\n"), Join(Filter(lines, IsLifecycle), "\n"))
      else (response, thinking)
    else (response, thinking)
  }

  /** A present response is never moved, nor is reasoning without a
      substantive line; a promoted response splits back
      into exactly the substantive reasoning lines and is not empty, and
      the reasoning left behind splits into exactly the lifecycle lines. */
  lemma PromoteMovesSubstantiveLines(response: string, thinking: string)
    ensures response != "" || thinking == "" || Filter(Split(thinking, '\n'), IsSubstantive) == [] ==>
              Promote(response, thinking) == (response, thinking)
    ensures var p := Promote(response, thinking);
      var lines := Split(thinking, '\n');
      response == "" && thinking != "" && Filter(lines, IsSubstantive) != [] ==>
        && p.0 != ""
        && Split(p.0, '\n') == Filter(lines, IsSubstantive)
        && (Filter(lines, IsLifecycle) != [] ==> Split(p.1, '\n') == Filter(lines, IsLifecycle))
        && (Filter(lines, IsLifecycle) == [] ==> p.1 == "")
  {
    var lines := Split(thinking, '\n');
    var sub := Filter(lines, IsSubstantive);
    if response == "" && thinking != "" && sub != [] {
      FilteredLinesRejoin(thinking, IsSubstantive);
      FilteredLinesRejoin(thinking, IsLifecycle);
      assert sub[0] != "";
      JoinNonEmpty(sub, "\n");
    }
  }

  /** Lines of a text picked by any predicate are joined back into a text
      that splits into exactly those lines. */
  lemma FilteredLinesRejoin(text: string, p: string -> bool)
    ensures var f := Filter(Split(text, '\n'), p);
      f != [] ==> Split(Join(f, "\n"), '\n') == f
  {
    var lines := Split(text, '\n');
    var f := Filter(lines, p);
    if f != [] {
      assert forall i :: 0 <= i < |f| ==> f[i] in lines;
      SplitJoin(f, '\n');
    }
  }

  /** Joining pieces whose first is not empty gives a non-empty text. */
  lemma JoinNonEmpty(parts: seq<string>, sep: string)
    requires |parts| >= 1 && parts[0] != ""
    ensures Join(parts, sep) != ""
  {
    if |parts| > 1 {
      assert Join(parts, sep)[..|parts[0]|] == parts[0];
    }
  }

  /** Reasoning that splits into some lifecycle lines is not empty. */
  lemma LifecycleLinesLeft(kept: string, lines: seq<string>)
    ensures Filter(lines, IsLifecycle) != [] && Split(kept, '\n') == Filter(lines, IsLifecycle) ==> kept != ""
  {
    assert Split("", '\n') == [""];
    assert !StartsWith("", STARTED_LABEL) && !StartsWith("", FINISHED_LABEL);
    assert !IsLifecycle("");
    if Filter(lines, IsLifecycle) != [] && Split(kept, '\n') == Filter(lines, IsLifecycle) {
      assert IsLifecycle(Split(kept, '\n')[0]);
    }
  }

  /** The clean-up after either loop and the assembly of `CodexOutput`. */
  function Finish(metadata: Metadata, userInstructions: string, thinking: string, response: string,
                  tokensUsed: Option<int>, timestamps: seq<string>, raw: string): (out: CodexOutput)
    ensures out.response != ""
    ensures out.thinking.Some? ==> out.thinking.value != ""
    ensures out.metadata == metadata && out.tokensUsed == tokensUsed && out.timestamps == timestamps
    ensures out.rawOutput == raw && out.userInstructions == Trim(userInstructions)
    ensures Trim(response) != "" ==>
      out.response == Trim(response) && out.thinking == (if Trim(thinking) == "" then None else Some(Trim(thinking)))
    ensures Trim(response) == "" && Trim(thinking) == "" ==> out.response == NO_RESPONSE && out.thinking.None?
    ensures var lines := Split(Trim(thinking), '\n');
      Trim(response) == "" && Trim(thinking) != "" && Filter(lines, IsSubstantive) == [] ==>
        out.response == NO_RESPONSE && out.thinking == Some(Trim(thinking))
    ensures var lines := Split(Trim(thinking), '\n');
      Trim(response) == "" && Trim(thinking) != "" && Filter(lines, IsSubstantive) != [] ==>
        && Split(out.response, '\n') == Filter(lines, IsSubstantive)
        && (out.thinking.None? <==> Filter(lines, IsLifecycle) == [])
        && (out.thinking.Some? ==> Split(out.thinking.value, '\n') == Filter(lines, IsLifecycle))
  {
    var p := Promote(Trim(response), Trim(thinking));
    PromoteMovesSubstantiveLines(Trim(response), Trim(thinking));
    LifecycleLinesLeft(p.1, Split(Trim(thinking), '\n'));
    CodexOutput(metadata, Trim(userInstructions), if p.1 == "" then None else Some(p.1),
                if p.0 == "" then NO_RESPONSE else p.0, tokensUsed, timestamps, raw)
  }

  /** `parseCodexOutput`. `parse` stands for `JSON.parse`, `now` for the
      clock, `cwd` for `process.cwd()`. */
  function Parsed(raw: string, parse: string -> Option<JsonRecord>, now: nat -> string, cwd: string): (out: CodexOutput)
    ensures out.response != "" && out.rawOutput == raw
    ensures out.thinking.Some? ==> out.thinking.value != ""
  {
    var lines := OutputLines(raw);
    if DetectJson(lines, parse) then
      var st := JsonFold(JsonInit, Inputs(lines, parse), now, cwd);
      Finish(st.metadata, st.userInstructions, st.thinking, st.response, st.tokensUsed, st.timestamps, raw)
    else
      var st := LegacyFold(LegacyInit, lines);
      Finish(MetadataOf(st.metadataLines), Trim(st.userInstructions), Trim(Join(st.thinkingLines, "\n")),
             Trim(Join(st.responseLines, "\n")), st.tokensUsed, st.timestamps, raw)
  }

  method ParseCodexOutput(raw: string, parse: string -> Option<JsonRecord>, now: nat -> string, cwd: string)
    returns (out: CodexOutput)
    ensures out == Parsed(raw, parse, now, cwd)
    ensures out.response != "" && out.rawOutput == raw
  {
    var lines := Filter(Split(raw, '\n'), NonBlank);
    var isJson := DetectJsonFormat(lines, parse);
    if isJson {
      var st := ParseJsonLines(lines, parse, now, cwd);
      out := Finish(st.metadata, st.userInstructions, st.thinking, st.response, st.tokensUsed, st.timestamps, raw);
    } else {
      var st := ParseLegacyLines(lines);
      var metadata := ParseMetadata(st.metadataLines);
      var thinking := Trim(Join(st.thinkingLines, "\n"));
      var response := Trim(Join(st.responseLines, "\n"));
      out := Finish(metadata, Trim(st.userInstructions), thinking, response, st.tokensUsed, st.timestamps, raw);
    }
  }

  // ---------------------------------------------------------------------
  // Formatting and error detection

  /** A metadata entry that is present and truthy. */
  function Truthy(m: Metadata, k: string): string {
    if k in m then m[k] else ""
  }

  const CONFIG_HEADER := "**Codex Configuration:**\n"

  const MODEL_LABEL := "- Model: "
  const SANDBOX_LABEL := "- Sandbox: "
  const APPROVAL_LABEL := "- Approval: "

  /** One `- Label: value` line of a configuration block: there exactly
      when the key's value is truthy, and then naming that value. */
  function ConfigLine(tag: string, m: Metadata, k: string): (r: string)
    ensures r != "" <==> Truthy(m, k) != ""
    ensures r != "" ==> r == tag + m[k] + "\n"
  {
    if Truthy(m, k) != "" then tag + m[k] + "\n" else ""
  }

  /** The configuration block, present exactly when a model or sandbox is
      known: the header, then the model, sandbox and approval lines each
      when its value is truthy, then a blank line. */
  function ConfigBlock(m: Metadata): (r: string)
    ensures r != "" <==> Truthy(m, "model") != "" || Truthy(m, "sandbox") != ""
    ensures r != "" ==> StartsWith(r, CONFIG_HEADER)
    ensures r != "" ==>
              r == CONFIG_HEADER + ConfigLine(MODEL_LABEL, m, "model") + ConfigLine(SANDBOX_LABEL, m, "sandbox")
                   + ConfigLine(APPROVAL_LABEL, m, "approval") + "\n"
  {
    if Truthy(m, "model") != "" || Truthy(m, "sandbox") != "" then
      var lines := ConfigLine(MODEL_LABEL, m, "model") + ConfigLine(SANDBOX_LABEL, m, "sandbox")
                   + ConfigLine(APPROVAL_LABEL, m, "approval");
      StartsWithPrefix(CONFIG_HEADER, lines + "\n");
      HeadedLines(CONFIG_HEADER, ConfigLine(MODEL_LABEL, m, "model"), ConfigLine(SANDBOX_LABEL, m, "sandbox"),
                  ConfigLine(APPROVAL_LABEL, m, "approval"), "", "\n");
      CONFIG_HEADER + (lines + "\n")
    else ""
  }

  /** A header followed by lines and a closing text, grouped either way. */
  lemma HeadedLines(h: string, a: string, b: string, c: string, d: string, e: string)
    ensures h + a + b + c + e == h + (a + b + c + e)
    ensures h + a + b + c + d + e == h + (a + b + c + d + e)
  {
  }

  /** The reasoning block: there exactly when asked for and the thinking is
      present and non-empty, and then holding that thinking. */
  function ReasoningBlock(includeThinking: bool, thinking: Option<string>): (r: string)
    ensures r != "" <==> includeThinking && thinking.Some? && thinking.value != ""
    ensures r != "" ==> r == REASONING_HEADER + thinking.value + "\n\n"
  {
    if includeThinking && thinking.Some? && thinking.value != "" then REASONING_HEADER + thinking.value + "\n\n"
    else ""
  }

  /** An optional block followed by a text that differs from the block's
      header at position `k`: the whole starts with the header exactly when
      the block is there. */
  lemma OptionalHead(block: string, rest: string, head: string, k: nat)
    requires block != "" ==> StartsWith(block, head)
    requires k < |head| && k < |rest| && rest[k] != head[k]
    ensures StartsWith(block + rest, head) <==> block != ""
  {
    if block == "" {
      assert block + rest == rest;
      if |head| <= |rest| {
        assert rest[..|head|][k] == rest[k];
      }
    } else {
      assert (block + rest)[..|head|] == block[..|head|];
    }
  }

  function TokenFooter(tokens: Option<int>): string {
    match tokens
    case Some(n) => if n != 0 then "\n\n*Tokens used: " + IntToString(n) + "*" else ""
    case None => ""
  }

  /** `formatCodexResponse`: the configuration block exactly when a model or
      sandbox is known, the reasoning block exactly when asked for and
      present, then the response and the token footer at the end. */
  function FormatCodexResponse(output: CodexOutput, includeThinking: bool): (r: string)
    ensures r == ConfigBlock(output.metadata) + ReasoningBlock(includeThinking, output.thinking)
                 + (RESPONSE_HEADER + output.response + TokenFooter(output.tokensUsed))
    ensures StartsWith(r, CONFIG_HEADER) <==>
              (Truthy(output.metadata, "model") != "" || Truthy(output.metadata, "sandbox") != "")
    ensures var rest := r[|ConfigBlock(output.metadata)|..];
              StartsWith(rest, REASONING_HEADER) <==> includeThinking && output.thinking.Some? && output.thinking.value != ""
    ensures EndsWith(r, RESPONSE_HEADER + output.response + TokenFooter(output.tokensUsed))
    ensures includeThinking && output.thinking.Some? && output.thinking.value != "" ==>
              Contains(r, REASONING_HEADER + output.thinking.value + "\n\n")
  {
    var config := ConfigBlock(output.metadata);
    var reasoning := ReasoningBlock(includeThinking, output.thinking);
    var tail := RESPONSE_HEADER + output.response + TokenFooter(output.tokensUsed);
    StartsWithConcat(REASONING_HEADER, output.thinking.GetOr(""), "\n\n");
    StartsWithConcat(RESPONSE_HEADER, output.response, TokenFooter(output.tokensUsed));
    Layout(config, reasoning, tail);
    config + reasoning + tail
  }

  /** The three blocks in order: the configuration header leads exactly
      when the block is there, the reasoning is inside, the reply at the
      end. */
  lemma Layout(config: string, reasoning: string, tail: string)
    requires config != "" ==> StartsWith(config, CONFIG_HEADER)
    requires reasoning == "" || StartsWith(reasoning, REASONING_HEADER)
    requires StartsWith(tail, RESPONSE_HEADER)
    ensures StartsWith(config + reasoning + tail, CONFIG_HEADER) <==> config != ""
    ensures EndsWith(config + reasoning + tail, tail) && Contains(config + reasoning + tail, reasoning)
    ensures StartsWith((config + reasoning + tail)[|config|..], REASONING_HEADER) <==> reasoning != ""
  {
    ConfigLeads(config, reasoning, tail);
    ThreeParts(config, reasoning, tail);
    ReasoningLeads(config, reasoning, tail);
  }

  /** The configuration header leads exactly when the block is there. */
  lemma ConfigLeads(config: string, reasoning: string, tail: string)
    requires config != "" ==> StartsWith(config, CONFIG_HEADER)
    requires reasoning == "" || StartsWith(reasoning, REASONING_HEADER)
    requires StartsWith(tail, RESPONSE_HEADER)
    ensures StartsWith(config + reasoning + tail, CONFIG_HEADER) <==> config != ""
  {
    ThirdChar(reasoning, tail);
    ConfigHeader(config, reasoning + tail);
    assert config + reasoning + tail == config + (reasoning + tail);
  }

  /** After the configuration block, the reasoning header leads exactly
      when the reasoning block is there. */
  lemma ReasoningLeads(config: string, reasoning: string, tail: string)
    requires reasoning == "" || StartsWith(reasoning, REASONING_HEADER)
    requires StartsWith(tail, RESPONSE_HEADER)
    ensures StartsWith((config + reasoning + tail)[|config|..], REASONING_HEADER) <==> reasoning != ""
  {
    ResponseFifth(tail);
    OptionalHead(reasoning, tail, REASONING_HEADER, 4);
    assert (config + reasoning + tail)[|config|..] == reasoning + tail;
  }

  lemma ResponseFifth(tail: string)
    requires StartsWith(tail, RESPONSE_HEADER)
    ensures |tail| > 4 && tail[4] == 's' != REASONING_HEADER[4]
  {
    assert tail[4] == tail[..|RESPONSE_HEADER|][4];
  }

  const REASONING_HEADER := "**Reasoning:**\n"
  const RESPONSE_HEADER := "**Response:**\n"

  lemma StartsWithConcat(a: string, b: string, c: string)
    ensures StartsWith(a + b + c, a)
  {
    assert (a + b + c)[..|a|] == a;
  }

  /** Both blocks that may follow the configuration start with `**R`. */
  lemma ThirdChar(reasoning: string, tail: string)
    requires reasoning == "" || StartsWith(reasoning, REASONING_HEADER)
    requires StartsWith(tail, RESPONSE_HEADER)
    ensures |reasoning + tail| > 2 && (reasoning + tail)[2] == 'R'
  {
    if reasoning == "" {
      assert reasoning + tail == tail;
      assert tail[2] == tail[..|RESPONSE_HEADER|][2];
    } else {
      assert (reasoning + tail)[2] == reasoning[..|REASONING_HEADER|][2];
    }
  }

  lemma ThreeParts(a: string, b: string, c: string)
    ensures EndsWith(a + b + c, c) && Contains(a + b + c, b)
  {
    var r := a + b + c;
    assert r[|r| - |c|..] == c;
    ContainsInConcat(a, b, c);
  }

  /** A text starts with the configuration header exactly when its block
      is there, as long as what follows the block starts differently. */
  lemma ConfigHeader(config: string, rest: string)
    requires config != "" ==> StartsWith(config, CONFIG_HEADER)
    requires |rest| > 2 && rest[2] == 'R'
    ensures StartsWith(config + rest, CONFIG_HEADER) <==> config != ""
  {
    var r := config + rest;
    if config == "" {
      assert r[2] == 'R';
      assert CONFIG_HEADER[2] == 'C';
    } else {
      assert r[..|CONFIG_HEADER|] == config[..|CONFIG_HEADER|];
    }
  }

  const ErrorKeywords: seq<string> :=
    ["error", "failed", "unable", "cannot", "authentication", "permission denied", "rate limit", "quota exceeded"]

  /** `isErrorResponse`: some error keyword occurs in the lower-cased
      response. */
  function IsErrorResponse(output: CodexOutput): (r: bool)
    ensures r <==> exists i :: 0 <= i < |ErrorKeywords| && Contains(ToLower(output.response), ErrorKeywords[i])
  {
    ContainsAny(ToLower(output.response), ErrorKeywords)
  }
}
