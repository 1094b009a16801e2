/** The tool registry: the list of tools the server offers, looked up by
    name for calls and for prompts, and the text a prompt request expands to. */
module Registry {
  import opened Wrappers
  import opened Text
  import opened Folds

  /** One argument a prompt advertises. */
  datatype PromptArgument = PromptArgument(name: string, description: string, required: bool)

  /** The optional prompt part of a tool: a description and, optionally, its arguments. */
  datatype PromptSpec = PromptSpec(description: string, arguments: Option<seq<PromptArgument>>)

  /** A registered tool. `schemaArguments` stands for the arguments derived
      from the tool's input schema, used when the prompt lists none. */
  datatype Tool = Tool(name: string, description: string, prompt: Option<PromptSpec>,
                       schemaArguments: seq<PromptArgument>)

  /** What the prompt listing reports for one tool. */
  datatype PromptDefinition = PromptDefinition(name: string, description: string, arguments: seq<PromptArgument>)

  /** A value passed as a tool or prompt argument. Numbers are integers here. */
  datatype ArgValue = Undefined | Null | Bool(b: bool) | Str(s: string) | Num(n: int) | Other(shown: string)

  /** The arguments, as (key, value) entries in enumeration order. */
  type Args = seq<(string, ArgValue)>

  /** One validation complaint: where in the arguments, and what. */
  datatype Issue = Issue(path: seq<string>, message: string)

  /** What validating the arguments against a tool's schema gives. */
  datatype Validation = Valid(args: Args) | Invalid(issues: seq<Issue>)

  const UNKNOWN_TOOL := "Unknown tool: "
  const INVALID_ARGUMENTS := "Invalid arguments for "
  const NO_PROMPT := "No prompt defined for tool: "
  const PROMPT_KEY := "prompt"

  // ---------------------------------------------------------------------
  // Lookup

  /** The first tool called `name`, as `find` returns it. */
  function Find(tools: seq<Tool>, name: string): (r: Option<Tool>)
    ensures r.None? <==> forall i :: 0 <= i < |tools| ==> tools[i].name != name
    ensures r.Some? ==> exists i :: 0 <= i < |tools| && tools[i] == r.value && r.value.name == name
                                  && forall j :: 0 <= j < i ==> tools[j].name != name
    decreases |tools|
  {
    if tools == [] then None
    else if tools[0].name == name then Some(tools[0])
    else
      var rest := Find(tools[1..], name);
      assert forall i :: 1 <= i < |tools| ==> tools[i] == tools[1..][i - 1];
      if rest.Some? then
        ghost var k :| 0 <= k < |tools[1..]| && tools[1..][k] == rest.value && rest.value.name == name
                       && forall j :: 0 <= j < k ==> tools[1..][j].name != name;
        assert tools[k + 1] == rest.value;
        rest
      else rest
  }

  /** Whether some registered tool is called `name`. */
  function ToolExists(tools: seq<Tool>, name: string): (r: bool)
    ensures r <==> exists i :: 0 <= i < |tools| && tools[i].name == name
  {
    Find(tools, name).Some?
  }

  /** Registering more tools never hides one already registered under the same name. */
  lemma {:induction false} FindAfterRegister(tools: seq<Tool>, added: seq<Tool>, name: string)
    ensures Find(tools + added, name) == if Find(tools, name).Some? then Find(tools, name) else Find(added, name)
    decreases |tools|
  {
    if tools == [] {
      assert tools + added == added;
    } else {
      assert (tools + added)[1..] == tools[1..] + added;
      FindAfterRegister(tools[1..], added, name);
    }
  }

  // ---------------------------------------------------------------------
  // Prompt listing

  predicate HasPrompt(t: Tool) { t.prompt.Some? }

  /** The listing entry of a tool that has a prompt: the prompt's own
      arguments when it lists any (an empty list included), else the schema's. */
  function DefinitionOf(t: Tool): (d: PromptDefinition)
    requires HasPrompt(t)
    ensures d.name == t.name && d.description == t.prompt.value.description
    ensures t.prompt.value.arguments.Some? ==> d.arguments == t.prompt.value.arguments.value
    ensures t.prompt.value.arguments.None? ==> d.arguments == t.schemaArguments
  {
    PromptDefinition(t.name, t.prompt.value.description, t.prompt.value.arguments.GetOr(t.schemaArguments))
  }

  /** The prompt listing: the tools that have a prompt, in registry order. */
  function PromptDefinitions(tools: seq<Tool>): (defs: seq<PromptDefinition>)
    ensures |defs| == CountWhere(tools, HasPrompt)
    decreases |tools|
  {
    if tools == [] then []
    else (if HasPrompt(tools[0]) then [DefinitionOf(tools[0])] else []) + PromptDefinitions(tools[1..])
  }

  /** The listing of a concatenation is the concatenation of the listings,
      so the tools keep their registry order. */
  lemma {:induction false} DefinitionsInOrder(tools: seq<Tool>, added: seq<Tool>)
    ensures PromptDefinitions(tools + added) == PromptDefinitions(tools) + PromptDefinitions(added)
    decreases |tools|
  {
    if tools == [] {
      assert tools + added == added;
    } else {
      assert (tools + added)[1..] == tools[1..] + added;
      DefinitionsInOrder(tools[1..], added);
    }
  }

  /** A definition is listed exactly when some tool with a prompt gives it. */
  lemma {:induction false} DefinitionsExact(tools: seq<Tool>, d: PromptDefinition)
    ensures d in PromptDefinitions(tools) <==>
            exists i :: 0 <= i < |tools| && HasPrompt(tools[i]) && DefinitionOf(tools[i]) == d
    decreases |tools|
  {
    if tools != [] {
      DefinitionsExact(tools[1..], d);
      assert forall i :: 1 <= i < |tools| ==> tools[i] == tools[1..][i - 1];
      if exists i :: 0 <= i < |tools| && HasPrompt(tools[i]) && DefinitionOf(tools[i]) == d {
        var i :| 0 <= i < |tools| && HasPrompt(tools[i]) && DefinitionOf(tools[i]) == d;
        if i > 0 {
          assert tools[1..][i - 1] == tools[i];
        }
      }
    }
  }

  // ---------------------------------------------------------------------
  // Calling a tool

  /** The text of the validation complaints: `path.joined: message`, separated by commas. */
  function IssueText(i: Issue): string { Join(i.path, ".") + ": " + i.message }

  function IssuesText(issues: seq<Issue>): string
    decreases |issues|
  {
    Join(seq(|issues|, k requires 0 <= k < |issues| => IssueText(issues[k])), ", ")
  }

  /** Calling a tool: the first tool of that name, its schema's verdict on
      the arguments, then the tool itself on the validated arguments. */
  function ExecuteTool(tools: seq<Tool>, name: string, args: Args,
                       validate: (Tool, Args) -> Validation,
                       run: (Tool, Args) -> Result<string>): (r: Result<string>)
    ensures !ToolExists(tools, name) ==> r == Failure(UNKNOWN_TOOL + name)
    ensures ToolExists(tools, name) ==>
              var t := Find(tools, name).value;
              t.name == name && t in tools &&
              match validate(t, args)
              case Invalid(issues) => r == Failure(INVALID_ARGUMENTS + name + ": " + IssuesText(issues))
              case Valid(checked) => r == run(t, checked)
  {
    match Find(tools, name)
    case None => Failure(UNKNOWN_TOOL + name)
    case Some(t) =>
      match validate(t, args)
      case Invalid(issues) => Failure(INVALID_ARGUMENTS + name + ": " + IssuesText(issues))
      case Valid(checked) => run(t, checked)
  }

  // ---------------------------------------------------------------------
  // Prompt messages

  /** How JavaScript judges a value in a condition. */
  predicate Truthy(v: ArgValue)
  {
    match v
    case Undefined => false
    case Null => false
    case Bool(b) => b
    case Str(s) => s != ""
    case Num(n) => n != 0
    case Other(_) => true
  }

  /** How a value reads inside a string. */
  function Shown(v: ArgValue): string
  {
    match v
    case Undefined => "undefined"
    case Null => "null"
    case Bool(b) => if b then "true" else "false"
    case Str(s) => s
    case Num(n) => IntToString(n)
    case Other(shown) => shown
  }

  /** `args[key]`: the value of the first entry with that key, or undefined. */
  function Lookup(args: Args, key: string): (v: ArgValue)
    ensures v != Undefined ==> exists i :: 0 <= i < |args| && args[i] == (key, v)
    ensures (forall i :: 0 <= i < |args| ==> args[i].0 != key) ==> v == Undefined
    decreases |args|
  {
    if args == [] then Undefined
    else if args[0].0 == key then args[0].1
    else
      var v := Lookup(args[1..], key);
      assert forall i :: 1 <= i < |args| ==> args[i] == args[1..][i - 1];
      v
  }

  /** The parameter text the `prompt` argument contributes: itself, when truthy. */
  function PromptParam(args: Args): seq<string>
  {
    var p := Lookup(args, PROMPT_KEY);
    if Truthy(p) then [Shown(p)] else []
  }

  /** Whether an entry other than `prompt` contributes a parameter text. */
  predicate Emitted(e: (string, ArgValue))
  {
    e.0 != PROMPT_KEY && e.1 != Undefined && e.1 != Null && e.1 != Bool(false)
  }

  /** The parameter text one entry contributes: `[key]` for true,
      `(key: value)` for anything other than a boolean, nothing otherwise. */
  function EntryParam(e: (string, ArgValue)): (r: seq<string>)
    ensures e.0 == PROMPT_KEY ==> r == []
    ensures e.1 == Bool(true) && e.0 != PROMPT_KEY ==> r == ["[" + e.0 + "]"]
    ensures e.1 in {Undefined, Null, Bool(false)} ==> r == []
    ensures Emitted(e) && !e.1.Bool? ==> r == ["(" + e.0 + ": " + Shown(e.1) + ")"]
    ensures |r| == if Emitted(e) then 1 else 0
  {
    if !Emitted(e) then []
    else if e.1.Bool? then ["[" + e.0 + "]"]
    else ["(" + e.0 + ": " + Shown(e.1) + ")"]
  }

  /** All the parameter texts: the prompt first, then the other entries in order. */
  function ParamStrings(args: Args): seq<string>
  {
    PromptParam(args) + FlatMap(args, EntryParam)
  }

  /** When each element contributes one item or none, the concatenation has
      as many items as elements that contribute. */
  lemma {:induction false} FlatMapCount<L, T>(xs: seq<L>, part: L -> seq<T>, p: L -> bool)
    requires forall x :: |part(x)| == if p(x) then 1 else 0
    ensures |FlatMap(xs, part)| == CountWhere(xs, p)
    decreases |xs|
  {
    if xs != [] {
      FlatMapCount(xs[1..], part, p);
    }
  }

  /** A truthy `prompt` comes first, and it appears only once: every other
      parameter text comes from an entry whose key is not `prompt`. */
  lemma PromptFirstOnly(args: Args)
    ensures Truthy(Lookup(args, PROMPT_KEY)) ==> ParamStrings(args)[0] == Shown(Lookup(args, PROMPT_KEY))
    ensures |ParamStrings(args)| == (if Truthy(Lookup(args, PROMPT_KEY)) then 1 else 0) + CountWhere(args, Emitted)
  {
    FlatMapCount(args, EntryParam, Emitted);
  }

  const USE_THE := "Use the "
  const TOOL_WORD := " tool"

  /** The message a prompt request expands to. */
  function MessageText(name: string, params: seq<string>): (r: string)
    ensures StartsWith(r, USE_THE + name + TOOL_WORD)
    ensures params == [] <==> r == USE_THE + name + TOOL_WORD
    ensures params != [] ==> r[|USE_THE + name + TOOL_WORD|..] == ": " + Join(params, " ")
  {
    var head := USE_THE + name + TOOL_WORD;
    var r := head + (if |params| > 0 then ": " + Join(params, " ") else "");
    assert r[..|head|] == head;
    r
  }

  /** Expanding a prompt request: it fails unless the first tool of that
      name exists and has a prompt. */
  function PromptMessage(tools: seq<Tool>, name: string, args: Args): (r: Result<string>)
    ensures r.Failure? <==> Find(tools, name).None? || !HasPrompt(Find(tools, name).value)
    ensures r.Failure? ==> r.error == NO_PROMPT + name
    ensures r.Success? ==> r.value == MessageText(name, ParamStrings(args))
  {
    var t := Find(tools, name);
    if t.None? || !HasPrompt(t.value) then Failure(NO_PROMPT + name)
    else Success(MessageText(name, ParamStrings(args)))
  }

  /** The registry the server consults; tools are added at start-up. */
  class ToolRegistry {
    var tools: seq<Tool>

    constructor()
      ensures tools == []
    {
      tools := [];
    }

    /** Adds tools at the end, in the order given. */
    method Register(added: seq<Tool>)
      modifies this
      ensures tools == old(tools) + added
    {
      tools := tools + added;
    }

    /** Expands a prompt request, collecting the parameter texts one entry at a time. */
    method GetPromptMessage(name: string, args: Args) returns (r: Result<string>)
      ensures r == PromptMessage(tools, name, args)
    {
      var t := Find(tools, name);
      if t.None? || t.value.prompt.None? {
        return Failure(NO_PROMPT + name);
      }
      var paramStrings: seq<string> := [];
      var p := Lookup(args, PROMPT_KEY);
      if Truthy(p) {
        paramStrings := paramStrings + [Shown(p)];
      }
      var i := 0;
      while i < |args|
        invariant 0 <= i <= |args|
        invariant paramStrings == PromptParam(args) + FlatMap(args[..i], EntryParam)
      {
        var (key, value) := args[i];
        if key != PROMPT_KEY && value != Undefined && value != Null && value != Bool(false) {
          if value.Bool? && value.b {
            paramStrings := paramStrings + ["[" + key + "]"];
          } else if !value.Bool? {
            paramStrings := paramStrings + ["(" + key + ": " + Shown(value) + ")"];
          }
        }
        FlatMapSnoc(args[..i], args[i], EntryParam);
        assert args[..i + 1] == args[..i] + [args[i]];
        i := i + 1;
      }
      assert args[..i] == args;
      r := Success(MessageText(name, paramStrings));
    }
  }
}
