/** The tool registry: names, permissions and the dispatch of one call. */
module ToolRegistry {
  import opened Prelude
  import opened Permissions

  datatype Finish = Finish(summary: string, changedFiles: seq<string>, nextSteps: seq<string>)
  datatype ToolResult = ToolResult(toolName: string, content: string, finish: Option<Finish>)

  datatype ToolSpec = ToolSpec(name: string, required: Mode)
  datatype RegisteredTool = RegisteredTool(spec: ToolSpec, hasExecutor: bool)

  function Underscored(s: string): string {
    seq(|s|, i requires 0 <= i < |s| => if s[i] == '-' then '_' else s[i])
  }

  /** Lower-casing is given. */
  function NormalizeToolName(lower: string -> string, name: string): string {
    var normalized := Underscored(lower(Trim(name)));
    if normalized == "bash" then "run_command"
    else if normalized == "glob_search" then "list_files"
    else if normalized == "grep_search" then "search_files"
    else normalized
  }

  const BUILTIN_TOOL_SPECS: seq<ToolSpec> := [
    ToolSpec("list_files", ReadOnly),
    ToolSpec("read_file", ReadOnly),
    ToolSpec("search_files", ReadOnly),
    ToolSpec("write_file", WorkspaceWrite),
    ToolSpec("edit_file", WorkspaceWrite),
    ToolSpec("run_command", WorkspaceWrite),
    ToolSpec("ask_user_question", ReadOnly),
    ToolSpec("enter_plan_mode", ReadOnly),
    ToolSpec("exit_plan_mode", ReadOnly),
    ToolSpec("todo_write", ReadOnly),
    ToolSpec("finish", ReadOnly)
  ]

  function Register(lower: string -> string, tools: map<string, RegisteredTool>, spec: ToolSpec, hasExecutor: bool)
    : map<string, RegisteredTool>
  {
    var name := NormalizeToolName(lower, spec.name);
    tools[name := RegisteredTool(ToolSpec(name, spec.required), hasExecutor)]
  }

  /** Later registrations replace earlier ones of the same name. */
  function RegisterAll(lower: string -> string, specs: seq<ToolSpec>): map<string, RegisteredTool> {
    if specs == [] then map[]
    else Register(lower, RegisterAll(lower, specs[..|specs| - 1]), specs[|specs| - 1], true)
  }

  class GlobalToolRegistry {
    const lower: string -> string
    var tools: map<string, RegisteredTool>

    constructor (lower: string -> string, builtins: seq<ToolSpec>)
      ensures this.lower == lower && tools == RegisterAll(lower, builtins)
    {
      this.lower := lower;
      tools := map[];
      new;
      var i := 0;
      while i < |builtins|
        invariant 0 <= i <= |builtins|
        invariant tools == RegisterAll(lower, builtins[..i])
      {
        RegisterTool(builtins[i], true);
        assert builtins[..i + 1][..i] == builtins[..i];
        i := i + 1;
      }
      assert builtins[..i] == builtins;
    }

    method RegisterTool(spec: ToolSpec, hasExecutor: bool)
      modifies this
      ensures tools == Register(lower, old(tools), spec, hasExecutor)
    {
      var normalizedName := NormalizeToolName(lower, spec.name);
      tools := tools[normalizedName := RegisteredTool(ToolSpec(normalizedName, spec.required), hasExecutor)];
    }
  }

  function PlanReason(name: string): string {
    "plan mode is active \U{2014} call exit_plan_mode to apply the plan before running " + name + "."
  }

  const UNSUPPORTED := "ERROR: unsupported tool: "

  /** One dispatched call; `handled` is what the tool's executor returns or throws if it is reached. */
  function Execute(lower: string -> string, tools: map<string, RegisteredTool>, enforcer: EnforcerPolicy,
                   planActive: bool, handled: Result<ToolResult, string>, name: string): ToolResult
  {
    var normalized := NormalizeToolName(lower, name);
    if normalized !in tools then ToolResult(normalized, UNSUPPORTED + name, None)
    else
      var tool := tools[normalized];
      var decision := enforcer.DecideTool(tool.spec.required, normalized);
      if decision.Refused? then ToolResult(normalized, "ERROR: " + decision.reason, None)
      else if planActive && normalized != "exit_plan_mode" && !PermissionAllows(ReadOnly, tool.spec.required) then
        ToolResult(normalized, "ERROR: " + PlanReason(normalized), None)
      else if !tool.hasExecutor then
        ToolResult(normalized, "ERROR: " + normalized + " is registered without an executor.", None)
      else
        match handled
        case Ok(result) => result.(toolName := normalized)
        case Err(message) => ToolResult(normalized, "ERROR: " + message, None)
  }

  predicate IsError(content: string) {
    StartsWith(content, "ERROR:")
  }

  /** A result counts as a modification when an edit or a write did not fail. */
  predicate IsSuccessfulModification(toolName: string, content: string) {
    !IsError(content) && (toolName == "edit_file" || toolName == "write_file")
  }

  /** Neither editing tool is registered below workspace-write. */
  predicate WritesNeedPermission(tools: map<string, RegisteredTool>) {
    && ("edit_file" in tools ==> !PermissionAllows(ReadOnly, tools["edit_file"].spec.required))
    && ("write_file" in tools ==> !PermissionAllows(ReadOnly, tools["write_file"].spec.required))
  }

  lemma ErrorText(rest: string)
    ensures IsError("ERROR: " + rest) && IsError(UNSUPPORTED + rest)
  {
    assert ("ERROR: " + rest)[..6] == "ERROR:" && (UNSUPPORTED + rest)[..6] == "ERROR:";
  }

  /** In a read-only sandbox no call of a registry that guards its writes is a successful modification. */
  lemma ReadOnlyNeverModifies(lower: string -> string, tools: map<string, RegisteredTool>, policy: EnforcerPolicy,
                              planActive: bool, handled: Result<ToolResult, string>, name: string)
    requires WritesNeedPermission(tools)
    ensures var r := Execute(lower, tools, policy.ForSandbox(ReadOnly), planActive, handled, name);
            !IsSuccessfulModification(r.toolName, r.content)
  {
    hide NormalizeToolName;
    var normalized := NormalizeToolName(lower, name);
    ErrorText(name);
    if normalized in tools {
      var decision := policy.ForSandbox(ReadOnly).DecideTool(tools[normalized].spec.required, normalized);
      if decision.Refused? {
        ErrorText(decision.reason);
      }
    }
  }

  lemma {:induction false} BuiltinsGuardWritesUpTo(lower: string -> string, n: nat)
    requires n <= |BUILTIN_TOOL_SPECS|
    requires forall k :: 0 <= k < n ==>
               NormalizeToolName(lower, BUILTIN_TOOL_SPECS[k].name) == BUILTIN_TOOL_SPECS[k].name
    ensures WritesNeedPermission(RegisterAll(lower, BUILTIN_TOOL_SPECS[..n]))
  {
    hide NormalizeToolName;
    if n > 0 {
      BuiltinsGuardWritesUpTo(lower, n - 1);
      assert BUILTIN_TOOL_SPECS[..n][..n - 1] == BUILTIN_TOOL_SPECS[..n - 1];
      var spec := BUILTIN_TOOL_SPECS[n - 1];
      assert spec.name == "edit_file" || spec.name == "write_file" ==> spec.required == WorkspaceWrite;
    }
  }

  /** The built-in specs guard their writes; their names are already in normal form. */
  lemma BuiltinsGuardWrites(lower: string -> string)
    requires forall k :: 0 <= k < |BUILTIN_TOOL_SPECS| ==>
               NormalizeToolName(lower, BUILTIN_TOOL_SPECS[k].name) == BUILTIN_TOOL_SPECS[k].name
    ensures WritesNeedPermission(RegisterAll(lower, BUILTIN_TOOL_SPECS))
  {
    BuiltinsGuardWritesUpTo(lower, |BUILTIN_TOOL_SPECS|);
    assert BUILTIN_TOOL_SPECS[..|BUILTIN_TOOL_SPECS|] == BUILTIN_TOOL_SPECS;
  }

  // ----- registration and dispatch, exactly

  /** Of the built-in tools only the two editing ones and the command runner need more than read-only access. */
  lemma BuiltinsExactly(i: int)
    requires 0 <= i < |BUILTIN_TOOL_SPECS|
    ensures var spec := BUILTIN_TOOL_SPECS[i];
            && (spec.required == WorkspaceWrite <==> spec.name in {"write_file", "edit_file", "run_command"})
            && (spec.required == ReadOnly <==> spec.name !in {"write_file", "edit_file", "run_command"})
  {
  }

  /** The last of these specs under the name decides; every registered name comes from some spec. */
  lemma {:induction false} LastSpecDecides(lower: string -> string, specs: seq<ToolSpec>, name: string)
    ensures var tools := RegisterAll(lower, specs);
            if name in tools then exists i :: LastUnder(lower, specs, name, i) && Registers(tools[name], name, specs[i])
            else forall i :: 0 <= i < |specs| ==> NormalizeToolName(lower, specs[i].name) != name
  {
    hide NormalizeToolName;
    if specs != [] {
      var front, n := specs[..|specs| - 1], |specs| - 1;
      LastSpecDecides(lower, front, name);
      if NormalizeToolName(lower, specs[n].name) == name {
        assert LastUnder(lower, specs, name, n);
      } else if name in RegisterAll(lower, front) {
        var i :| LastUnder(lower, front, name, i) && Registers(RegisterAll(lower, front)[name], name, front[i]);
        assert LastUnder(lower, specs, name, i);
      }
    }
  }

  ghost predicate LastUnder(lower: string -> string, specs: seq<ToolSpec>, name: string, i: int) {
    && 0 <= i < |specs| && NormalizeToolName(lower, specs[i].name) == name
    && forall j :: i < j < |specs| ==> NormalizeToolName(lower, specs[j].name) != name
  }

  ghost predicate Registers(tool: RegisteredTool, name: string, spec: ToolSpec) {
    tool.hasExecutor && tool.spec.name == name && tool.spec.required == spec.required
  }

  /** A tool's executor is reached when it is registered, permitted, not held back by plan mode, and has one. */
  predicate Reaches(tools: map<string, RegisteredTool>, enforcer: EnforcerPolicy, planActive: bool, name: string) {
    var maximum := if enforcer.maxPermission.Some? then enforcer.maxPermission.value else enforcer.sandbox;
    && name in tools && tools[name].hasExecutor && Covers(maximum, tools[name].spec.required)
    && (planActive ==> name == "exit_plan_mode" || tools[name].spec.required == ReadOnly)
  }

  /**
   * A dispatched call returns what its executor returns, under the normalised name, exactly when the executor is
   * reached; otherwise it is an error, carries no finish, and does not depend on the executor.
   */
  lemma DispatchExactly(lower: string -> string, tools: map<string, RegisteredTool>, enforcer: EnforcerPolicy,
                        planActive: bool, handled: Result<ToolResult, string>, name: string)
    ensures var r := Execute(lower, tools, enforcer, planActive, handled, name);
            var normalized := NormalizeToolName(lower, name);
            && r.toolName == normalized
            && if Reaches(tools, enforcer, planActive, normalized) then
                 if handled.Ok? then r.content == handled.value.content && r.finish == handled.value.finish
                 else r.content == "ERROR: " + handled.error && r.finish.None?
               else
                 && "ERROR:" <= r.content && r.finish.None?
                 && forall other :: Execute(lower, tools, enforcer, planActive, other, name) == r
  {
    hide NormalizeToolName, PlanReason, Covers;
    var normalized := NormalizeToolName(lower, name);
    ErrorText(name);
    if normalized in tools {
      var required := tools[normalized].spec.required;
      var decision := enforcer.DecideTool(required, normalized);
      CoversExactly(enforcer.maxPermission.GetOr(enforcer.sandbox), required);
      CoversExactly(ReadOnly, required);
      if decision.Refused? {
        ErrorText(decision.reason);
      }
      ErrorText(normalized + " is registered without an executor.");
      ErrorText(PlanReason(normalized));
      assert "ERROR: " + (normalized + " is registered without an executor.")
             == "ERROR: " + normalized + " is registered without an executor.";
    }
  }

  /** Names are trimmed and lower-cased, hyphens become underscores, and three aliases stand for built-in tools. */
  lemma NamesNormalise(lower: string -> string, name: string)
    ensures var plain, base := lower(Trim(name)), Underscored(lower(Trim(name)));
            && |base| == |plain|
            && (forall i :: 0 <= i < |base| ==> base[i] == if plain[i] == '-' then '_' else plain[i])
            && NormalizeToolName(lower, name) == Unaliased(base)
  {
  }

  function Unaliased(name: string): string {
    match name
    case "bash" => "run_command"
    case "glob_search" => "list_files"
    case "grep_search" => "search_files"
    case _ => name
  }
}
