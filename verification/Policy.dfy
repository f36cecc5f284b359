/**
 The permission policy (`runtime/execution/policy.py`): how one tool call is classified under the
 operator's rules and mode. Path and text primitives and the command analyzer are inputs.
 */
module PermissionPolicy {
  import opened Outcomes
  import opened Protocol
  import opened Execution

  datatype Mode = Ask | AcceptEdits | Plan | Bypass

  /** The allow and deny lists; `network` is the normalised network rule. */
  datatype Rules = Rules(
    allowTools: seq<string>, denyTools: seq<string>,
    allowPrefixes: seq<string>, denyPrefixes: seq<string>,
    allowPaths: seq<string>, denyPaths: seq<string>,
    allowEnv: seq<string>, denyEnv: seq<string>,
    network: string)

  /**
   What the policy calls on: `strip`, the slash-cleaned path, whether an absolute path leaves a
   directory, the command and working directory in a call's input, its paths, the analyzer, and
   the hash of an input's canonical form, which an input that does not encode has none of.
   */
  datatype Primitives = Primitives(
    strip: string -> string,
    clean: string -> string,
    escapes: (string, string) -> bool,
    command: ToolCall -> string,
    commandCwd: ToolCall -> string,
    paths: ToolCall -> seq<string>,
    analyze: Request -> Request,
    hash: string -> Option<string>)

  // ----- permission_request -----

  function IsRisky(name: string, specs: seq<ToolSpec>): bool {
    if specs == [] then true
    else if specs[0].name == name then specs[0].risky
    else IsRisky(name, specs[1..])
  }

  function PermissionRequest(p: Primitives, call: ToolCall, specs: seq<ToolSpec>, cwd: string): Request {
    var request := Request(call.name, "", Unknown, if cwd == "" then "." else cwd, [], [],
                           "unknown tool calls require approval");
    if call.name in ["web_search", "browser_fetch"] then
      request.(commandClass := Network, reason := "network access requires approval")
    else if call.name == "run_command" then
      var from := p.commandCwd(call);
      p.analyze(request.(command := p.command(call), cwd := if from == "" then request.cwd else from))
    else if call.name == "bash" then p.analyze(request.(command := p.command(call)))
    else if call.name in ["git_status", "git_diff", "read_file", "list_files", "search"] then
      request.(commandClass := ReadOnly, touchedPaths := p.paths(call), reason := "read-only tool")
    else if call.name in ["write_file", "apply_patch"] then
      request.(commandClass := Write, touchedPaths := p.paths(call), reason := "tool writes workspace files")
    else if !IsRisky(call.name, specs) then
      request.(commandClass := ReadOnly, reason := "tool spec is marked safe")
    else request
  }

  // ----- The matchers -----

  predicate StartsWith(s: string, prefix: string) {
    prefix <= s
  }

  predicate Contains(s: string, part: string) {
    StartsWith(s, part) || (s != "" && Contains(s[1..], part))
  }

  function TrimSlashes(s: string): string {
    if s != "" && s[|s| - 1] == '/' then TrimSlashes(s[..|s| - 1]) else s
  }

  /** `prefix` at a token boundary of `command`, both stripped. */
  predicate MatchesOnePrefix(p: Primitives, command: string, prefix: string) {
    var command, prefix := p.strip(command), p.strip(prefix);
    && prefix != "" && StartsWith(command, prefix)
    && (|command| == |prefix| || command[|prefix|] == ' ' || command[|prefix|] == '\t')
  }

  predicate MatchesPrefix(p: Primitives, command: string, prefixes: seq<string>) {
    exists prefix :: prefix in prefixes && MatchesOnePrefix(p, command, prefix)
  }

  predicate MatchesOnePath(p: Primitives, path: string, pattern: string) {
    var path, pattern := p.clean(path), p.clean(pattern);
    path == pattern || StartsWith(path, TrimSlashes(pattern) + "/")
  }

  predicate MatchesPath(p: Primitives, path: string, patterns: seq<string>) {
    exists pattern :: pattern in patterns && MatchesOnePath(p, path, pattern)
  }

  predicate ProtectedPath(p: Primitives, cwd: string, path: string) {
    var clean := p.clean(path);
    || clean == ".git" || StartsWith(clean, ".git/") || clean == ".env"
    || Contains(clean, "/.env") || Contains(clean, ".ssh/") || Contains(clean, ".aws/")
    || Contains(clean, ".config/gcloud/")
    || (StartsWith(path, "/") && cwd != "" && p.escapes(cwd, path))
  }

  predicate Denied(p: Primitives, rules: Rules, call: ToolCall, request: Request) {
    || call.name in rules.denyTools
    || MatchesPrefix(p, request.command, rules.denyPrefixes)
    || (exists path :: path in request.touchedPaths && ProtectedPath(p, request.cwd, path))
    || (exists path :: path in request.touchedPaths && MatchesPath(p, path, rules.denyPaths))
    || (exists key :: key in request.envVars && key in rules.denyEnv)
  }

  predicate Allowed(p: Primitives, rules: Rules, call: ToolCall, request: Request) {
    || call.name in rules.allowTools
    || MatchesPrefix(p, request.command, rules.allowPrefixes)
    || (request.touchedPaths != [] && rules.allowPaths != []
        && forall path :: path in request.touchedPaths ==> MatchesPath(p, path, rules.allowPaths))
    || (request.envVars != [] && rules.allowEnv != []
        && forall key :: key in request.envVars ==> key in rules.allowEnv)
  }

  // ----- classify_tool_call -----

  function Classify(p: Primitives, mode: Mode, rules: Rules, call: ToolCall, specs: seq<ToolSpec>,
                    cwd: string): ToolDecision {
    var request := PermissionRequest(p, call, specs, cwd);
    if Denied(p, rules, call, request) then DecisionDenied
    else if mode.Bypass? then DecisionRunDirectly
    else if mode.Plan? then
      if request.commandClass.ReadOnly? && !IsRisky(call.name, specs) then DecisionRunDirectly else DecisionDenied
    else if request.commandClass.Destructive? || (rules.network != "allow" && request.commandClass.Network?) then
      DecisionNeedsApproval
    else if Allowed(p, rules, call, request) then DecisionRunDirectly
    else if mode.AcceptEdits? && (request.commandClass.ReadOnly? || call.name in ["write_file", "apply_patch"]) then
      DecisionRunDirectly
    else if IsRisky(call.name, specs) then DecisionNeedsApproval
    else DecisionRunDirectly
  }

  // ----- What the operator can rely on -----

  /** How much a mode trusts calls. */
  function Trust(mode: Mode): nat {
    match mode
    case Plan => 0
    case Ask => 1
    case AcceptEdits => 2
    case Bypass => 3
  }

  /** The run-directly sets nest: plan, ask, accept-edits, bypass. Only plan denies beyond the rules. */
  lemma ModesNest(p: Primitives, less: Mode, more: Mode, rules: Rules, call: ToolCall, specs: seq<ToolSpec>,
                  cwd: string)
    requires Trust(less) <= Trust(more)
    ensures Classify(p, less, rules, call, specs, cwd).DecisionRunDirectly?
            ==> Classify(p, more, rules, call, specs, cwd).DecisionRunDirectly?
    ensures !less.Plan? ==>
              (Classify(p, less, rules, call, specs, cwd).DecisionDenied?
               <==> Classify(p, more, rules, call, specs, cwd).DecisionDenied?)
  {
  }

  predicate Includes(less: seq<string>, more: seq<string>) {
    forall s :: s in less ==> s in more
  }

  /** `more` has every entry of `less` on its deny lists, and otherwise the same entries. */
  predicate DeniesMore(less: Rules, more: Rules) {
    && Includes(less.denyTools, more.denyTools) && Includes(less.denyPrefixes, more.denyPrefixes)
    && Includes(less.denyPaths, more.denyPaths) && Includes(less.denyEnv, more.denyEnv)
    && more == less.(denyTools := more.denyTools, denyPrefixes := more.denyPrefixes,
                     denyPaths := more.denyPaths, denyEnv := more.denyEnv)
  }

  predicate AllowsMore(less: Rules, more: Rules) {
    && Includes(less.allowTools, more.allowTools) && Includes(less.allowPrefixes, more.allowPrefixes)
    && Includes(less.allowPaths, more.allowPaths) && Includes(less.allowEnv, more.allowEnv)
    && more == less.(allowTools := more.allowTools, allowPrefixes := more.allowPrefixes,
                     allowPaths := more.allowPaths, allowEnv := more.allowEnv)
  }

  lemma DeniedGrows(p: Primitives, less: Rules, more: Rules, call: ToolCall, request: Request)
    requires DeniesMore(less, more) && Denied(p, less, call, request)
    ensures Denied(p, more, call, request)
  {
    if path :| path in request.touchedPaths && MatchesPath(p, path, less.denyPaths) {
      assert MatchesPath(p, path, more.denyPaths);
    }
  }

  lemma AllowedGrows(p: Primitives, less: Rules, more: Rules, call: ToolCall, request: Request)
    requires AllowsMore(less, more) && Allowed(p, less, call, request)
    ensures Allowed(p, more, call, request)
  {
    assert less.allowPaths != [] ==> less.allowPaths[0] in more.allowPaths;
    assert less.allowEnv != [] ==> less.allowEnv[0] in more.allowEnv;
    assert forall path :: MatchesPath(p, path, less.allowPaths) ==> MatchesPath(p, path, more.allowPaths);
  }

  /** Further deny entries only move decisions to denied, in every mode. */
  lemma DenyEntriesOnlyDeny(p: Primitives, mode: Mode, less: Rules, more: Rules, call: ToolCall,
                            specs: seq<ToolSpec>, cwd: string)
    requires DeniesMore(less, more)
    ensures var before, after := Classify(p, mode, less, call, specs, cwd), Classify(p, mode, more, call, specs, cwd);
            after == before || after.DecisionDenied?
  {
    var request := PermissionRequest(p, call, specs, cwd);
    if Denied(p, less, call, request) {
      DeniedGrows(p, less, more, call, request);
    } else if !Denied(p, more, call, request) {
      assert Allowed(p, less, call, request) == Allowed(p, more, call, request);
    }
  }

  /** Further allow entries only move decisions from approval to running. */
  lemma AllowEntriesOnlyApprove(p: Primitives, mode: Mode, less: Rules, more: Rules, call: ToolCall,
                                specs: seq<ToolSpec>, cwd: string)
    requires AllowsMore(less, more)
    ensures var before, after := Classify(p, mode, less, call, specs, cwd), Classify(p, mode, more, call, specs, cwd);
            after == before || (before.DecisionNeedsApproval? && after.DecisionRunDirectly?)
  {
    var request := PermissionRequest(p, call, specs, cwd);
    assert Denied(p, less, call, request) == Denied(p, more, call, request);
    if Allowed(p, less, call, request) {
      AllowedGrows(p, less, more, call, request);
    }
  }

  /** No allow entry promotes a destructive command: it runs unasked in bypass mode only. */
  lemma DestructiveRunsOnlyInBypass(p: Primitives, mode: Mode, rules: Rules, call: ToolCall, specs: seq<ToolSpec>,
                                    cwd: string)
    requires PermissionRequest(p, call, specs, cwd).commandClass.Destructive?
    ensures Classify(p, mode, rules, call, specs, cwd).DecisionRunDirectly?
       <==> mode.Bypass? && !Denied(p, rules, call, PermissionRequest(p, call, specs, cwd))
  {
  }

  // ----- The resolver in front of the policy -----

  /** What an always-allow decision is remembered under: the tool, and how it is called. */
  datatype ApprovalKey = ApprovalKey(toolName: string, inputHash: string)

  /** `new_approval_key`; `None` where it raises. */
  function KeyOf(p: Primitives, call: ToolCall): Option<ApprovalKey> {
    match p.hash(call.input)
    case None => None
    case Some(hash) => Some(ApprovalKey(call.name, hash))
  }

  const NoKey := "the input of the call does not encode"

  /** The resolver asks the always-allow store first; the policy call has no working directory. */
  function Decide(p: Primitives, mode: Mode, rules: Rules, approvals: set<ApprovalKey>,
                  call: ToolCall, specs: seq<ToolSpec>): Result<ToolDecision, string> {
    match KeyOf(p, call)
    case None => Err(NoKey)
    case Some(key) =>
      if key in approvals then Ok(DecisionRunDirectly) else Ok(Classify(p, mode, rules, call, specs, ""))
  }

  /** The policy the resolver works with. */
  function ResolverPolicy(p: Primitives, mode: Mode, rules: Rules, approvals: set<ApprovalKey>): Policy {
    Policy((call: ToolCall, specs: seq<ToolSpec>) => Decide(p, mode, rules, approvals, call, specs),
           (call: ToolCall, specs: seq<ToolSpec>) => Ok(PermissionRequest(p, call, specs, "")),
           (call: ToolCall) => if KeyOf(p, call).None? then Some(NoKey) else None)
  }
}
