/**
 What an operator's rules and mode do to a call: the documented precedence of the policy, with every
 rule stated on the texts it is about.
 */
module PolicyEffects {
  import opened Protocol
  import opened Execution
  import opened PermissionPolicy

  // ----- Texts -----

  /** `text` is `prefix` alone, or goes on behind it with a blank or a tab. */
  ghost predicate AtBoundary(text: string, prefix: string) {
    exists rest :: text == prefix + rest && (rest == "" || rest[0] == ' ' || rest[0] == '\t')
  }

  ghost predicate Holds(text: string, part: string) {
    exists a, b :: text == a + part + b
  }

  predicate BeginsWith(text: string, front: string) {
    |front| <= |text| && text[..|front|] == front
  }

  /** `path` is `dir` or lies below it; slashes at the end of `dir` do not count. */
  ghost predicate Within(path: string, dir: string) {
    path == dir || exists bare, slashes :: Bare(dir, bare, slashes) && BeginsWith(path, bare + "/")
  }

  predicate Bare(dir: string, bare: string, slashes: string) {
    dir == bare + slashes && (forall c :: c in slashes ==> c == '/') && (bare != "" ==> bare[|bare| - 1] != '/')
  }

  lemma BoundaryIs(text: string, prefix: string)
    ensures AtBoundary(text, prefix)
       <==> StartsWith(text, prefix)
            && (|text| == |prefix| || text[|prefix|] == ' ' || text[|prefix|] == '\t')
  {
    if StartsWith(text, prefix) {
      assert text == prefix + text[|prefix|..];
    }
  }

  lemma {:induction false} ContainedIsHeld(text: string, part: string)
    requires Contains(text, part)
    ensures Holds(text, part)
  {
    if StartsWith(text, part) {
      assert text == "" + part + text[|part|..];
    } else {
      ContainedIsHeld(text[1..], part);
      var a, b :| text[1..] == a + part + b;
      assert text == ([text[0]] + a) + part + b;
    }
  }

  lemma {:induction false} HeldIsContained(a: string, part: string, b: string)
    ensures Contains(a + part + b, part)
  {
    if a == "" {
      assert a + part + b == part + b;
    } else {
      HeldIsContained(a[1..], part, b);
      assert (a + part + b)[1..] == a[1..] + part + b;
    }
  }

  lemma HoldsIs(text: string, part: string)
    ensures Contains(text, part) <==> Holds(text, part)
  {
    if Contains(text, part) {
      ContainedIsHeld(text, part);
    }
    if Holds(text, part) {
      var a, b :| text == a + part + b;
      HeldIsContained(a, part, b);
    }
  }

  lemma {:induction false} TrimIsBare(dir: string)
    ensures TrimSlashes(dir) <= dir && Bare(dir, TrimSlashes(dir), dir[|TrimSlashes(dir)|..])
  {
    if dir != "" && dir[|dir| - 1] == '/' {
      var front := dir[..|dir| - 1];
      TrimIsBare(front);
      assert dir[|TrimSlashes(dir)|..] == front[|TrimSlashes(dir)|..] + "/";
    }
  }

  lemma {:induction false} BareIsTrimmed(dir: string, bare: string, slashes: string)
    requires Bare(dir, bare, slashes)
    ensures bare == TrimSlashes(dir)
    decreases |slashes|
  {
    if slashes == "" {
      assert dir == bare;
    } else {
      var front, fewer := dir[..|dir| - 1], slashes[..|slashes| - 1];
      assert slashes[|slashes| - 1] in slashes && dir[|dir| - 1] == slashes[|slashes| - 1];
      assert front == bare + fewer && forall c :: c in fewer ==> c in slashes;
      BareIsTrimmed(front, bare, fewer);
    }
  }

  lemma WithinIs(path: string, dir: string)
    ensures Within(path, dir) <==> path == dir || StartsWith(path, TrimSlashes(dir) + "/")
  {
    TrimIsBare(dir);
    forall bare, slashes | Bare(dir, bare, slashes)
      ensures bare == TrimSlashes(dir)
    {
      BareIsTrimmed(dir, bare, slashes);
    }
    assert StartsWith(path, TrimSlashes(dir) + "/") <==> BeginsWith(path, TrimSlashes(dir) + "/");
  }

  // ----- Which calls a deny rule or the sandbox refuses -----

  ghost predicate CommandListed(p: Primitives, command: string, prefixes: seq<string>) {
    exists prefix :: prefix in prefixes && p.strip(prefix) != "" && AtBoundary(p.strip(command), p.strip(prefix))
  }

  ghost predicate PathListed(p: Primitives, path: string, patterns: seq<string>) {
    exists pattern :: pattern in patterns && Within(p.clean(path), p.clean(pattern))
  }

  /** Version control, environment files and credentials, and absolute paths that leave the directory. */
  ghost predicate OutOfReach(p: Primitives, cwd: string, path: string) {
    var clean := p.clean(path);
    || clean == ".git" || BeginsWith(clean, ".git/") || clean == ".env" || Holds(clean, "/.env")
    || Holds(clean, ".ssh/") || Holds(clean, ".aws/") || Holds(clean, ".config/gcloud/")
    || (BeginsWith(path, "/") && cwd != "" && p.escapes(cwd, path))
  }

  ghost predicate Refuses(p: Primitives, rules: Rules, call: ToolCall, request: Request) {
    || call.name in rules.denyTools
    || CommandListed(p, request.command, rules.denyPrefixes)
    || (exists path :: path in request.touchedPaths
                       && (OutOfReach(p, request.cwd, path) || PathListed(p, path, rules.denyPaths)))
    || (exists key :: key in request.envVars && key in rules.denyEnv)
  }

  /** Which calls an allow rule lets through: a path or variable rule must cover everything that is touched. */
  ghost predicate LetsThrough(p: Primitives, rules: Rules, call: ToolCall, request: Request) {
    || call.name in rules.allowTools
    || CommandListed(p, request.command, rules.allowPrefixes)
    || (request.touchedPaths != []
        && forall path :: path in request.touchedPaths ==> PathListed(p, path, rules.allowPaths))
    || (request.envVars != [] && forall key :: key in request.envVars ==> key in rules.allowEnv)
  }

  lemma CommandsListed(p: Primitives, command: string, prefixes: seq<string>)
    ensures MatchesPrefix(p, command, prefixes) <==> CommandListed(p, command, prefixes)
  {
    forall prefix | prefix in prefixes
      ensures MatchesOnePrefix(p, command, prefix)
         <==> p.strip(prefix) != "" && AtBoundary(p.strip(command), p.strip(prefix))
    {
      BoundaryIs(p.strip(command), p.strip(prefix));
    }
  }

  lemma PathsListed(p: Primitives, path: string, patterns: seq<string>)
    ensures MatchesPath(p, path, patterns) <==> PathListed(p, path, patterns)
  {
    forall pattern | pattern in patterns
      ensures MatchesOnePath(p, path, pattern) <==> Within(p.clean(path), p.clean(pattern))
    {
      WithinIs(p.clean(path), p.clean(pattern));
    }
  }

  lemma ReachIs(p: Primitives, cwd: string, path: string)
    ensures ProtectedPath(p, cwd, path) <==> OutOfReach(p, cwd, path)
  {
    var clean := p.clean(path);
    HoldsIs(clean, "/.env");
    HoldsIs(clean, ".ssh/");
    HoldsIs(clean, ".aws/");
    HoldsIs(clean, ".config/gcloud/");
    assert StartsWith(clean, ".git/") <==> BeginsWith(clean, ".git/");
    assert StartsWith(path, "/") <==> BeginsWith(path, "/");
  }

  lemma RulesApply(p: Primitives, rules: Rules, call: ToolCall, request: Request)
    ensures Denied(p, rules, call, request) <==> Refuses(p, rules, call, request)
    ensures Allowed(p, rules, call, request) <==> LetsThrough(p, rules, call, request)
  {
    CommandsListed(p, request.command, rules.denyPrefixes);
    CommandsListed(p, request.command, rules.allowPrefixes);
    forall path | path in request.touchedPaths
      ensures ProtectedPath(p, request.cwd, path) <==> OutOfReach(p, request.cwd, path)
      ensures MatchesPath(p, path, rules.denyPaths) <==> PathListed(p, path, rules.denyPaths)
      ensures MatchesPath(p, path, rules.allowPaths) <==> PathListed(p, path, rules.allowPaths)
    {
      ReachIs(p, request.cwd, path);
      PathsListed(p, path, rules.denyPaths);
      PathsListed(p, path, rules.allowPaths);
    }
    if request.touchedPaths != [] {
      assert request.touchedPaths[0] in request.touchedPaths;
    }
    if request.envVars != [] {
      assert request.envVars[0] in request.envVars;
    }
  }

  // ----- Risk -----

  /** The first spec of that name says whether a tool is risky; a tool without one is. */
  lemma {:induction false} RiskIsListed(name: string, specs: seq<ToolSpec>, i: nat)
    requires i <= |specs| && (forall j :: 0 <= j < i ==> specs[j].name != name)
    ensures i == |specs| ==> IsRisky(name, specs)
    ensures i < |specs| && specs[i].name == name ==> IsRisky(name, specs) == specs[i].risky
  {
    if i > 0 {
      assert specs[0].name != name;
      RiskIsListed(name, specs[1..], i - 1);
    }
  }

  // ----- What a call is described as -----

  /** What a call is described as, by the kind of tool it is for. */
  lemma CallIsDescribed(p: Primitives, call: ToolCall, specs: seq<ToolSpec>, cwd: string)
    ensures var request, here := PermissionRequest(p, call, specs, cwd), if cwd == "" then "." else cwd;
            var unknown := "unknown tool calls require approval";
            if call.name == "web_search" || call.name == "browser_fetch" then
              request == Request(call.name, "", Network, here, [], [], "network access requires approval")
            else if call.name == "run_command" then
              request == p.analyze(Request(call.name, p.command(call), Unknown,
                                           if p.commandCwd(call) == "" then here else p.commandCwd(call),
                                           [], [], unknown))
            else if call.name == "bash" then
              request == p.analyze(Request(call.name, p.command(call), Unknown, here, [], [], unknown))
            else if call.name in {"git_status", "git_diff", "read_file", "list_files", "search"} then
              request == Request(call.name, "", ReadOnly, here, p.paths(call), [], "read-only tool")
            else if call.name == "write_file" || call.name == "apply_patch" then
              request == Request(call.name, "", Write, here, p.paths(call), [], "tool writes workspace files")
            else if IsRisky(call.name, specs) then
              request == Request(call.name, "", Unknown, here, [], [], unknown)
            else
              request == Request(call.name, "", ReadOnly, here, [], [], "tool spec is marked safe")
  {
  }

  // ----- The documented precedence -----

  /**
   Deny rules are absolute; bypass runs the rest; plan runs safe reading tools and refuses the rest;
   destructive and network calls are asked about whatever is allowed; then allow rules, then the mode's
   own rules, then risk.
   */
  lemma PrecedenceIsKept(p: Primitives, mode: Mode, rules: Rules, call: ToolCall, specs: seq<ToolSpec>, cwd: string)
    ensures var decision, request := Classify(p, mode, rules, call, specs, cwd), PermissionRequest(p, call, specs, cwd);
            var refused := Refuses(p, rules, call, request);
            var grave := request.commandClass == Destructive
                         || (request.commandClass == Network && rules.network != "allow");
            && (refused ==> decision == DecisionDenied)
            && (!refused && mode == Bypass ==> decision == DecisionRunDirectly)
            && (!refused && mode == Plan ==>
                  decision == if request.commandClass == ReadOnly && !IsRisky(call.name, specs)
                              then DecisionRunDirectly else DecisionDenied)
            && (!refused && (mode == Ask || mode == AcceptEdits) ==>
                  if grave then decision == DecisionNeedsApproval
                  else if LetsThrough(p, rules, call, request) then decision == DecisionRunDirectly
                  else if mode == AcceptEdits
                          && (request.commandClass == ReadOnly
                              || call.name == "write_file" || call.name == "apply_patch")
                  then decision == DecisionRunDirectly
                  else decision == if IsRisky(call.name, specs) then DecisionNeedsApproval else DecisionRunDirectly)
  {
    RulesApply(p, rules, call, PermissionRequest(p, call, specs, cwd));
  }

  /** An always-allow decision is good for the same tool with the same canonical input, and for nothing else. */
  lemma KeysAreExact(p: Primitives, a: ToolCall, b: ToolCall)
    ensures KeyOf(p, a).Some? <==> p.hash(a.input).Some?
    ensures KeyOf(p, a).Some? ==>
              (KeyOf(p, a) == KeyOf(p, b) <==> a.name == b.name && p.hash(a.input) == p.hash(b.input))
  {
  }
}
