/**
 The planner: whatever a language model answers, or when it does not answer, only guarded read-only plans come out.
 */
module Planning {
  import opened Wrappers
  import opened Json

  datatype Intent = QUERY | DIAGNOSIS | INSPECTION | CHANGE | CLEANUP | RECOVERY | FORBIDDEN

  datatype Complexity = SIMPLE | MEDIUM | COMPLEX

  datatype PlanStep = PlanStep(sequence: int, toolName: string, arguments: seq<Field>)

  /** The fields that the guard looks at; `risk` is the digit of the level. */
  datatype ActionPlan = ActionPlan(userGoal: string, intent: Intent, complexity: Complexity, steps: seq<PlanStep>,
      risk: nat)

  /** What the keyword lists and patterns say of a goal, and the input guard; none of them is looked into. */
  datatype Words = Words(
    allowed: string -> bool, strip: string -> string, generic: string -> bool, disk: string -> bool,
    cleanup: string -> bool, network: string -> bool, service: string -> bool, memory: string -> bool,
    filesystem: string -> bool, package: string -> bool, schedule: string -> bool, login: string -> bool,
    kernel: string -> bool, process: string -> bool, ssh: string -> bool, number: string -> Option<int>)

  // ---------- the registry: every tool is read-only ----------

  const L1_TOOLS := {
    "capability_probe", "system_snapshot", "memory_snapshot", "process_list", "disk_usage_scan", "service_status"}
  const L2_TOOLS := {
    "zombie_process_scan", "network_socket_list", "port_owner_lookup", "filesystem_inventory", "large_file_scan",
    "open_file_lookup", "journal_query", "config_drift_check", "io_diagnose", "network_config_snapshot",
    "package_inventory", "scheduled_task_inventory",
    "login_audit", "kernel_log_query", "security_baseline_scan"}

  predicate Registered(tool: string) {
    tool in L1_TOOLS || tool in L2_TOOLS
  }

  function ToolRisk(tool: string): nat {
    if tool in L2_TOOLS then 2 else 1
  }

  /** No registered tool has a name that smells of a shell, a command or a script. */
  ghost predicate NamesInnocent(w: Words) {
    forall tool :: Registered(tool) ==> !w.generic(tool)
  }

  // ---------- routing ----------

  function Route(w: Words, goal: string): (Intent, Complexity, string) {
    if w.disk(goal) && w.cleanup(goal) then (CLEANUP, COMPLEX, "disk_usage_scan")
    else if w.cleanup(goal) then (CLEANUP, COMPLEX, "large_file_scan")
    else if w.service(goal) then (DIAGNOSIS, MEDIUM, "service_status")
    else if w.disk(goal) then (DIAGNOSIS, MEDIUM, "disk_usage_scan")
    else if w.memory(goal) then (DIAGNOSIS, MEDIUM, "memory_snapshot")
    else if w.filesystem(goal) then (DIAGNOSIS, MEDIUM, "filesystem_inventory")
    else if w.network(goal) && w.number(goal).Some? then (QUERY, SIMPLE, "port_owner_lookup")
    else if w.network(goal) then (DIAGNOSIS, MEDIUM, "network_config_snapshot")
    else if w.package(goal) then (QUERY, MEDIUM, "package_inventory")
    else if w.schedule(goal) then (INSPECTION, MEDIUM, "scheduled_task_inventory")
    else if w.login(goal) then (INSPECTION, MEDIUM, "login_audit")
    else if w.kernel(goal) then (DIAGNOSIS, MEDIUM, "kernel_log_query")
    else if w.process(goal) then (DIAGNOSIS, MEDIUM, "process_list")
    else (QUERY, SIMPLE, "system_snapshot")
  }

  function RequiredTools(w: Words, goal: string): seq<string> {
    var required :=
      (if w.disk(goal) then ["disk_usage_scan"] else []) + if w.cleanup(goal) then ["large_file_scan"] else [];
    if required != [] then required
    else if w.network(goal) && w.number(goal).None? then ["network_config_snapshot", "network_socket_list"]
    else [Route(w, goal).2]
  }

  // ---------- arguments ----------

  function ServiceName(w: Words, goal: string): string {
    if w.ssh(goal) then "sshd" else "nginx"
  }

  function Clamp(n: int): int {
    if n < 1 then 1 else if n > 65535 then 65535 else n
  }

  const CLEANUP_ARGUMENTS := [Field("path", Str("__cleanup_roots__")), Field("min_bytes", Num(10_000_000)),
    Field("limit", Num(50))]

  function DefaultArguments(w: Words, goal: string, tool: string): seq<Field> {
    if tool == "service_status" then [Field("service", Str(ServiceName(w, goal)))]
    else if tool == "journal_query" then [Field("unit", Str(ServiceName(w, goal))), Field("lines", Num(50))]
    else if tool == "port_owner_lookup" then
      [Field("port", Num(if w.number(goal).Some? then Clamp(w.number(goal).value) else 80))]
    else if tool == "large_file_scan" then CLEANUP_ARGUMENTS
    else if tool == "disk_usage_scan" then [Field("path", Str("/"))]
    else if tool == "package_inventory" || tool == "login_audit" then [Field("limit", Num(50))]
    else if tool == "kernel_log_query" then [Field("lines", Num(80))]
    else []
  }

  /** The arguments of a step that the guard fixes; a model cannot choose them. */
  function FixedArguments(w: Words, goal: string, tool: string): Option<seq<Field>> {
    if (tool == "disk_usage_scan" && w.disk(goal)) || (tool == "large_file_scan" && w.cleanup(goal))
       || tool == "port_owner_lookup"
    then Some(DefaultArguments(w, goal, tool)) else None
  }

  /** `b` is `a` with its fixed arguments, and nothing else changed. */
  ghost predicate Normalized(w: Words, goal: string, a: PlanStep, b: PlanStep) {
    && b.toolName == a.toolName && b.sequence == a.sequence
    && b.arguments == (match FixedArguments(w, goal, a.toolName) case Some(fixed) => fixed case None => a.arguments)
  }

  ghost predicate AllNormalized(w: Words, goal: string, a: seq<PlanStep>, b: seq<PlanStep>) {
    |a| == |b| && forall i :: 0 <= i < |a| ==> Normalized(w, goal, a[i], b[i])
  }

  // ---------- the guard ----------

  ghost predicate HasTool(steps: seq<PlanStep>, tool: string) {
    exists i :: 0 <= i < |steps| && steps[i].toolName == tool
  }

  ghost predicate AllRequired(w: Words, goal: string, steps: seq<PlanStep>) {
    forall k :: 0 <= k < |RequiredTools(w, goal)| ==> HasTool(steps, RequiredTools(w, goal)[k])
  }

  ghost predicate StepGuarded(w: Words, plan: ActionPlan, step: PlanStep) {
    && Registered(step.toolName) && ToolRisk(step.toolName) <= plan.risk
    && w.allowed(plan.userGoal) && !w.generic(step.toolName)
  }

  ghost predicate AllGuarded(w: Words, plan: ActionPlan) {
    forall i :: 0 <= i < |plan.steps| ==> StepGuarded(w, plan, plan.steps[i])
  }

  ghost predicate Valid(w: Words, plan: ActionPlan, goal: string) {
    w.strip(plan.userGoal) == w.strip(goal) && AllGuarded(w, plan) && AllRequired(w, goal, plan.steps)
  }

  // ---------- the rule fallback ----------

  /** `_is_l2_tool` */
  const FALLBACK_L2 := {
    "journal_query", "network_socket_list", "port_owner_lookup", "large_file_scan", "filesystem_inventory",
    "network_config_snapshot", "package_inventory", "scheduled_task_inventory", "login_audit", "kernel_log_query",
    "io_diagnose", "security_baseline_scan"}

  function EvidenceSteps(w: Words, goal: string, tools: seq<string>): (steps: seq<PlanStep>)
    ensures |steps| == |tools|
  {
    seq(|tools|, i requires 0 <= i < |tools| => PlanStep(i + 1, tools[i], DefaultArguments(w, goal, tools[i])))
  }

  function FallbackSteps(w: Words, goal: string): seq<PlanStep> {
    var steps := EvidenceSteps(w, goal, RequiredTools(w, goal));
    if Route(w, goal).2 == "service_status" then
      steps + [PlanStep(|steps| + 1, "journal_query", DefaultArguments(w, goal, "journal_query"))]
    else steps
  }

  predicate UsesL2(steps: seq<PlanStep>) {
    exists i :: 0 <= i < |steps| && steps[i].toolName in FALLBACK_L2
  }

  function Fallback(w: Words, goal: string): ActionPlan {
    var (intent, complexity, primary) := Route(w, goal);
    var steps := FallbackSteps(w, goal);
    ActionPlan(goal, intent, complexity, steps, if intent == CLEANUP || UsesL2(steps) then 2 else 1)
  }

  function ForbiddenPlan(goal: string): ActionPlan {
    ActionPlan(goal, FORBIDDEN, SIMPLE, [], 4)
  }

  /** A tool the fallback may use: of the second level only when the fallback knows that it is. */
  predicate Known(tool: string) {
    Registered(tool) && (tool in L2_TOOLS ==> tool in FALLBACK_L2)
  }

  lemma {:induction false} LowToolsKnown()
    ensures Known("disk_usage_scan") && Known("service_status") && Known("memory_snapshot") && Known("process_list")
    ensures Known("system_snapshot")
  {
  }

  lemma {:induction false} HighToolsKnown()
    ensures Known("large_file_scan") && Known("filesystem_inventory") && Known("port_owner_lookup")
    ensures Known("network_config_snapshot")
    ensures Known("network_socket_list") && Known("package_inventory") && Known("scheduled_task_inventory")
    ensures Known("login_audit")
    ensures Known("kernel_log_query") && Known("journal_query")
  {
  }

  lemma {:induction false} RoutedKnown(w: Words, goal: string)
    ensures Known(Route(w, goal).2)
  {
    hide Known;
    LowToolsKnown();
    HighToolsKnown();
  }

  lemma {:induction false} RequiredKnown(w: Words, goal: string)
    ensures forall k :: 0 <= k < |RequiredTools(w, goal)| ==> Known(RequiredTools(w, goal)[k])
  {
    hide Known, Route;
    LowToolsKnown();
    HighToolsKnown();
    RoutedKnown(w, goal);
  }

  lemma {:induction false} FallbackKnown(w: Words, goal: string)
    ensures forall i :: 0 <= i < |FallbackSteps(w, goal)| ==> Known(FallbackSteps(w, goal)[i].toolName)
    ensures AllRequired(w, goal, FallbackSteps(w, goal)) && |FallbackSteps(w, goal)| <= 20
  {
    hide Known, Route, DefaultArguments;
    HighToolsKnown();
    RequiredKnown(w, goal);
    var steps := FallbackSteps(w, goal);
    assert forall k :: 0 <= k < |RequiredTools(w, goal)| ==> steps[k].toolName == RequiredTools(w, goal)[k];
  }

  /** The plan of the rules passes the guard that it is then put through. */
  lemma {:induction false} FallbackIsValid(w: Words, goal: string)
    requires NamesInnocent(w) && w.allowed(goal)
    ensures Valid(w, Fallback(w, goal), goal)
  {
    hide FallbackSteps, Route, RequiredTools;
    FallbackKnown(w, goal);
    var plan := Fallback(w, goal);
    forall i | 0 <= i < |plan.steps|
      ensures StepGuarded(w, plan, plan.steps[i])
    {
      assert Known(plan.steps[i].toolName);
    }
  }

  class Planner {
    const w: Words

    constructor (w: Words)
      ensures this.w == w
    {
      this.w := w;
    }

    method NormalizePlanArguments(steps: seq<PlanStep>, goal: string) returns (r: seq<PlanStep>)
      ensures AllNormalized(w, goal, steps, r)
    {
      hide DefaultArguments, FixedArguments;
      r := steps;
      var i := 0;
      while i < |r|
        invariant 0 <= i <= |r| == |steps|
        invariant forall k :: 0 <= k < i ==> Normalized(w, goal, steps[k], r[k])
        invariant forall k :: i <= k < |r| ==> r[k] == steps[k]
      {
        var fixed := FixedArguments(w, goal, r[i].toolName);
        if fixed.Some? {
          r := r[i := r[i].(arguments := fixed.value)];
        }
        i := i + 1;
      }
    }

    method GuardSteps(plan: ActionPlan) returns (r: Result<string>)
      ensures r.Ok? <==> AllGuarded(w, plan)
    {
      for i := 0 to |plan.steps|
        invariant forall k :: 0 <= k < i ==> StepGuarded(w, plan, plan.steps[k])
      {
        var tool := plan.steps[i].toolName;
        if !Registered(tool) {
          return Err("TOOL_NOT_REGISTERED");
        }
        if plan.risk < ToolRisk(tool) {
          return Err("RISK_DOWNGRADE_REJECTED");
        }
        if !w.allowed(plan.userGoal) {
          return Err("FORBIDDEN_INPUT");
        }
        if w.generic(tool) {
          return Err("GENERIC_EXECUTION_FORBIDDEN");
        }
      }
      return Ok("PLAN_ALLOWED");
    }

    /** `_validate_plan`; the plan that is returned is the one whose arguments were rewritten in place. */
    method ValidatePlan(plan: ActionPlan, goal: string) returns (r: Result<ActionPlan>)
      ensures r.Ok? <==> Valid(w, plan, goal)
      ensures r.Ok? ==>
        && Valid(w, r.value, goal) && AllNormalized(w, goal, plan.steps, r.value.steps)
        && r.value == plan.(steps := r.value.steps)
    {
      hide Normalized, Registered, ToolRisk, RequiredTools;
      if w.strip(plan.userGoal) != w.strip(goal) {
        return Err("GOAL_MISMATCH");
      }
      var steps := NormalizePlanArguments(plan.steps, goal);
      SameTools(w, goal, plan.steps, steps);
      var normalized := plan.(steps := steps);
      var guarded := GuardSteps(normalized);
      if guarded.Err? {
        return Err(guarded.error);
      }
      var required := RequiredTools(w, goal);
      var planned := set i | 0 <= i < |steps| :: steps[i].toolName;
      if !(forall k :: 0 <= k < |required| ==> required[k] in planned) {
        return Err("REQUIRED_EVIDENCE_TOOL_MISSING");
      }
      return Ok(normalized);
    }

    method RuleFallback(goal: string) returns (plan: ActionPlan)
      ensures plan == Fallback(w, goal)
    {
      hide DefaultArguments, Route, RequiredTools;
      var (intent, complexity, primary) := Route(w, goal);
      var required := RequiredTools(w, goal);
      var steps: seq<PlanStep> := [];
      for i := 0 to |required|
        invariant |steps| == i
        invariant forall k :: 0 <= k < i ==>
          steps[k] == PlanStep(k + 1, required[k], DefaultArguments(w, goal, required[k]))
      {
        steps := steps + [PlanStep(i + 1, required[i], DefaultArguments(w, goal, required[i]))];
      }
      assert steps == EvidenceSteps(w, goal, required);
      if primary == "service_status" {
        steps := steps + [PlanStep(|steps| + 1, "journal_query", DefaultArguments(w, goal, "journal_query"))];
      }
      var risk := if intent == CLEANUP || UsesL2(steps) then 2 else 1;
      plan := ActionPlan(goal, intent, complexity, steps, risk);
    }

    /**
     `reply` is the parsed answer of the model, none when it is unavailable or does not fit the schema. The second
     validation, outside the `try`, never raises; and no answer gets a step past the guard.
     */
    method Plan(goal: string, reply: Option<ActionPlan>) returns (r: Result<ActionPlan>)
      requires NamesInnocent(w)
      ensures r.Ok?
      ensures !w.allowed(goal) ==>
        r.value.userGoal == goal && r.value.intent == FORBIDDEN && r.value.steps == [] && r.value.risk == 4
      ensures w.allowed(goal) ==> Valid(w, r.value, goal) && ArgumentsFixed(w, goal, r.value.steps)
      ensures w.allowed(goal) ==>
        var source := if reply.Some? && Valid(w, reply.value, goal) then reply.value else Fallback(w, goal);
        r.value == source.(steps := r.value.steps) && AllNormalized(w, goal, source.steps, r.value.steps)
    {
      hide Valid, Fallback, Normalized, Registered, RequiredTools, FixedArguments;
      if !w.allowed(goal) {
        return Ok(ForbiddenPlan(goal));
      }
      if reply.Some? {
        var checked := ValidatePlan(reply.value, goal);
        if checked.Ok? {
          NormalizedFixed(w, goal, reply.value.steps, checked.value.steps);
          return checked;
        }
      }
      var plan := RuleFallback(goal);
      FallbackIsValid(w, goal);
      r := ValidatePlan(plan, goal);
      NormalizedFixed(w, goal, plan.steps, r.value.steps);
    }
  }

  /** No step carries arguments of its own where the guard fixes them. */
  ghost predicate ArgumentsFixed(w: Words, goal: string, steps: seq<PlanStep>) {
    forall i :: 0 <= i < |steps| && FixedArguments(w, goal, steps[i].toolName).Some? ==>
      steps[i].arguments == FixedArguments(w, goal, steps[i].toolName).value
  }

  lemma {:induction false} NormalizedFixed(w: Words, goal: string, a: seq<PlanStep>, b: seq<PlanStep>)
    requires AllNormalized(w, goal, a, b)
    ensures ArgumentsFixed(w, goal, b)
  {
    hide FixedArguments;
  }

  lemma {:induction false} SameTools(w: Words, goal: string, a: seq<PlanStep>, b: seq<PlanStep>)
    requires AllNormalized(w, goal, a, b)
    ensures forall i :: 0 <= i < |a| ==> a[i].toolName == b[i].toolName
    ensures |a| == |b|
  {
    hide FixedArguments;
  }
}
