/** What every plan contains for the goal that it was made for, whoever made it. */
module PlanPromises {
  import opened Wrappers
  import opened Json
  import opened Planning

  // ---------- the evidence that a goal needs ----------

  /** The first topic that a goal touches decides, in this order. */
  datatype Topic =
    | Cleaning | Services | Disks | Memory | Files | Ports | Networks | Packages | Schedules | Logins | Kernels
    | Processes | Anything

  predicate Touches(w: Words, goal: string, t: Topic) {
    match t
    case Cleaning => w.cleanup(goal)
    case Services => w.service(goal)
    case Disks => w.disk(goal)
    case Memory => w.memory(goal)
    case Files => w.filesystem(goal)
    case Ports => w.network(goal) && w.number(goal).Some?
    case Networks => w.network(goal)
    case Packages => w.package(goal)
    case Schedules => w.schedule(goal)
    case Logins => w.login(goal)
    case Kernels => w.kernel(goal)
    case Processes => w.process(goal)
    case Anything => true
  }

  const TOPICS := [
    Cleaning, Services, Disks, Memory, Files, Ports, Networks, Packages, Schedules, Logins, Kernels, Processes,
    Anything]

  /** No topic before it is touched. */
  ghost predicate Decides(w: Words, goal: string, n: nat) {
    && n < |TOPICS| && Touches(w, goal, TOPICS[n])
    && forall m :: 0 <= m < n ==> !Touches(w, goal, TOPICS[m])
  }

  /** Some topic decides every goal, and no other does. */
  lemma {:induction false} OneDecides(w: Words, goal: string) returns (n: nat)
    ensures Decides(w, goal, n) && forall m :: Decides(w, goal, m) ==> m == n
  {
    hide Touches;
    n := 0;
    AnythingIsTouched(w, goal);
    while n < 12 && !Touches(w, goal, TOPICS[n])
      invariant n <= 12 && forall m :: 0 <= m < n ==> !Touches(w, goal, TOPICS[m])
    {
      n := n + 1;
    }
  }

  lemma {:induction false} AnythingIsTouched(w: Words, goal: string)
    ensures |TOPICS| == 13 && Touches(w, goal, TOPICS[12])
  {
  }

  function ToolFor(t: Topic): string {
    match t
    case Cleaning => "large_file_scan"
    case Services => "service_status"
    case Disks => "disk_usage_scan"
    case Memory => "memory_snapshot"
    case Files => "filesystem_inventory"
    case Ports => "port_owner_lookup"
    case Networks => "network_config_snapshot"
    case Packages => "package_inventory"
    case Schedules => "scheduled_task_inventory"
    case Logins => "login_audit"
    case Kernels => "kernel_log_query"
    case Processes => "process_list"
    case Anything => "system_snapshot"
  }

  function IntentFor(t: Topic): Intent {
    match t
    case Cleaning => CLEANUP
    case Ports => QUERY
    case Packages => QUERY
    case Anything => QUERY
    case Schedules => INSPECTION
    case Logins => INSPECTION
    case _ => DIAGNOSIS
  }

  function ComplexityFor(t: Topic): Complexity {
    match t
    case Cleaning => COMPLEX
    case Ports => SIMPLE
    case Anything => SIMPLE
    case _ => MEDIUM
  }

  lemma {:induction false} Untouched(w: Words, goal: string, n: nat)
    requires Decides(w, goal, n)
    ensures n > 0 ==> !w.cleanup(goal)
    ensures n > 1 ==> !w.service(goal)
    ensures n > 2 ==> !w.disk(goal)
    ensures n > 3 ==> !w.memory(goal)
    ensures n > 4 ==> !w.filesystem(goal)
    ensures n > 5 ==> !(w.network(goal) && w.number(goal).Some?)
    ensures n > 6 ==> !w.network(goal)
    ensures n > 7 ==> !w.package(goal)
    ensures n > 8 ==> !w.schedule(goal)
    ensures n > 9 ==> !w.login(goal)
    ensures n > 10 ==> !w.kernel(goal)
    ensures n > 11 ==> !w.process(goal)
  {
    assert TOPICS[0] == Cleaning && TOPICS[1] == Services && TOPICS[2] == Disks && TOPICS[3] == Memory;
    assert TOPICS[4] == Files && TOPICS[5] == Ports && TOPICS[6] == Networks && TOPICS[7] == Packages;
    assert TOPICS[8] == Schedules && TOPICS[9] == Logins && TOPICS[10] == Kernels && TOPICS[11] == Processes;
  }

  /** The topic that decides gives intent, complexity and the tool; a cleanup about a disk starts with the disk. */
  lemma {:induction false} RouteIs(w: Words, goal: string, n: nat)
    requires Decides(w, goal, n)
    ensures Route(w, goal) ==
            (IntentFor(TOPICS[n]), ComplexityFor(TOPICS[n]),
             if w.disk(goal) && w.cleanup(goal) then "disk_usage_scan" else ToolFor(TOPICS[n]))
  {
    Untouched(w, goal, n);
    assert Touches(w, goal, TOPICS[n]);
  }

  // ---------- what every plan contains ----------

  /** Some step uses the tool, and every step that does has these arguments. */
  ghost predicate HasToolWith(steps: seq<PlanStep>, tool: string, arguments: seq<Field>) {
    && HasTool(steps, tool)
    && forall i :: 0 <= i < |steps| && steps[i].toolName == tool ==> steps[i].arguments == arguments
  }

  /** The port that was asked for, pulled into the range of ports; 80 when the goal has no number. */
  function PortFor(w: Words, goal: string): int {
    match w.number(goal)
    case None => 80
    case Some(n) => if 1 <= n <= 65535 then n else if n < 1 then 1 else 65535
  }

  const CLEANUP_SCAN := [
    Field("path", Str("__cleanup_roots__")), Field("min_bytes", Num(10000000)), Field("limit", Num(50))]

  lemma {:induction false} FixedAre(w: Words, goal: string)
    ensures w.disk(goal) ==> FixedArguments(w, goal, "disk_usage_scan") == Some([Field("path", Str("/"))])
    ensures w.cleanup(goal) ==> FixedArguments(w, goal, "large_file_scan") == Some(CLEANUP_SCAN)
    ensures FixedArguments(w, goal, "port_owner_lookup") == Some([Field("port", Num(PortFor(w, goal)))])
  {
    assert |"disk_usage_scan"| == 15 && |"large_file_scan"| == 15 && |"port_owner_lookup"| == 17;
    assert "disk_usage_scan"[0] == 'd' && "large_file_scan"[0] == 'l';
    assert |"service_status"| == 14 && |"journal_query"| == 13;
  }

  lemma {:induction false} RequiredIs(w: Words, goal: string, n: nat)
    requires Decides(w, goal, n)
    ensures w.disk(goal) ==> "disk_usage_scan" in RequiredTools(w, goal)
    ensures w.cleanup(goal) ==> "large_file_scan" in RequiredTools(w, goal)
    ensures !w.disk(goal) && !w.cleanup(goal) && w.network(goal) && w.number(goal).None? ==>
      "network_config_snapshot" in RequiredTools(w, goal) && "network_socket_list" in RequiredTools(w, goal)
    ensures !w.disk(goal) && !w.cleanup(goal) && !(w.network(goal) && w.number(goal).None?) ==>
      RequiredTools(w, goal) == [ToolFor(TOPICS[n])]
  {
    hide ToolFor, Route, Decides;
    RouteIs(w, goal, n);
  }

  lemma {:induction false} RequiredHas(w: Words, goal: string, steps: seq<PlanStep>, tool: string)
    requires AllRequired(w, goal, steps) && tool in RequiredTools(w, goal)
    ensures HasTool(steps, tool)
  {
    hide RequiredTools, HasTool;
    var k :| 0 <= k < |RequiredTools(w, goal)| && RequiredTools(w, goal)[k] == tool;
  }

  /**
   A plan that comes out of the planner has the evidence that its goal needs, whoever made it: the disk is scanned from
   its root, cleanup candidates are looked for in the cleanup roots alone, a port is a port, and any other goal gets the
   tool of the topic that decides.
   */
  lemma {:induction false} PlanHasEvidence(w: Words, goal: string, plan: ActionPlan, n: nat)
    requires Valid(w, plan, goal) && ArgumentsFixed(w, goal, plan.steps) && Decides(w, goal, n)
    ensures w.disk(goal) ==> HasToolWith(plan.steps, "disk_usage_scan", [Field("path", Str("/"))])
    ensures w.cleanup(goal) ==> HasToolWith(plan.steps, "large_file_scan", CLEANUP_SCAN)
    ensures !w.disk(goal) && !w.cleanup(goal) && w.network(goal) && w.number(goal).None? ==>
      HasTool(plan.steps, "network_config_snapshot") && HasTool(plan.steps, "network_socket_list")
    ensures !w.disk(goal) && !w.cleanup(goal) && !(w.network(goal) && w.number(goal).None?) ==>
      HasTool(plan.steps, ToolFor(TOPICS[n]))
    ensures forall i :: 0 <= i < |plan.steps| && plan.steps[i].toolName == "port_owner_lookup" ==>
      plan.steps[i].arguments == [Field("port", Num(PortFor(w, goal)))] && 1 <= PortFor(w, goal) <= 65535
  {
    hide FixedArguments, RequiredTools, HasTool, ToolFor, Decides, AllGuarded;
    FixedAre(w, goal);
    RequiredIs(w, goal, n);
    forall tool | tool in RequiredTools(w, goal)
      ensures HasTool(plan.steps, tool)
    {
      RequiredHas(w, goal, plan.steps, tool);
    }
  }

  /** A plan that comes out uses registered tools alone, none above its level of risk and none that runs anything. */
  lemma {:induction false} PlanIsHarmless(w: Words, goal: string, plan: ActionPlan, i: nat)
    requires Valid(w, plan, goal) && i < |plan.steps|
    ensures var tool := plan.steps[i].toolName;
            && (tool in L1_TOOLS || tool in L2_TOOLS) && !w.generic(tool)
            && plan.risk >= (if tool in L2_TOOLS then 2 else 1)
    ensures w.allowed(plan.userGoal) && w.strip(plan.userGoal) == w.strip(goal)
  {
    assert StepGuarded(w, plan, plan.steps[i]);
  }

  // ---------- the plan of the rules ----------

  predicate AnyOfSecondLevel(steps: seq<PlanStep>) {
    exists i :: 0 <= i < |steps| && steps[i].toolName in L2_TOOLS
  }

  function ServiceSteps(service: string): seq<PlanStep> {
    [PlanStep(1, "service_status", [Field("service", Str(service))]),
     PlanStep(2, "journal_query", [Field("unit", Str(service)), Field("lines", Num(50))])]
  }

  lemma {:induction false} SecondLevelKnown(steps: seq<PlanStep>)
    requires forall i :: 0 <= i < |steps| ==> Known(steps[i].toolName)
    ensures UsesL2(steps) <==> AnyOfSecondLevel(steps)
  {
    LevelsAgree();
    hide Registered;
    if UsesL2(steps) {
      var i :| 0 <= i < |steps| && steps[i].toolName in FALLBACK_L2;
      assert steps[i].toolName in L2_TOOLS;
    }
    if AnyOfSecondLevel(steps) {
      var i :| 0 <= i < |steps| && steps[i].toolName in L2_TOOLS;
      assert steps[i].toolName in FALLBACK_L2;
    }
  }

  lemma {:induction false} LevelsAgree()
    ensures FALLBACK_L2 <= L2_TOOLS
  {
  }

  lemma {:induction false} CleaningDecides(w: Words, goal: string, n: nat)
    requires Decides(w, goal, n)
    ensures IntentFor(TOPICS[n]) == CLEANUP <==> w.cleanup(goal)
  {
    Untouched(w, goal, n);
    assert Touches(w, goal, TOPICS[n]) && TOPICS[0] == Cleaning;
  }

  lemma {:induction false} ServiceArguments(w: Words, goal: string)
    ensures var service := if w.ssh(goal) then "sshd" else "nginx";
            && DefaultArguments(w, goal, "service_status") == [Field("service", Str(service))]
            && DefaultArguments(w, goal, "journal_query") == [Field("unit", Str(service)), Field("lines", Num(50))]
  {
    assert |"service_status"| == 14 && |"journal_query"| == 13;
  }

  lemma {:induction false} ServicePlan(w: Words, goal: string, n: nat)
    requires Decides(w, goal, n) && TOPICS[n] == Services && !w.disk(goal)
    requires !(w.network(goal) && w.number(goal).None?)
    ensures FallbackSteps(w, goal) == [
      PlanStep(1, "service_status", DefaultArguments(w, goal, "service_status")),
      PlanStep(2, "journal_query", DefaultArguments(w, goal, "journal_query"))]
  {
    hide DefaultArguments, Route, RequiredTools, Decides;
    RouteIs(w, goal, n);
    CleaningDecides(w, goal, n);
    RequiredIs(w, goal, n);
  }

  lemma {:induction false} StepsNumbered(w: Words, goal: string)
    ensures forall i :: 0 <= i < |FallbackSteps(w, goal)| ==> FallbackSteps(w, goal)[i].sequence == i + 1
  {
    hide DefaultArguments, Route, RequiredTools;
  }

  /**
   The plan of the rules says what the goal is about, numbers its steps from one, looks at a service and then at its
   journal, and is of the second risk level exactly when it cleans up or uses a tool of that level.
   */
  lemma {:induction false} FallbackIs(w: Words, goal: string, n: nat)
    requires Decides(w, goal, n)
    ensures var plan := Fallback(w, goal);
            && plan.userGoal == goal && plan.intent == IntentFor(TOPICS[n])
            && plan.complexity == ComplexityFor(TOPICS[n])
            && (forall i :: 0 <= i < |plan.steps| ==> plan.steps[i].sequence == i + 1)
            && plan.risk == (if w.cleanup(goal) || AnyOfSecondLevel(plan.steps) then 2 else 1)
            && (TOPICS[n] == Services && !w.disk(goal) && !(w.network(goal) && w.number(goal).None?) ==>
                plan.steps == ServiceSteps(if w.ssh(goal) then "sshd" else "nginx"))
  {
    hide DefaultArguments, FallbackSteps, Known, UsesL2, IntentFor, ComplexityFor, ToolFor;
    RouteIs(w, goal, n);
    CleaningDecides(w, goal, n);
    FallbackKnown(w, goal);
    SecondLevelKnown(FallbackSteps(w, goal));
    StepsNumbered(w, goal);
    ServiceArguments(w, goal);
    if TOPICS[n] == Services && !w.disk(goal) && !(w.network(goal) && w.number(goal).None?) {
      ServicePlan(w, goal, n);
    }
    hide Route, Decides;
  }
}
