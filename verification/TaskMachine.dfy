/** The task state machine, and the three handlers that move a task. */
module TaskMachine {
  import opened Wrappers

  datatype TaskState =
    | RECEIVED | INPUT_GUARD | INTENT_CLASSIFIED | CONTEXT_COLLECTING | PLANNED | PLAN_GUARD | TOOL_CALLING
    | EVIDENCE_READY | ROOT_CAUSE_ANALYZED | ACTION_PROPOSED | ACTION_GUARD | DRY_RUN | WAITING_APPROVAL | APPROVED
    | BACKING_UP | EXECUTING
    | VERIFYING | ROLLING_BACK | SUCCEEDED | FAILED | BLOCKED | ROLLED_BACK | CANCELLED

  const TERMINAL := {SUCCEEDED, FAILED, BLOCKED, ROLLED_BACK, CANCELLED}

  function Transitions(s: TaskState): set<TaskState> {
    match s
    case RECEIVED => {INPUT_GUARD, CANCELLED}
    case INPUT_GUARD => {INTENT_CLASSIFIED, BLOCKED, FAILED}
    case INTENT_CLASSIFIED => {CONTEXT_COLLECTING, BLOCKED, FAILED}
    case CONTEXT_COLLECTING => {PLANNED, BLOCKED, FAILED}
    case PLANNED => {PLAN_GUARD, BLOCKED, FAILED}
    case PLAN_GUARD => {TOOL_CALLING, BLOCKED, FAILED}
    case TOOL_CALLING => {EVIDENCE_READY, BLOCKED, FAILED}
    case EVIDENCE_READY => {ROOT_CAUSE_ANALYZED, SUCCEEDED, FAILED}
    case ROOT_CAUSE_ANALYZED => {ACTION_PROPOSED, SUCCEEDED, FAILED}
    case ACTION_PROPOSED => {ACTION_GUARD, CANCELLED}
    case ACTION_GUARD => {DRY_RUN, BLOCKED, FAILED}
    case DRY_RUN => {WAITING_APPROVAL, FAILED}
    case WAITING_APPROVAL => {APPROVED, BLOCKED, CANCELLED}
    case APPROVED => {BACKING_UP, BLOCKED}
    case BACKING_UP => {EXECUTING, FAILED}
    case EXECUTING => {VERIFYING, FAILED}
    case VERIFYING => {SUCCEEDED, ROLLING_BACK}
    case ROLLING_BACK => {ROLLED_BACK, FAILED}
    case _ => {}
  }

  predicate CanTransition(current: TaskState, target: TaskState) {
    current !in TERMINAL && target in Transitions(current)
  }

  datatype Step = Step(sequence: nat, origin: TaskState, target: TaskState, reason: string)

  datatype Task = Task(state: TaskState, version: nat, steps: seq<Step>)

  /** What a handler is asked for; an agent run ends BLOCKED, FAILED or SUCCEEDED. */
  datatype Action = Move(target: TaskState, reason: string) | Cancel | AgentRun(status: TaskState)

  predicate Possible(a: Action) {
    a.AgentRun? ==> a.status in {BLOCKED, FAILED, SUCCEEDED}
  }

  function Apply(t: Task, a: Action): Task {
    match a
    case Move(target, reason) =>
      if CanTransition(t.state, target)
      then Task(target, t.version + 1, t.steps + [Step(|t.steps| + 1, t.state, target, reason)])
      else t
    case Cancel => if CanTransition(t.state, CANCELLED) then t.(state := CANCELLED, version := t.version + 1) else t
    case AgentRun(status) => t.(state := status, version := t.version + 1)
  }

  const CREATED := Task(RECEIVED, 1, [])

  function After(actions: seq<Action>): Task {
    if actions == [] then CREATED else Apply(After(actions[..|actions| - 1]), actions[|actions| - 1])
  }

  class AgentTask {
    var state: TaskState
    var version: nat
    var steps: seq<Step>

    constructor ()
      ensures Current() == CREATED
    {
      state, version, steps := RECEIVED, 1, [];
    }

    function Current(): Task
      reads this
    {
      Task(state, version, steps)
    }

    method TransitionTask(target: TaskState, reason: string) returns (r: Result<string>)
      modifies this
      ensures Current() == Apply(old(Current()), Move(target, reason))
      ensures r.Ok? <==> CanTransition(old(state), target)
      ensures r.Ok? ==>
        && state == target && version == old(version) + 1
        && steps == old(steps) + [Step(|old(steps)| + 1, old(state), target, reason)]
    {
      var current := state;
      if !CanTransition(current, target) {
        return Err("INVALID_STATE_TRANSITION");
      }
      var sequence := |steps| + 1;
      steps := steps + [Step(sequence, current, target, reason)];
      state := target;
      version := version + 1;
      return Ok("TASK_STATE_CHANGED");
    }

    /** A cancellation writes no step row. */
    method CancelTask() returns (r: Result<string>)
      modifies this
      ensures Current() == Apply(old(Current()), Cancel)
      ensures r.Ok? <==> old(state) in {RECEIVED, ACTION_PROPOSED, WAITING_APPROVAL}
      ensures r.Ok? ==> state == CANCELLED && version == old(version) + 1
      ensures steps == old(steps)
    {
      var current := state;
      if !CanTransition(current, CANCELLED) {
        return Err("INVALID_STATE_TRANSITION");
      }
      state := CANCELLED;
      version := version + 1;
      return Ok("TASK_CANCELLED");
    }

    /** `run_task` assigns the status of the agent run without asking the machine. */
    method RunTask(status: TaskState)
      modifies this
      ensures Current() == Apply(old(Current()), AgentRun(status))
      ensures state == status && version == old(version) + 1 && steps == old(steps)
    {
      state := status;
      version := version + 1;
    }
  }

  // ---------- the order of the states ----------

  /** The one way through the states that are not terminal. */
  const ORDER := [
    RECEIVED, INPUT_GUARD, INTENT_CLASSIFIED, CONTEXT_COLLECTING, PLANNED, PLAN_GUARD, TOOL_CALLING, EVIDENCE_READY,
    ROOT_CAUSE_ANALYZED, ACTION_PROPOSED, ACTION_GUARD, DRY_RUN, WAITING_APPROVAL, APPROVED, BACKING_UP,
    EXECUTING, VERIFYING, ROLLING_BACK]

  const LENGTH := 18

  function At(i: nat): TaskState
    requires i < LENGTH
  {
    ORDER[i]
  }

  /** From each state of the order the machine goes to the next one, or ends. */
  lemma {:induction false} NextInOrder(i: nat, target: TaskState)
    requires i < LENGTH && CanTransition(At(i), target) && target !in TERMINAL
    ensures i + 1 < LENGTH && At(i + 1) == target
  {
  }

  lemma {:induction false} OrderIsOpen(i: nat)
    requires i + 1 < LENGTH
    ensures CanTransition(At(i), At(i + 1))
  {
  }

  /** How many moves may still follow. */
  function Rank(t: Task): int {
    if t.state in TERMINAL then 0 else LENGTH - |t.steps|
  }

  ghost predicate StepAt(step: Step, i: nat) {
    i < LENGTH && step.sequence == i + 1 && step.origin == At(i) && CanTransition(At(i), step.target)
  }

  /** The rows in front of the state are the order up to it; only the last row may end outside. */
  ghost predicate InOrder(t: Task) {
    && |t.steps| <= LENGTH
    && (forall i :: 0 <= i < |t.steps| ==> StepAt(t.steps[i], i))
    && (forall i :: 0 <= i < |t.steps| - 1 ==> t.steps[i].target == At(i + 1))
    && (t.state !in TERMINAL ==>
        && |t.steps| < LENGTH && t.state == At(|t.steps|)
        && (t.steps != [] ==> t.steps[|t.steps| - 1].target == t.state))
  }

  lemma {:induction false} NotTerminal(current: TaskState, target: TaskState)
    requires CanTransition(current, target)
    ensures current !in TERMINAL
  {
  }

  lemma {:induction false} NewStep(t: Task, target: TaskState, reason: string)
    requires InOrder(t) && CanTransition(t.state, target)
    ensures StepAt(Step(|t.steps| + 1, t.state, target, reason), |t.steps|)
  {
    hide Transitions, At;
  }

  lemma {:induction false} MoveInOrder(t: Task, target: TaskState, reason: string)
    requires InOrder(t) && CanTransition(t.state, target)
    ensures InOrder(Apply(t, Move(target, reason)))
  {
    hide CanTransition, Transitions, At, StepAt;
    NotTerminal(t.state, target);
    if target !in TERMINAL {
      NextInOrder(|t.steps|, target);
    }
    NewStep(t, target, reason);
    var steps := Apply(t, Move(target, reason)).steps;
    assert forall i :: 0 <= i < |t.steps| ==> steps[i] == t.steps[i];
  }

  lemma {:induction false} ApplyInOrder(t: Task, a: Action)
    requires InOrder(t) && Possible(a)
    ensures InOrder(Apply(t, a))
  {
    if a.Move? && CanTransition(t.state, a.target) {
      MoveInOrder(t, a.target, a.reason);
    }
    hide CanTransition, Transitions, At;
  }

  ghost predicate AllPossible(actions: seq<Action>) {
    forall i :: 0 <= i < |actions| ==> Possible(actions[i])
  }

  /** In every run the step rows are numbered 1 to n and follow the one order from RECEIVED. */
  lemma {:induction false} StepsFollowOrder(actions: seq<Action>)
    requires AllPossible(actions)
    ensures InOrder(After(actions))
    decreases |actions|
  {
    hide InOrder, Apply, Possible;
    if actions == [] {
      CreatedInOrder();
    } else {
      StepsFollowOrder(actions[..|actions| - 1]);
      ApplyInOrder(After(actions[..|actions| - 1]), actions[|actions| - 1]);
    }
  }

  lemma {:induction false} CreatedInOrder()
    ensures InOrder(CREATED)
  {
  }

  /**
   A task that is EXECUTING went through every guard: its rows end with ACTION_GUARD, DRY_RUN, WAITING_APPROVAL,
   APPROVED, BACKING_UP and EXECUTING, and are fifteen in all.
   */
  lemma {:induction false} ExecutingWasGuarded(actions: seq<Action>)
    requires AllPossible(actions) && After(actions).state == EXECUTING
    ensures var steps := After(actions).steps;
            && |steps| == 15
            && steps[9].target == ACTION_GUARD && steps[10].target == DRY_RUN && steps[11].target == WAITING_APPROVAL
            && steps[12].target == APPROVED && steps[13].target == BACKING_UP && steps[14].target == EXECUTING
  {
    hide After, Transitions;
    StepsFollowOrder(actions);
    IndexOfExecuting(|After(actions).steps|);
  }

  lemma {:induction false} IndexOfExecuting(i: nat)
    requires i < LENGTH && At(i) == EXECUTING
    ensures i == 15
  {
  }

  /** A row that ends in ROLLED_BACK follows rows that end in VERIFYING and ROLLING_BACK. */
  lemma {:induction false} RolledBackWasVerified(actions: seq<Action>, i: nat)
    requires AllPossible(actions)
    requires i < |After(actions).steps| && After(actions).steps[i].target == ROLLED_BACK
    ensures i == 17 && After(actions).steps[15].target == VERIFYING && After(actions).steps[16].target == ROLLING_BACK
  {
    hide After;
    StepsFollowOrder(actions);
    assert StepAt(After(actions).steps[i], i);
    FromRollingBack(i);
  }

  lemma {:induction false} FromRollingBack(i: nat)
    requires i < LENGTH && CanTransition(At(i), ROLLED_BACK)
    ensures i == 17
  {
  }

  /** Which states each end is reached from; with the one way through, that is the whole table. */
  lemma {:induction false} EndsFrom(s: TaskState)
    ensures CanTransition(s, SUCCEEDED) <==> s in {EVIDENCE_READY, ROOT_CAUSE_ANALYZED, VERIFYING}
    ensures CanTransition(s, CANCELLED) <==> s in {RECEIVED, ACTION_PROPOSED, WAITING_APPROVAL}
    ensures CanTransition(s, ROLLED_BACK) <==> s == ROLLING_BACK
    ensures CanTransition(s, BLOCKED) <==>
            s in {INPUT_GUARD, INTENT_CLASSIFIED, CONTEXT_COLLECTING, PLANNED, PLAN_GUARD, TOOL_CALLING, ACTION_GUARD,
              WAITING_APPROVAL, APPROVED}
    ensures CanTransition(s, FAILED) <==>
            s in {INPUT_GUARD, INTENT_CLASSIFIED, CONTEXT_COLLECTING, PLANNED, PLAN_GUARD, TOOL_CALLING, EVIDENCE_READY,
              ROOT_CAUSE_ANALYZED, ACTION_GUARD, DRY_RUN, BACKING_UP, EXECUTING, ROLLING_BACK}
  {
  }

  // ---------- termination and counting ----------

  predicate Succeeds(t: Task, a: Action) {
    match a
    case Move(target, _) => CanTransition(t.state, target)
    case Cancel => CanTransition(t.state, CANCELLED)
    case AgentRun(_) => true
  }

  /** Every move through the machine makes the rank smaller, so that at most eighteen can follow the creation. */
  lemma {:induction false} RankDecreases(t: Task, a: Action)
    requires InOrder(t) && !a.AgentRun? && Succeeds(t, a)
    ensures 0 <= Rank(Apply(t, a)) < Rank(t)
  {
    ApplyInOrder(t, a);
    hide Transitions;
  }

  function Successes(actions: seq<Action>): nat {
    if actions == [] then 0
    else
      var before := After(actions[..|actions| - 1]);
      Successes(actions[..|actions| - 1]) + if Succeeds(before, actions[|actions| - 1]) then 1 else 0
  }

  /** The version counts every call that changed the task, and the rows are those of them that were transitions. */
  lemma {:induction false} VersionCounts(actions: seq<Action>)
    ensures After(actions).version == 1 + Successes(actions)
    decreases |actions|
  {
    hide CanTransition;
    if actions != [] {
      VersionCounts(actions[..|actions| - 1]);
    }
  }

  predicate Machine(a: Action) {
    !a.AgentRun?
  }

  /** Without agent runs at most eighteen calls change a task. */
  lemma {:induction false} RunsTerminate(actions: seq<Action>)
    requires forall i :: 0 <= i < |actions| ==> Machine(actions[i])
    ensures Successes(actions) + Rank(After(actions)) <= LENGTH && Rank(After(actions)) >= 0
    decreases |actions|
  {
    if actions == [] {
      assert After([]) == CREATED;
    } else {
      var init, last := actions[..|actions| - 1], actions[|actions| - 1];
      assert forall i :: 0 <= i < |init| ==> init[i] == actions[i];
      RunsTerminate(init);
      assert forall i :: 0 <= i < |init| ==> Machine(init[i]) ==> Possible(init[i]);
      StepsFollowOrder(init);
      assert Machine(last);
      if Succeeds(After(init), last) {
        RankDecreases(After(init), last);
      }
      hide InOrder, CanTransition;
    }
  }

  /** Terminal states are final for the machine but not for an agent run. */
  lemma {:induction false} TerminalStays(t: Task, a: Action)
    requires t.state in TERMINAL
    ensures Apply(t, a).state == t.state <==> !(a.AgentRun? && a.status != t.state)
  {
    hide Transitions;
  }
}
