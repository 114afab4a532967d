/** A whole configuration update: the rows of the protocol together with the executor that changes the file. */
module ControlledUpdate {
  import opened Wrappers
  import opened Json
  import opened JsonProofs
  import opened Utf8
  import opened Tokens
  import opened FaultyDisk
  import opened ApprovalProtocol
  import opened ApprovalInvariant
  import opened ApprovalSteps
  import opened ApprovalEffects
  import opened ApprovalService
  import opened CleanupExecutor
  import opened ConfigExecutor
  import opened ClassifiedFiles
  import opened ControlledRun
  import opened RepeatedEffect
  import Rules = CleanupRules

  /** The parts of an executor that outlive a request; the token manager is new for each. */
  datatype Setting = Setting(
    disk: Disk, targets: map<string, string>, backupRoot: string, blank: string -> bool,
    judge: (nat, Bytes) -> Result<bool>)

  /** The three names that one update writes under. */
  datatype Names = Names(changeId: string, unique: string, again: string)

  ghost predicate NamesNew(setting: Setting, files: Files, names: Names, target: string) {
    FreshNames(files, BackupPath(setting.backupRoot, names.changeId, target), CandidatePath(target, names.unique),
      RollbackPath(target, names.again))
  }

  function Changed(before: Files, after: Files, path: string): bool {
    path in before && path in after && before[path] != after[path]
  }

  ghost predicate AcceptsEverything(setting: Setting) {
    forall n, c :: setting.judge(n, c) == Ok(true)
  }

  /**
   A ValueError is recorded, any other exception is not; `changed` tells that the target is another one all the same.
   */
  function EndingOf(r: Result<ExecutionResult>, changed: bool): Ending {
    match r
    case Ok(result) => Succeeds(result.changeId, Some(result.backupRef))
    case Err(error) => if error == OS_ERROR then Crashes(changed) else Refuses(changed)
  }

  /** The two arguments of an update. */
  function Argument(req: RunRequest, key: string): string {
    match GetText(req.arguments, key)
    case Some(text) => text
    case None => ""
  }

  function Presented(req: RunRequest): seq<Field> {
    [Field("target_id", Str(Argument(req, "target_id"))), Field("content", Str(Argument(req, "content")))]
  }

  /** The token and the checks of the executor let the update begin. */
  ghost predicate Begins(cfg: Config, setting: Setting, files: Files, req: RunRequest, now: int) {
    && Argument(req, "target_id") in setting.targets && setting.targets[Argument(req, "target_id")] in files
    && ContentValid(setting.blank, Argument(req, "content")) && TokenAccepted(cfg, {}, req, Presented(req), now)
  }

  /**
   What a request does to the files, between the operations `start` and `end`. The effect happens exactly when the call
   succeeds or the target is another one afterwards; and when everything works up to the last digest and that digest
   cannot be computed, the new content stands although nothing is committed.
   */
  ghost predicate Performed(
      cfg: Config, setting: Setting, req: RunRequest, now: int, names: Names, before: Files, start: nat, after: Files,
      end: nat, ending: Ending)
  {
    if !Begins(cfg, setting, before, req, now) then !Happened(ending) && after == before
    else
      var target := setting.targets[Argument(req, "target_id")];
      var schedule := setting.disk.schedule;
      && target in after
      && (Happened(ending) <==> ending.Succeeds? || Changed(before, after, target))
      && (AcceptsEverything(setting) && WorksBetween(schedule, start, start + 7) ==>
          && after[target] == Encode(Argument(req, "content")) && end == start + 8
          && SameOutside(before, after, {target, BackupPath(setting.backupRoot, names.changeId, target)})
          && (if schedule(start + 7).Works? then ending.Succeeds?
              else ending == Crashes(Changed(before, after, target))))
  }

  lemma {:induction false} PerformedBy(
      cfg: Config, setting: Setting, req: RunRequest, now: int, names: Names, before: Files, start: nat, after: Files,
      end: nat, r: Result<ExecutionResult>)
    requires Begins(cfg, setting, before, req, now)
    requires var target := setting.targets[Argument(req, "target_id")];
             Ended(
               setting.disk.schedule, setting.disk.sha, AcceptsEverything(setting), before, start, after, end, target,
               BackupPath(setting.backupRoot, names.changeId, target), Argument(req, "content"), r)
    ensures var target := setting.targets[Argument(req, "target_id")];
            Performed(cfg, setting, req, now, names, before, start, after, end,
              EndingOf(r, Changed(before, after, target)))
  {
    hide Begins, BackupPath, SameOutside, WorksBetween, OneFault, HasDigest, AcceptsEverything, Argument, Encode;
    assert Argument(req, "target_id") in setting.targets && setting.targets[Argument(req, "target_id")] in before by {
      BeginsKnown(cfg, setting, before, req, now);
    }
  }

  lemma {:induction false} BeginsKnown(cfg: Config, setting: Setting, files: Files, req: RunRequest, now: int)
    requires Begins(cfg, setting, files, req, now)
    ensures Argument(req, "target_id") in setting.targets && setting.targets[Argument(req, "target_id")] in files
  {
    hide TokenAccepted, ContentValid, Argument;
  }

  /** The call of the executor, and what the handler of `execution_run` makes of its end. */
  method Perform(cfg: Config, setting: Setting, req: RunRequest, now: int, names: Names) returns (ending: Ending)
    requires |cfg.secret| >= 32 && req.toolName == CONFIG_UPDATE
    requires forall targetId :: targetId in setting.targets ==>
      NamesNew(setting, setting.disk.files, names, setting.targets[targetId])
    modifies setting.disk
    ensures Performed(
      cfg, setting, req, now, names, old(setting.disk.files), old(setting.disk.operations), setting.disk.files,
      setting.disk.operations, ending)
  {
    hide Outcome, ContentValid, BackupPath, CandidatePath, RollbackPath, Ended, Argument, Performed;
    var targetId := Argument(req, "target_id");
    var approvals := new ApprovalTokenManager(cfg.sha, cfg.mac, cfg.secret);
    var executor := new ControlledConfigExecutor(setting.disk, setting.targets, setting.backupRoot, approvals,
      setting.blank, setting.judge);
    var before := setting.disk.files;
    ghost var start := setting.disk.operations;
    assert executor.AcceptsAll() == AcceptsEverything(setting);
    var r := executor.ExecuteApproved(
      req.userId, req.taskId, targetId, Argument(req, "content"), req.token, now, names.changeId, names.unique,
      names.again);
    var changed := targetId in setting.targets && Changed(before, setting.disk.files, setting.targets[targetId]);
    ending := EndingOf(r, changed);
    if Begins(cfg, setting, before, req, now) {
      PerformedBy(cfg, setting, req, now, names, before, start, setting.disk.files, setting.disk.operations, r);
    } else {
      assert r.Err? && setting.disk.files == before;
      NotPerformed(cfg, setting, req, now, names, before, start, setting.disk.operations, ending);
    }
  }

  lemma {:induction false} NotPerformed(
      cfg: Config, setting: Setting, req: RunRequest, now: int, names: Names, before: Files, start: nat, end: nat,
      ending: Ending)
    requires !Begins(cfg, setting, before, req, now) && !Happened(ending)
    ensures Performed(cfg, setting, req, now, names, before, start, before, end, ending)
  {
    hide Begins;
  }

  lemma {:induction false} UpdateResolves(cfg: Config, db: Database, req: RunRequest)
    requires cfg.controlled && req.toolName == CONFIG_UPDATE && Resolve(cfg, db, req).Some?
    ensures Resolve(cfg, db, req).value == (UpdateConfig(Argument(req, "target_id")), Presented(req))
    ensures !BrokerManaged(cfg, db, req, false)
  {
    hide OnlyText, GetText;
    ToolsDiffer();
  }

  /** The new event is the effect of the update. */
  ghost predicate UpdateLogged(trace: seq<Event>, n: nat, target: string) {
    n < |trace| && trace[n].Effect? && trace[n].grant.operation == UpdateConfig(target)
  }

  lemma {:induction false} UpdateHappens(
      cfg: Config, setting: Setting, s: State, req: RunRequest, now: int, names: Names, before: Files, start: nat,
      after: Files, end: nat, attemptId: string, ending: Ending)
    requires cfg.controlled && req.toolName == CONFIG_UPDATE && AdmittedApproval(cfg, s.db, req).Some?
    requires Resolve(cfg, s.db, req).Some?
    requires Performed(cfg, setting, req, now, names, before, start, after, end, ending) && Happened(ending)
    ensures UpdateLogged(Apply(cfg, s, DoRun(0, req, false, now, attemptId, ending)).trace, |s.trace|,
      Argument(req, "target_id"))
  {
    hide AdmittedApproval, Resolve, BrokerManaged, RunDirect, TokenAccepted, ContentValid, Argument, Changed;
    hide AcceptsEverything, WorksBetween, SameOutside;
    UpdateResolves(cfg, s.db, req);
    AdmittedStatus(cfg, s.db, req);
    DirectGrant(cfg, s, AdmittedApproval(cfg, s.db, req).value, req, now, attemptId, ending);
  }

  /** `execution_run` of a configuration update. */
  method RunUpdate(
      service: Service, setting: Setting, req: RunRequest, now: int, attemptId: string, names: Names,
      ghost policy: Rules.Policy, ghost actions: seq<Action>)
    returns (ending: Ending)
    requires Reached(service, policy, actions) && req.toolName == CONFIG_UPDATE && Unique(Obj(req.arguments))
    requires |service.cfg.secret| >= 32
    requires forall targetId :: targetId in setting.targets ==>
      NamesNew(setting, setting.disk.files, names, setting.targets[targetId])
    modifies service, setting.disk
    ensures Reached(service, policy, actions + [DoRun(0, req, false, now, attemptId, ending)])
    ensures
      if Requested(service.cfg, old(service.Rows()), req).None? then setting.disk.files == old(setting.disk.files)
      else
        && Performed(
             service.cfg, setting, req, now, names, old(setting.disk.files), old(setting.disk.operations),
             setting.disk.files, setting.disk.operations, ending)
        && (Happened(ending) ==> UpdateLogged(service.trace, |old(service.trace)|, Argument(req, "target_id")))
  {
    hide After, Resolve, AdmittedApproval, LegalRun, FromClassifier, DotFree, Apply, Happened, NamesNew, Performed;
    hide UpdateLogged, Argument, Unique;
    ghost var s, before, start := service.Current(), setting.disk.files, setting.disk.operations;
    ending := Rejects;
    var admitted := service.Admit(req);
    if admitted.Some? {
      var db := Database(service.tasks, service.approvals, service.candidates, service.processes, service.executions);
      var resolved := Resolve(service.cfg, db, req);
      if resolved.Some? {
        ending := Perform(service.cfg, setting, req, now, names);
        if Happened(ending) {
          UpdateHappens(
            service.cfg, setting, s, req, now, names, before, start, setting.disk.files, setting.disk.operations,
            attemptId, ending);
        }
      }
    }
    OneMore(service.cfg, policy, actions, DoRun(0, req, false, now, attemptId, ending));
    service.ExecutionRun(0, req, false, now, attemptId, ending);
  }

  // ---------- two effects on the disk ----------

  /** The only fault is in the digest that an update starting at operation `start` computes for its answer. */
  ghost predicate OnlyLastDigestFails(schedule: nat -> Fault, start: nat) {
    forall k: nat :: start <= k ==> (schedule(k).Works? <==> k != start + 7)
  }

  /**
   The story of one approval on this disk: a valid new content for a managed file, and a validator that accepts it.
   */
  ghost predicate Plays(setting: Setting, files: Files, st: Story) {
    && st.target in setting.targets && setting.targets[st.target] in files
    && ContentValid(setting.blank, st.content) && AcceptsEverything(setting)
  }

  ghost predicate Holds(setting: Setting, files: Files, st: Story) {
    && st.target in setting.targets && setting.targets[st.target] in files
    && files[setting.targets[st.target]] == Encode(st.content)
  }

  ghost predicate NamesNewFor(setting: Setting, files: Files, names: Names) {
    forall targetId :: targetId in setting.targets ==> NamesNew(setting, files, names, setting.targets[targetId])
  }

  lemma {:induction false} RequestPresents(cfg: Config, st: Story)
    ensures Argument(Request(cfg, st), "target_id") == st.target && Argument(Request(cfg, st), "content") == st.content
    ensures Presented(Request(cfg, st)) == Arguments(st) && Unique(Obj(Arguments(st)))
  {
    hide TokenOf;
    ArgumentsKnown(st);
  }

  lemma {:induction false} StoryBegins(cfg: Config, setting: Setting, files: Files, st: Story, now: int)
    requires Tellable(cfg, st) && now <= st.expiresAt && Plays(setting, files, st)
    ensures Begins(cfg, setting, files, Request(cfg, st), now)
  {
    hide TokenAccepted, TokenOf, Arguments, Argument, ContentValid, AcceptsEverything;
    RequestPresents(cfg, st);
    Acceptance(cfg, st, now);
  }

  /** What a run of the update does when nothing fails before its last digest. */
  lemma {:induction false} StoryRuns(
      cfg: Config, setting: Setting, st: Story, now: int, names: Names, before: Files, start: nat, after: Files,
      end: nat, ending: Ending)
    requires Tellable(cfg, st) && now <= st.expiresAt && Plays(setting, before, st)
    requires forall k: nat :: start <= k < start + 7 ==> setting.disk.schedule(k).Works?
    requires Performed(cfg, setting, Request(cfg, st), now, names, before, start, after, end, ending)
    ensures Holds(setting, after, st) && Plays(setting, after, st) && end == start + 8
    ensures var target := setting.targets[st.target];
            && SameOutside(before, after, {target, BackupPath(setting.backupRoot, names.changeId, target)})
            && (if setting.disk.schedule(start + 7).Works? then ending.Succeeds?
                else ending == Crashes(!Holds(setting, before, st)))
  {
    hide Begins, BackupPath, Argument, SameOutside, ContentValid, AcceptsEverything, Encode;
    StoryBegins(cfg, setting, before, st, now);
    RequestPresents(cfg, st);
    assert WorksBetween(setting.disk.schedule, start, start + 7);
  }

  lemma {:induction false} NamesStayNew(setting: Setting, before: Files, after: Files, target: string, backup: string,
      names: Names)
    requires NamesNewFor(setting, before + map[backup := []], names) && target in before
    requires SameOutside(before, after, {target, backup})
    ensures NamesNewFor(setting, after, names)
  {
    hide BackupPath, CandidatePath, RollbackPath;
    assert after.Keys <= (before + map[backup := []]).Keys;
    forall targetId | targetId in setting.targets
      ensures NamesNew(setting, after, names, setting.targets[targetId])
    {
      assert NamesNew(setting, before + map[backup := []], names, setting.targets[targetId]);
    }
  }

  lemma {:induction false} StoryRequested(cfg: Config, st: Story, s: State)
    requires Tellable(cfg, st) && Ready(cfg, st, s)
    ensures Requested(cfg, s.db, Request(cfg, st)).Some?
  {
    hide AdmittedApproval, Resolve, TokenOf, TokenHash, Canonical, Arguments, BrokerManaged;
    Admission(cfg, st, s);
    Resolution(cfg, st, s);
  }

  /** The state after the two runs. */
  lemma {:induction false} TwoEffects(
      cfg: Config, policy: Rules.Policy, actions: seq<Action>, st: Story, first: int, second: int, ending: Ending)
    requires LegalRun(actions) && FromClassifier(cfg.sha, policy, actions)
    requires Tellable(cfg, st) && Ready(cfg, st, After(cfg, actions)) && first <= st.expiresAt && second <= st.expiresAt
    requires Happened(ending)
    ensures var s := After(cfg, actions);
            var once := actions + [DoRun(0, Request(cfg, st), false, first, "attempt-1", Crashes(true))];
            var s2 := After(cfg, once + [DoRun(0, Request(cfg, st), false, second, "attempt-2", ending)]);
            && Ready(cfg, st, After(cfg, once))
            && EffectAt(s2.trace, |s.trace|, st.id) && EffectAt(s2.trace, |s.trace| + 1, st.id)
  {
    hide After, Apply, Ready, EffectAt, Tellable, FromClassifier, Unique, Happened;
    RequestPresents(cfg, st);
    var once := actions + [DoRun(0, Request(cfg, st), false, first, "attempt-1", Crashes(true))];
    OneMore(cfg, policy, actions, DoRun(0, Request(cfg, st), false, first, "attempt-1", Crashes(true)));
    OneMore(cfg, policy, once, DoRun(0, Request(cfg, st), false, second, "attempt-2", ending));
    Again(cfg, st, After(cfg, actions), 0, first, second, ("attempt-1", "attempt-2"), ending);
  }

  /**
   One fault is enough: the approved update is run, raises because its last digest fails, and commits nothing although
   the new content is in place; run again with the same token it succeeds. One approval has had two effects.
   */
  method UpdateTwice(
      service: Service, setting: Setting, st: Story, first: int, second: int, names: Names, later: Names,
      ghost policy: Rules.Policy, ghost actions: seq<Action>)
    returns (one: Ending, two: Ending)
    requires Reached(service, policy, actions) && Tellable(service.cfg, st) && Ready(service.cfg, st, service.Current())
    requires first <= st.expiresAt && second <= st.expiresAt && |service.cfg.secret| >= 32
    requires Plays(setting, setting.disk.files, st)
    requires OnlyLastDigestFails(setting.disk.schedule, setting.disk.operations)
    requires !Holds(setting, setting.disk.files, st)
    requires NamesNewFor(setting, setting.disk.files, names)
    requires var backup := BackupPath(setting.backupRoot, names.changeId, setting.targets[st.target]);
             NamesNewFor(setting, setting.disk.files + map[backup := []], later)
    modifies service, setting.disk
    ensures one == Crashes(true) && two.Succeeds? && Holds(setting, setting.disk.files, st)
    ensures EffectAt(service.trace, |old(service.trace)|, st.id)
    ensures EffectAt(service.trace, |old(service.trace)| + 1, st.id)
  {
    hide ContentValid, AcceptsEverything, Holds, Performed, Ready, Tellable, TokenOf, Arguments, After, Requested;
    hide EffectAt, LegalRun, FromClassifier, DotFree, BackupPath;
    hide NamesNew, Unique, UpdateLogged;
    var req := Request(service.cfg, st);
    RequestPresents(service.cfg, st);
    ghost var before, start := setting.disk.files, setting.disk.operations;
    StoryRequested(service.cfg, st, service.Current());
    one := RunUpdate(service, setting, req, first, "attempt-1", names, policy, actions);
    StoryRuns(service.cfg, setting, st, first, names, before, start, setting.disk.files, setting.disk.operations, one);
    ghost var target := setting.targets[st.target];
    NamesStayNew(setting, before, setting.disk.files, target, BackupPath(setting.backupRoot, names.changeId, target),
      later);
    TwoEffects(service.cfg, policy, actions, st, first, second, one);
    ghost var once := actions + [DoRun(0, req, false, first, "attempt-1", one)];
    StoryRequested(service.cfg, st, service.Current());
    ghost var between, middle := setting.disk.files, setting.disk.operations;
    two := RunUpdate(service, setting, req, second, "attempt-2", later, policy, once);
    StoryRuns(service.cfg, setting, st, second, later, between, middle, setting.disk.files, setting.disk.operations,
      two);
    TwoEffects(service.cfg, policy, actions, st, first, second, two);
  }
}
