/** From the file that the classifier was shown to the file that is deleted. */
module ClassifiedFiles {
  import opened Wrappers
  import opened Json
  import opened JsonProofs
  import opened Utf8
  import opened Tokens
  import opened Paths
  import opened ApprovalProtocol
  import opened ApprovalInvariant
  import opened ApprovalRuns
  import Rules = CleanupRules

  /** What the classifier was shown: a path, the state of the file system, and when. */
  datatype Sighting = Sighting(world: Rules.World, raw: string, use: Rules.UseState, nowNs: int)

  function Target(s: Sighting): Path {
    Rules.TargetOf(s.world, s.raw)
  }

  function SnapshotOf(c: Rules.Candidate): Snapshot {
    Snapshot(c.path, c.size, c.inode, c.device, c.snapshotHash)
  }

  /** The candidate that an executor makes of a row. */
  function CandidateOfRow(id: string, file: Snapshot): Rules.Candidate {
    Rules.Candidate(id, file.path, file.size, file.inode, file.device, file.snapshotHash)
  }

  /** The classifier finds the file eligible, and this is what it freezes. */
  ghost predicate Shows(sha: Sha, policy: Rules.Policy, s: Sighting, file: Snapshot) {
    && s.world.sha == sha && Rules.CleanWorld(s.world) && Rules.Classified(s.world, policy, s.raw, s.use, s.nowNs)
    && file == SnapshotOf(Rules.CandidateOf(sha, Target(s), s.world.kind(Target(s)).meta))
  }

  ghost predicate FileShown(sha: Sha, policy: Rules.Policy, file: Snapshot) {
    exists s :: Shows(sha, policy, s, file)
  }

  /** The candidates that agent runs record come from the classifier. */
  ghost predicate FromClassifier(sha: Sha, policy: Rules.Policy, actions: seq<Action>) {
    forall i :: 0 <= i < |actions| && actions[i].DoRunTask? ==> FileShown(sha, policy, actions[i].finding.snapshot)
  }

  ghost predicate RecordsShown(sha: Sha, policy: Rules.Policy, trace: seq<Event>) {
    forall k :: 0 <= k < |trace| && trace[k].Recorded? ==> FileShown(sha, policy, trace[k].file)
  }

  // ---------- every recorded file was shown to the classifier ----------

  /** The new events record no file. */
  ghost predicate RecordsNothing(s: State, s': State) {
    s.trace <= s'.trace && forall k :: |s.trace| <= k < |s'.trace| ==> !s'.trace[k].Recorded?
  }

  lemma {:induction false} RunRecordsNothing(
      cfg: Config, s: State, session: nat, req: RunRequest, available: bool, now: int, attemptId: string,
      ending: Ending)
    ensures RecordsNothing(s, Apply(cfg, s, DoRun(session, req, available, now, attemptId, ending)))
  {
    hide AdmittedApproval, Resolve, Outcome, Settle, RecordFailure, Failed, BrokerManaged, TargetRef;
    if AdmittedApproval(cfg, s.db, req).Some? {
      AdmittedKnown(cfg, s.db, req);
    }
  }

  lemma {:induction false} AdmittedKnown(cfg: Config, db: Database, req: RunRequest)
    requires AdmittedApproval(cfg, db, req).Some?
    ensures AdmittedApproval(cfg, db, req).value in db.approvals
  {
    hide TokenHash;
  }

  lemma {:induction false} OtherRecordsNothing(cfg: Config, s: State, a: Action)
    requires !a.DoRunTask?
    ensures RecordsNothing(s, Apply(cfg, s, a))
  {
    hide CreateApproval, Approve, Reject, Claim, RecordSuccess, RecordFailure, TargetRef, ReadCall, PrepareHelper;
    hide SelectRow, UpdateHits, BrokerGrant;
    match a {
      case DoRun(session, req, available, now, attemptId, ending) =>
        RunRecordsNothing(cfg, s, session, req, available, now, attemptId, ending);
      case _ =>
    }
  }

  lemma {:induction false} StepRecordsShown(cfg: Config, policy: Rules.Policy, s: State, a: Action)
    requires RecordsShown(cfg.sha, policy, s.trace)
    requires a.DoRunTask? ==> FileShown(cfg.sha, policy, a.finding.snapshot)
    ensures RecordsShown(cfg.sha, policy, Apply(cfg, s, a).trace)
  {
    hide FileShown, RecordCandidate, ScopedCandidateId;
    if a.DoRunTask? {
    } else {
      OtherRecordsNothing(cfg, s, a);
      hide Apply;
    }
  }

  lemma {:induction false} RunRecordsShown(cfg: Config, policy: Rules.Policy, actions: seq<Action>)
    requires FromClassifier(cfg.sha, policy, actions)
    ensures RecordsShown(cfg.sha, policy, After(cfg, actions).trace)
    decreases |actions|
  {
    hide FileShown, Apply;
    if actions != [] {
      var init := actions[..|actions| - 1];
      assert forall i :: 0 <= i < |init| ==> init[i] == actions[i];
      RunRecordsShown(cfg, policy, init);
      StepRecordsShown(cfg, policy, After(cfg, init), actions[|actions| - 1]);
    }
  }

  // ---------- the file is the one that was shown ----------

  /** The path still holds a file with the metadata that the classifier saw, or two snapshots collide. */
  ghost predicate Unchanged(sha: Sha, s: Sighting, late: Rules.World) {
    && s.world.kind(Target(s)).Found? && late.kind(Target(s)).Found?
    && (late.kind(Target(s)).meta == s.world.kind(Target(s)).meta
        || Collision(sha, ArgumentsBytes(Obj(Rules.SnapshotFields(Join(Target(s)), s.world.kind(Target(s)).meta))),
                     ArgumentsBytes(Obj(Rules.SnapshotFields(Join(Target(s)), late.kind(Target(s)).meta)))))
  }

  /** The file was shown to the classifier, and at its path there still is what was frozen then. */
  ghost predicate StillAsShown(sha: Sha, policy: Rules.Policy, file: Snapshot, late: Rules.World) {
    exists s :: Shows(sha, policy, s, file) && Unchanged(sha, s, late)
  }

  lemma {:induction false} FrozenIsUnchanged(sha: Sha, policy: Rules.Policy, id: string, file: Snapshot,
      late: Rules.World)
    requires FileShown(sha, policy, file) && late.sha == sha && Rules.StillFrozen(late, CandidateOfRow(id, file))
    ensures StillAsShown(sha, policy, file, late)
  {
    hide Rules.Classified, Rules.TargetOf, Rules.SnapshotHash, ArgumentsBytes;
    var s :| Shows(sha, policy, s, file);
    TargetOfSighting(sha, policy, s, file);
    Rules.TargetReread(late, Target(s));
    Rules.SnapshotBinds(sha, Join(Target(s)), s.world.kind(Target(s)).meta, Join(Target(s)), late.kind(Target(s)).meta);
    assert Unchanged(sha, s, late);
  }

  lemma {:induction false} TargetOfSighting(sha: Sha, policy: Rules.Policy, s: Sighting, file: Snapshot)
    requires Shows(sha, policy, s, file)
    ensures Clean(Target(s)) && s.world.kind(Target(s)).Found? && s.world.kind(Target(s)).entry == Rules.RegularFile
    ensures file.path == Join(Target(s))
    ensures file.snapshotHash == Rules.SnapshotHash(sha, Join(Target(s)), s.world.kind(Target(s)).meta)
  {
    hide Rules.Guarded, Rules.TargetOf, Rules.SnapshotHash, Rules.EndsWithAny, Rules.ContainsAny;
    hide Rules.LowRiskDisposable;
    Rules.TargetClean(s.world, s.raw);
  }

  // ---------- effects of whole runs ----------

  /**
   The effect at `k` deletes a file that was recorded, for the task of the approval, from what the classifier was shown,
   and that is still as it was then; or its token or its arguments clash with those of the approval.
   */
  ghost predicate DeletionTraced(cfg: Config, policy: Rules.Policy, trace: seq<Event>, k: int, late: Rules.World) {
    exists i, j, m ::
      && EffectTrail(cfg, trace, k, i, j, m) && trace[k].grant.operation.DeleteFile?
      && (Clash(cfg, trace[i], trace[m], trace[k].grant)
          || (var DeleteFile(c, file) := trace[k].grant.operation;
              FileTraced(trace[..k], c, trace[k].grant.taskId, file) && StillAsShown(cfg.sha, policy, file, late)))
  }

  lemma {:induction false} TracedFileShown(sha: Sha, policy: Rules.Policy, trace: seq<Event>, k: int, c: string,
      task: string, file: Snapshot)
    requires RecordsShown(sha, policy, trace) && 0 <= k <= |trace| && FileTraced(trace[..k], c, task, file)
    ensures FileShown(sha, policy, file)
  {
    hide FileShown;
    var n :| RecordedAt(trace[..k], n, c, task, file);
    assert trace[n].Recorded?;
  }

  /** What the deleting step saw at the path is what it compared with the frozen snapshot, so the deletion is traced. */
  lemma {:induction false} FrozenDeletionTraced(cfg: Config, policy: Rules.Policy, actions: seq<Action>, k: int,
      late: Rules.World)
    requires DotFree(cfg.mac) && cfg.controlled && LegalRun(actions) && FromClassifier(cfg.sha, policy, actions)
    requires 0 <= k < |After(cfg, actions).trace| && After(cfg, actions).trace[k].Effect?
    requires var op := After(cfg, actions).trace[k].grant.operation;
             && op.DeleteFile? && (FileShown(cfg.sha, policy, op.file) ==> StillAsShown(cfg.sha, policy, op.file, late))
    ensures DeletionTraced(cfg, policy, After(cfg, actions).trace, k, late)
  {
    hide After, FileShown, FileTraced, StillAsShown, Clash, RecordsShown;
    var trace := After(cfg, actions).trace;
    EffectsWereApproved(cfg, actions, k);
    RunRecordsShown(cfg, policy, actions);
    var i, j, m :| EffectTrail(cfg, trace, k, i, j, m);
    hide SameValue;
    if !Clash(cfg, trace[i], trace[m], trace[k].grant) {
      var DeleteFile(c, file) := trace[k].grant.operation;
      TracedFileShown(cfg.sha, policy, trace, k, c, trace[k].grant.taskId, file);
    }
  }
}
