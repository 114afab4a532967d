/** The DEMO executor: file changes inside a sandbox, each with a backup, and a rollback that moves the backup home. */
module DemoExecutor {
  import opened Wrappers
  import opened Text
  import opened Json
  import opened JsonProofs
  import opened JsonDicts
  import opened Utf8
  import opened Tokens
  import opened FaultyDisk
  import opened CleanupExecutor

  /** The target of a change, and its backup when it changed a file. */
  datatype Change = Change(target: string, backup: Option<string>)

  datatype Sandbox = Sandbox(files: Files, changes: map<string, Change>)

  /** `target.with_suffix(target.suffix + ".tmp")` */
  function Temporary(target: string): string {
    target + ".tmp"
  }

  datatype Step =
    | Cleanup(target: string, backup: string, changeId: string)
    | Update(target: string, content: Bytes, blank: bool, backup: string, changeId: string)
    | NoFile(target: string, changeId: string)

  /** The sandbox after a step, and whether a change was recorded. */
  function Take(s: Sandbox, step: Step): (Sandbox, bool) {
    match step
    case Cleanup(target, backup, id) =>
      if target !in s.files then (s, false)
      else (Sandbox((s.files - {target})[backup := s.files[target]], s.changes[id := Change(target, Some(backup))]),
        true)
    case Update(target, content, blank, backup, id) =>
      if target !in s.files then (s, false)
      else
        var saved := s.files[backup := s.files[target]] - {Temporary(target)};
        if blank then (s.(files := saved), false)
        else (Sandbox(saved[target := content], s.changes[id := Change(target, Some(backup))]), true)
    case NoFile(target, id) => (s.(changes := s.changes[id := Change(target, None)]), true)
  }

  /** `rollback`; an unknown change raises. */
  function Undone(s: Sandbox, changeId: string): Sandbox {
    if changeId !in s.changes then s
    else
      match s.changes[changeId].backup
      case Some(backup) =>
        if backup in s.files then
          var target := s.changes[changeId].target;
          s.(files := (s.files - {backup})[target := s.files[backup]])
        else s
      case None => s
  }

  function TakeAll(s: Sandbox, steps: seq<Step>): Sandbox {
    if steps == [] then s else Take(TakeAll(s, steps[..|steps| - 1]), steps[|steps| - 1]).0
  }

  /** Roll the changes back, the last first. */
  function UndoAll(s: Sandbox, steps: seq<Step>): Sandbox
    decreases |steps|
  {
    if steps == [] then s else UndoAll(Undone(s, steps[|steps| - 1].changeId), steps[..|steps| - 1])
  }

  // ---------- one step ----------

  function Names(step: Step): set<string> {
    match step
    case Cleanup(_, backup, _) => {backup}
    case Update(target, _, _, backup, _) => {backup, Temporary(target)}
    case NoFile(_, _) => {}
  }

  /** A rollback that is repeated changes nothing. */
  lemma {:induction false} UndoneTwice(s: Sandbox, changeId: string)
    requires changeId in s.changes && s.changes[changeId].backup != Some(s.changes[changeId].target)
    ensures Undone(Undone(s, changeId), changeId) == Undone(s, changeId)
  {
  }

  /** Taking a step and rolling it back restores every file, except what was in the way at the temporary name. */
  lemma {:induction false} StepUndone(s: Sandbox, step: Step)
    requires step.changeId !in s.changes
    requires !step.NoFile? ==>
      && step.backup !in s.files && step.backup != step.target && step.backup != Temporary(step.target)
    ensures var r := Take(s, step);
            r.1 ==>
              Undone(r.0, step.changeId).files == if step.Update? then s.files - {Temporary(step.target)} else s.files
  {
    if step.Update? {
      assert Temporary(step.target) != step.target by {
        assert |Temporary(step.target)| == |step.target| + 4;
      }
    }
  }

  // ---------- any number of steps ----------

  /** Backups have new names, and the names of the steps do not clash with any target. */
  ghost predicate WellNamed(s: Sandbox, steps: seq<Step>) {
    && (forall i :: 0 <= i < |steps| ==> steps[i].changeId !in s.changes)
    && (forall i, j :: 0 <= i < j < |steps| ==> steps[i].changeId != steps[j].changeId)
    && (forall i :: 0 <= i < |steps| && !steps[i].NoFile? ==> steps[i].backup !in s.files)
    && (forall i, j :: 0 <= i < j < |steps| && !steps[i].NoFile? && !steps[j].NoFile? ==>
          steps[i].backup != steps[j].backup)
    && (forall i, j :: 0 <= i < |steps| && 0 <= j < |steps| && !steps[i].NoFile? && !steps[j].NoFile? ==>
          steps[j].target !in Names(steps[i]) && steps[i].backup != Temporary(steps[j].target))
  }

  /** Temporaries and backups: the only names whose files a run and its rollback may change. */
  ghost predicate IsName(steps: seq<Step>, p: string) {
    exists i :: 0 <= i < |steps| && p in Names(steps[i])
  }

  ghost predicate IsBackup(steps: seq<Step>, p: string) {
    exists i :: 0 <= i < |steps| && !steps[i].NoFile? && steps[i].backup == p
  }

  ghost predicate HasId(steps: seq<Step>, id: string) {
    exists i :: 0 <= i < |steps| && steps[i].changeId == id
  }

  function ChangeOf(step: Step): Change {
    Change(step.target, if step.NoFile? then None else Some(step.backup))
  }

  /** A recorded change of one of the steps is the one that step made. */
  ghost predicate Recorded(changes: map<string, Change>, steps: seq<Step>) {
    forall i :: 0 <= i < |steps| && steps[i].changeId in changes ==> changes[steps[i].changeId] == ChangeOf(steps[i])
  }

  lemma {:induction false} WellNamedInit(s: Sandbox, steps: seq<Step>)
    requires WellNamed(s, steps) && steps != []
    ensures WellNamed(s, steps[..|steps| - 1])
  {
    var init := steps[..|steps| - 1];
    assert forall i :: 0 <= i < |init| ==> init[i] == steps[i];
  }

  /** Steps add no file but their backups, and no change but their own. */
  lemma {:induction false} Taken(s: Sandbox, steps: seq<Step>)
    requires WellNamed(s, steps)
    ensures forall p :: p in TakeAll(s, steps).files ==> p in s.files || IsBackup(steps, p)
    ensures forall id :: id in TakeAll(s, steps).changes ==> id in s.changes || HasId(steps, id)
    ensures Recorded(TakeAll(s, steps).changes, steps)
    decreases |steps|
  {
    if steps != [] {
      var n := |steps| - 1;
      var init, last := steps[..n], steps[n];
      WellNamedInit(s, steps);
      assert forall i :: 0 <= i < n ==> init[i] == steps[i] && steps[i].changeId != last.changeId;
      assert TakeAll(s, steps) == Take(TakeAll(s, init), last).0;
      Taken(s, init);
      hide WellNamed, TakeAll;
      TakenOnce(TakeAll(s, init), last);
      hide Take;
      TakenGrows(TakeAll(s, init), Take(TakeAll(s, init), last), steps);
      assert forall p :: IsBackup(init, p) ==> IsBackup(steps, p);
      assert forall id :: HasId(init, id) ==> HasId(steps, id);
    }
  }

  lemma {:induction false} TakenGrows(s: Sandbox, r: (Sandbox, bool), steps: seq<Step>)
    requires steps != [] && Recorded(s.changes, steps[..|steps| - 1])
    requires var last := steps[|steps| - 1];
             && (forall i :: 0 <= i < |steps| - 1 ==> steps[i].changeId != last.changeId)
             && r.0.changes == if r.1 then s.changes[last.changeId := ChangeOf(last)] else s.changes
    requires forall i :: 0 <= i < |steps| - 1 ==> steps[..|steps| - 1][i] == steps[i]
    requires steps[|steps| - 1].changeId !in s.changes
    ensures Recorded(r.0.changes, steps)
  {
  }

  lemma {:induction false} TakenOnce(s: Sandbox, step: Step)
    ensures forall p :: p in Take(s, step).0.files ==> p in s.files || (!step.NoFile? && p == step.backup)
    ensures Take(s, step).0.changes == if Take(s, step).1 then s.changes[step.changeId := ChangeOf(step)] else s.changes
  {
  }

  /** Rolling back the same change in two sandboxes that agree outside `lost` keeps them so. */
  lemma {:induction false} UndoneAgree(a: Sandbox, b: Sandbox, step: Step, lost: set<string>)
    requires SameOutside(a.files, b.files, lost)
    requires step.changeId in a.changes <==> step.changeId in b.changes
    requires step.changeId in a.changes ==> a.changes[step.changeId] == b.changes[step.changeId] == ChangeOf(step)
    requires !step.NoFile? ==> step.target !in lost && step.backup !in lost
    ensures SameOutside(Undone(a, step.changeId).files, Undone(b, step.changeId).files, lost)
    ensures Undone(a, step.changeId).changes == a.changes && Undone(b, step.changeId).changes == b.changes
  {
  }

  ghost predicate Apart(steps: seq<Step>, lost: set<string>) {
    forall i :: 0 <= i < |steps| && !steps[i].NoFile? ==> steps[i].target !in lost && steps[i].backup !in lost
  }

  ghost predicate SameIds(a: Sandbox, b: Sandbox, steps: seq<Step>) {
    forall i :: 0 <= i < |steps| ==> (steps[i].changeId in a.changes <==> steps[i].changeId in b.changes)
  }

  lemma {:induction false} UndoAllAgree(a: Sandbox, b: Sandbox, steps: seq<Step>, lost: set<string>)
    requires SameOutside(a.files, b.files, lost) && Apart(steps, lost) && SameIds(a, b, steps)
    requires Recorded(a.changes, steps) && Recorded(b.changes, steps)
    ensures SameOutside(UndoAll(a, steps).files, UndoAll(b, steps).files, lost)
    decreases |steps|
  {
    if steps != [] {
      var n := |steps| - 1;
      var init := steps[..n];
      assert forall i :: 0 <= i < n ==> init[i] == steps[i];
      UndoneAgree(a, b, steps[n], lost);
      hide Undone, SameOutside;
      UndoAllAgree(Undone(a, steps[n].changeId), Undone(b, steps[n].changeId), init, lost);
    }
  }

  /**
   After any sequence of steps, rolling their changes back in reverse order restores every file of the sandbox whose
   name is neither a backup nor the `.tmp` sibling of an updated file; so every target has its first content again.
   */
  lemma {:induction false} RollbackRestores(s: Sandbox, steps: seq<Step>)
    requires WellNamed(s, steps)
    ensures forall p :: !IsName(steps, p) ==>
      (p in UndoAll(TakeAll(s, steps), steps).files <==> p in s.files)
      && (p in s.files ==> UndoAll(TakeAll(s, steps), steps).files[p] == s.files[p])
    decreases |steps|
  {
    if steps != [] {
      var n := |steps| - 1;
      var init, last := steps[..n], steps[n];
      WellNamedInit(s, steps);
      RollbackRestores(s, init);
      Taken(s, init);
      var s1 := TakeAll(s, init);
      var s2 := Undone(Take(s1, last).0, last.changeId);
      LastUndone(s, steps);
      UndoAllAgree(s1, s2, init, Names(last));
      hide Take, TakeAll, Undone, WellNamed;
      forall p | !IsName(steps, p)
        ensures !IsName(init, p) && p !in Names(last)
      {
        assert forall i :: 0 <= i < n ==> init[i] == steps[i];
      }
    }
  }

  /** The last step and its rollback leave a sandbox on which the other rollbacks act alike. */
  lemma {:induction false} LastUndone(s: Sandbox, steps: seq<Step>)
    requires WellNamed(s, steps) && steps != []
    ensures var init, last := steps[..|steps| - 1], steps[|steps| - 1];
            var s1 := TakeAll(s, init);
            var s2 := Undone(Take(s1, last).0, last.changeId);
            && SameOutside(s1.files, s2.files, Names(last)) && Apart(init, Names(last))
            && SameIds(s1, s2, init) && Recorded(s1.changes, init) && Recorded(s2.changes, init)
  {
    var n := |steps| - 1;
    var init, last := steps[..n], steps[n];
    var s1 := TakeAll(s, init);
    WellNamedInit(s, steps);
    Taken(s, init);
    assert forall i :: 0 <= i < n ==> init[i] == steps[i];
    assert !HasId(init, last.changeId);
    assert !last.NoFile? ==> last.backup !in s1.files;
    assert !last.NoFile? ==> last.target !in Names(last);
    TakenOnce(s1, last);
    hide TakeAll, WellNamed;
    LastStep(s1, last);
  }

  lemma {:induction false} LastStep(s: Sandbox, step: Step)
    requires step.changeId !in s.changes
    requires !step.NoFile? ==>
      && step.backup !in s.files && step.backup != step.target && step.target !in Names(step)
      && step.backup != Temporary(step.target)
    ensures SameOutside(s.files, Undone(Take(s, step).0, step.changeId).files, Names(step))
    ensures Undone(Take(s, step).0, step.changeId).changes == Take(s, step).0.changes
  {
    if Take(s, step).1 {
      StepUndone(s, step);
    }
  }

  // ---------- the executor ----------

  class DemoControlledExecutor {
    const root: string
    const approvals: ApprovalTokenManager
    var files: Files
    var candidates: map<string, string>
    var changes: map<string, Change>
    var services: map<string, string>
    var processes: map<int, string>

    constructor (root: string, approvals: ApprovalTokenManager, files: Files)
      ensures this.root == root && this.approvals == approvals && this.files == files && candidates == map[]
      ensures changes == map[]
    {
      this.root, this.approvals, this.files := root, approvals, files;
      candidates, changes := map[], map[];
      services, processes := map["nginx" := "running"], map[4242 := "demo-worker"];
    }

    function Current(): Sandbox
      reads this
    {
      Sandbox(files, changes)
    }

    function BackupPath(unique: string, target: string): string {
      root + "/.backups/" + unique + "-" + Name(target)
    }

    method SafeLogCleanup(candidateId: string, unique: string, changeId: string) returns (done: bool)
      requires candidateId in candidates
      modifies this`files, this`changes
      ensures
        (Current(), done)
        == Take(
             old(Current()), Cleanup(candidates[candidateId], BackupPath(unique, candidates[candidateId]), changeId))
      ensures
        var target, backup := candidates[candidateId], BackupPath(unique, candidates[candidateId]);
        && (done <==> target in old(files))
        && (done ==>
            && backup in files && files[backup] == old(files)[target] && (backup != target ==> target !in files)
            && changes == old(changes)[changeId := Change(target, Some(backup))])
    {
      var target := candidates[candidateId];
      var backup := BackupPath(unique, target);
      if target !in files {
        return false;
      }
      var content := files[target];
      files := files - {target};
      files := files[backup := content];
      changes := changes[changeId := Change(target, Some(backup))];
      return true;
    }

    /** The backup and the temporary file are written before an empty content is refused. */
    method ConfigSafeUpdate(candidateId: string, content: Bytes, blank: bool, unique: string,
        changeId: string)
      returns (done: bool)
      requires candidateId in candidates
      requires BackupPath(unique, candidates[candidateId]) != Temporary(candidates[candidateId])
      modifies this`files, this`changes
      ensures
        (Current(), done)
        == Take(
             old(Current()),
             Update(candidates[candidateId], content, blank, BackupPath(unique, candidates[candidateId]), changeId))
      ensures
        var target, backup := candidates[candidateId], BackupPath(unique, candidates[candidateId]);
        && (done <==> target in old(files) && !blank)
        && (target in old(files) && backup != target ==>
            && backup in files && files[backup] == old(files)[target] && target + ".tmp" !in files && target in files
            && files[target] == if blank then old(files)[target] else content)
    {
      var target := candidates[candidateId];
      var backup, temporary := BackupPath(unique, target), Temporary(target);
      assert |temporary| == |target| + 4;
      if target !in files {
        return false;
      }
      files := files[backup := files[target]];
      files := files[temporary := content];
      ghost var saved := old(files)[backup := old(files)[target]] - {temporary};
      assert files - {temporary} == saved;
      if blank {
        files := files - {temporary};
        return false;
      }
      files := (files - {temporary})[target := content];
      changes := changes[changeId := Change(target, Some(backup))];
      return true;
    }

    method ServiceRestart(service: string, changeId: string)
      modifies this`services, this`changes
      ensures Current() == Take(old(Current()), NoFile(root + "/service-" + service, changeId)).0
      ensures services == old(services)[service := "running"]
    {
      services := services[service := "running"];
      changes := changes[changeId := Change(root + "/service-" + service, None)];
    }

    method TerminateProcess(pid: int, changeId: string)
      modifies this`processes, this`changes
      ensures Current() == Take(old(Current()), NoFile(root + "/process-" + IntText(pid), changeId)).0
      ensures processes == old(processes) - {pid}
    {
      processes := processes - {pid};
      changes := changes[changeId := Change(root + "/process-" + IntText(pid), None)];
    }

    method Rollback(changeId: string) returns (found: bool)
      requires changeId in changes ==> changes[changeId].backup != Some(changes[changeId].target)
      modifies this`files
      ensures found <==> changeId in changes
      ensures Current() == Undone(old(Current()), changeId)
    {
      if changeId !in changes {
        return false;
      }
      var Change(target, backup) := changes[changeId];
      if backup.Some? && backup.value in files {
        var content := files[backup.value];
        if target in files {
          files := files - {target};
        }
        files := (files - {backup.value})[target := content];
      }
      return true;
    }

    /** A cleanup whose verification is made to fail is undone at once. */
    method CleanUpWithFault(candidateId: string, unique: string, changeId: string) returns (done: bool)
      requires candidateId in candidates && changeId !in changes
      requires var target := candidates[candidateId];
               BackupPath(unique, target) !in files + map[target := [], Temporary(target) := []]
      modifies this`files, this`changes
      ensures files == old(files)
      ensures done <==> candidates[candidateId] in old(files)
    {
      var step := Cleanup(candidates[candidateId], BackupPath(unique, candidates[candidateId]), changeId);
      StepUndone(Current(), step);
      done := SafeLogCleanup(candidateId, unique, changeId);
      if done {
        var _ := Rollback(changeId);
      }
    }
  }

  // ---------- the hash of a dry run ----------

  function DryRunHash(sha: Sha, arguments: seq<Field>): string {
    sha(Encode(Dumps(Obj(arguments), true)))
  }

  /**
   The dry run escapes what the approval does not: the texts under the two hashes agree exactly for plain arguments.
   */
  lemma {:induction false} DryRunHashAgrees(sha: Sha, arguments: seq<Field>)
    requires Unique(Obj(arguments))
    ensures Plain(Obj(arguments)) ==> DryRunHash(sha, arguments) == ArgumentsHash(sha, Obj(arguments))
    ensures !Plain(Obj(arguments)) && DryRunHash(sha, arguments) == ArgumentsHash(sha, Obj(arguments)) ==>
      Collision(sha, Encode(Dumps(Obj(arguments), true)), ArgumentsBytes(Obj(arguments)))
  {
    hide Plain, Dumps, Encode, Unique;
    DumpsModesAgree(Obj(arguments));
    if Encode(Dumps(Obj(arguments), true)) == Encode(Dumps(Obj(arguments), false)) {
      EncodeInjective(Dumps(Obj(arguments), true), Dumps(Obj(arguments), false));
    }
  }
}
