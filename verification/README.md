# A verified model of the approved state change

KylinGuard lets an operator change a Linux machine only along one path: a request is hashed and stored, somebody else
approves it, the requester claims a signed token, and then either the API itself or a local broker, through a helper
that runs as root, makes the change. Everything on the way is written to a hash-chained log. This project models that
path and proves what it is for. `dafny verify dfyconfig.toml` checks all of it.

| file | what it models |
|---|---|
| `Json.dfy`, `JsonProofs.dfy`, `JsonDicts.dfy`, `Text.dfy`, `Utf8.dfy`, `Wrappers.dfy` | the JSON text under every hash, with a parser that undoes it, and UTF-8 |
| `BrokerWire.dfy`, `BrokerConnection.dfy` | one JSON object per line between API and broker, for any chunking of the stream, and what the broker reads from it |
| `Tokens.dfy` | signed one-time approval tokens |
| `ApprovalProtocol.dfy` | approval, candidate, process and execution rows; handlers and broker steps as one transition system |
| `ApprovalService.dfy` | the same as code that updates rows, each method proved to make its step of the protocol |
| `ApprovalInvariant.dfy`, `ApprovalBinding.dfy`, `ApprovalSteps.dfy`, `ApprovalRuns.dfy` | the invariant of the protocol and the theorems about whole runs |
| `ApprovalLives.dfy`, `AuthorizedRows.dfy`, `AuthorizedRuns.dfy`, `BrokerGrants.dfy`, `CompletedChanges.dfy` | what becomes of a request, told without the functions of the protocol: what may be asked for, when the row is authorized, when the API or the broker does it, what is written down, and how it can be undone |
| `ApprovalEffects.dfy`, `RepeatedEffect.dfy`, `SpentOperations.dfy` | when an effect is committed, how one approval can have two, and what a success uses up |
| `Audit.dfy`, `AuditContents.dfy`, `Timestamps.dfy` | the audit writer and its verifier, and what the log says |
| `HashedTexts.dfy` | the texts that are hashed and signed, written out |
| `FaultyDisk.dfy` | a file system on which every operation may fail, tear or corrupt, with all its intermediate states |
| `CleanupExecutor.dfy`, `ConfigExecutor.dfy` | cleanup, configuration update and their rollbacks on that file system |
| `Paths.dfy`, `CleanupRules.dfy`, `PrivilegedHelper.dfy` | the path guard, the classifier, and the root helper with its own checks |
| `CleanupRefusals.dfy`, `HelperRefusals.dfy` | which files the classifier and the root helper take, condition by condition |
| `ClassifiedFiles.dfy`, `ExecutionRows.dfy`, `ControlledRun.dfy`, `ControlledRestore.dfy`, `ControlledUpdate.dfy` | whole requests: the rows of the protocol together with classifier, executors and helper |
| `DemoExecutor.dfy` | the sandboxed executor of the DEMO mode |
| `TaskMachine.dfy`, `Planning.dfy`, `RootCauses.dfy`, `Untrusted.dfy` | task states, the plan guard, the ranking of causes, the sanitizer |
| `PlanPromises.dfy`, `RootCauseScores.dfy`, `SanitizedContents.dfy` | what every plan contains, what a returned cause says, and what the sanitizer keeps |

How the proofs talk about things they cannot see into:

- SHA-256 and HMAC are parameters. A theorem about hashes ends in "or a collision" and names two texts that the system
  itself hashed; no injectivity is assumed. HMAC output holds no dot, and a digest has 64 characters where the proof
  needs to tell it from the empty string.
- Every run of the protocol is a list of actions, so a statement about `After(cfg, actions)` covers every interleaving
  of handlers with any number of broker connections, whose helper lookup, SELECT and guarded UPDATE are separate steps.
- Every file operation takes its outcome from a schedule that is an arbitrary function, so a contract covers every
  combination of faults. `history` holds every state the disk was in, also in the middle of a write, so a statement
  about all of it covers every crash point. `WorksBetween(schedule, n, m)` says that no operation from the `n`-th to
  before the `m`-th fails, `OneFault` that at most one does. The error `OSError` stands for every exception that is not
  a ValueError, because the handlers tell only these two apart.

- The theorems about what an operation does name its tools, prefixes, key words and limits themselves, so that they do
  not speak of the model through the function that they are about.

What the proofs found out about the code:

- One approval can have more than one effect, and the proofs say exactly when: a committed effect is the last one of its
  approval, and an effect stays uncommitted if and only if a tool that the API runs itself raised something other than a
  ValueError, or its execution row is refused because an earlier attempt under the approval left one
  (`ApprovalRuns.ApprovalUsedOnce`, `ApprovalEffects.EffectOrigin`, `ApprovalEffects.SecondEffectNeedsFailedCommit`).
  `RepeatedEffect.OneApprovalTwoEffects` gives a run from the empty system, and `ControlledUpdate.UpdateTwice` does it on
  the disk with a single fault.
- A configuration update can raise although the new content stays: the digest for the answer is computed outside the
  `try` (`ConfigExecutor.ControlledConfigExecutor.Execute` says exactly when).
- A candidate that was used up can be deleted again once an agent run of its task finds it again, and not before
  (`SpentOperations.StepKeepsSpent`).
- The rollback of the root helper is not all or nothing, unlike the one of the API: a failed attempt leaves a partial
  target exactly when it got as far as opening it, and then every further attempt is refused
  (`PrivilegedHelper.CleanupRollback`).
- The classifier and the root helper agree except on one kind of file: a regular file in the place of a low-risk
  directory directly below a home (`PrivilegedHelper.EligibleIsAccepted`, `PrivilegedHelper.EligibleButRefused`).
- An edit of the last audit event that also recomputes its hash is not noticed; any other edit is reported at the event
  or at the one after it, or two materials collide (`Audit.EditDetected`).
- `run_task` sets the state of a task without asking the state machine, so terminal states are not final
  (`TaskMachine.TerminalStays`); that EXECUTING was guarded still holds in every run.
- The dry-run hash of the DEMO mode is the hash of the approval only for arguments without characters that one of the
  two serializers escapes (`DemoExecutor.DryRunHashAgrees`).

Where the code and its documents disagree, the model follows the code: `docs/08-安全设计说明.md:72` appends the previous
hash to the hashed text, the code puts it inside (`backend/app/audit/service.py:58-71`); `README.md:26` and
`docs/01-软件功能需求分析.md:34` call READ_ONLY the default mode, the code defaults to CONTROLLED_EXECUTION
(`backend/app/core/config.py:135`); tokens count as single-use, but every request builds a token manager of its own
outside the DEMO mode, so there it is the status of the row that gives single use.

## Model

| member | source | states |
|---|---|---|
| ApprovalRuns.ApprovalUsedOnce | backend/app/executor/broker.py:266-329 | In every interleaving at most one connection returns helper arguments for an approval, a committed effect is the last effect of its approval, and then its row is CONSUMED. |
| ApprovalRuns.UpdateHitsMatchingRow | backend/app/executor/broker.py:311-328 | When the guarded UPDATE hits, the row still agrees with the call in user, task, tool, arguments hash, status and token hash, although SELECT and UPDATE are separate and claims rotate tokens in between; which tool and arguments a call needs, and that this is granted, is `BrokerGrants.GrantedExactly`. |
| BrokerGrants.GrantedExactly | backend/app/executor/broker.py:266-371 | Whatever happens between its three steps, a connection is granted for an approval if and only if the helper row is there, the row is that of a request for exactly the tool and arguments of the call (`service_restart` of nginx, `safe_log_cleanup` of the candidate, `rollback_change` of the change), is approved, claimed with the token of the call and unexpired at the SELECT, and still is at the UPDATE; a grant uses it up and logs one committed effect with tool, arguments and operation, and otherwise nothing changes. |
| BrokerGrants.RequestIsGranted | backend/app/executor/broker.py:266-329 | In every run: who asks for the tool and arguments of a call, has that approved by somebody else and claims it, all in time, gets it done, as long as the row stays as it was claimed; one committed effect is logged. |
| BrokerGrants.GrantedWasRequested | backend/app/executor/broker.py:280-329 | Conversely a granted connection had a request by its user, for its task, of exactly the tool of its call, and with its arguments unless two hashed texts collide. |
| AuthorizedRows.AllowedExact | backend/app/api/router.py:344-397 | What may be requested: one of the five tools, and outside the DEMO mode arguments that name exactly an eligible candidate, an allowed service, a managed target with content, an eligible process, or a standing change of the task. |
| AuthorizedRows.AuthorizedExactly | backend/app/api/router.py:334-532 | Whatever else goes on in between, a row is authorized, with every column as asked, approved and claimed, if and only if the request was allowed, somebody else approved it, both came before it expired and no other row has its token. |
| ApprovalLives.StepMoves | backend/app/api/router.py:472-566 | In every step every row stays as it is or is, by exactly the step that does so and under its conditions, approved, rejected, given another token, expired or used up; no other column changes. |
| ApprovalLives.FinalStays | backend/app/api/router.py:472-566 | In every run a row that was rejected, used up or expired never changes again. |
| ApprovalLives.RejectedForGood | backend/app/api/router.py:536-566 | A rejection works if and only if the row is pending and unexpired; it writes the status and who decided and nothing else; and in every run after it the row stays so, nothing of it can be approved, claimed, admitted, selected or consumed, and no effect of it is logged. |
| ApprovalLives.RequestsStay | backend/app/api/router.py:398-427 | In every run each request stays in the table as it was made, and no two rows have one token. |
| AuthorizedRuns.RoutedExactly | backend/app/api/router.py:1382-1404 | The broker runs restarts, cleanups when it is there, and the rollbacks of the two; the API runs everything else. |
| AuthorizedRuns.AuthorizedIsRun | backend/app/api/router.py:1362-1528 | An authorized request whose rows are still there is run by the API, under its own approval and with the operation that was asked for, if and only if it is not one for the broker and has not expired. |
| AuthorizedRuns.AuthorizedIsHandedOver | backend/app/api/router.py:1379-1460 | A request for the broker leaves the approval as it is: it is remembered with its operation, or, when the broker is not there, written down as failed unless the approval has an attempt already. |
| AuthorizedRuns.FailureIsWritten | backend/app/api/router.py:1530-1575 | A ValueError of a tool that the API runs uses up the approval and adds a failed row that names task, approval, tool and target, or writes nothing when that row cannot be added. |
| AuthorizedRuns.UnfinishedIsWritten | backend/app/api/router.py:1530-1575 | A brokered request that does not succeed leaves a failed row with task, approval, tool and target, or nothing after an exception other than ValueError or when the row cannot be added; the approval is left to the broker. |
| AuthorizedRuns.DemoNonceOnce | backend/app/guardrails/approval.py:53-83 | In every run of the DEMO mode each nonce has at most one effect between two resets, and is consumed from then on. |
| CompletedChanges.ResolvesExactly | backend/app/api/router.py:1412-1528 | The operation of a request, written out for each tool: which row it is read from, and when there is none. |
| CompletedChanges.EndIsWritten | backend/app/api/router.py:1576-1635 | In every run a success other than a rollback uses up exactly its candidate and adds exactly one row with task, approval, tool, target (the path, `systemd:nginx`, `config:` or `process:` and the name), backup and SUCCEEDED, unless the key is taken or the approval has a row; a rollback marks its change; and the approval is used up with it when the API ran the tool. |
| CompletedChanges.CompletedCanBeUndone | backend/app/api/router.py:1470-1528 | In every run, as long as a completed change stands, a rollback of it by its own task may be requested and resolves, told by the operation that ran: to the deleted path and its archive for a cleanup, to the rollback of configuration, process or service for the others, and to nothing exactly for a cleanup or update without a backup; the broker serves it exactly for a restart, and for a cleanup when it is there. |
| CompletedChanges.DemoIsWritten | backend/app/api/router.py:1576-1635 | In the DEMO mode a success adds one row without a target, ROLLED_BACK when a fault was asked for and SUCCEEDED otherwise; a rollback of a known change writes nothing. |
| CompletedChanges.StandsUntilRolledBack | backend/app/api/router.py:1470-1528 | A completed change stands in every step but a success of a rollback of that very change. |
| ApprovalRuns.EffectsWereApproved | backend/app/api/router.py:1362-1635 | Every effect of every run, brokered or not, was preceded in this order by the request, its approval by somebody else and the requester's claim, both before it expired; user, task and tool are those of the request, token, arguments and the expiry check too unless two hashed texts collide; a deleted file was recorded for that task, a restored one was backed up by a cleanup of that task. |
| ApprovalRuns.UndecidedHasNoEffect | backend/app/api/router.py:472-564 | An approval that is pending or was rejected has no effect in any run. |
| ApprovalRuns.GrantsAreLogged | backend/app/executor/broker.py:266-329 | What a granted connection does is one of the effects the other theorems speak about. |
| ApprovalRuns.RunsKeep | backend/app/api/router.py:334-566 | The invariant of the protocol holds after every run. |
| ApprovalRuns.SettledKeeps | backend/app/api/router.py:1530-1635 | Whatever the tool does once its token is consumed, its effect and the rows that are committed, or not, keep the invariant. |
| ApprovalEffects.DirectEffectCommits | backend/app/api/router.py:1405-1635 | Once the token of a tool that the API runs itself is accepted, its effect is committed together with the use of the approval unless the tool raised something other than ValueError, or its new execution row is refused because its key is taken or the approval has an execution row already; if it is not committed, every row is as before. |
| ApprovalEffects.EffectOrigin | backend/app/api/router.py:1362-1635 | Every effect of every run belongs to one action, whose approval was APPROVED before it, and the effect is uncommitted if and only if that action is a direct run whose commit fails in the sense of the row above. |
| ApprovalEffects.SecondEffectNeedsFailedCommit | backend/app/api/router.py:1362-1635 | When an approval has two effects in any run, the first is uncommitted and the commit of the action behind it failed. |
| ApprovalEffects.EffectMayRepeat | backend/app/api/router.py:1530-1560 | From any state where a direct tool is admitted, an effect that an exception other than ValueError hides leaves every row as it was, and the same request has its effect again, whatever comes of it then. |
| ApprovalEffects.RefusalBlocksCommit | backend/app/api/router.py:1530-1560 | After the broker refused a cleanup, the API can still run it without a broker, but cannot commit its effect any more, and the approval stays APPROVED. |
| RepeatedEffect.OneApprovalTwoEffects | backend/app/executor/config_update.py:121-131 | For every configuration with a managed target there is a legal run from the empty system with two effects under one approval. |
| ControlledUpdate.UpdateTwice | backend/app/executor/config_update.py:104-131 | The same on the disk: when the only fault is in the digest computed for the answer, the approved update raises and commits nothing although the new content stands, and run again with the same token it succeeds. |
| ApprovalBinding.AllowedIsRunnable | backend/app/api/router.py:344-397 | A request whose arguments were allowed at its creation resolves to an operation, of which a rollback needs, exactly, a source that says how to undo it; and the executor presents the token with arguments equal to the requested ones. |
| SpentOperations.RecordingIs | backend/app/api/router.py:605-638 | A recording stores the file as it is now, eligible, for the task that recorded it first, and changes no other row. |
| SpentOperations.StepKeepsSpent | backend/app/api/router.py:605-638 | A used candidate stays used in every step if and only if the step does not record it anew; a change that was rolled back stays so. |
| SpentOperations.SpentUntilRecorded | backend/app/api/router.py:605-638 | In every run that does not record it anew, a used candidate stays refused. |
| SpentOperations.TasksKeepApart | backend/app/api/router.py:653-656 | Two tasks whose identifiers differ in their first twelve characters never record one candidate, whatever the classifier calls it. |
| SpentOperations.RolledBackForGood | backend/app/api/router.py:1474-1484 | In every run a change that was rolled back stays rolled back. |
| ApprovalSteps.CreateKeeps | backend/app/api/router.py:334-427 | A creation leaves a row whose stored arguments text and hash are those of the request, and keeps the invariant. |
| ApprovalSteps.ApproveKeeps | backend/app/api/router.py:472-493 | An approval by somebody else than the requester keeps the invariant. |
| ApprovalSteps.ClaimKeeps | backend/app/api/router.py:497-532 | A claim binds the new token hash to a token issued from the stored arguments, and keeps the invariant. |
| ApprovalSteps.RunTaskKeeps | backend/app/api/router.py:605-638 | Recording or refreshing a candidate never changes the task that owns it, and keeps the invariant. |
| ApprovalBinding.ClaimBinds | backend/app/guardrails/approval.py:53-83 | A token claimed for a row is accepted only for arguments with the hash stored in the row, and not after the row expires. |
| ApprovalBinding.NewEffect | backend/app/executor/broker.py:311-328 | An effect under an approved row with its current token hash is bound to the token and arguments of the row, or names the colliding texts. |
| ApprovalInvariant.StepKeeps | backend/app/api/router.py:1405-1635 | A step that only advances rows keeps every trail, phase and committed effect. |
| ApprovalSteps.RejectKeeps | backend/app/api/router.py:536-564 | A rejection of a pending row keeps the invariant; what it writes is `ApprovalLives.RejectedForGood`. |
| ApprovalSteps.ExpireKeeps | backend/app/api/router.py:508-512 | Expiry at a claim keeps the invariant. |
| ApprovalSteps.FailedKeeps | backend/app/api/router.py:1530-1575 | A ValueError of a direct tool, with its consumed row and FAILED execution or neither, keeps the invariant. |
| ApprovalSteps.SuccessTraced | backend/app/api/router.py:1576-1635 | The rows after a success keep owners of candidates and give every execution row its completion event. |
| ApprovalSteps.DirectEffect | backend/app/api/router.py:1362-1406 | The effect of a direct tool is bound to the approved row, its token, arguments and operation. |
| ApprovalRuns.RunDirectKeeps | backend/app/api/router.py:1405-1635 | A direct run keeps the invariant whatever its tool does. |
| ApprovalRuns.ConnectKeeps | backend/app/executor/broker.py:332-370 | The lookup of helper arguments keeps the invariant. |
| ApprovalRuns.SelectKeeps | backend/app/executor/broker.py:315-322 | The SELECT keeps the invariant. |
| ApprovalRuns.UpdateKeeps | backend/app/executor/broker.py:323-329 | The guarded UPDATE keeps the invariant. |
| ApprovalBinding.ResolvedDelete | backend/app/api/router.py:1638-1647 | Although the direct path never looks at the task of the candidate, the file it deletes was recorded for the task of the approval. |
| ApprovalBinding.ResolvedRestore | backend/app/api/router.py:1472-1497 | What a rollback restores was backed up by a cleanup of the same task. |
| ApprovalService.Service.RequestApproval | backend/app/api/router.py:334-427 | The handler makes exactly the creation step, in the order of its checks. |
| ApprovalService.Service.Approve | backend/app/api/router.py:472-493 | The handler makes exactly the approval step: it succeeds if and only if the row is pending, unexpired and of another requester, then sets status and approver of that row and nothing else, and otherwise changes nothing. |
| ApprovalService.Service.Reject | backend/app/api/router.py:536-564 | The handler makes exactly the rejection step: it succeeds if and only if the row is pending and unexpired, then sets status and approver of that row and nothing else, and otherwise changes nothing. |
| ApprovalService.Service.ClaimToken | backend/app/api/router.py:497-532 | The handler makes exactly the claim step: it replaces the token hash, or records expiry and fails. |
| ApprovalService.Service.RecordFindings | backend/app/api/router.py:605-638 | The loop of `run_task` over the eligible findings is the run of one recording action for each. |
| ApprovalService.Service.ExecutionRun | backend/app/api/router.py:1362-1406 | The handler makes exactly the run step: admission by token hash, and the split into brokered and direct tools. |
| ApprovalService.Service.RunTool | backend/app/api/router.py:1405-1635 | Consuming first and undoing that with everything else on other exceptions is the atomic direct step. |
| ApprovalService.Service.Admit | backend/app/api/router.py:1370-1378 | The first check admits exactly the approval that the protocol admits. |
| ApprovalService.Service.EndTool | backend/app/api/router.py:1530-1635 | How the call ends is how the protocol settles it: after an exception other than ValueError all rows are as before, even when the effect stands. |
| ApprovalService.Service.FindByToken | backend/app/api/router.py:1370-1371 | The lookup by token hash finds the one row with it, or none. |
| ApprovalService.Service.FailAttempt | backend/app/api/router.py:1530-1575 | The failed attempt is recorded, or the commit fails and the approvals are as before. |
| ApprovalService.Service.CommitSuccess | backend/app/api/router.py:1576-1635 | Used candidate, rolled-back source and execution row are written together or not at all; which they are is `CompletedChanges.EndIsWritten`. |
| ApprovalService.Service.CompleteExecution | backend/app/api/router.py:1576-1635 | The effect is logged as committed exactly when its rows could be written. |
| ApprovalService.Service.BeginExecution | backend/app/api/router.py:1362-1460 | A brokered request is remembered, or recorded as failed, and the approval stays. |
| ApprovalService.Service.FinishExecution | backend/app/api/router.py:1530-1635 | The rows written after the broker answered are those of the finishing step. |
| ApprovalService.Service.ReadHelperArguments | backend/app/executor/broker.py:266-370 | The lookup of the helper arguments is the first step of a connection. |
| ApprovalService.Service.SelectApproval | backend/app/executor/broker.py:315-322 | The SELECT with its expiry check is the second step; the matching row is unique because token hashes are. That it finds the row of every authorized call is `BrokerGrants.GrantedExactly`. |
| ApprovalService.Service.ConsumeApproval | backend/app/executor/broker.py:323-329 | The guarded UPDATE is the third step, and helper arguments come out exactly when it hits. |
| Tokens.ApprovalTokenManager.Issue | backend/app/guardrails/approval.py:32-83 | The token, whenever and for whatever it is presented, is accepted if and only if its nonce is new, it has not expired, and user, task, tool and arguments hash are those it was issued for. |
| Tokens.ApprovalTokenManager.Consume | backend/app/guardrails/approval.py:53-83 | The outcome is that of the checks in their order; only success adds a nonce to the consumed ones. |
| Tokens.IssuedTokenAccepted | backend/app/guardrails/approval.py:32-83 | A token that was issued is accepted if and only if its nonce is new, it has not expired and the scope is the issued one; equal arguments in any key order are in scope. |
| Tokens.AcceptedTokenBinds | backend/app/guardrails/approval.py:74-81 | An accepted token was issued for that user, task and tool, and for those arguments or colliding ones. |
| Tokens.AuthenticateIssued | backend/app/guardrails/approval.py:49-66 | Splitting at the last dot, checking the signature and reading the payload gives back the claims that were signed. |
| Tokens.NonceAcceptedOnce | backend/app/guardrails/approval.py:68-82 | Over any sequence of calls on one manager each nonce is accepted at most once. |
| JsonProofs.LoadsDumps | backend/app/guardrails/policy.py:112-113 | Parsing undoes printing: what is read back from the text of a value is the value with sorted keys, in both escaping modes. |
| JsonProofs.CanonicalIffSame | backend/app/guardrails/policy.py:112-113 | Two values have the same text if and only if they are the same value up to the order of keys; `True` and `1`, which Python calls equal, have different texts. |
| JsonProofs.CanonicalStable | backend/app/api/router.py:511-517 | Serializing again what was read back gives the same text, so the hash of a claim is the hash of the request. |
| JsonProofs.DumpsModesAgree | backend/app/executor/controlled.py:192-193 | The two escaping modes give the same text if and only if every string is plain. |
| Utf8.EncodeInjective | backend/app/guardrails/approval.py:44 | Different texts have different UTF-8 bytes. |
| BrokerWire.ReceiveLine | backend/app/executor/broker.py:385-394 | For every chunking the line is the one that the whole stream determines. |
| BrokerWire.LineOfExact | backend/app/executor/broker.py:385-394 | A line is received if and only if a newline is among the first 8193 bytes, and it is what stands before the first newline. |
| BrokerWire.CheckRequestExact | backend/app/executor/broker.py:404-425 | The cascade of checks accepts exactly the dicts with version 1 and just the fields of their action. |
| BrokerWire.BuiltIsSendable | backend/app/executor/broker.py:87-134 | Every request the client builds is one the broker's checks accept. |
| BrokerWire.SentIfReceivable | backend/app/executor/broker.py:139-151 | The client refuses to send exactly the requests whose line the broker would not receive. |
| BrokerWire.RequestRoundTrip | backend/app/executor/broker.py:139-151 | A request that fits is received and parsed as the dict that was built, with sorted keys, whatever follows it on the stream. |
| BrokerWire.ServeCall | backend/app/executor/broker.py:237-249 | Client and broker together hand over the request that was built, for every chunking. |
| BrokerConnection.ReadExactly | backend/app/executor/broker.py:266-306 | A call is read from exactly the requests that carry it, with everything it names, and nginx where a service is named. |
| BrokerConnection.CallIsReadBack | backend/app/executor/broker.py:266-306 | Reading the parsed request gives back the call of the client if and only if everything the call names is non-empty. |
| BrokerConnection.Receive | backend/app/executor/broker.py:237-306 | Client, socket and broker: for every chunking the connection gets to the helper arguments of the very call that was made, or is denied when the call names nothing or the tables hold nothing for it. |
| BrokerWire.ReadRequest | backend/app/executor/broker.py:385-425 | Receiving and checking together accept only well-formed requests. |
| Audit.AuditStore.WriteAudit | backend/app/audit/service.py:34-85 | Version bump, hashing over the previous hash, insertion and head update append exactly one linked event, with id, type, actor, task and time of the entry. |
| Audit.AuditStore.VerifyChain | backend/app/audit/service.py:88-110 | The loop accepts exactly the chained logs and names the first event that is not linked. |
| Audit.RunKeepsChain | backend/app/audit/service.py:34-85 | In every run the events are chained as written, each with id, type, actor, task and time of its entry; the head carries the last hash and the version counts the events. |
| AuditContents.EventsTellEntries | backend/app/audit/service.py:19-85 | In every run each event tells its entry: id, type, actor, task and time are the same, and its payload reads back with the same keys, lengths, numbers and texts (as the patterns leave them, cut at 32768 bytes), but for the mark exactly under the keys that name a secret. |
| AuditContents.QueryIsOrdered | backend/app/audit/service.py:88-95 | ORDER BY returns the stored rows, each as often as stored, in the order of time in microseconds and then of identifier. |
| HashedTexts.MaterialText | backend/app/audit/service.py:58-71 | The text that is hashed for an event, entry by entry. |
| HashedTexts.TokenIs | backend/app/guardrails/approval.py:32-51 | A token is the claims as JSON in ASCII, entry by entry, a dot, and the signature of that text. |
| HashedTexts.SnapshotIs | backend/app/agent/cleanup.py:166-174 | A snapshot hash is that of device, inode, modification time, path and size, each under its own name. |
| HashedTexts.FlatDict | backend/app/guardrails/policy.py:112-113 | A dict of numbers and texts, in whatever order, is printed with its entries in the order of their keys, joined by commas without spaces. |
| Audit.TamperEvidence | backend/app/audit/service.py:88-110 | Two accepted logs of any lengths with the same last hash are the same log, or two of their materials collide. |
| Audit.EditDetected | backend/app/audit/service.py:88-110 | Replacing one event of an accepted log: which event is reported, when nothing is, and when there is a collision. |
| Audit.ContentEditDetected | backend/app/audit/service.py:88-110 | An edit that leaves the hash columns alone is reported at exactly that event, or collides. |
| Audit.StoredTamperEvidence | backend/app/audit/service.py:88-110 | Two sets of stored rows that the verifier accepts in the order of its query and that end in the same hash hold the same rows, or two events collide. |
| Audit.StoredEditDetected | backend/app/audit/service.py:88-110 | The edit of a stored row that keeps its place in the order of the query: reported at that row, at the next one, or not at all if there is none; and always at that row when the hash columns are left alone; or two materials collide. |
| Audit.VerifierAcceptsWriter | backend/app/audit/service.py:34-110 | After any run with fresh identifiers the verifier accepts if and only if ORDER BY returns the rows as written, or two written events collide. |
| Audit.IncreasingRunAccepted | backend/app/audit/service.py:34-110 | With strictly increasing clock readings every run is accepted. |
| Audit.MaterialInjective | backend/app/audit/service.py:58-71 | The hashed bytes determine every column of the event and the hash before it. |
| Audit.RedactHides | backend/app/audit/service.py:19-31 | After redaction every value under a key that names a secret is the redaction mark, at any depth. |
| Timestamps.IsoTextInjective | backend/app/audit/service.py:113-118 | Different instants have different texts. |
| Timestamps.IsoTextReads | backend/app/audit/service.py:113-118 | Every field can be read from its place in the text, which has the shape of ISO 8601 with a fraction exactly when it is not zero. |
| CleanupExecutor.ControlledCleanupExecutor.MoveToArchive | backend/app/executor/production.py:89-97 | At every crash point and under every fault the digest is held by the target or its archive; success means it is archived and gone, and without faults it succeeds. |
| CleanupExecutor.ControlledCleanupExecutor.Execute | backend/app/executor/production.py:83-110 | No loss at any point; a return means the file is archived and gone and nothing else changed; a raise means that something failed before the handler, which begins at most four operations before the end, and if nothing fails from there on, or if there was one fault in all, the original digest is at the target and only the archive beside it. |
| CleanupExecutor.ControlledCleanupExecutor.ExecuteApproved | backend/app/executor/production.py:75-110 | A cleanup that succeeds consumed a token in scope for this candidate and found the file still eligible with the frozen snapshot; a refused token or a stale candidate leaves all files alone; without faults nothing else makes it fail, and one fault alone never costs the file. |
| CleanupExecutor.ControlledCleanupExecutor.Restore | backend/app/executor/production.py:189-194 | The target goes from absent to complete in one step, at every crash point, and the archive stays. |
| CleanupExecutor.ControlledCleanupExecutor.UndoMove | backend/app/executor/production.py:98-101 | The handler loses nothing and, when it works, leaves the original digest at the target. |
| CleanupExecutor.ControlledCleanupExecutor.UnpackTo | backend/app/executor/production.py:191-193 | The temporary file is the only one that changes until the rename. |
| CleanupExecutor.ControlledCleanupExecutor.Rollback | backend/app/executor/production.py:112-128 | The archive must be one of this change and the target pass the path guard and be absent, otherwise nothing changes; then the target appears in one step or not at all, under every fault, and holds what the archive unpacks to. |
| CleanupExecutor.ControlledCleanupExecutor.ExecuteRollback | backend/app/executor/production.py:130-164 | The whole call: the token is consumed first, and without faults it succeeds if and only if token, archive, guard and absence of the target are right and the archive unpacks. |
| CleanupExecutor.ControlledCleanupExecutor.ExecuteThenRollback | backend/app/executor/production.py:55-128 | A cleanup and its rollback give back a file with the original digest and change nothing else but the archive; without faults this succeeds if and only if the path still passes the guard. |
| CleanupExecutor.NamesBackupExactly | backend/app/executor/production.py:112-119 | A rollback takes exactly the files of its change that are in the backup directory itself. |
| CleanupExecutor.ArchiveIsNamed | backend/app/executor/production.py:86-116 | The archive of a change is one that the rollback of the same change accepts. |
| ConfigExecutor.ControlledConfigExecutor.SaveBackup | backend/app/executor/config_update.py:100-103 | The backup has the original digest before anything else is written, at every crash point something has it. |
| ConfigExecutor.ControlledConfigExecutor.Install | backend/app/executor/config_update.py:104-113 | The target changes only by a rename of what the validator accepted; success means it was accepted before and after. |
| ConfigExecutor.ControlledConfigExecutor.Undo | backend/app/executor/config_update.py:114-120 | A handler that works leaves the original digest at the target and neither candidate nor rollback file. |
| ConfigExecutor.ControlledConfigExecutor.TryUpdate | backend/app/executor/config_update.py:100-113 | The `try` alone loses nothing at any point: target or backup has the original digest when the handler begins, and it fails only through a fault or the validator. |
| ConfigExecutor.ControlledConfigExecutor.Update | backend/app/executor/config_update.py:100-121 | The `try` with its handler, which begins at most five operations before the end and after a fault or a refusal of the validator: nothing is lost at any point, and if nothing fails from there on, the update happened completely or not at all. |
| ConfigExecutor.ControlledConfigExecutor.Execute | backend/app/executor/config_update.py:96-131 | A return means the target holds the new content, accepted twice, over a good backup; a raise, when nothing fails in the handler or there was one fault in all, means the original digest and no other file than the backup, except exactly when both validations accepted and the last digest failed. |
| ConfigExecutor.ControlledConfigExecutor.ExecuteApproved | backend/app/executor/config_update.py:81-131 | The whole call: an unknown or missing target, an invalid content and a refused token change no file, in this order of checks, and otherwise the call ends as above. |
| ConfigExecutor.ControlledConfigExecutor.CopyBack | backend/app/executor/config_update.py:116-119 | The backup is copied beside the target and renamed over it without losing the digest at any point. |
| ConfigExecutor.ControlledConfigExecutor.PutBack | backend/app/executor/config_update.py:152-160 | The target changes only to what the validator accepted beside it. |
| ConfigExecutor.ControlledConfigExecutor.ExecuteRollback | backend/app/executor/config_update.py:133-169 | After it the target is as before or holds what the validator accepted; success restores the backup. |
| ConfigExecutor.ControlledConfigExecutor.ExecuteRollbackApproved | backend/app/executor/config_update.py:133-169 | The token is consumed first; refused, it changes no file. |
| ConfigExecutor.ControlledConfigExecutor.ExecuteThenRollback | backend/app/executor/config_update.py:81-169 | An update and its rollback give back exactly the files of before, plus the backup. |
| PrivilegedHelper.ValidateCleanupTarget | deploy/kylin_guard_privileged.py:189-212 | The loop over the ancestors and the checks after it accept exactly the targets of the predicate. |
| HelperRefusals.TargetAcceptedExactly | deploy/kylin_guard_privileged.py:189-221 | The helper takes a path if and only if it leads over no link to a regular file below a cleanable directory and no protected one, with an allowed suffix and without a critical term, all of them written out. |
| HelperRefusals.RestoreTargetAcceptedExactly | deploy/kylin_guard_privileged.py:189-221 | A rollback may write to a path if and only if no link on its way leads to anything, and where it leads is below a cleanable directory and no protected one, with a name free of critical terms. |
| HelperRefusals.ChangedArgumentIsRefused | deploy/kylin_guard_privileged.py:112-126 | An accepted request is refused when any one of prefix, size, inode, device, snapshot or backup directory is another one. |
| PrivilegedHelper.CheckRequest | deploy/kylin_guard_privileged.py:112-126 | All arguments are checked against the present file: path, size, inode, device, snapshot hash, backup root. |
| PrivilegedHelper.EligibleIsAccepted | deploy/kylin_guard_privileged.py:112-242 | With the default roots an eligible file is below an allowed root, outside every protected path, and accepted by the helper if and only if it is not a file directly below a home. |
| PrivilegedHelper.AcceptedIsFrozen | deploy/kylin_guard_privileged.py:119-123 | What the helper accepts has the frozen path, size, modification time, inode and device, or two snapshots collide. |
| PrivilegedHelper.SafeLogCleanup | deploy/kylin_guard_privileged.py:112-152 | Refused requests change nothing; no loss at any crash point; exit code 0 means archived and gone; code 73 with the file gone means its archive was verified. |
| PrivilegedHelper.ArchiveAndRemove | deploy/kylin_guard_privileged.py:128-136 | Archive, mode change, check and removal lose nothing at any crash point. |
| PrivilegedHelper.BackupRootExact | deploy/kylin_guard_privileged.py:224-230 | Without links on the way exactly the texts of the expected directory are accepted as backup root. |
| PrivilegedHelper.EligibleButRefused | deploy/kylin_guard_privileged.py:215-221 | For every user name and every policy with the default lists that lets it be found, a regular file `.cache` directly below the home is eligible and refused by the helper. |
| PrivilegedHelper.ValidateRestoreTarget | deploy/kylin_guard_privileged.py:189-212 | For a file that need not exist the loop over the ancestors rejects exactly the links that lead somewhere, and the checks look at what dangling links lead to. |
| PrivilegedHelper.ProtectedIsNotRestored | deploy/kylin_guard_privileged.py:155-212 | Wherever dangling links lead, a rollback does not write to a protected path. |
| PrivilegedHelper.CleanupRollback | deploy/kylin_guard_privileged.py:155-186 | With all checks on backup root, backup and target: a rollback that fails leaves a target if and only if it got as far as opening it; an existing target is always refused. |
| ClassifiedFiles.RunRecordsShown | backend/app/api/router.py:605-638 | Every file that a run records was shown to the classifier and found eligible. |
| ClassifiedFiles.FrozenIsUnchanged | backend/app/agent/cleanup.py:166-231 | A file that still has the frozen snapshot has the path, size, modification time, inode and device that the classifier saw, or two snapshots collide. |
| ClassifiedFiles.FrozenDeletionTraced | backend/app/api/router.py:605-1647 | A deletion in any run whose step found the frozen snapshot is of a file that was recorded for the task of its approval from what the classifier saw, and is unchanged since; or token, arguments or snapshots collide. |
| ControlledRun.ClassifyAll | backend/app/agent/cleanup.py:250-275 | The loop finds exactly the eligible ones among the first hundred files that were listed. |
| ControlledRun.RunTask | backend/app/api/router.py:570-638 | What the classifier finds is what the agent run records. |
| ControlledRun.Delete | backend/app/executor/production.py:55-110 | The executor makes the file go away if and only if it reports that its effect happened, and only with a token in scope and a file that is not open and still eligible and frozen. |
| ControlledRun.RunCleanup | backend/app/api/router.py:1362-1635 | A whole cleanup request without a broker, rows and files: the requested file is gone afterwards if and only if an effect is logged, and then nobody had it open and this effect is traced to the approval, to a recording for its task and to what the classifier saw, unchanged since or colliding; no other file is touched but the archive and the restore file. |
| ControlledRun.RunBrokeredCleanup | backend/app/executor/broker.py:237-329 | The last step of a broker connection and the helper it runs: files change only when the guarded UPDATE hits and the helper accepts, and then the effect is traced in the same way. |
| ExecutionRows.CompletionsKept | backend/app/api/router.py:1576-1635 | In every run each completed change stays in the table, with the target and the backup it was completed with. |
| ExecutionRows.RestoreIsRecorded | backend/app/executor/broker.py:350-370 | What an effect or a connection is traced to restore is what the table says a cleanup of the same task archived, at every later point of the run. |
| ControlledRestore.CleanUp | backend/app/api/router.py:1362-1635 | A whole cleanup request keeps the archive of every other recorded change, unless it was asked to delete that very file, and a completed one adds its own archive with the digest of the file it removed. |
| ControlledRestore.RowsKeep | backend/app/api/router.py:334-1635 | No step of the protocol loses the archive of a recorded change while the disk stays as it is. |
| ControlledRestore.RestoreRecorded | backend/app/executor/production.py:112-164 | The executor makes a file appear if and only if it reports that its effect happened, with the digest that the recorded cleanup archived, and touches no archive. |
| ControlledRestore.RunRestore | backend/app/api/router.py:1470-1502 | A whole rollback request without a broker, rows and files: the file appears if and only if an approved effect is logged, which belongs to a cleanup of the same task, and it has the digest that this cleanup archived. |
| ControlledRestore.RunBrokeredRestore | backend/app/executor/broker.py:237-370 | The last step of a broker connection and the helper it runs, for a rollback: files change only when the guarded UPDATE hits, the effect is approved and of a cleanup of the same task, and what exit code 0 leaves has the digest that this cleanup archived, when the archive is the file that its text names. |
| ControlledUpdate.Perform | backend/app/executor/config_update.py:81-131 | What an update request does to the files, under every schedule of faults, and which ending the handler sees. |
| ControlledUpdate.RunUpdate | backend/app/api/router.py:1447-1461 | A whole update request, rows and files: an effect is logged if and only if the call succeeds or the target is another one afterwards. |
| ControlledUpdate.StoryRuns | backend/app/executor/config_update.py:96-131 | When nothing fails before the last digest, the new content stands and the call succeeds if and only if that digest can be computed. |
| PrivilegedHelper.UnpackOnto | deploy/kylin_guard_privileged.py:163-186 | The write straight onto the target, under every fault. |
| CleanupRules.Resolve | backend/app/guardrails/policy.py:102 | Strict resolution succeeds if and only if nothing on the way is missing. |
| FaultyDisk.Disk.Digest | backend/app/executor/production.py:173-178 | Reading in chunks hashes the whole content. |
| CleanupRules.PathGuard.Validate | backend/app/guardrails/policy.py:92-109 | The walk upwards and the checks after it accept exactly the guarded paths, of files that must exist or need not, and report a symbolic link if and only if there is one on the way. |
| CleanupRefusals.ClassifiedExactly | backend/app/agent/cleanup.py:115-223 | A path yields a candidate if and only if it is guarded and the file is regular, of an allowed suffix, free of forbidden terms and large enough, not open, and, when its use is unknown or it is within the retention days, a temporary file below a low-risk directory. |
| CleanupRefusals.OpenIsRefused | backend/app/agent/cleanup.py:159-160 | An open file never yields a candidate. |
| CleanupRefusals.OneNameFor | backend/app/agent/cleanup.py:166-176 | Two candidates have one name if and only if their snapshot hashes agree in the first 24 digits. |
| CleanupRefusals.GuardedExactly | backend/app/guardrails/policy.py:92-109 | A path is guarded if and only if it has no NUL, nothing on its way is a link or missing, and it leads below an allowed root and below no protected path. |
| CleanupRules.CleanupCandidateClassifier.Reasons | backend/app/agent/cleanup.py:146-163 | No reason is collected if and only if every condition of eligibility holds; an open, irregular or small file gets its own reason. |
| CleanupRules.CleanupCandidateClassifier.Classify | backend/app/agent/cleanup.py:115-194 | A candidate comes out if and only if the path is guarded and the file eligible, never for an open file, and it freezes exactly that file. |
| CleanupRules.CleanupCandidateClassifier.Revalidate | backend/app/agent/cleanup.py:225-231 | A candidate is current if and only if it is still eligible with the same snapshot hash. |
| CleanupRules.CurrentMeansUnchanged | backend/app/agent/cleanup.py:166-231 | A current candidate is the file that was frozen, or two snapshots collide. |
| CleanupRules.SnapshotBinds | backend/app/agent/cleanup.py:166-174 | Equal snapshot hashes mean equal path, size, modification time, inode and device, or a collision. |
| Paths.SplitJoin | deploy/kylin_guard_privileged.py:189-202 | The text of a resolved path names that path again. |
| Paths.DetourIsIdle | backend/app/guardrails/policy.py:102 | Going into a directory and out of it again leads nowhere else. |
| Paths.DotIsIdle | deploy/kylin_guard_privileged.py:189-202 | A single dot and a second slash name the directory itself. |
| Paths.AncestorPassed | backend/app/guardrails/policy.py:97-102 | Every ancestor of a resolved path was passed on the way through the raw one. |
| DemoExecutor.RollbackRestores | backend/app/executor/controlled.py:87-137 | After any sequence of changes, rolling them back in reverse restores every file whose name is neither a backup nor the `.tmp` sibling of an updated file. |
| DemoExecutor.StepUndone | backend/app/executor/controlled.py:87-137 | One change and its rollback give back exactly the files of before, except what an update overwrote at its temporary name. |
| DemoExecutor.UndoneTwice | backend/app/executor/controlled.py:87-103 | A repeated rollback changes nothing. |
| DemoExecutor.DemoControlledExecutor.SafeLogCleanup | backend/app/executor/controlled.py:105-117 | The move into the backup and its record are the cleanup step. |
| DemoExecutor.DemoControlledExecutor.ConfigSafeUpdate | backend/app/executor/controlled.py:119-137 | Backup, temporary file, refusal of empty content and replacement are the update step. |
| DemoExecutor.DemoControlledExecutor.Rollback | backend/app/executor/controlled.py:87-103 | The removal of the target and the move of the backup are the rollback step; an unknown change is refused. |
| DemoExecutor.DemoControlledExecutor.ServiceRestart | backend/app/executor/controlled.py:139-145 | A restart records a change without backup and touches no file. |
| DemoExecutor.DemoControlledExecutor.TerminateProcess | backend/app/executor/controlled.py:147-153 | A termination removes one process, records a change without backup and touches no file. |
| DemoExecutor.DemoControlledExecutor.CleanUpWithFault | backend/app/executor/controlled.py:83-85 | A cleanup whose verification is made to fail leaves the files as they were. |
| DemoExecutor.DryRunHashAgrees | backend/app/executor/controlled.py:45-54 | The dry-run hash is the approval hash for plain arguments; for others equality is a collision. |
| TaskMachine.AgentTask.TransitionTask | backend/app/api/router.py:229-268 | The handler moves the task, numbers and adds the row and bumps the version exactly when the table allows the move. |
| TaskMachine.AgentTask.CancelTask | backend/app/api/router.py:199-225 | Cancelling works in exactly three states and writes no step row. |
| TaskMachine.AgentTask.RunTask | backend/app/api/router.py:639-641 | An agent run assigns its status and bumps the version from any state. |
| TaskMachine.StepsFollowOrder | backend/app/agent/state_machine.py:39-70 | In every run the step rows are numbered 1 to n and follow the one order from RECEIVED. |
| TaskMachine.EndsFrom | backend/app/agent/state_machine.py:39-70 | From which states exactly each end is reached. |
| TaskMachine.ExecutingWasGuarded | backend/app/agent/state_machine.py:39-70 | EXECUTING is reached only after ACTION_GUARD, DRY_RUN, WAITING_APPROVAL, APPROVED and BACKING_UP, in that order. |
| TaskMachine.RolledBackWasVerified | backend/app/agent/state_machine.py:68-69 | ROLLED_BACK comes only after VERIFYING and ROLLING_BACK. |
| TaskMachine.RankDecreases | backend/app/agent/state_machine.py:73-74 | Every move through the machine lowers a rank. |
| TaskMachine.RunsTerminate | backend/app/api/router.py:199-268 | Without agent runs at most eighteen calls change a task. |
| TaskMachine.VersionCounts | backend/app/api/router.py:199-268 | The version counts every call that changed the task. |
| TaskMachine.TerminalStays | backend/app/api/router.py:639-641 | A terminal state is left if and only if an agent run ends in another one. |
| Planning.Planner.Plan | backend/app/agent/planning.py:114-150 | For every reply, or none, the call does not raise; a forbidden goal gives the empty forbidden plan, any other a valid plan whose guarded arguments are fixed: the reply when it passes, else the rules. |
| Planning.Planner.ValidatePlan | backend/app/agent/planning.py:152-175 | A plan passes if and only if goal, registration, risk, policy and required tools are right, and it is returned with its arguments rewritten. |
| Planning.Planner.GuardSteps | backend/app/agent/planning.py:158-171 | The loop accepts exactly the plans whose steps are all guarded. |
| Planning.Planner.NormalizePlanArguments | backend/app/agent/planning.py:244-252 | The loop rewrites exactly the arguments that the guard fixes. |
| Planning.Planner.RuleFallback | backend/app/agent/planning.py:254-295 | The loop over the required tools builds the fallback plan. |
| Planning.FallbackIsValid | backend/app/agent/planning.py:178-313 | The plan of the rules passes its own validation for every allowed goal. |
| PlanPromises.RouteIs | backend/app/agent/planning.py:176-212 | The first topic that a goal touches, in a fixed order, gives intent, complexity and tool; a cleanup about a disk starts with the disk. |
| PlanPromises.PlanHasEvidence | backend/app/agent/planning.py:114-252 | Every plan that comes out, whoever made it, has the evidence that its goal needs: the disk scanned from its root, candidates from the cleanup roots alone, both network tools, a port in range, or the tool of the topic that decides. |
| PlanPromises.PlanIsHarmless | backend/app/agent/planning.py:152-175 | A plan that comes out has the goal, up to space around it, and uses registered tools alone, none above its level of risk and none that runs anything. |
| PlanPromises.FallbackIs | backend/app/agent/planning.py:254-295 | The plan of the rules says what the goal is about, numbers its steps, follows a service with its journal, and is of the second level exactly when it cleans up or uses a tool of that level. |
| RootCauseScores.AnalysisExplains | backend/app/agent/rca.py:20-60 | Every returned cause names all evidence with its words in order, and its confidence is 0.55 of the mean anomaly, 0.25 of the mean temporal score and 0.2 times the weight, plus 0.08 for each of up to three kinds, minus 0.1 for each conflict, cut to [0, 1] and rounded to thousandths; they fall in confidence. |
| RootCauseScores.DiskUsageAt | backend/app/agent/normalization.py:69-82 | The anomaly of a disk scan at the ends, at the warning level and between. |
| RootCauses.MoreUseKeepsDiskPressure | backend/app/agent/rca.py:28-60 | More space in use with all else fixed never lowers the confidence of disk pressure, which stays in [0, 1], and never pushes it out of the top three. |
| RootCauses.Analyze | backend/app/agent/rca.py:28-60 | The loops that group, score and sort compute the ranking, of at most three causes. |
| RootCauses.GroupItem | backend/app/agent/rca.py:30-34 | The inner loop adds an item to every rule it hits, and new rules in table order. |
| RootCauses.RaisedStaysOnTop | backend/app/agent/rca.py:60 | A candidate whose confidence alone grows stays among the best three. |
| RootCauses.PlaceIsAhead | backend/app/agent/rca.py:60 | After the stable sort a candidate stands behind exactly those with a higher confidence, or an equal one and an earlier group. |
| RootCauses.RaisedConfidence | backend/app/agent/rca.py:35-50 | Higher anomalies never lower a rounded confidence. |
| RootCauses.DiskUsageMonotone | backend/app/agent/normalization.py:69-82 | More space in use never lowers the anomaly of a disk scan, which stays in [0, 1]. |
| Untrusted.SanitizedIsBounded | backend/app/guardrails/untrusted.py:22-49 | For any tree: at most nine container levels, lists of at most 200, dicts of at most 201, bounded text, and the redaction under every key that names a secret. |
| SanitizedContents.FittingIsKept | backend/app/guardrails/untrusted.py:22-59 | What fits into nine levels, 200 items, 256 bytes of key and the limit of text is kept as it is, texts as the patterns leave them, with the mark exactly under the keys that name a secret. |
| SanitizedContents.CutIsMarked | backend/app/guardrails/untrusted.py:22-49 | Of a long list the first 200 items are left, a long dict is marked, and what is too deep is replaced. |
| Untrusted.SanitizeTextExact | backend/app/guardrails/untrusted.py:52-59 | Text that fits is only scrubbed; longer text keeps the longest prefix of whole characters that fits, and a marker. |
| Untrusted.SanitizeMapping | backend/app/guardrails/untrusted.py:26-39 | The loop over a mapping with its early exit computes the recursive sanitizer. |
| Utf8.CutKeepsFittingPrefix | backend/app/guardrails/untrusted.py:57-58 | Decoding cut bytes and ignoring errors gives the longest prefix of whole characters (section 3 of RFC 3629). |

## Left out

- HTTP routing, sessions, roles, scrypt, envelopes and event streams: only the row updates of the handlers are modelled; the decision of the policy engine on a goal is a parameter.
- SHA-256, HMAC and gzip internals are parameters; of gzip only that unpacking undoes packing is used.
- Regular expressions, `str.lower`, `str.strip` and keyword lists are parameters; nothing is claimed about what they match. That no registered tool name counts as a generic executor and that `_truncated` names no secret are hypotheses.
- JSON floats, NaN, lone surrogates and the recursion limit of the parser are no part of the values; a token whose signed claims have other types than `issue` writes is reported as APPROVAL_MISTYPED.
- Responses of the broker are not modelled: they may exceed the limit of the reader, so no round trip holds for them.
- Two API handlers do not overlap, except that a brokered `execution_run` is split at the broker call; the availability of the broker is read once for each request; clock readings inside one claim are one reading.
- Audit.EditDetected: leaves open the tail of the log, because `verify_chain` never looks at the head row.
- Processes, sudo, systemctl, the nginx validator, procfs and peer credentials are oracles; service restarts and process termination have rows but no effect of their own.
- Other programs that change files while an executor runs, directories and file modes are no part of the disk; unique names are fresh by hypothesis.
- PrivilegedHelper.CleanupRollback: where `resolve` leads through links and past missing names is a function that the model does not look into; backup directories exist.
- ControlledRun.RunCleanup: the state of the file system that the checks see and the contents on the disk are two parameters, which no proof needs to agree.
- CleanupRules.CleanupCandidateClassifier.Reasons: compares ages in whole nanoseconds, not in the floats of the source.
- RootCauses.MoreUseKeepsDiskPressure: computes with real numbers, not floats; the cut of the evidence at 200 items is left out.
- TaskMachine.RunsTerminate: does not cover `run_task`, which may be called any number of times.
- The MCP providers, the language model client, knowledge search, trends, incidents, configuration drift and schedulers only observe: they write neither an approval nor a managed file, so nothing above depends on them. The frontend calls the same handlers, and the database migrations define the tables that are modelled as maps.
