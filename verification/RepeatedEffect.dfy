/** A run from the empty system in which one approval has two effects. */
module RepeatedEffect {
  import opened Wrappers
  import opened Json
  import opened JsonProofs
  import opened JsonDicts
  import opened Utf8
  import opened Tokens
  import opened ApprovalProtocol
  import opened ApprovalInvariant
  import opened ApprovalBinding
  import opened ApprovalSteps
  import opened ApprovalRuns
  import opened ApprovalEffects

  /** Who asks for which update, who approves it, and the names and clock readings of the run. */
  datatype Story = Story(
    task: string, id: string, requester: string, approver: string, target: string, content: string, nonce: string,
    start: int, expiresAt: int)

  ghost predicate Tellable(cfg: Config, st: Story) {
    && cfg.controlled && DotFree(cfg.mac)
    && st.target in cfg.targets && st.requester != st.approver && st.start < st.expiresAt
  }

  function Arguments(st: Story): seq<Field> {
    [Field("target_id", Str(st.target)), Field("content", Str(st.content))]
  }

  /** The row when its token has been claimed; before that, `claimed` is none. */
  function RowOf(cfg: Config, st: Story, status: Status, claimed: Option<string>): Approval {
    var canonical := Canonical(Obj(Arguments(st)));
    Approval(
      st.task, st.requester, if status == PENDING then None else Some(st.approver), CONFIG_UPDATE, canonical,
      cfg.sha(Encode(canonical)), status, st.expiresAt, claimed)
  }

  function Rows(st: Story, row: Approval): Database {
    Database({st.task}, map[st.id := row], map[], map[], map[])
  }

  function TokenOf(cfg: Config, st: Story): string {
    var scope := Scope(st.requester, st.task, CONFIG_UPDATE, SortKeys(Obj(Arguments(st))));
    TokenText(cfg.mac, cfg.secret, IssuedClaims(cfg.sha, scope, st.expiresAt, st.nonce))
  }

  function Request(cfg: Config, st: Story): RunRequest {
    RunRequest(st.requester, st.task, CONFIG_UPDATE, Arguments(st), TokenOf(cfg, st), false)
  }

  lemma {:induction false} ArgumentsKnown(st: Story)
    ensures Unique(Obj(Arguments(st)))
    ensures KeySet(Arguments(st)) == {"target_id", "content"}
    ensures GetText(Arguments(st), "target_id") == Some(st.target)
    ensures GetText(Arguments(st), "content") == Some(st.content)
  {
    var fs := Arguments(st);
    assert |fs[0].key| == 9 && |fs[1].key| == 7;
    assert fs[0] in fs && fs[1] in fs;
    GetAt(fs, 0);
    GetAt(fs, 1);
  }

  lemma {:induction false} CreationOf(cfg: Config, st: Story)
    requires Tellable(cfg, st)
    ensures var db := Database({st.task}, map[], map[], map[], map[]);
            CreateApproval(cfg, db, st.id, st.requester, st.task, CONFIG_UPDATE, Arguments(st), st.expiresAt, true)
            == Ok(Rows(st, RowOf(cfg, st, PENDING, None)))
  {
    hide Canonical, KeySet, GetText, OnlyText;
    ArgumentsKnown(st);
    ToolsDiffer();
  }

  lemma {:induction false} ToolsDiffer()
    ensures CONFIG_UPDATE != CLEANUP && CONFIG_UPDATE != ROLLBACK && CONFIG_UPDATE != RESTART
    ensures CONFIG_UPDATE != TERMINATE
    ensures CONFIG_UPDATE in TOOLS
  {
    assert |CONFIG_UPDATE| == 18 && |CLEANUP| == 16 && |ROLLBACK| == 15 && |RESTART| == 15 && |TERMINATE| == 17;
  }

  lemma {:induction false} TokenClaimed(cfg: Config, st: Story)
    requires Tellable(cfg, st)
    ensures ClaimedToken(cfg, RowOf(cfg, st, APPROVED, None), st.start, st.nonce) == Some(TokenOf(cfg, st))
  {
    hide TokenText, IssuedClaims, Canonical, Loads, SortKeys, Unique;
    ArgumentsKnown(st);
    CanonicalStable(Obj(Arguments(st)));
  }

  lemma {:induction false} ClaimOf(cfg: Config, st: Story)
    requires Tellable(cfg, st)
    ensures var hash := TokenHash(cfg, TokenOf(cfg, st));
            Claim(cfg, Rows(st, RowOf(cfg, st, APPROVED, None)), st.id, st.requester, st.start, st.nonce)
            == (Rows(st, RowOf(cfg, st, APPROVED, Some(hash))), Ok(TokenOf(cfg, st)))
  {
    hide ClaimedToken, TokenOf, TokenHash, Canonical;
    TokenClaimed(cfg, st);
    var row, hash := RowOf(cfg, st, APPROVED, None), TokenHash(cfg, TokenOf(cfg, st));
    assert map[st.id := row][st.id := row.(tokenHash := Some(hash))] == map[st.id := row.(tokenHash := Some(hash))];
  }

  /** The state after the claim: one approved row with one token. */
  ghost predicate Ready(cfg: Config, st: Story, s: State) {
    s.db == Rows(st, RowOf(cfg, st, APPROVED, Some(TokenHash(cfg, TokenOf(cfg, st)))))
  }

  function Prelude(st: Story): seq<Action> {
    [AddTask(st.task)] + [DoCreate(st.id, st.requester, st.task, CONFIG_UPDATE, Arguments(st), st.expiresAt, true)]
    + [DoApprove(st.id, st.approver, st.start)] + [DoClaim(st.id, st.requester, st.start, st.nonce)]
  }

  lemma {:induction false} Then(cfg: Config, actions: seq<Action>, a: Action)
    ensures After(cfg, actions + [a]) == Apply(cfg, After(cfg, actions), a)
  {
    hide Apply;
    assert (actions + [a])[..|actions + [a]| - 1] == actions;
  }

  lemma {:induction false} PreludeReady(cfg: Config, st: Story)
    requires Tellable(cfg, st)
    ensures Ready(cfg, st, After(cfg, Prelude(st)))
  {
    hide After, CreateApproval, Claim, TokenOf, TokenHash, Canonical, Arguments;
    var a1 := [AddTask(st.task)];
    var a2 := a1 + [DoCreate(st.id, st.requester, st.task, CONFIG_UPDATE, Arguments(st), st.expiresAt, true)];
    var a3 := a2 + [DoApprove(st.id, st.approver, st.start)];
    Started(cfg, st);
    Then(cfg, a1, DoCreate(st.id, st.requester, st.task, CONFIG_UPDATE, Arguments(st), st.expiresAt, true));
    CreationOf(cfg, st);
    Then(cfg, a2, DoApprove(st.id, st.approver, st.start));
    assert After(cfg, a3).db == Rows(st, RowOf(cfg, st, APPROVED, None));
    Then(cfg, a3, DoClaim(st.id, st.requester, st.start, st.nonce));
    ClaimOf(cfg, st);
  }

  lemma {:induction false} Started(cfg: Config, st: Story)
    ensures After(cfg, [AddTask(st.task)]).db == Database({st.task}, map[], map[], map[], map[])
  {
    assert [] + [AddTask(st.task)] == [AddTask(st.task)];
    Then(cfg, [], AddTask(st.task));
    assert After(cfg, []) == Initial();
  }

  lemma {:induction false} Admission(cfg: Config, st: Story, s: State)
    requires Tellable(cfg, st) && Ready(cfg, st, s)
    ensures AdmittedApproval(cfg, s.db, Request(cfg, st)) == Some(st.id)
    ensures !BrokerManaged(cfg, s.db, Request(cfg, st), false)
  {
    hide TokenOf, TokenHash, Canonical, Arguments;
    ToolsDiffer();
    assert st.id in s.db.approvals;
  }

  lemma {:induction false} Resolution(cfg: Config, st: Story, s: State)
    requires Tellable(cfg, st) && Ready(cfg, st, s)
    ensures Resolve(cfg, s.db, Request(cfg, st)) == Some((UpdateConfig(st.target), Arguments(st)))
  {
    hide TokenOf, TokenHash, Canonical, GetText, OnlyText;
    ToolsDiffer();
    ArgumentsKnown(st);
  }

  lemma {:induction false} Acceptance(cfg: Config, st: Story, now: int)
    requires Tellable(cfg, st) && now <= st.expiresAt
    ensures TokenAccepted(cfg, {}, Request(cfg, st), Arguments(st), now)
  {
    hide Outcome, TokenText, SortKeys, Unique, SameValue, ArgumentsHash;
    var issued := Scope(st.requester, st.task, CONFIG_UPDATE, SortKeys(Obj(Arguments(st))));
    var scope := Scope(st.requester, st.task, CONFIG_UPDATE, Obj(Arguments(st)));
    ArgumentsKnown(st);
    SortKeysUnique(Obj(Arguments(st)));
    RereadHash(cfg.sha, Obj(Arguments(st)));
    IssuedTokenAccepted(cfg.sha, cfg.mac, cfg.secret, {}, issued, st.expiresAt, st.nonce, scope, now);
  }

  /** The update is run twice; the first time its effect stands although the call raises. */
  function Repeated(cfg: Config, st: Story, first: int, second: int, ending: Ending): seq<Action> {
    Prelude(st) + [DoRun(0, Request(cfg, st), false, first, "attempt-1", Crashes(true))]
    + [DoRun(0, Request(cfg, st), false, second, "attempt-2", ending)]
  }

  /**
   For every configuration with a managed target there is a legal run from the empty system with two effects under one
   approval: an update whose last digest cannot be computed raises after the new content is in place, commits nothing,
   and can be run again with the same token.
   */
  lemma {:induction false} OneApprovalTwoEffects(cfg: Config, st: Story, first: int, second: int, ending: Ending)
    requires Tellable(cfg, st) && first <= st.expiresAt && second <= st.expiresAt && Happened(ending)
    ensures var s := After(cfg, Repeated(cfg, st, first, second, ending));
            && LegalRun(Repeated(cfg, st, first, second, ending))
            && (exists k :: EffectAt(s.trace, k, st.id) && EffectAt(s.trace, k + 1, st.id))
            && (ending.Crashes? ==> st.id in s.db.approvals && s.db.approvals[st.id].status == APPROVED)
  {
    hide After, TokenOf, TokenHash, Canonical, Arguments, TokenAccepted, Resolve, AdmittedApproval, BrokerManaged;
    hide RunDirect, Unique, Prelude;
    var req := Request(cfg, st);
    var s := After(cfg, Prelude(st));
    PreludeReady(cfg, st);
    Again(cfg, st, s, 0, first, second, ("attempt-1", "attempt-2"), ending);
    Then(cfg, Prelude(st), DoRun(0, req, false, first, "attempt-1", Crashes(true)));
    Then(cfg, Prelude(st) + [DoRun(0, req, false, first, "attempt-1", Crashes(true))],
      DoRun(0, req, false, second, "attempt-2", ending));
    RepeatedIsLegal(cfg, st, first, second, ending);
    hide Apply;
    assert EffectAt(After(cfg, Repeated(cfg, st, first, second, ending)).trace, |s.trace|, st.id);
    hide EffectAt;
  }

  /** From any state with the approved row and its token. */
  lemma {:induction false} Again(
      cfg: Config, st: Story, s: State, session: nat, first: int, second: int, attempts: (string, string),
      ending: Ending)
    requires Tellable(cfg, st) && first <= st.expiresAt && second <= st.expiresAt && Happened(ending)
    requires Ready(cfg, st, s)
    ensures var s1 := Apply(cfg, s, DoRun(session, Request(cfg, st), false, first, attempts.0, Crashes(true)));
            var s2 := Apply(cfg, s1, DoRun(session, Request(cfg, st), false, second, attempts.1, ending));
            && Ready(cfg, st, s1) && |s1.trace| == |s.trace| + 1 && s1.trace < s2.trace
            && EffectAt(s2.trace, |s.trace|, st.id) && EffectAt(s2.trace, |s.trace| + 1, st.id)
            && (ending.Crashes? ==> s2.db == s.db)
  {
    hide TokenOf, TokenHash, Canonical, Arguments, TokenAccepted, Resolve, AdmittedApproval, BrokerManaged, RunDirect;
    hide Unique, Apply, EffectAt;
    Admission(cfg, st, s);
    Resolution(cfg, st, s);
    Acceptance(cfg, st, first);
    Acceptance(cfg, st, second);
    EffectMayRepeat(cfg, s, st.id, Request(cfg, st), session, first, second, attempts, ending);
  }

  lemma {:induction false} RepeatedIsLegal(cfg: Config, st: Story, first: int, second: int, ending: Ending)
    ensures LegalRun(Repeated(cfg, st, first, second, ending))
  {
    hide TokenOf, Unique;
    ArgumentsKnown(st);
  }
}
