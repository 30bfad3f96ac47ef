/** What every run of the approval handlers guarantees. */
module ApprovalSafety {
  import opened Wrappers
  import opened Approvals
  import opened ApprovalRuns
  import opened ApprovalPreservation

  /** The moves a status may make in one step. */
  predicate StatusMove(a: Status, b: Status) {
    a == b
    || (a.Pending? && (b.Approved? || b.Rejected? || b.Cancelled? || b.Expired?))
    || (a.Approved? && (b.Consumed? || b.Expired?))
  }

  predicate Terminal(s: Status) { s.Rejected? || s.Cancelled? || s.Expired? || s.Consumed? }

  /** An approval is executed at most once, and only a consumed one carries an execution time. */
  lemma ExecutedAtMostOnce(run: seq<World>, i: nat, id: string)
    requires Run(run) && i < |run| && id in run[i].rows
    ensures id in run[i].log && |run[i].log[id].executions| <= 1
    ensures run[i].rows[id].executedAt.Some? ==> run[i].rows[id].status == Consumed
    ensures run[i].log[id].executions != [] ==> run[i].rows[id].status == Consumed
  {
    RunKeeps(run, i);
    assert RowSound(run[i].sv.prims, run[i].rows[id], run[i].log[id]);
  }

  /** What one sound row and its history say of an execution. */
  lemma ExecutedRow(pr: Primitives, r: Row, h: History, e: Execution)
    requires RowSound(pr, r, h) && e in h.executions
    ensures |h.decisions| == 1 && |h.consumptions| == 1
    ensures var d, c := h.decisions[0], h.consumptions[0];
            d.decider.username != r.requestedBy && e.actor.username != r.requestedBy
            && d.decider.organization == r.organization && e.actor.organization == r.organization
            && r.approvedBy == Some(d.decider.username) && r.consumedBy == Some(e.actor.username)
            && c.actor == e.actor && c.meta.enabled && c.platform in c.meta.supportedPlatforms
            && RoleAllows(d.decider, c.meta.requiredApprovalRole)
            && r.requiredRole.Some? && RoleAllows(e.actor, r.requiredRole.value)
            && AnyRoleAllows(e.actor, c.meta.executionRoles)
            && e.action == r.payload.action && e.target == r.payload.target && e.dryRun == r.payload.dryRun
            && r.payloadDigest == Some(pr.payloadDigest(r.payload))
            && (r.expiresAt.Some? && r.expiresAt.value.At? ==> c.time <= r.expiresAt.value.time)
  {
    assert e == h.executions[0];
  }

  /**
   * Every execution was approved and consumed by users other than the requester, of sufficient rank
   * and at a moment when the action was enabled and supported, and it carried out exactly the action,
   * target and dry-run flag whose digest was stored with the request.
   */
  lemma ExecutionWasAuthorized(run: seq<World>, i: nat, id: string, e: Execution)
      returns (approver: User, consumption: Consumption)
    requires Run(run) && i < |run| && id in run[i].log && e in run[i].log[id].executions
    ensures id in run[i].rows
    ensures var r := run[i].rows[id];
            approver.username != r.requestedBy && e.actor.username != r.requestedBy
            && approver.organization == r.organization && e.actor.organization == r.organization
            && r.approvedBy == Some(approver.username) && r.consumedBy == Some(e.actor.username)
            && consumption.actor == e.actor && consumption.meta.enabled
            && consumption.platform in consumption.meta.supportedPlatforms
            && RoleAllows(approver, consumption.meta.requiredApprovalRole)
            && r.requiredRole.Some? && RoleAllows(e.actor, r.requiredRole.value)
            && AnyRoleAllows(e.actor, consumption.meta.executionRoles)
            && r.payloadDigest == Some(run[i].sv.prims.payloadDigest(
                 Payload(e.action, e.target, r.payload.incidentId, r.payload.anomalyId, e.dryRun)))
            && (r.expiresAt.Some? && r.expiresAt.value.At? ==> consumption.time <= r.expiresAt.value.time)
  {
    RunKeeps(run, i);
    var h, r := run[i].log[id], run[i].rows[id];
    ExecutedRow(run[i].sv.prims, r, h, e);
    approver, consumption := h.decisions[0].decider, h.consumptions[0];
    assert r.payload == Payload(e.action, e.target, r.payload.incidentId, r.payload.anomalyId, e.dryRun);
  }

  /** The recorded consumption time never exceeds the expiry. */
  lemma ConsumedBeforeExpiry(run: seq<World>, i: nat, id: string)
    requires Run(run) && i < |run| && id in run[i].rows && run[i].rows[id].status.Consumed?
    ensures run[i].rows[id].consumedAt.Some?
    ensures run[i].rows[id].expiresAt.Some? && run[i].rows[id].expiresAt.value.At? ==>
              run[i].rows[id].consumedAt.value <= run[i].rows[id].expiresAt.value.time
  {
    RunKeeps(run, i);
    assert RowSound(run[i].sv.prims, run[i].rows[id], run[i].log[id]);
  }

  lemma BackfillKeepsRow(sv: Service, r: Row, h: History)
    requires RowSound(sv.prims, r, h)
    ensures BackfillRow(sv, r) == r
  {
  }

  /** However often the service restarts, filling in missing values changes no row it inserted. */
  lemma BackfillChangesNothing(sv: Service, rows: Table, log: map<string, History>)
    requires RowsSound(sv.prims, rows, log)
    ensures Backfill(sv, rows) == rows
  {
    forall id | id in rows ensures BackfillRow(sv, rows[id]) == rows[id] {
      BackfillKeepsRow(sv, rows[id], log[id]);
    }
  }

  predicate Blank(o: Option<string>) { o.None? || o.value == "" }

  /** What it takes to consume an approval, independent of the order in which the code checks it. */
  predicate Consumable(sv: Service, rows: Table, id: string, actor: User, expected: Payload,
                       requester: Option<string>, now: int) {
    id in rows && rows[id].organization == actor.organization && rows[id].status == Approved
    && !ExpiredAt(rows[id], now)
    && rows[id].payload == expected && requester == Some(rows[id].requestedBy)
    && actor.username != rows[id].requestedBy
    && expected.action in sv.registry
    && var m := sv.registry[expected.action];
       m.stableKey in sv.registry && m.enabled && sv.platform in m.supportedPlatforms
       && RoleAllows(actor,
                     if Blank(rows[id].requiredRole) then m.requiredApprovalRole else rows[id].requiredRole.value)
       && AnyRoleAllows(actor, m.executionRoles)
       && (Blank(rows[id].approverRole)
           || RoleRank(rows[id].approverRole.value) >= RoleRank(m.requiredApprovalRole))
       && rows[id].payloadDigest == Some(sv.prims.payloadDigest(expected))
       && PreviewDigestOf(sv, expected).Some? && rows[id].previewDigest == PreviewDigestOf(sv, expected)
  }

  /** Authorization succeeds exactly on a consumable approval, and changes that row and no other. */
  lemma AuthorizedIffConsumable(sv: Service, rows: Table, id: string, actor: User, expected: Payload,
                                requester: Option<string>, now: int)
    ensures AuthorizeTxn(sv, rows, id, actor, expected, requester, now).1.None?
       <==> Consumable(sv, rows, id, actor, expected, requester, now)
    ensures var (rows', denial) := AuthorizeTxn(sv, rows, id, actor, expected, requester, now);
            rows'.Keys == rows.Keys && (forall k :: k in rows && k != id ==> rows'[k] == rows[k])
            && (denial.None? ==> rows'[id] == rows[id].(status := Consumed, consumedBy := Some(actor.username),
                                                        consumedAt := Some(now)))
            && (denial.Some? && denial != Some(RequestExpired) ==> rows' == rows)
  {
    var (rows', denial) := AuthorizeTxn(sv, rows, id, actor, expected, requester, now);
    assert id in rows ==> rows'.Keys == rows.Keys;
  }

  lemma DecisionMovesStatus(rows: Table, id: string, u: User, c: Command, reason: string, now: int, k: string)
    requires k in rows
    ensures var rows' := DecisionTxn(rows, id, u, c, reason, now).0;
            k in rows' && SameRequest(rows[k], rows'[k]) && StatusMove(rows[k].status, rows'[k].status)
  {
  }

  lemma AuthorizationMovesStatus(sv: Service, rows: Table, id: string, actor: User, expected: Payload,
                                 requester: Option<string>, now: int, k: string)
    requires k in rows
    ensures var rows' := AuthorizeTxn(sv, rows, id, actor, expected, requester, now).0;
            k in rows' && SameRequest(rows[k], rows'[k]) && StatusMove(rows[k].status, rows'[k].status)
  {
  }

  /** What one step may do to a row. */
  ghost predicate Moves(rows: Table, rows': Table, id: string) {
    id in rows ==> id in rows' && SameRequest(rows[id], rows'[id]) && StatusMove(rows[id].status, rows'[id].status)
  }

  lemma CommitDecisionMoves(w: World, h: nat, id: string)
    requires CanCommitDecision(w, h)
    ensures Moves(w.rows, DoCommitDecision(w, h).rows, id)
  {
    var d := w.handlers[h];
    if id in w.rows { DecisionMovesStatus(w.rows, d.id, d.user, d.command, d.reason, d.now, id); }
  }

  lemma CommitAuthorizationMoves(w: World, h: nat, time: int, id: string)
    requires CanCommitAuthorization(w, h)
    ensures Moves(w.rows, DoCommitAuthorization(w, h, time).rows, id)
  {
    var a := w.handlers[h];
    if id in w.rows { AuthorizationMovesStatus(w.sv, w.rows, a.id, a.user, a.expected, a.requester, time, id); }
  }

  lemma SubmitMoves(w: World, id: string, user: User, p: Payload, now: int, ttl: int, k: string)
    requires CanSubmit(w, id, user, p)
    ensures Moves(w.rows, DoSubmit(w, id, user, p, now, ttl).rows, k)
  {
  }

  lemma RecordMoves(w: World, h: nat, id: string)
    requires CanRecord(w, h)
    ensures Moves(w.rows, DoRecord(w, h).rows, id)
  {
  }

  lemma OnlyTransactionsWrite(w: World, s: Step)
    requires Enabled(w, s)
    requires s.OpenDecision? || s.OpenExecution? || s.Execute? || s.Abort? || s.Reconfigure?
    ensures Apply(w, s).rows == w.rows
  {
  }

  /** No step removes a row, rewrites its request columns or digests, or moves its status otherwise. */
  lemma StepMovesStatus(w: World, s: Step, id: string)
    requires RowsSound(w.sv.prims, w.rows, w.log) && Enabled(w, s)
    ensures Moves(w.rows, Apply(w, s).rows, id)
  {
    match s
    case CommitDecision(h) => CommitDecisionMoves(w, h, id);
    case CommitAuthorization(h, time) => CommitAuthorizationMoves(w, h, time, id);
    case Restart => BackfillChangesNothing(w.sv, w.rows, w.log);
    case Submit(k, user, p, now, ttl) => SubmitMoves(w, k, user, p, now, ttl, id);
    case RecordExecution(h) => RecordMoves(w, h, id);
    case _ => OnlyTransactionsWrite(w, s);
  }

  lemma NextMovesStatus(w: World, w': World, id: string)
    requires Inv(w) && Next(w, w')
    ensures Moves(w.rows, w'.rows, id)
  {
    var s :| Enabled(w, s) && w' == Apply(w, s);
    StepMovesStatus(w, s, id);
  }

  /** Over any stretch of a run the request never changes and a terminal status stays. */
  lemma {:induction false} RequestNeverChanges(run: seq<World>, i: nat, j: nat, id: string)
    requires Run(run) && i <= j < |run| && id in run[i].rows
    ensures id in run[j].rows && SameRequest(run[i].rows[id], run[j].rows[id])
    ensures Terminal(run[i].rows[id].status) ==> run[j].rows[id].status == run[i].rows[id].status
    decreases j
  {
    if i < j {
      RequestNeverChanges(run, i, j - 1, id);
      RunKeeps(run, j - 1);
      assert StepAt(run, j);
      NextMovesStatus(run[j - 1], run[j], id);
    }
  }

  /** Two handlers that race to execute one approval cannot both be authorized. */
  lemma RacingExecutorsOneWins(w: World, g: nat, h: nat, t: int, u: int)
    requires g != h && CanCommitAuthorization(w, g) && CanCommitAuthorization(w, h)
    requires w.handlers[g].id == w.handlers[h].id
    ensures var w1 := DoCommitAuthorization(w, g, t);
            CanCommitAuthorization(w1, h)
            && (w1.handlers[g].Executing? ==> DoCommitAuthorization(w1, h, u).handlers[h] == Finished)
  {
    var a := w.handlers[g];
    var b := w.handlers[h];
    var w1 := DoCommitAuthorization(w, g, t);
    AuthorizedIffConsumable(w.sv, w.rows, a.id, a.user, a.expected, a.requester, t);
    AuthorizedIffConsumable(w1.sv, w1.rows, b.id, b.user, b.expected, b.requester, u);
  }
}
