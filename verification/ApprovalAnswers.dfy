/** What the rows of a run say about the people behind them, and what a refusal means. */
module ApprovalAnswers {
  import opened Wrappers
  import opened Approvals
  import opened ApprovalRuns
  import opened ApprovalPreservation
  import opened ApprovalSafety

  /** The four known roles are ranked viewer, analyst, admin, system; an unknown one ranks below them all. */
  lemma RolesRanked(u: User, minimum: string)
    ensures minimum == "viewer" ==> (RoleAllows(u, minimum) <==> u.role in {"viewer", "analyst", "admin", "system"})
    ensures minimum == "analyst" ==> (RoleAllows(u, minimum) <==> u.role in {"analyst", "admin", "system"})
    ensures minimum == "admin" ==> (RoleAllows(u, minimum) <==> u.role in {"admin", "system"})
    ensures minimum == "system" ==> (RoleAllows(u, minimum) <==> u.role == "system")
    ensures minimum !in {"viewer", "analyst", "admin", "system"} ==> RoleAllows(u, minimum)
  {
  }

  // Requests.

  /** The columns a request of `user` at time `now` is stored with, spelled out. */
  predicate RequestStored(sv: Service, r: Row, user: User, p: Payload, now: int, ttl: int) {
    r.organization == user.organization && r.payload == p
    && r.requestedBy == user.username && r.requesterRole == user.role
    && r.expiresAt == Some(At(now + ttl))
    && p.action in sv.registry
    && var m, target := sv.registry[p.action], sv.prims.validate(p.action, p.target);
       r.actionType == Some(m.actionType) && r.requiredRole == Some(m.requiredApprovalRole)
       && r.payloadDigest == Some(sv.prims.payloadDigest(p))
       && target.Some?
       && r.previewDigest == Some(sv.prims.previewDigest(p, Preview(
            payload := p, canonicalTarget := target.value, actionType := m.actionType,
            requiredRole := m.requiredApprovalRole, hostImpacting := m.hostImpacting,
            disabledHostAction := m.hostImpacting && !m.enabled && !p.dryRun)))
  }

  /** Who may ask: anyone but a viewer, for a known action, a valid target and with one of its request roles. */
  predicate MayRequest(sv: Service, user: User, p: Payload) {
    user.role != "viewer" && p.target != "" && p.action in sv.registry
    && (exists r :: r in sv.registry[p.action].requestRoles && RoleAllows(user, r))
    && sv.registry[p.action].stableKey in sv.registry && sv.prims.validate(p.action, p.target).Some?
  }

  lemma SubmitStores(w: World, id: string, user: User, p: Payload, now: int, ttl: int)
    ensures CanSubmit(w, id, user, p) <==> id !in w.rows && MayRequest(w.sv, user, p)
    ensures CanSubmit(w, id, user, p) ==>
              var rows := DoSubmit(w, id, user, p, now, ttl).rows;
              id in rows && rows[id].status == Pending && RequestStored(w.sv, rows[id], user, p, now, ttl)
  {
  }

  lemma OnlySubmitInserts(w: World, s: Step, id: string)
    requires Enabled(w, s) && id !in w.rows && id in Apply(w, s).rows
    ensures s.Submit? && s.id == id
  {
    if s.CommitDecision? { DecisionInsertsNothing(w, s.h); }
    if s.CommitAuthorization? { AuthorizationInsertsNothing(w, s.h, s.time); }
  }

  lemma DecisionInsertsNothing(w: World, h: nat)
    requires CanCommitDecision(w, h)
    ensures DoCommitDecision(w, h).rows.Keys == w.rows.Keys
  {
  }

  lemma AuthorizationInsertsNothing(w: World, h: nat, time: int)
    requires CanCommitAuthorization(w, h)
    ensures DoCommitAuthorization(w, h, time).rows.Keys == w.rows.Keys
  {
    var a := w.handlers[h];
    AuthorizedIffConsumable(w.sv, w.rows, a.id, a.user, a.expected, a.requester, time);
  }

  lemma NextInserts(w: World, w': World, id: string) returns (user: User, now: int, ttl: int)
    requires Inv(w) && Next(w, w') && id !in w.rows && id in w'.rows
    ensures MayRequest(w.sv, user, w'.rows[id].payload)
    ensures RequestStored(w.sv, w'.rows[id], user, w'.rows[id].payload, now, ttl)
  {
    var s :| Enabled(w, s) && w' == Apply(w, s);
    OnlySubmitInserts(w, s, id);
    SubmitStores(w, id, s.user, s.payload, s.now, s.ttl);
    user, now, ttl := s.user, s.now, s.ttl;
  }

  lemma NextRequest(w: World, w': World, id: string) returns (before: bool, user: User, now: int, ttl: int)
    requires Inv(w) && Next(w, w') && id in w'.rows
    ensures before ==> id in w.rows && SameRequest(w.rows[id], w'.rows[id])
    ensures !before ==>
              MayRequest(w.sv, user, w'.rows[id].payload)
              && RequestStored(w.sv, w'.rows[id], user, w'.rows[id].payload, now, ttl)
  {
    before, user, now, ttl := id in w.rows, User("", "", 0), 0, 0;
    if before {
      NextMovesStatus(w, w', id);
    } else {
      user, now, ttl := NextInserts(w, w', id);
    }
  }

  lemma SameStored(sv: Service, a: Row, b: Row, user: User, now: int, ttl: int)
    requires SameRequest(a, b) && RequestStored(sv, a, user, a.payload, now, ttl)
    ensures a.payload == b.payload && RequestStored(sv, b, user, b.payload, now, ttl)
  {
  }

  /** Every row of a run still says what a user asked for who was allowed to, in some earlier world `j`. */
  lemma {:induction false} RequestWasAllowed(run: seq<World>, i: nat, id: string)
      returns (j: nat, user: User, now: int, ttl: int)
    requires Run(run) && i < |run| && id in run[i].rows
    ensures j < i && MayRequest(run[j].sv, user, run[i].rows[id].payload)
    ensures RequestStored(run[j].sv, run[i].rows[id], user, run[i].rows[id].payload, now, ttl)
  {
    assert i > 0;
    var before;
    RunKeeps(run, i - 1);
    assert StepAt(run, i);
    before, user, now, ttl := NextRequest(run[i - 1], run[i], id);
    if before {
      j, user, now, ttl := RequestWasAllowed(run, i - 1, id);
      SameStored(run[j].sv, run[i - 1].rows[id], run[i].rows[id], user, now, ttl);
    } else {
      j := i - 1;
    }
  }

  /** A new request can be decided up to its expiry, and is marked expired by whoever comes later. */
  lemma DecidableUntilExpiry(w: World, id: string, user: User, p: Payload, now: int, ttl: int, decider: User,
                             c: Command, reason: string, time: int)
    requires CanSubmit(w, id, user, p) && decider.organization == user.organization
    ensures var rows := DoSubmit(w, id, user, p, now, ttl).rows;
            var (after, denial) := DecisionTxn(rows, id, decider, c, reason, time);
            if time <= now + ttl then
              denial.None?
            else
              denial == Some(RequestExpired)
              && after == rows[id := rows[id].(status := Expired, decidedAt := Some(time))]
  {
  }

  // Decisions.

  /** A decision was prepared under the registry entry of the request's own action. */
  predicate PreparedAt(sv: Service, a: string, m: Metadata) { a in sv.registry && m == sv.registry[a] }

  lemma NextDeciding(w: World, w': World, h: nat)
    requires Next(w, w') && h in w'.handlers && w'.handlers[h].Deciding?
    ensures (h in w.handlers && w.handlers[h] == w'.handlers[h])
            || PreparedAt(w.sv, w'.handlers[h].stale.payload.action, w'.handlers[h].meta)
  {
    var s :| Enabled(w, s) && w' == Apply(w, s);
    StepDeciding(w, s, h);
  }

  lemma StepDeciding(w: World, s: Step, h: nat)
    requires Enabled(w, s) && h in Apply(w, s).handlers && Apply(w, s).handlers[h].Deciding?
    ensures var x := Apply(w, s).handlers[h];
            (h in w.handlers && w.handlers[h] == x) || PreparedAt(w.sv, x.stale.payload.action, x.meta)
  {
  }

  lemma {:induction false} DecidingWasPrepared(run: seq<World>, i: nat, h: nat) returns (j: nat)
    requires Run(run) && i < |run| && h in run[i].handlers && run[i].handlers[h].Deciding?
    ensures j < i && PreparedAt(run[j].sv, run[i].handlers[h].stale.payload.action, run[i].handlers[h].meta)
  {
    assert i > 0;
    assert StepAt(run, i);
    NextDeciding(run[i - 1], run[i], h);
    if PreparedAt(run[i - 1].sv, run[i].handlers[h].stale.payload.action, run[i].handlers[h].meta) {
      j := i - 1;
    } else {
      j := DecidingWasPrepared(run, i - 1, h);
    }
  }

  /** A decision in a history stood there before, or is the one a handler has just committed. */
  ghost predicate OldOrCommitted(w: World, log: map<string, History>, id: string, d: Decision) {
    (id in w.log && d in w.log[id].decisions)
    || exists h :: h in w.handlers && w.handlers[h].Deciding? && w.handlers[h].id == id
                   && d == DecisionOf(w.handlers[h])
  }

  lemma CommitDecides(w: World, h: nat, id: string, d: Decision)
    requires CanCommitDecision(w, h)
    requires var log := DoCommitDecision(w, h).log; id in log && d in log[id].decisions
    ensures OldOrCommitted(w, DoCommitDecision(w, h).log, id, d)
  {
  }

  lemma AuthorizationDecidesNothing(w: World, h: nat, time: int, id: string, d: Decision)
    requires CanCommitAuthorization(w, h)
    requires var log := DoCommitAuthorization(w, h, time).log; id in log && d in log[id].decisions
    ensures OldOrCommitted(w, DoCommitAuthorization(w, h, time).log, id, d)
  {
  }

  lemma OthersDecideNothing(w: World, s: Step, id: string, d: Decision)
    requires Enabled(w, s) && !s.CommitDecision? && !s.CommitAuthorization?
    requires id in Apply(w, s).log && d in Apply(w, s).log[id].decisions
    ensures OldOrCommitted(w, Apply(w, s).log, id, d)
  {
  }

  lemma NextDecides(w: World, w': World, id: string, d: Decision)
    requires Next(w, w') && id in w'.log && d in w'.log[id].decisions
    ensures OldOrCommitted(w, w'.log, id, d)
  {
    var s :| Enabled(w, s) && w' == Apply(w, s);
    if s.CommitDecision? {
      CommitDecides(w, s.h, id, d);
    } else if s.CommitAuthorization? {
      AuthorizationDecidesNothing(w, s.h, s.time, id, d);
    } else {
      OthersDecideNothing(w, s, id, d);
    }
  }

  lemma HandlersPayload(w: World, h: nat)
    requires Inv(w) && h in w.handlers && w.handlers[h].Deciding?
    ensures var x := w.handlers[h];
            x.id in w.rows && x.id in w.log && x.stale.payload == w.rows[x.id].payload
  {
    var x := w.handlers[h];
    assert HandlerSound(w.log, x);
    assert RowSound(w.sv.prims, w.rows[x.id], w.log[x.id]);
  }

  /** A decision new in a history was a handler's, about the request as its row says. */
  lemma NewDecision(w: World, w': World, id: string, d: Decision) returns (h: nat)
    requires Inv(w) && Next(w, w') && id in w'.log && d in w'.log[id].decisions
    requires !(id in w.log && d in w.log[id].decisions)
    ensures h in w.handlers && w.handlers[h].Deciding? && w.handlers[h].meta == d.meta
    ensures id in w.rows && w.handlers[h].stale.payload == w.rows[id].payload
  {
    NextDecides(w, w', id, d);
    h :| h in w.handlers && w.handlers[h].Deciding? && w.handlers[h].id == id && d == DecisionOf(w.handlers[h]);
    HandlersPayload(w, h);
  }

  /** One step of a run either committed the decision, or found it there. */
  lemma NextDecision(w: World, w': World, id: string, d: Decision) returns (before: bool, h: nat)
    requires Inv(w) && Next(w, w') && id in w'.log && d in w'.log[id].decisions
    ensures id in w.rows && id in w'.rows && w.rows[id].payload == w'.rows[id].payload
    ensures before ==> id in w.log && d in w.log[id].decisions
    ensures !before ==>
              h in w.handlers && w.handlers[h].Deciding? && w.handlers[h].meta == d.meta
              && w.handlers[h].stale.payload == w'.rows[id].payload
  {
    before, h := id in w.log && d in w.log[id].decisions, 0;
    if !before { h := NewDecision(w, w', id, d); }
    NextMovesStatus(w, w', id);
  }

  lemma {:induction false} DecisionWasPrepared(run: seq<World>, i: nat, id: string, d: Decision) returns (j: nat)
    requires Run(run) && i < |run| && id in run[i].log && d in run[i].log[id].decisions
    ensures j < i && id in run[i].rows && PreparedAt(run[j].sv, run[i].rows[id].payload.action, d.meta)
  {
    assert i > 0;
    RunKeeps(run, i - 1);
    assert StepAt(run, i);
    var before, h := NextDecision(run[i - 1], run[i], id, d);
    if before {
      j := DecisionWasPrepared(run, i - 1, id, d);
    } else {
      j := DecidingWasPrepared(run, i - 1, h);
    }
  }

  /**
   * Every row that is neither pending nor expired was decided by one user of its organization, whose name,
   * role, reason and time it carries: rejected or approved by someone of the rank its action required, not
   * approved by the requester, and cancelled by the requester or an admin.
   */
  lemma DecisionWasAllowed(run: seq<World>, i: nat, id: string) returns (j: nat, d: Decision)
    requires Run(run) && i < |run| && id in run[i].rows
    requires !run[i].rows[id].status.Pending? && !run[i].rows[id].status.Expired?
    ensures id in run[i].log && run[i].log[id].decisions == [d]
    ensures var r := run[i].rows[id];
            (r.status == Rejected <==> d.command == Reject) && (r.status == Cancelled <==> d.command == Cancel)
            && (r.status == Approved || r.status == Consumed <==> d.command == Approve)
            && r.approvedBy == Some(d.decider.username) && r.approverRole == Some(d.decider.role)
            && r.decisionReason == Some(d.reason) && d.reason != "" && r.decidedAt == Some(d.time)
            && d.decider.organization == r.organization
    ensures j < i && run[i].rows[id].payload.action in run[j].sv.registry
    ensures var r, m := run[i].rows[id], run[j].sv.registry[run[i].rows[id].payload.action];
            (r.status != Cancelled ==> RoleAllows(d.decider, m.requiredApprovalRole))
            && (r.status == Cancelled ==> d.decider.username == r.requestedBy || d.decider.role == "admin")
            && (r.status == Approved || r.status == Consumed ==> d.decider.username != r.requestedBy)
  {
    RunKeeps(run, i);
    var h := run[i].log[id];
    assert RowSound(run[i].sv.prims, run[i].rows[id], h);
    d := h.decisions[0];
    j := DecisionWasPrepared(run, i, id, d);
  }

  // Refusals.

  /** What each refusal of an authorization claims. */
  predicate Warranted(denial: Denial, sv: Service, rows: Table, id: string, actor: User, expected: Payload,
                      requester: Option<string>, now: int) {
    if denial.NotFound? then id !in rows || rows[id].organization != actor.organization
    else
      id in rows
      && var r := rows[id];
         if denial.UnsupportedAction? then r.payload.action !in sv.registry
         else
           r.payload.action in sv.registry
           && var m := sv.registry[r.payload.action];
              match denial
              case RegistryInvalid => m.stableKey !in sv.registry
              case RequestExpired => r.status == Approved && r.expiresAt.Some?
                                     && (r.expiresAt.value.At? ==> now > r.expiresAt.value.time)
              case NotApproved => r.status != Approved
              case OwnRequest => r.requestedBy == actor.username
              case RoleRequired => !RoleAllows(actor, m.requiredApprovalRole)
                                   || (r.requiredRole.Some? && !RoleAllows(actor, r.requiredRole.value))
              case ExecutionRoleRequired => forall role :: role in m.executionRoles ==> !RoleAllows(actor, role)
              case ActionDisabled => !m.enabled
              case PlatformUnsupported => sv.platform !in m.supportedPlatforms
              case ApproverRoleInsufficient =>
                r.approverRole.Some? && RoleRank(r.approverRole.value) < RoleRank(m.requiredApprovalRole)
              case RequesterMismatch => requester != Some(r.requestedBy)
              case TargetMismatch => r.payload != expected
              case PayloadDigestMismatch => r.payloadDigest != Some(sv.prims.payloadDigest(expected))
              case InvalidTarget => sv.prims.validate(expected.action, expected.target).None?
              case PreviewDigestMismatch => r.previewDigest != PreviewDigestOf(sv, expected)
              case _ => false
  }

  /** A refused authorization names a condition that does fail. */
  lemma RefusalIsTrue(sv: Service, rows: Table, id: string, actor: User, expected: Payload, requester: Option<string>,
                      now: int)
    ensures var denial := AuthorizeTxn(sv, rows, id, actor, expected, requester, now).1;
            denial.Some? ==> Warranted(denial.value, sv, rows, id, actor, expected, requester, now)
  {
  }

  /** The same for the checks before a decision, which otherwise lets exactly the right users through. */
  lemma PrecheckIsTrue(sv: Service, r: Row, user: User, c: Command, reason: string)
    ensures match DecisionPrecheck(sv, r, user, c, reason)
            case Some(ReasonRequired) => reason == ""
            case Some(UnsupportedAction) => r.payload.action !in sv.registry
            case Some(RoleRequired) =>
              c != Cancel && r.payload.action in sv.registry
              && !RoleAllows(user, sv.registry[r.payload.action].requiredApprovalRole)
            case Some(OwnRequest) => c == Approve && user.username == r.requestedBy
            case Some(CancelNotAllowed) => c == Cancel && user.username != r.requestedBy && user.role != "admin"
            case Some(_) => false
            case None => true
    ensures DecisionPrecheck(sv, r, user, c, reason).None?
            <==> reason != "" && r.payload.action in sv.registry
                 && (c == Cancel ==> user.username == r.requestedBy || user.role == "admin")
                 && (c != Cancel ==> RoleAllows(user, sv.registry[r.payload.action].requiredApprovalRole))
                 && (c == Approve ==> user.username != r.requestedBy)
  {
  }

  /** What a restart fills in on a row an older version left incomplete, and that it keeps all else. */
  lemma BackfillFillsIn(sv: Service, rows: Table, id: string)
    requires id in rows
    ensures id in Backfill(sv, rows) && Backfill(sv, rows).Keys == rows.Keys
    ensures var r, r' := rows[id], Backfill(sv, rows)[id];
            r' == r.(payloadDigest := r'.payloadDigest, previewDigest := r'.previewDigest,
                     actionType := r'.actionType, requiredRole := r'.requiredRole)
            && (if Blank(r.payloadDigest) then r'.payloadDigest == Some(sv.prims.payloadDigest(r.payload))
                else r'.payloadDigest == r.payloadDigest)
            && r'.previewDigest == (if r.previewDigest.Some? then r.previewDigest else PreviewDigestOf(sv, r.payload))
            && (r.actionType.Some? ==> r'.actionType == r.actionType)
            && (r.requiredRole.Some? ==> r'.requiredRole == r.requiredRole)
            && (r.payload.action in sv.registry ==>
                  var m := sv.registry[r.payload.action];
                  (r.actionType.None? ==> r'.actionType == Some(m.actionType))
                  && (r.requiredRole.None? ==> r'.requiredRole == Some(m.requiredApprovalRole)))
  {
  }
}
