/** Every step of the approval handlers keeps the invariant, hence so does every run. */
module ApprovalPreservation {
  import opened Wrappers
  import opened Approvals
  import opened ApprovalRuns

  /** One row and its history change together; every handler keeps what it relies on. */
  lemma RowMoves(pr: Primitives, rows: Table, log: map<string, History>, id: string, r: Row, h: History)
    requires RowsSound(pr, rows, log) && RowSound(pr, r, h)
    ensures RowsSound(pr, rows[id := r], log[id := h])
  {
  }

  /** Handlers do not mind a new request, a status change or a new approval. */
  lemma HandlersKeep(handlers: map<nat, Handler>, log: map<string, History>, id: string, h: History)
    requires HandlersSound(handlers, log)
    requires id in log ==> h.created == log[id].created && h.consumptions == log[id].consumptions
                           && h.executions == log[id].executions
    ensures HandlersSound(handlers, log[id := h])
  {
    forall g | g in handlers ensures HandlerSound(log[id := h], handlers[g]) {
      assert HandlerSound(log, handlers[g]);
    }
  }

  /** A handler that stops, or turns to recording, disturbs no other. */
  lemma HandlerLeaves(handlers: map<nat, Handler>, log: map<string, History>, h: nat, x: Handler)
    requires HandlersSound(handlers, log) && ExecutorsDistinct(handlers)
    requires HandlerSound(log, x) && !x.Executing?
    ensures HandlersSound(handlers[h := x], log) && ExecutorsDistinct(handlers[h := x])
  {
    assert forall g :: g in handlers[h := x] ==> g == h || HandlerSound(log, handlers[g]);
  }

  /** The first consumption of a request gives its handler the only right to execute it. */
  lemma HandlersConsume(handlers: map<nat, Handler>, log: map<string, History>, h: nat, x: Handler, hist: History)
    requires HandlersSound(handlers, log) && ExecutorsDistinct(handlers)
    requires x.Executing? && x.id in log && log[x.id].consumptions == []
    requires hist.created == log[x.id].created && hist.executions == log[x.id].executions
    requires HandlerSound(log[x.id := hist], x)
    ensures HandlersSound(handlers[h := x], log[x.id := hist]) && ExecutorsDistinct(handlers[h := x])
  {
    forall g | g in handlers
      ensures HandlerSound(log[x.id := hist], handlers[g])
      ensures handlers[g].Executing? ==> handlers[g].id != x.id
    {
      assert HandlerSound(log, handlers[g]);
    }
  }

  /** An execution is only known to the handler that performed it. */
  lemma HandlersExecute(handlers: map<nat, Handler>, log: map<string, History>, h: nat, hist: History, now: int)
    requires HandlersSound(handlers, log) && ExecutorsDistinct(handlers)
    requires h in handlers && handlers[h].Executing?
    requires var id := handlers[h].id;
             hist.created == log[id].created && hist.consumptions == log[id].consumptions
    ensures var id := handlers[h].id;
            HandlersSound(handlers[h := Recording(id, now)], log[id := hist])
            && ExecutorsDistinct(handlers[h := Recording(id, now)])
  {
    var id := handlers[h].id;
    assert HandlerSound(log, handlers[h]);
    forall g | g in handlers && g != h ensures HandlerSound(log[id := hist], handlers[g]) {
      assert HandlerSound(log, handlers[g]);
    }
  }

  lemma SubmitKeeps(w: World, id: string, user: User, p: Payload, now: int, ttl: int)
    requires Inv(w) && CanSubmit(w, id, user, p)
    ensures Inv(DoSubmit(w, id, user, p, now, ttl))
  {
    var row := NewRow(w.sv, user, p, now, ttl);
    assert KnownRoles(w.sv.registry[p.action]);
    RowMoves(w.sv.prims, w.rows, w.log, id, row, History(row, [], [], []));
    HandlersKeep(w.handlers, w.log, id, History(row, [], [], []));
  }

  /** A decision turns a sound row into a sound row. */
  lemma DecisionKeepsRow(pr: Primitives, r: Row, h: History, d: Handler)
    requires d.Deciding? && RowSound(pr, r, h) && r.status.Pending?
    requires SameRequest(d.stale, h.created)
    requires DecisionSound(d.stale, DecisionOf(d))
    ensures var r' := r.(status := DecidedStatus(d.command), approvedBy := Some(d.user.username),
                         approverRole := Some(d.user.role), decisionReason := Some(d.reason), decidedAt := Some(d.now));
            var h' := h.(decisions := h.decisions + [DecisionOf(d)]);
            RowSound(pr, r', h')
  {
    assert h.decisions == [];
  }

  lemma ExpiryKeepsRow(pr: Primitives, r: Row, h: History, now: int)
    requires RowSound(pr, r, h)
    ensures RowSound(pr, MarkExpired(r, now), h)
  {
  }

  lemma ExpiryKeepsRows(pr: Primitives, rows: Table, log: map<string, History>, id: string, now: int)
    requires RowsSound(pr, rows, log) && id in rows
    ensures RowsSound(pr, rows[id := MarkExpired(rows[id], now)], log)
  {
    ExpiryKeepsRow(pr, rows[id], log[id], now);
    assert log[id := log[id]] == log;
    RowMoves(pr, rows, log, id, MarkExpired(rows[id], now), log[id]);
  }

  /** What a refused decision leaves behind: the table, or one row marked expired. */
  lemma RefusedKeepsRows(pr: Primitives, rows: Table, log: map<string, History>, id: string, u: User, c: Command,
                         reason: string, now: int)
    requires RowsSound(pr, rows, log) && DecisionTxn(rows, id, u, c, reason, now).1.Some?
    ensures RowsSound(pr, DecisionTxn(rows, id, u, c, reason, now).0, log)
  {
    var (rows', denial) := DecisionTxn(rows, id, u, c, reason, now);
    if rows' != rows { ExpiryKeepsRows(pr, rows, log, id, now); }
  }

  function DecidedRow(r: Row, d: Handler): Row
    requires d.Deciding?
  {
    r.(status := DecidedStatus(d.command), approvedBy := Some(d.user.username), approverRole := Some(d.user.role),
       decisionReason := Some(d.reason), decidedAt := Some(d.now))
  }

  function DecidedHistory(h: History, d: Handler): History
    requires d.Deciding?
  {
    h.(decisions := h.decisions + [DecisionOf(d)])
  }

  lemma DecidedKeeps(w: World, h: nat)
    requires RowsSound(w.sv.prims, w.rows, w.log) && HandlersSound(w.handlers, w.log) && ExecutorsDistinct(w.handlers)
    requires h in w.handlers && w.handlers[h].Deciding?
    requires w.handlers[h].id in w.rows && w.rows[w.handlers[h].id].status.Pending?
    ensures var d := w.handlers[h]; var log := w.log[d.id := DecidedHistory(w.log[d.id], d)];
            RowsSound(w.sv.prims, w.rows[d.id := DecidedRow(w.rows[d.id], d)], log)
            && HandlersSound(w.handlers[h := Finished], log) && ExecutorsDistinct(w.handlers[h := Finished])
  {
    var d := w.handlers[h];
    assert HandlerSound(w.log, d) && RowSound(w.sv.prims, w.rows[d.id], w.log[d.id]);
    DecisionKeepsRow(w.sv.prims, w.rows[d.id], w.log[d.id], d);
    RowMoves(w.sv.prims, w.rows, w.log, d.id, DecidedRow(w.rows[d.id], d), DecidedHistory(w.log[d.id], d));
    HandlersKeep(w.handlers, w.log, d.id, DecidedHistory(w.log[d.id], d));
    HandlerLeaves(w.handlers, w.log[d.id := DecidedHistory(w.log[d.id], d)], h, Finished);
  }

  lemma TakenDecisionKeeps(w: World, h: nat)
    requires Inv(w) && CanCommitDecision(w, h)
    requires var d := w.handlers[h]; DecisionTxn(w.rows, d.id, d.user, d.command, d.reason, d.now).1.None?
    ensures Inv(DoCommitDecision(w, h))
  {
    var d := w.handlers[h];
    DecidedKeeps(w, h);
    assert w.log[d.id := w.log[d.id]] == w.log;
  }

  lemma RefusedDecisionKeeps(w: World, h: nat)
    requires Inv(w) && CanCommitDecision(w, h)
    requires var d := w.handlers[h]; DecisionTxn(w.rows, d.id, d.user, d.command, d.reason, d.now).1.Some?
    ensures Inv(DoCommitDecision(w, h))
  {
    var d := w.handlers[h];
    RefusedKeepsRows(w.sv.prims, w.rows, w.log, d.id, d.user, d.command, d.reason, d.now);
    HandlerLeaves(w.handlers, w.log, h, Finished);
  }

  lemma CommitDecisionKeeps(w: World, h: nat)
    requires Inv(w) && CanCommitDecision(w, h)
    ensures Inv(DoCommitDecision(w, h))
  {
    var d := w.handlers[h];
    if DecisionTxn(w.rows, d.id, d.user, d.command, d.reason, d.now).1.None? {
      TakenDecisionKeeps(w, h);
    } else {
      RefusedDecisionKeeps(w, h);
    }
  }

  /** Consuming an approved row is sound exactly because every check passed. */
  lemma ConsumptionKeepsRow(sv: Service, r: Row, h: History, m: Metadata, a: User, expected: Payload,
                            requester: Option<string>, time: int)
    requires RowSound(sv.prims, r, h) && r.status.Approved? && !ExpiredAt(r, time)
    requires RoleRank(m.requiredApprovalRole) > 0
    requires AuthorizeChecks(sv, r, m, a, expected, requester).None? && r.organization == a.organization
    ensures RowSound(sv.prims, r.(status := Consumed, consumedBy := Some(a.username), consumedAt := Some(time)),
                     h.(consumptions := h.consumptions + [Consumption(a, m, sv.platform, time)]))
  {
    assert h.consumptions == [] && |h.decisions| == 1 && h.decisions[0].command.Approve?;
    assert RoleRank(h.decisions[0].decider.role) > 0;
    assert h.decisions[0].decider.role != "";
  }

  /** What a denied authorization leaves behind: the table, or one row marked expired. */
  lemma DeniedKeepsRows(sv: Service, rows: Table, log: map<string, History>, id: string, a: User, expected: Payload,
                        requester: Option<string>, time: int)
    requires RowsSound(sv.prims, rows, log)
    requires AuthorizeTxn(sv, rows, id, a, expected, requester, time).1.Some?
    ensures RowsSound(sv.prims, AuthorizeTxn(sv, rows, id, a, expected, requester, time).0, log)
  {
    var (rows', denial) := AuthorizeTxn(sv, rows, id, a, expected, requester, time);
    if rows' != rows { ExpiryKeepsRows(sv.prims, rows, log, id, time); }
  }

  /** The registry entry a granted authorization was checked against. */
  lemma GrantedFacts(w: World, h: nat, time: int) returns (m: Metadata)
    requires Inv(w) && CanCommitAuthorization(w, h)
    requires var a := w.handlers[h];
             AuthorizeTxn(w.sv, w.rows, a.id, a.user, a.expected, a.requester, time).1.None?
    ensures var a := w.handlers[h];
            a.id in w.rows && w.rows[a.id].payload.action in w.sv.registry
            && m == w.sv.registry[w.rows[a.id].payload.action] && RoleRank(m.requiredApprovalRole) > 0
            && w.rows[a.id].status.Approved? && !ExpiredAt(w.rows[a.id], time)
            && AuthorizeChecks(w.sv, w.rows[a.id], m, a.user, a.expected, a.requester).None?
            && w.rows[a.id].organization == a.user.organization
  {
    var a := w.handlers[h];
    m := w.sv.registry[w.rows[a.id].payload.action];
    assert KnownRoles(m);
  }

  /** The row and the history of a request after it was consumed. */
  function ConsumedRow(r: Row, a: User, time: int): Row {
    r.(status := Consumed, consumedBy := Some(a.username), consumedAt := Some(time))
  }

  function ConsumedHistory(sv: Service, h: History, m: Metadata, a: User, time: int): History {
    h.(consumptions := h.consumptions + [Consumption(a, m, sv.platform, time)])
  }

  /** The row and its history stay sound, and the handler may execute. */
  lemma ConsumedKeeps(w: World, h: nat, m: Metadata, time: int)
    requires RowsSound(w.sv.prims, w.rows, w.log) && HandlersSound(w.handlers, w.log) && ExecutorsDistinct(w.handlers)
    requires h in w.handlers && w.handlers[h].Authorizing?
    requires var a := w.handlers[h];
             a.id in w.rows && w.rows[a.id].status.Approved? && !ExpiredAt(w.rows[a.id], time)
             && RoleRank(m.requiredApprovalRole) > 0
             && AuthorizeChecks(w.sv, w.rows[a.id], m, a.user, a.expected, a.requester).None?
             && w.rows[a.id].organization == a.user.organization
    ensures var a := w.handlers[h];
            var hist := ConsumedHistory(w.sv, w.log[a.id], m, a.user, time);
            var x := Executing(a.id, a.user, a.stale, a.now);
            RowsSound(w.sv.prims, w.rows[a.id := ConsumedRow(w.rows[a.id], a.user, time)], w.log[a.id := hist])
            && HandlersSound(w.handlers[h := x], w.log[a.id := hist]) && ExecutorsDistinct(w.handlers[h := x])
  {
    var a := w.handlers[h];
    var r, hist := w.rows[a.id], w.log[a.id];
    assert HandlerSound(w.log, a) && RowSound(w.sv.prims, r, hist);
    ConsumptionKeepsRow(w.sv, r, hist, m, a.user, a.expected, a.requester, time);
    var hist' := ConsumedHistory(w.sv, hist, m, a.user, time);
    RowMoves(w.sv.prims, w.rows, w.log, a.id, ConsumedRow(r, a.user, time), hist');
    HandlersConsume(w.handlers, w.log, h, Executing(a.id, a.user, a.stale, a.now), hist');
  }

  /** What a granted authorization makes of the world. */
  lemma GrantedWorld(w: World, h: nat, m: Metadata, time: int)
    requires CanCommitAuthorization(w, h)
    requires var a := w.handlers[h];
             AuthorizeTxn(w.sv, w.rows, a.id, a.user, a.expected, a.requester, time).1.None?
             && a.id in w.rows && a.id in w.log && w.rows[a.id].payload.action in w.sv.registry
             && m == w.sv.registry[w.rows[a.id].payload.action]
    ensures var a := w.handlers[h];
            DoCommitAuthorization(w, h, time)
            == w.(rows := w.rows[a.id := ConsumedRow(w.rows[a.id], a.user, time)],
                  handlers := w.handlers[h := Executing(a.id, a.user, a.stale, a.now)],
                  log := w.log[a.id := ConsumedHistory(w.sv, w.log[a.id], m, a.user, time)])
  {
  }

  lemma GrantedAuthorizationKeeps(w: World, h: nat, time: int)
    requires Inv(w) && CanCommitAuthorization(w, h)
    requires var a := w.handlers[h];
             AuthorizeTxn(w.sv, w.rows, a.id, a.user, a.expected, a.requester, time).1.None?
    ensures Inv(DoCommitAuthorization(w, h, time))
  {
    var m := GrantedFacts(w, h, time);
    ConsumedKeeps(w, h, m, time);
    GrantedWorld(w, h, m, time);
  }

  lemma DeniedAuthorizationKeeps(w: World, h: nat, time: int)
    requires Inv(w) && CanCommitAuthorization(w, h)
    requires var a := w.handlers[h];
             AuthorizeTxn(w.sv, w.rows, a.id, a.user, a.expected, a.requester, time).1.Some?
    ensures Inv(DoCommitAuthorization(w, h, time))
  {
    var a := w.handlers[h];
    DeniedKeepsRows(w.sv, w.rows, w.log, a.id, a.user, a.expected, a.requester, time);
    HandlerLeaves(w.handlers, w.log, h, Finished);
  }

  lemma CommitAuthorizationKeeps(w: World, h: nat, time: int)
    requires Inv(w) && CanCommitAuthorization(w, h)
    ensures Inv(DoCommitAuthorization(w, h, time))
  {
    var a := w.handlers[h];
    if AuthorizeTxn(w.sv, w.rows, a.id, a.user, a.expected, a.requester, time).1.None? {
      GrantedAuthorizationKeeps(w, h, time);
    } else {
      DeniedAuthorizationKeeps(w, h, time);
    }
  }

  lemma ExecuteKeeps(w: World, h: nat)
    requires Inv(w) && CanExecute(w, h)
    ensures Inv(DoExecute(w, h))
  {
    var x := w.handlers[h];
    var p := x.stale.payload;
    assert HandlerSound(w.log, x);
    var hist := w.log[x.id];
    var hist' := hist.(executions := hist.executions + [Execution(x.user, p.action, p.target, p.dryRun)]);
    assert w.rows[x.id := w.rows[x.id]] == w.rows;
    assert RowSound(w.sv.prims, w.rows[x.id], hist');
    RowMoves(w.sv.prims, w.rows, w.log, x.id, w.rows[x.id], hist');
    HandlersExecute(w.handlers, w.log, h, hist', x.now);
  }

  lemma RecordExecutionKeeps(w: World, h: nat)
    requires Inv(w) && CanRecord(w, h)
    ensures Inv(DoRecord(w, h))
  {
    var x := w.handlers[h];
    assert HandlerSound(w.log, x);
    assert w.log[x.id := w.log[x.id]] == w.log;
    RowMoves(w.sv.prims, w.rows, w.log, x.id, w.rows[x.id].(executedAt := Some(x.now)), w.log[x.id]);
    HandlerLeaves(w.handlers, w.log, h, Finished);
  }

  lemma OpenDecisionKeeps(w: World, h: nat, id: string, user: User, c: Command, reason: string, now: int)
    requires Inv(w) && CanOpenDecision(w, h, id, user, c, reason)
    ensures Inv(DoOpenDecision(w, h, id, user, c, reason, now))
  {
  }

  lemma OpenExecutionKeeps(w: World, h: nat, id: string, user: User, expected: Payload, requester: Option<string>,
                           now: int)
    requires Inv(w) && Opens(w, h, id, user)
    ensures Inv(DoOpenExecution(w, h, id, user, expected, requester, now))
  {
  }

  lemma AbortKeeps(w: World, h: nat)
    requires Inv(w) && h in w.handlers
    ensures Inv(w.(handlers := w.handlers[h := Finished]))
  {
  }

  lemma RestartKeeps(w: World)
    requires Inv(w)
    ensures Inv(w.(rows := Backfill(w.sv, w.rows)))
  {
  }

  lemma ReconfigureKeeps(w: World, reg: map<string, Metadata>, platform: string)
    requires Inv(w) && RegistryKnown(reg)
    ensures Inv(w.(sv := w.sv.(registry := reg, platform := platform)))
  {
  }

  lemma TransactionKeeps(w: World, s: Step)
    requires Inv(w) && Enabled(w, s)
    requires s.CommitDecision? || s.CommitAuthorization? || s.Execute? || s.RecordExecution?
    ensures Inv(Apply(w, s))
  {
    match s
    case CommitDecision(h) => CommitDecisionKeeps(w, h);
    case CommitAuthorization(h, time) => CommitAuthorizationKeeps(w, h, time);
    case Execute(h) => ExecuteKeeps(w, h);
    case RecordExecution(h) => RecordExecutionKeeps(w, h);
  }

  lemma ReadingKeeps(w: World, s: Step)
    requires Inv(w) && Enabled(w, s)
    requires s.OpenDecision? || s.OpenExecution?
    ensures Inv(Apply(w, s))
  {
    match s
    case OpenDecision(h, id, user, c, reason, now) => OpenDecisionKeeps(w, h, id, user, c, reason, now);
    case OpenExecution(h, id, user, expected, requester, now) =>
      OpenExecutionKeeps(w, h, id, user, expected, requester, now);
  }

  lemma ServiceKeeps(w: World, s: Step)
    requires Inv(w) && Enabled(w, s)
    requires s.Submit? || s.Abort? || s.Restart? || s.Reconfigure?
    ensures Inv(Apply(w, s))
  {
    match s
    case Submit(id, user, p, now, ttl) => SubmitKeeps(w, id, user, p, now, ttl);
    case Abort(h) => AbortKeeps(w, h);
    case Restart => RestartKeeps(w);
    case Reconfigure(reg, platform) => ReconfigureKeeps(w, reg, platform);
  }

  lemma StepKeeps(w: World, s: Step)
    requires Inv(w) && Enabled(w, s)
    ensures Inv(Apply(w, s))
  {
    if s.OpenDecision? || s.OpenExecution? {
      ReadingKeeps(w, s);
    } else if s.Submit? || s.Abort? || s.Restart? || s.Reconfigure? {
      ServiceKeeps(w, s);
    } else {
      TransactionKeeps(w, s);
    }
  }

  lemma {:induction false} RunKeeps(run: seq<World>, i: nat)
    requires Run(run) && i < |run|
    ensures Inv(run[i])
  {
    if i > 0 {
      RunKeeps(run, i - 1);
      assert StepAt(run, i);
      var s :| Enabled(run[i - 1], s) && run[i] == Apply(run[i - 1], s);
      StepKeeps(run[i - 1], s);
    }
  }
}
