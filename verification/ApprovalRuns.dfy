/**
 * Concurrent approval handlers over one table. A handler reads a row outside any transaction, acts
 * later inside one, and an executor acts on the row it read at first, after the commit. Steps of
 * different handlers interleave freely; a handler can vanish, the service can restart and its
 * registry can change between any two steps. `log` is the history of a run, request by request.
 */
module ApprovalRuns {
  import opened Wrappers
  import opened Approvals

  /** A consumption, with the registry entry and platform it was checked against. */
  datatype Consumption = Consumption(actor: User, meta: Metadata, platform: string, time: int)

  /** A recorded decision, with the registry entry its precheck used. */
  datatype Decision = Decision(decider: User, command: Command, meta: Metadata, reason: string, time: int)

  /** One call of `_execute_response_action`. */
  datatype Execution = Execution(actor: User, action: string, target: string, dryRun: bool)

  /** Everything that ever happened to one request. */
  datatype History = History(
    created: Row, decisions: seq<Decision>, consumptions: seq<Consumption>, executions: seq<Execution>)

  datatype Handler =
    | Deciding(id: string, user: User, command: Command, reason: string, meta: Metadata, stale: Row, now: int)
    | Authorizing(id: string, user: User, expected: Payload, requester: Option<string>, stale: Row, now: int)
    | Executing(id: string, user: User, stale: Row, now: int)
    | Recording(id: string, now: int)
    | Finished

  datatype World = World(rows: Table, handlers: map<nat, Handler>, sv: Service, log: map<string, History>)

  datatype Step =
    | Submit(id: string, user: User, payload: Payload, now: int, ttl: int)
    | OpenDecision(h: nat, id: string, user: User, command: Command, reason: string, now: int)
    | CommitDecision(h: nat)
    | OpenExecution(h: nat, id: string, user: User, expected: Payload, requester: Option<string>, now: int)
    | CommitAuthorization(h: nat, time: int)
    | Execute(h: nat)
    | RecordExecution(h: nat)
    | Abort(h: nat)
    | Restart
    | Reconfigure(registry: map<string, Metadata>, platform: string)

  function Init(sv: Service): World { World(map[], map[], sv, map[]) }

  function AddDecision(log: map<string, History>, id: string, d: Decision): map<string, History> {
    if id in log then log[id := log[id].(decisions := log[id].decisions + [d])] else log
  }

  function AddConsumption(log: map<string, History>, id: string, c: Consumption): map<string, History> {
    if id in log then log[id := log[id].(consumptions := log[id].consumptions + [c])] else log
  }

  function AddExecution(log: map<string, History>, id: string, e: Execution): map<string, History> {
    if id in log then log[id := log[id].(executions := log[id].executions + [e])] else log
  }

  /** `api_response_approvals`: who may ask for what. */
  predicate CanSubmit(w: World, id: string, user: User, p: Payload) {
    id !in w.rows && user.role != "viewer" && p.action in w.sv.registry
    && AnyRoleAllows(user, w.sv.registry[p.action].requestRoles) && p.target != "" && PreviewOf(w.sv, p).Some?
  }

  function DoSubmit(w: World, id: string, user: User, p: Payload, now: int, ttl: int): World
    requires CanSubmit(w, id, user, p)
  {
    var row := NewRow(w.sv, user, p, now, ttl);
    w.(rows := w.rows[id := row], log := w.log[id := History(row, [], [], [])])
  }

  /** A handler opens a row of its own organization. */
  predicate Opens(w: World, h: nat, id: string, user: User) {
    h !in w.handlers && id in w.rows && w.rows[id].organization == user.organization
  }

  predicate CanOpenDecision(w: World, h: nat, id: string, user: User, c: Command, reason: string) {
    Opens(w, h, id, user) && DecisionPrecheck(w.sv, w.rows[id], user, c, reason).None?
  }

  function DoOpenDecision(w: World, h: nat, id: string, user: User, c: Command, reason: string, now: int): World
    requires CanOpenDecision(w, h, id, user, c, reason)
  {
    var meta := w.sv.registry[w.rows[id].payload.action];
    w.(handlers := w.handlers[h := Deciding(id, user, c, reason, meta, w.rows[id], now)])
  }

  function DecisionOf(x: Handler): Decision
    requires x.Deciding?
  {
    Decision(x.user, x.command, x.meta, x.reason, x.now)
  }

  predicate CanCommitDecision(w: World, h: nat) { h in w.handlers && w.handlers[h].Deciding? }

  function DoCommitDecision(w: World, h: nat): World
    requires CanCommitDecision(w, h)
  {
    var d := w.handlers[h];
    var (rows, denial) := DecisionTxn(w.rows, d.id, d.user, d.command, d.reason, d.now);
    w.(rows := rows, handlers := w.handlers[h := Finished],
       log := if denial.None? then AddDecision(w.log, d.id, DecisionOf(d)) else w.log)
  }

  function DoOpenExecution(w: World, h: nat, id: string, user: User, expected: Payload, requester: Option<string>,
                           now: int): World
    requires Opens(w, h, id, user)
  {
    w.(handlers := w.handlers[h := Authorizing(id, user, expected, requester, w.rows[id], now)])
  }

  predicate CanCommitAuthorization(w: World, h: nat) { h in w.handlers && w.handlers[h].Authorizing? }

  /** The authorization transaction; only its success lets the handler go on. */
  function DoCommitAuthorization(w: World, h: nat, time: int): World
    requires CanCommitAuthorization(w, h)
  {
    var a := w.handlers[h];
    var (rows, denial) := AuthorizeTxn(w.sv, w.rows, a.id, a.user, a.expected, a.requester, time);
    if denial.Some? || a.id !in w.rows || w.rows[a.id].payload.action !in w.sv.registry then
      w.(rows := rows, handlers := w.handlers[h := Finished])
    else
      var meta := w.sv.registry[w.rows[a.id].payload.action];
      w.(rows := rows, handlers := w.handlers[h := Executing(a.id, a.user, a.stale, a.now)],
         log := AddConsumption(w.log, a.id, Consumption(a.user, meta, w.sv.platform, time)))
  }

  predicate CanExecute(w: World, h: nat) { h in w.handlers && w.handlers[h].Executing? }

  /** The action runs on the row the handler read first. */
  function DoExecute(w: World, h: nat): World
    requires CanExecute(w, h)
  {
    var x := w.handlers[h];
    var p := x.stale.payload;
    w.(handlers := w.handlers[h := Recording(x.id, x.now)],
       log := AddExecution(w.log, x.id, Execution(x.user, p.action, p.target, p.dryRun)))
  }

  predicate CanRecord(w: World, h: nat) { h in w.handlers && w.handlers[h].Recording? }

  /** The unconditional UPDATE after success or failure. */
  function DoRecord(w: World, h: nat): World
    requires CanRecord(w, h)
  {
    var r := w.handlers[h];
    w.(handlers := w.handlers[h := Finished],
       rows := if r.id in w.rows then w.rows[r.id := w.rows[r.id].(executedAt := Some(r.now))] else w.rows)
  }

  predicate Enabled(w: World, s: Step) {
    match s
    case Submit(id, user, p, _, ttl) => CanSubmit(w, id, user, p)
    case OpenDecision(h, id, user, c, reason, _) => CanOpenDecision(w, h, id, user, c, reason)
    case CommitDecision(h) => CanCommitDecision(w, h)
    case OpenExecution(h, id, user, _, _, _) => Opens(w, h, id, user)
    case CommitAuthorization(h, _) => CanCommitAuthorization(w, h)
    case Execute(h) => CanExecute(w, h)
    case RecordExecution(h) => CanRecord(w, h)
    case Abort(h) => h in w.handlers
    case Restart => true
    case Reconfigure(reg, _) => RegistryKnown(reg)
  }

  function Apply(w: World, s: Step): World
    requires Enabled(w, s)
  {
    match s
    case Submit(id, user, p, now, ttl) => DoSubmit(w, id, user, p, now, ttl)
    case OpenDecision(h, id, user, c, reason, now) => DoOpenDecision(w, h, id, user, c, reason, now)
    case CommitDecision(h) => DoCommitDecision(w, h)
    case OpenExecution(h, id, user, expected, requester, now) =>
      DoOpenExecution(w, h, id, user, expected, requester, now)
    case CommitAuthorization(h, time) => DoCommitAuthorization(w, h, time)
    case Execute(h) => DoExecute(w, h)
    case RecordExecution(h) => DoRecord(w, h)
    case Abort(h) => w.(handlers := w.handlers[h := Finished])
    case Restart => w.(rows := Backfill(w.sv, w.rows))
    case Reconfigure(reg, platform) => w.(sv := w.sv.(registry := reg, platform := platform))
  }

  ghost predicate Next(w: World, w': World) { exists s :: Enabled(w, s) && w' == Apply(w, s) }

  ghost predicate StepAt(run: seq<World>, i: nat)
    requires 0 < i < |run|
  {
    Next(run[i - 1], run[i])
  }

  ghost predicate Run(run: seq<World>) {
    |run| > 0 && RegistryKnown(run[0].sv.registry) && run[0] == Init(run[0].sv)
    && forall i :: 0 < i < |run| ==> StepAt(run, i)
  }

  // ----- Invariant -----

  /** The columns no step may change once a row exists. */
  predicate SameRequest(a: Row, b: Row) {
    a.organization == b.organization && a.payload == b.payload && a.requestedBy == b.requestedBy
    && a.requesterRole == b.requesterRole && a.expiresAt == b.expiresAt
    && a.payloadDigest == b.payloadDigest && a.previewDigest == b.previewDigest
    && a.actionType == b.actionType && a.requiredRole == b.requiredRole
  }

  /** Every value `init_db` could fill in is present from the start. */
  predicate Complete(pr: Primitives, r: Row) {
    r.payloadDigest == Some(pr.payloadDigest(r.payload)) && r.previewDigest.Some? && r.actionType.Some?
    && r.requiredRole.Some? && RoleRank(r.requiredRole.value) > 0
  }

  /** Who may decide: a cancellation is the requester's or an admin's, anything else takes the required role. */
  predicate DecisionSound(created: Row, d: Decision) {
    d.reason != "" && d.decider.organization == created.organization
    && (d.command.Cancel? ==> d.decider.username == created.requestedBy || d.decider.role == "admin")
    && (!d.command.Cancel? ==>
          RoleRank(d.meta.requiredApprovalRole) > 0 && RoleAllows(d.decider, d.meta.requiredApprovalRole))
    && (d.command.Approve? ==> d.decider.username != created.requestedBy)
  }

  predicate ConsumptionSound(created: Row, d: Decision, c: Consumption) {
    c.actor.username != created.requestedBy && c.actor.organization == created.organization
    && created.requiredRole.Some? && RoleAllows(c.actor, created.requiredRole.value)
    && AnyRoleAllows(c.actor, c.meta.executionRoles)
    && c.meta.enabled && c.platform in c.meta.supportedPlatforms
    && RoleAllows(d.decider, c.meta.requiredApprovalRole)
    && !ExpiredAt(created, c.time)
  }

  predicate ExecutionSound(created: Row, c: Consumption, e: Execution) {
    e.actor == c.actor && e.action == created.payload.action && e.target == created.payload.target
    && e.dryRun == created.payload.dryRun
  }

  /** The statuses a request can have once this was decided. */
  predicate StatusAfter(c: Command, s: Status) {
    match c
    case Approve => s.Approved? || s.Consumed? || s.Expired?
    case Reject => s.Rejected?
    case Cancel => s.Cancelled?
  }

  /** One row agrees with the whole history of its request. */
  predicate RowSound(pr: Primitives, r: Row, h: History) {
    SameRequest(r, h.created) && Complete(pr, h.created)
    && |h.decisions| <= 1 && |h.executions| <= |h.consumptions| <= |h.decisions|
    && (|h.decisions| == 1 ==>
          var d := h.decisions[0];
          DecisionSound(h.created, d) && StatusAfter(d.command, r.status)
          && r.approvedBy == Some(d.decider.username) && r.approverRole == Some(d.decider.role)
          && r.decisionReason == Some(d.reason) && r.decidedAt == Some(d.time))
    && (h.decisions == [] ==> r.status.Pending? || r.status.Expired?)
    && (r.status.Consumed? <==> |h.consumptions| == 1)
    && (|h.consumptions| == 1 ==>
          r.consumedBy == Some(h.consumptions[0].actor.username) && r.consumedAt == Some(h.consumptions[0].time)
          && ConsumptionSound(h.created, h.decisions[0], h.consumptions[0]))
    && (|h.executions| == 1 ==> ExecutionSound(h.created, h.consumptions[0], h.executions[0]))
    && (r.executedAt.Some? ==> r.status.Consumed?)
  }

  ghost predicate RowsSound(pr: Primitives, rows: Table, log: map<string, History>) {
    rows.Keys == log.Keys && forall id :: id in rows ==> RowSound(pr, rows[id], log[id])
  }

  /** What a handler remembers is still true of its request. */
  predicate HandlerSound(log: map<string, History>, x: Handler) {
    match x
    case Deciding(id, user, c, reason, meta, stale, now) =>
      id in log && SameRequest(stale, log[id].created)
      && DecisionSound(stale, Decision(user, c, meta, reason, now))
    case Authorizing(id, _, _, _, stale, _) => id in log && SameRequest(stale, log[id].created)
    case Executing(id, user, stale, _) =>
      id in log && SameRequest(stale, log[id].created)
      && |log[id].consumptions| == 1 && log[id].consumptions[0].actor == user && log[id].executions == []
    case Recording(id, _) => id in log && |log[id].consumptions| == 1
    case Finished => true
  }

  ghost predicate HandlersSound(handlers: map<nat, Handler>, log: map<string, History>) {
    forall h :: h in handlers ==> HandlerSound(log, handlers[h])
  }

  /** No two handlers are about to execute the same request. */
  ghost predicate ExecutorsDistinct(handlers: map<nat, Handler>) {
    forall g, h | g in handlers && h in handlers && handlers[g].Executing? && handlers[h].Executing? ::
      handlers[g].id == handlers[h].id ==> g == h
  }

  ghost predicate Inv(w: World) {
    RegistryKnown(w.sv.registry) && RowsSound(w.sv.prims, w.rows, w.log) && HandlersSound(w.handlers, w.log)
    && ExecutorsDistinct(w.handlers)
  }
}
