/**
 * Response approvals: the stored row, the two transactions that change its status, and the table
 * methods that run them. Times are integers; a handler takes the clock once, before its transaction.
 */
module Approvals {
  import opened Wrappers

  datatype Status = Pending | Approved | Rejected | Cancelled | Expired | Consumed

  /** The digested part of a request. */
  datatype Payload = Payload(
    action: string, target: string, incidentId: Option<string>, anomalyId: Option<string>, dryRun: bool)

  datatype Expiry = At(time: int) | Malformed

  datatype Row = Row(
    organization: int, payload: Payload, requestedBy: string, requesterRole: string, status: Status,
    approvedBy: Option<string>, approverRole: Option<string>, decisionReason: Option<string>,
    expiresAt: Option<Expiry>, decidedAt: Option<int>, executedAt: Option<int>,
    consumedBy: Option<string>, consumedAt: Option<int>,
    payloadDigest: Option<string>, previewDigest: Option<string>,
    actionType: Option<string>, requiredRole: Option<string>)

  type Table = map<string, Row>

  datatype User = User(username: string, role: string, organization: int)

  /** One entry of the response-action registry. */
  datatype Metadata = Metadata(
    stableKey: string, requestRoles: seq<string>, requiredApprovalRole: string, executionRoles: seq<string>,
    supportedPlatforms: seq<string>, enabled: bool, actionType: string, hostImpacting: bool)

  datatype Preview = Preview(
    payload: Payload, canonicalTarget: string, actionType: string, requiredRole: string,
    hostImpacting: bool, disabledHostAction: bool)

  /** Digests and target validators, arbitrary functions; `validate` answers the canonical target. */
  datatype Primitives = Primitives(
    payloadDigest: Payload -> string, previewDigest: (Payload, Preview) -> string,
    validate: (string, string) -> Option<string>)

  /** What a handler sees of the running service. */
  datatype Service = Service(registry: map<string, Metadata>, platform: string, prims: Primitives)

  datatype Command = Approve | Reject | Cancel

  datatype Denial =
    | NotFound
    | UnsupportedAction
    | RegistryInvalid
    | RequestExpired
    | AlreadyDecided
    | NotApproved
    | OwnRequest
    | RoleRequired
    | ReasonRequired
    | CancelNotAllowed
    | ExecutionRoleRequired
    | ActionDisabled
    | PlatformUnsupported
    | ApproverRoleInsufficient
    | RequesterMismatch
    | TargetMismatch
    | PayloadDigestMismatch
    | InvalidTarget
    | PreviewDigestMismatch

  function RoleRank(role: string): nat {
    if role == "viewer" then 1 else if role == "analyst" then 2 else if role == "admin" then 3
    else if role == "system" then 4 else 0
  }

  predicate RoleAllows(user: User, minimum: string) { RoleRank(user.role) >= RoleRank(minimum) }

  predicate AnyRoleAllows(user: User, roles: seq<string>) { exists r :: r in roles && RoleAllows(user, r) }

  /** Every role a registry names is a known one. */
  predicate KnownRoles(m: Metadata) {
    RoleRank(m.requiredApprovalRole) > 0
    && (forall r :: r in m.requestRoles ==> RoleRank(r) > 0)
    && (forall r :: r in m.executionRoles ==> RoleRank(r) > 0)
  }

  predicate RegistryKnown(reg: map<string, Metadata>) { forall a :: a in reg ==> KnownRoles(reg[a]) }

  /** The registry the service ships with. */
  function ShippedRegistry(): map<string, Metadata> {
    var requesters := ["analyst", "admin"];
    var anywhere := ["linux", "darwin", "windows"];
    map["kill_process" :=
          Metadata("kill_process", requesters, "admin", ["admin"], anywhere, false, "host_process", true),
        "quarantine_file" :=
          Metadata("quarantine_file", requesters, "admin", ["admin"], anywhere, false, "host_file", true),
        "block_ip" := Metadata("block_ip", requesters, "admin", ["admin"], anywhere, false, "network_firewall", true),
        "restart_service" :=
          Metadata("restart_service", requesters, "admin", ["admin"], ["linux"], true, "service_control", true),
        "create_incident_report" :=
          Metadata("create_incident_report", requesters, "analyst", requesters, anywhere, true, "record_report", false)]
  }

  lemma ShippedRegistryKnown(a: string)
    requires a in ShippedRegistry()
    ensures KnownRoles(ShippedRegistry()[a]) && ShippedRegistry()[a].stableKey == a
  {
  }

  function ExpiredAt(row: Row, now: int): bool {
    match row.expiresAt
    case None => false
    case Some(Malformed) => true
    case Some(At(t)) => now > t
  }

  /** `_mark_approval_expired`. */
  function MarkExpired(row: Row, now: int): Row {
    if row.status.Pending? then row.(status := Expired, decidedAt := Some(now))
    else if row.status.Approved? then row.(status := Expired)
    else row
  }

  /** `approval_preview`; no preview for an unknown action or an invalid target. */
  function PreviewOf(sv: Service, p: Payload): Option<Preview> {
    if p.action !in sv.registry || sv.registry[p.action].stableKey !in sv.registry then None
    else
      var m := sv.registry[p.action];
      match sv.prims.validate(p.action, p.target)
      case None => None
      case Some(t) =>
        Some(Preview(p, t, m.actionType, m.requiredApprovalRole, m.hostImpacting,
                     m.hostImpacting && !p.dryRun && !m.enabled))
  }

  function PreviewDigestOf(sv: Service, p: Payload): Option<string> {
    match PreviewOf(sv, p)
    case None => None
    case Some(v) => Some(sv.prims.previewDigest(p, v))
  }

  /** The row `api_response_approvals` inserts. */
  function NewRow(sv: Service, user: User, p: Payload, now: int, ttl: int): Row
    requires p.action in sv.registry && PreviewOf(sv, p).Some?
  {
    var m := sv.registry[p.action];
    Row(user.organization, p, user.username, user.role, Pending, None, None, None, Some(At(now + ttl)),
        None, None, None, None, Some(sv.prims.payloadDigest(p)), PreviewDigestOf(sv, p),
        Some(m.actionType), Some(m.requiredApprovalRole))
  }

  /** The checks a decision handler makes on the row it read before its transaction. */
  function DecisionPrecheck(sv: Service, stale: Row, user: User, c: Command, reason: string): Option<Denial> {
    if reason == "" then Some(ReasonRequired)
    else if stale.payload.action !in sv.registry then Some(UnsupportedAction)
    else if !c.Cancel? && !RoleAllows(user, sv.registry[stale.payload.action].requiredApprovalRole)
    then Some(RoleRequired)
    else if c.Approve? && stale.requestedBy == user.username then Some(OwnRequest)
    else if c.Cancel? && stale.requestedBy != user.username && user.role != "admin" then Some(CancelNotAllowed)
    else None
  }

  function DecidedStatus(c: Command): Status {
    match c
    case Approve => Approved
    case Reject => Rejected
    case Cancel => Cancelled
  }

  /** The decision transaction: the new table and the outcome. */
  function DecisionTxn(rows: Table, id: string, user: User, c: Command, reason: string, now: int)
    : (Table, Option<Denial>)
  {
    if id !in rows || rows[id].organization != user.organization then (rows, Some(NotFound))
    else
      var current := rows[id];
      if !current.status.Pending? then (rows, Some(AlreadyDecided))
      else if ExpiredAt(current, now) then (rows[id := MarkExpired(current, now)], Some(RequestExpired))
      else
        (rows[id := current.(status := DecidedStatus(c), approvedBy := Some(user.username),
                             approverRole := Some(user.role), decisionReason := Some(reason), decidedAt := Some(now))],
         None)
  }

  /** The authorization checks on an approved, unexpired row, in the order the code makes them. */
  function AuthorizeChecks(sv: Service, row: Row, m: Metadata, actor: User, expected: Payload,
                           requester: Option<string>)
    : Option<Denial>
  {
    if row.requestedBy == actor.username then Some(OwnRequest)
    else if !RoleAllows(actor, if row.requiredRole.Some? && row.requiredRole.value != "" then row.requiredRole.value
                               else m.requiredApprovalRole) then Some(RoleRequired)
    else if !AnyRoleAllows(actor, m.executionRoles) then Some(ExecutionRoleRequired)
    else if !m.enabled then Some(ActionDisabled)
    else if sv.platform !in m.supportedPlatforms then Some(PlatformUnsupported)
    else if row.approverRole.Some? && row.approverRole.value != ""
         && RoleRank(row.approverRole.value) < RoleRank(m.requiredApprovalRole) then Some(ApproverRoleInsufficient)
    else if Some(row.requestedBy) != requester then Some(RequesterMismatch)
    else if row.payload != expected then Some(TargetMismatch)
    else if row.payloadDigest != Some(sv.prims.payloadDigest(expected)) then Some(PayloadDigestMismatch)
    else if PreviewOf(sv, expected).None? then Some(InvalidTarget)
    else if row.previewDigest != PreviewDigestOf(sv, expected) then Some(PreviewDigestMismatch)
    else None
  }

  /** `authorizeApprovedAction` with consume=True: the new table and the outcome. */
  function AuthorizeTxn(sv: Service, rows: Table, id: string, actor: User, expected: Payload,
                        requester: Option<string>, now: int): (Table, Option<Denial>)
  {
    if id !in rows || rows[id].organization != actor.organization then (rows, Some(NotFound))
    else
      var row := rows[id];
      if row.payload.action !in sv.registry then (rows, Some(UnsupportedAction))
      else
        var m := sv.registry[row.payload.action];
        if m.stableKey !in sv.registry then (rows, Some(RegistryInvalid))
        else if row.status.Approved? && ExpiredAt(row, now)
        then (rows[id := MarkExpired(row, now)], Some(RequestExpired))
        else if !row.status.Approved? then (rows, Some(NotApproved))
        else if AuthorizeChecks(sv, row, m, actor, expected, requester).Some? then
          (rows, AuthorizeChecks(sv, row, m, actor, expected, requester))
        else
          (rows[id := row.(status := Consumed, consumedBy := Some(actor.username), consumedAt := Some(now))], None)
  }

  /** What `init_db` does to one row on every start: only missing values are filled in. */
  function BackfillRow(sv: Service, row: Row): Row {
    var m := if row.payload.action in sv.registry then Some(sv.registry[row.payload.action]) else None;
    row.(payloadDigest := if row.payloadDigest.Some? && row.payloadDigest.value != "" then row.payloadDigest
                          else Some(sv.prims.payloadDigest(row.payload)),
         previewDigest := if row.previewDigest.Some? then row.previewDigest else PreviewDigestOf(sv, row.payload),
         actionType := if row.actionType.Some? then row.actionType
                       else if m.Some? then Some(m.value.actionType) else None,
         requiredRole := if row.requiredRole.Some? then row.requiredRole
                         else if m.Some? then Some(m.value.requiredApprovalRole) else None)
  }

  function Backfill(sv: Service, rows: Table): Table { map id | id in rows :: BackfillRow(sv, rows[id]) }
}
