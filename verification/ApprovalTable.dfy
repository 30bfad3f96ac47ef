/**
 * The approval handlers as code over a table they update. Each transaction is one method; what it
 * leaves in the table is the effect the interleaved runs are built from.
 */
module ApprovalTable {
  import opened Wrappers
  import opened Approvals
  import opened ApprovalSafety

  class Store {
    var rows: Table
    var executed: seq<Payload>

    constructor ()
      ensures rows == map[] && executed == []
    {
      rows, executed := map[], [];
    }

    /** UPDATE … WHERE id = ? AND status = ?; answers the row count. */
    method UpdateWhereStatus(id: string, status: Status, row: Row) returns (count: nat)
      modifies `rows
      ensures count == if id in old(rows) && old(rows)[id].status == status then 1 else 0
      ensures rows == if count == 1 then old(rows)[id := row] else old(rows)
    {
      count := 0;
      if id in rows && rows[id].status == status {
        rows := rows[id := row];
        count := 1;
      }
    }

    /** `_mark_approval_expired` on a row read in the same transaction. */
    method ExpireRow(id: string, now: int)
      requires id in rows
      modifies `rows
      ensures rows == old(rows)[id := MarkExpired(old(rows)[id], now)]
      ensures var r, r' := old(rows)[id], rows[id];
              (r.status == Pending ==> r' == r.(status := Expired, decidedAt := Some(now)))
              && (r.status == Approved ==> r' == r.(status := Expired))
              && (r.status != Pending && r.status != Approved ==> r' == r)
    {
      var row := rows[id];
      if row.status.Pending? {
        var _ := UpdateWhereStatus(id, Pending, row.(status := Expired, decidedAt := Some(now)));
      } else if row.status.Approved? {
        var _ := UpdateWhereStatus(id, Approved, row.(status := Expired));
      } else {
        assert rows == rows[id := row];
      }
    }

    /** The decision transaction of `api_response_approval_detail`. */
    method Decide(id: string, user: User, c: Command, reason: string, now: int) returns (denial: Option<Denial>)
      modifies `rows
      ensures (rows, denial) == DecisionTxn(old(rows), id, user, c, reason, now)
      ensures denial.None? <==> id in old(rows) && old(rows)[id].organization == user.organization
                                && old(rows)[id].status == Pending && !ExpiredAt(old(rows)[id], now)
      ensures forall k :: k in old(rows) && k != id ==> k in rows && rows[k] == old(rows)[k]
      ensures denial.None? ==>
                id in rows
                && rows[id] == old(rows)[id].(
                     status := if c == Approve then Approved else if c == Reject then Rejected else Cancelled,
                     approvedBy := Some(user.username), approverRole := Some(user.role),
                     decisionReason := Some(reason), decidedAt := Some(now))
      ensures denial == Some(NotFound) <==> id !in old(rows) || old(rows)[id].organization != user.organization
      ensures denial == Some(RequestExpired) ==>
                old(rows)[id].status == Pending
                && rows == old(rows)[id := old(rows)[id].(status := Expired, decidedAt := Some(now))]
      ensures denial == Some(AlreadyDecided) ==> old(rows)[id].status != Pending && rows == old(rows)
    {
      if id !in rows || rows[id].organization != user.organization { return Some(NotFound); }
      var current := rows[id];
      if current.status != Pending { return Some(AlreadyDecided); }
      if ExpiredAt(current, now) {
        ExpireRow(id, now);
        return Some(RequestExpired);
      }
      var updated := UpdateWhereStatus(id, Pending,
        current.(status := DecidedStatus(c), approvedBy := Some(user.username), approverRole := Some(user.role),
                 decisionReason := Some(reason), decidedAt := Some(now)));
      denial := if updated != 1 then Some(AlreadyDecided) else None;
    }

    /** `authorizeApprovedAction` with consume=True. */
    method AuthorizeApprovedAction(sv: Service, id: string, actor: User, expected: Payload, requester: Option<string>,
                                   now: int) returns (denial: Option<Denial>)
      modifies `rows
      ensures (rows, denial) == AuthorizeTxn(sv, old(rows), id, actor, expected, requester, now)
      ensures denial.None? <==> Consumable(sv, old(rows), id, actor, expected, requester, now)
    {
      AuthorizedIffConsumable(sv, rows, id, actor, expected, requester, now);
      if id !in rows || rows[id].organization != actor.organization { return Some(NotFound); }
      var row := rows[id];
      if row.payload.action !in sv.registry { return Some(UnsupportedAction); }
      var m := sv.registry[row.payload.action];
      if m.stableKey !in sv.registry { return Some(RegistryInvalid); }
      if row.status == Approved && ExpiredAt(row, now) {
        ExpireRow(id, now);
        return Some(RequestExpired);
      }
      if row.status != Approved { return Some(NotApproved); }
      if row.requestedBy == actor.username { return Some(OwnRequest); }
      if !RoleAllows(actor, if Blank(row.requiredRole) then m.requiredApprovalRole else row.requiredRole.value) {
        return Some(RoleRequired);
      }
      if !AnyRoleAllows(actor, m.executionRoles) { return Some(ExecutionRoleRequired); }
      if !m.enabled { return Some(ActionDisabled); }
      if sv.platform !in m.supportedPlatforms { return Some(PlatformUnsupported); }
      if !Blank(row.approverRole) && RoleRank(row.approverRole.value) < RoleRank(m.requiredApprovalRole) {
        return Some(ApproverRoleInsufficient);
      }
      if Some(row.requestedBy) != requester { return Some(RequesterMismatch); }
      if row.payload != expected { return Some(TargetMismatch); }
      if row.payloadDigest != Some(sv.prims.payloadDigest(expected)) { return Some(PayloadDigestMismatch); }
      var preview := PreviewDigestOf(sv, expected);
      if preview.None? { return Some(InvalidTarget); }
      if row.previewDigest != preview { return Some(PreviewDigestMismatch); }
      var updated := UpdateWhereStatus(id, Approved,
        row.(status := Consumed, consumedBy := Some(actor.username), consumedAt := Some(now)));
      denial := if updated != 1 then Some(NotApproved) else None;
    }

    /**
     * The execute command when nobody else touches the row meanwhile. `defaults` are the row values
     * a client left out. An action runs once, on the row read first, exactly when it was consumable.
     */
    method ExecuteCommand(sv: Service, id: string, user: User, expected: Payload, now: int, authorizedAt: int)
        returns (denial: Option<Denial>)
      requires id in rows
      modifies this
      ensures denial.None?
              <==> Consumable(sv, old(rows), id, user, expected, Some(old(rows)[id].requestedBy), authorizedAt)
      ensures executed == if denial.None? then old(executed) + [old(rows)[id].payload] else old(executed)
      ensures denial.None? ==>
                old(rows)[id].payload == expected && id in rows && rows[id].status == Consumed
                && rows[id].executedAt == Some(now) && rows[id].consumedAt == Some(authorizedAt)
    {
      var stale := rows[id];
      denial := AuthorizeApprovedAction(sv, id, user, expected, Some(stale.requestedBy), authorizedAt);
      if denial.Some? { return; }
      executed := executed + [stale.payload];
      rows := rows[id := rows[id].(executedAt := Some(now))];
    }
  }
}
