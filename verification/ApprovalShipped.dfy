/** What the registry decides over whole runs, and what follows for the registry the service ships with. */
module ApprovalShipped {
  import opened Wrappers
  import opened Approvals
  import opened ApprovalRuns
  import opened ApprovalPreservation
  import opened ApprovalSafety

  /** A consumption was checked against the entry of action `a`, on the platform of the service. */
  predicate CheckedAt(sv: Service, a: string, c: Consumption) {
    a in sv.registry && c.meta == sv.registry[a] && c.platform == sv.platform
  }

  /** A consumption of a request stands in its history already, or this world checks it. */
  ghost predicate OldOrChecked(w: World, log: map<string, History>, id: string, c: Consumption)
    requires id in log
  {
    CheckedAt(w.sv, log[id].created.payload.action, c)
    || (id in w.log && c in w.log[id].consumptions && w.log[id].created == log[id].created)
  }

  lemma AuthorizationChecks(w: World, h: nat, time: int, id: string, c: Consumption)
    requires Inv(w) && CanCommitAuthorization(w, h)
    requires var log := DoCommitAuthorization(w, h, time).log; id in log && c in log[id].consumptions
    ensures OldOrChecked(w, DoCommitAuthorization(w, h, time).log, id, c)
  {
    var x := w.handlers[h];
    if x.id in w.rows { assert RowSound(w.sv.prims, w.rows[x.id], w.log[x.id]); }
  }

  /** A decision or an execution leaves every consumption where it was. */
  lemma RecordingChecks(w: World, s: Step, id: string, c: Consumption)
    requires Enabled(w, s) && (s.CommitDecision? || s.Execute?)
    requires id in Apply(w, s).log && c in Apply(w, s).log[id].consumptions
    ensures OldOrChecked(w, Apply(w, s).log, id, c)
  {
  }

  lemma SubmitChecks(w: World, s: Step, id: string, c: Consumption)
    requires Enabled(w, s) && s.Submit?
    requires id in Apply(w, s).log && c in Apply(w, s).log[id].consumptions
    ensures OldOrChecked(w, Apply(w, s).log, id, c)
  {
  }

  lemma OthersWriteNoHistory(w: World, s: Step)
    requires Enabled(w, s)
    requires s.OpenDecision? || s.OpenExecution? || s.RecordExecution? || s.Abort? || s.Restart? || s.Reconfigure?
    ensures Apply(w, s).log == w.log
  {
  }

  lemma StepChecks(w: World, s: Step, id: string, c: Consumption)
    requires Inv(w) && Enabled(w, s) && id in Apply(w, s).log && c in Apply(w, s).log[id].consumptions
    ensures OldOrChecked(w, Apply(w, s).log, id, c)
  {
    if s.CommitAuthorization? {
      AuthorizationChecks(w, s.h, s.time, id, c);
    } else if s.CommitDecision? || s.Execute? {
      RecordingChecks(w, s, id, c);
    } else if s.Submit? {
      SubmitChecks(w, s, id, c);
    } else {
      OthersWriteNoHistory(w, s);
    }
  }

  lemma NextChecks(w: World, w': World, id: string, c: Consumption)
    requires Inv(w) && Next(w, w') && id in w'.log && c in w'.log[id].consumptions
    ensures OldOrChecked(w, w'.log, id, c)
  {
    var s :| Enabled(w, s) && w' == Apply(w, s);
    StepChecks(w, s, id, c);
  }

  /** Every consumption of a request was checked against its own action's entry in an earlier world `j`. */
  lemma {:induction false} ConsumptionWasChecked(run: seq<World>, i: nat, id: string, c: Consumption) returns (j: nat)
    requires Run(run) && i < |run| && id in run[i].log && c in run[i].log[id].consumptions
    ensures j < i && CheckedAt(run[j].sv, run[i].log[id].created.payload.action, c)
  {
    assert i > 0;
    RunKeeps(run, i - 1);
    assert StepAt(run, i);
    NextChecks(run[i - 1], run[i], id, c);
    if CheckedAt(run[i - 1].sv, run[i].log[id].created.payload.action, c) {
      j := i - 1;
    } else {
      j := ConsumptionWasChecked(run, i - 1, id, c);
    }
  }

  /**
   * While an action stays disabled, whatever else changes in the registry, no approval of it is consumed,
   * hence none is executed.
   */
  lemma DisabledNeverConsumed(run: seq<World>, i: nat, id: string)
    requires Run(run) && i < |run| && id in run[i].rows
    requires var a := run[i].rows[id].payload.action;
             forall j :: 0 <= j < i && a in run[j].sv.registry ==> !run[j].sv.registry[a].enabled
    ensures !run[i].rows[id].status.Consumed?
    ensures id in run[i].log && run[i].log[id].executions == []
  {
    RunKeeps(run, i);
    var h := run[i].log[id];
    assert RowSound(run[i].sv.prims, run[i].rows[id], h);
    if h.consumptions != [] {
      var j := ConsumptionWasChecked(run, i, id, h.consumptions[0]);
      assert false;
    }
  }

  /**
   * Every execution was consumed in an earlier world `j` whose registry held the very action it carried out,
   * enabled and on a supported platform.
   */
  lemma ExecutionUnder(run: seq<World>, i: nat, id: string, e: Execution)
      returns (j: nat, approver: User, consumption: Consumption)
    requires Run(run) && i < |run| && id in run[i].log && e in run[i].log[id].executions
    ensures id in run[i].rows && run[i].rows[id].approvedBy == Some(approver.username)
    ensures approver.username != run[i].rows[id].requestedBy
    ensures consumption in run[i].log[id].consumptions && consumption.actor == e.actor
    ensures j < i && e.action in run[j].sv.registry
    ensures var m := run[j].sv.registry[e.action];
            consumption.meta == m && consumption.platform == run[j].sv.platform
            && m.enabled && run[j].sv.platform in m.supportedPlatforms
            && RoleAllows(approver, m.requiredApprovalRole) && AnyRoleAllows(e.actor, m.executionRoles)
  {
    RunKeeps(run, i);
    var h := run[i].log[id];
    ExecutedRow(run[i].sv.prims, run[i].rows[id], h, e);
    approver, consumption := h.decisions[0].decider, h.consumptions[0];
    j := ConsumptionWasChecked(run, i, id, consumption);
  }

  /** The registry stays as it is before world `i`. */
  ghost predicate RegistryStays(run: seq<World>, i: nat, reg: map<string, Metadata>)
    requires i <= |run|
  {
    forall j :: 0 <= j < i ==> run[j].sv.registry == reg
  }

  /** The service can start with the registry it ships with. */
  lemma ShippedServiceStarts(pr: Primitives, platform: string)
    ensures Run([Init(Service(ShippedRegistry(), platform, pr))])
    ensures RegistryStays([Init(Service(ShippedRegistry(), platform, pr))], 1, ShippedRegistry())
  {
    forall a | a in ShippedRegistry() ensures KnownRoles(ShippedRegistry()[a]) { ShippedRegistryKnown(a); }
  }

  /** The shipped registry, read column by column. */
  lemma ShippedRules(a: string)
    ensures a in ShippedRegistry()
            <==> a in {"kill_process", "quarantine_file", "block_ip", "restart_service", "create_incident_report"}
    ensures a in ShippedRegistry() ==>
              var m := ShippedRegistry()[a];
              m.stableKey == a && m.requestRoles == ["analyst", "admin"]
              && (m.enabled <==> a == "restart_service" || a == "create_incident_report")
              && (m.hostImpacting <==> a != "create_incident_report")
              && m.requiredApprovalRole == (if a == "create_incident_report" then "analyst" else "admin")
              && m.executionRoles == (if a == "create_incident_report" then ["analyst", "admin"] else ["admin"])
              && m.supportedPlatforms == (if a == "restart_service" then ["linux"] else ["linux", "darwin", "windows"])
  {
  }

  lemma ShippedFlags(a: string)
    requires a in ShippedRegistry() && ShippedRegistry()[a].enabled
    ensures a == "restart_service" || a == "create_incident_report"
    ensures a == "restart_service" ==>
              ShippedRegistry()[a].requiredApprovalRole == "admin"
              && ShippedRegistry()[a].supportedPlatforms == ["linux"]
  {
  }

  /**
   * Under the shipped registry only service restarts and incident reports are ever executed, and a restart
   * only with an admin's approval, on Linux.
   */
  lemma ShippedExecutions(run: seq<World>, i: nat, id: string, e: Execution)
      returns (approver: User, consumption: Consumption)
    requires Run(run) && i < |run| && RegistryStays(run, i, ShippedRegistry())
    requires id in run[i].log && e in run[i].log[id].executions
    ensures e.action == "restart_service" || e.action == "create_incident_report"
    ensures id in run[i].rows && run[i].rows[id].approvedBy == Some(approver.username)
    ensures approver.username != run[i].rows[id].requestedBy
    ensures consumption in run[i].log[id].consumptions && consumption.actor == e.actor
    ensures e.action == "restart_service" ==>
              approver.role in {"admin", "system"} && consumption.platform == "linux"
  {
    var j;
    j, approver, consumption := ExecutionUnder(run, i, id, e);
    assert run[j].sv.registry == ShippedRegistry();
    ShippedFlags(e.action);
  }
}
