/** The release files this service ships: the only names a release archive may hold. */
module ReleasePolicy {
  function ReleasePaths(): set<string> {
    {"requirements.txt", "saaoe_cli.py", "src/process_monitor.py", "src/visualize_logs.py", "web/config.py",
     "web/ethics_ui.py", "web/plot_metrics.py", "web/saaoe_api.py", "web/saaoe_cli.py", "web/static/sysethic.css",
     "web/static/vocabulary.js"} + Templates()
  }

  function Templates(): set<string> {
    {"web/templates/analytics.html", "web/templates/anomalies.html", "web/templates/anomaly_detail.html",
     "web/templates/approvals.html", "web/templates/assets.html", "web/templates/audit_logs.html",
     "web/templates/automation.html", "web/templates/base.html", "web/templates/dashboard.html",
     "web/templates/ethics.html", "web/templates/files.html", "web/templates/incidents.html",
     "web/templates/join.html", "web/templates/login.html", "web/templates/playbooks.html",
     "web/templates/processes.html", "web/templates/reports.html", "web/templates/security.html",
     "web/templates/setup.html", "web/templates/signup.html", "web/templates/terminal.html",
     "web/templates/threat_trends.html", "web/templates/users.html", "web/templates/validation.html",
     "web/templates/visualization_lab.html"}
  }

  /** The shipped policy, as the predicate the archive checks take. */
  predicate ShippedPath(name: string) { name in ReleasePaths() }

  /** The files without which no release is archived. */
  function RequiredPaths(): set<string> {
    {"requirements.txt", "web/config.py", "web/saaoe_api.py", "web/saaoe_cli.py"}
  }

  lemma RequiredPathsAllowed(name: string)
    requires name in RequiredPaths()
    ensures ShippedPath(name)
  {
  }
}
