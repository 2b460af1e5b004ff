/** The engine of `wazuh/tmen_siem_backend_no_psutil.py`. Analysis lower-cases
    the message and looks for seven patterns in a fixed order; the first one
    present raises a single alert, whose level follows the log's level. The
    alert store keeps the newest 100 alerts; the API serves the newest 50
    logs and 20 alerts. */
module FirstMatchEngine {
  import opened Common

  const MaxAlerts: nat := 100
  const LogsShown: nat := 50
  const AlertsShown: nat := 20

  /** A generated log entry; `ipAddress` is `None` when the key is absent. */
  datatype Log = Log(id: Id, timestamp: int, level: string, logType: string,
                     message: string, source: string, ipAddress: Option<string>)

  datatype Technique = Technique(technique: string, name: string, tactic: string)

  /** An alert. `createdAt`/`updatedAt` are `None` until `create_alert` stamps it. */
  datatype Alert = Alert(id: Id, timestamp: int, level: string, alertType: string,
                         message: string, source: string, ipAddress: string,
                         mitreTechnique: Technique, status: string,
                         createdAt: Option<int>, updatedAt: Option<int>)

  datatype RuleInfo = RuleInfo(id: string, name: string, description: string,
                               pattern: string, severity: string, enabled: bool)

  /** The patterns of `analyze_log`, in the order they are tried. */
  function SuspiciousPatterns(): (ps: seq<string>)
    ensures |ps| == 7
  {
    [ "failed login", "unauthorized", "suspicious", "blocked",
      "port scan", "multiple failed", "integrity check failed" ]
  }

  /** The techniques `get_random_mitre_technique` chooses from. */
  function Techniques(): (ts: seq<Technique>)
    ensures |ts| == 8
  {
    [ Technique("T1078", "Valid Accounts", "Initial Access"),
      Technique("T1110", "Brute Force", "Credential Access"),
      Technique("T1059", "Command and Scripting Interpreter", "Execution"),
      Technique("T1083", "File and Directory Discovery", "Discovery"),
      Technique("T1071", "Application Layer Protocol", "Command and Control"),
      Technique("T1070", "Indicator Removal on Host", "Defense Evasion"),
      Technique("T1036", "Masquerading", "Defense Evasion"),
      Technique("T1021", "Remote Services", "Lateral Movement") ]
  }

  /** `load_rules`: three enabled rules, each watching one of the patterns. */
  function LoadRules(): (rs: seq<RuleInfo>)
    ensures |rs| == 3
    ensures forall r | r in rs :: r.enabled
    ensures rs[0].pattern == SuspiciousPatterns()[0] && rs[1].pattern == SuspiciousPatterns()[1]
    ensures rs[2].pattern == SuspiciousPatterns()[4]
    ensures forall i, j | 0 <= i < j < |rs| :: rs[i].id != rs[j].id
  {
    [ RuleInfo("rule_001", "Failed Login Detection", "Detect multiple failed login attempts",
               "failed login", "HIGH", true),
      RuleInfo("rule_002", "Unauthorized Access", "Detect unauthorized file access",
               "unauthorized", "CRITICAL", true),
      RuleInfo("rule_003", "Port Scan Detection", "Detect port scanning activity",
               "port scan", "MEDIUM", true) ]
  }

  /** The alert level for a log level. */
  function AlertLevelFor(logLevel: string): (r: string)
    ensures r == "HIGH" <==> logLevel == "ERROR" || logLevel == "CRITICAL"
    ensures r == "HIGH" || r == "MEDIUM"
  {
    if logLevel in ["ERROR", "CRITICAL"] then "HIGH" else "MEDIUM"
  }

  /** The index of the first pattern that occurs in the lower-cased message. */
  function MatchedPattern(message: string): (r: Option<nat>)
    ensures r.Some? ==> r.value < 7 && HasSubstring(Lower(message), SuspiciousPatterns()[r.value])
    ensures r.Some? ==> forall j | 0 <= j < r.value :: !HasSubstring(Lower(message), SuspiciousPatterns()[j])
    ensures r.None? <==> forall j | 0 <= j < 7 :: !HasSubstring(Lower(message), SuspiciousPatterns()[j])
  {
    var lowered := Lower(message);
    FirstWhere(SuspiciousPatterns(), (p: string) => HasSubstring(lowered, p))
  }

  /** The `alert_data` record `analyze_log` builds for `entry`. */
  function BuildAlertData(entry: Log, id: Id, technique: Technique): (a: Alert)
    ensures a.id == id && a.timestamp == entry.timestamp && a.source == entry.source
    ensures a.level == AlertLevelFor(entry.level) && a.status == "Active"
    ensures a.alertType == "Security Alert"
    ensures a.message == "Suspicious activity detected: " + entry.message
    ensures a.ipAddress == (if entry.ipAddress.Some? then entry.ipAddress.value else "Unknown")
    ensures a.mitreTechnique == technique
    ensures a.createdAt == None && a.updatedAt == None
  {
    Alert(id, entry.timestamp, AlertLevelFor(entry.level), "Security Alert",
          "Suspicious activity detected: " + entry.message, entry.source,
          entry.ipAddress.GetOr("Unknown"), technique, "Active", None, None)
  }

  /** `create_alert`'s stamping: a fresh id, and both times set to `now`. */
  function Stamp(data: Alert, id: Id, now: int): (a: Alert)
    ensures a.id == id && a.createdAt == Some(now) && a.updatedAt == a.createdAt
    ensures a.(id := data.id, createdAt := data.createdAt, updatedAt := data.updatedAt) == data
  {
    data.(id := id, createdAt := Some(now), updatedAt := Some(now))
  }

  /** The 100-alert cap: the oldest alerts over the cap are dropped. */
  function Capped(s: seq<Alert>): (r: seq<Alert>)
    ensures |r| == Min(|s|, MaxAlerts) && r == s[|s| - |r|..]
    ensures |s| <= MaxAlerts ==> r == s
    ensures s != [] ==> r != [] && r[|r| - 1] == s[|s| - 1]
  {
    if |s| > MaxAlerts then LastN(s, MaxAlerts) else s
  }

  class Siem {
    var logs: seq<Log>
    var alerts: seq<Alert>
    var nextId: Id
    const rules: seq<RuleInfo>

    constructor ()
      ensures logs == [] && alerts == [] && nextId == 0 && rules == LoadRules()
    {
      logs := [];
      alerts := [];
      nextId := 0;
      rules := LoadRules();
    }

    /** `create_alert`: stamp the record with a fresh id and the time, append
        it, then apply the cap. */
    method CreateAlert(data: Alert, now: int) returns (alert: Alert)
      modifies this`alerts, this`nextId
      ensures alert == Stamp(data, old(nextId), now)
      ensures nextId == old(nextId) + 1
      ensures alerts == Capped(old(alerts) + [alert])
      ensures |alerts| <= MaxAlerts && alerts[|alerts| - 1] == alert
    {
      alert := Stamp(data, nextId, now);
      nextId := nextId + 1;
      alerts := alerts + [alert];
      if |alerts| > MaxAlerts {
        alerts := LastN(alerts, MaxAlerts);
      }
    }

    /** `analyze_log`: try the patterns in order and raise one alert for the
        first that occurs. The built record draws one id, which `create_alert`
        then replaces with a second; `pick` is the technique draw. */
    method AnalyzeLog(entry: Log, now: int, pick: nat)
      modifies this`alerts, this`nextId
      ensures match MatchedPattern(entry.message)
              case None => alerts == old(alerts) && nextId == old(nextId)
              case Some(_) =>
                && nextId == old(nextId) + 2
                && alerts == Capped(old(alerts) + [Stamp(BuildAlertData(entry, old(nextId),
                                                     Techniques()[pick % 8]), old(nextId) + 1, now)])
    {
      var message := Lower(entry.message);
      var patterns := SuspiciousPatterns();
      var i := 0;
      while i < |patterns|
        invariant 0 <= i <= |patterns|
        invariant forall j | 0 <= j < i :: !HasSubstring(message, patterns[j])
        invariant alerts == old(alerts) && nextId == old(nextId)
      {
        if HasSubstring(message, patterns[i]) {
          assert MatchedPattern(entry.message) == Some(i);
          var data := BuildAlertData(entry, nextId, Techniques()[pick % 8]);
          nextId := nextId + 1;
          var _ := CreateAlert(data, now);
          return;
        }
        i := i + 1;
      }
    }

    /** `generate_security_logs`, given the generated entry: append it, then
        analyse it. */
    method GenerateSecurityLogs(entry: Log, now: int, pick: nat) returns (logged: Log)
      modifies this`logs, this`alerts, this`nextId
      ensures logged == entry && logs == old(logs) + [entry]
      ensures match MatchedPattern(entry.message)
              case None => alerts == old(alerts) && nextId == old(nextId)
              case Some(_) =>
                && nextId == old(nextId) + 2
                && alerts == Capped(old(alerts) + [Stamp(BuildAlertData(entry, old(nextId),
                                                     Techniques()[pick % 8]), old(nextId) + 1, now)])
    {
      logs := logs + [entry];
      AnalyzeLog(entry, now, pick);
      logged := entry;
    }

    /** `GET /api/logs`: the newest 50 logs, oldest first. */
    function RecentLogs(): (r: seq<Log>)
      reads this
      ensures |r| == Min(|logs|, LogsShown) && r == logs[|logs| - |r|..]
    {
      LastN(logs, LogsShown)
    }

    /** `GET /api/alerts`: the newest 20 alerts, oldest first. */
    function RecentAlerts(): (r: seq<Alert>)
      reads this
      ensures |r| == Min(|alerts|, AlertsShown) && r == alerts[|alerts| - |r|..]
    {
      LastN(alerts, AlertsShown)
    }

    /** `GET /api/alerts/<id>`: the first alert with that id, or 404. */
    method GetAlert(id: Id) returns (r: Result<Alert>)
      ensures match FirstWhere(alerts, (a: Alert) => a.id == id)
              case None => r == Err(NotFound)
              case Some(i) => r == Ok(alerts[i])
    {
      var i := 0;
      while i < |alerts|
        invariant 0 <= i <= |alerts|
        invariant forall j | 0 <= j < i :: alerts[j].id != id
      {
        if alerts[i].id == id {
          return Ok(alerts[i]);
        }
        i := i + 1;
      }
      return Err(NotFound);
    }
  }

  /** Only the lower-cased message decides whether, and by which pattern, a
      log raises an alert: messages differing in letter case behave alike. */
  lemma {:induction false} MatchIgnoresCase(m1: string, m2: string)
    requires Lower(m1) == Lower(m2)
    ensures MatchedPattern(m1) == MatchedPattern(m2)
  {
  }

  /** Lower-casing is idempotent, so an already lower-cased message is
      analysed as itself. */
  lemma {:induction false} LowerIdempotent(s: string)
    ensures Lower(Lower(s)) == Lower(s)
  {
    assert forall i | 0 <= i < |s| :: LowerChar(LowerChar(s[i])) == LowerChar(s[i]);
  }
}
