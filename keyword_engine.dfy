/** The engine of `wazuh/tmen_siem_backend.py`. Analysis is a side-effect
    free check of four fixed phrases (case-sensitive); it returns one alert
    per phrase present and leaves storage alone. The caller stores the log,
    stores each returned alert with a MITRE technique attached, and a
    background step trims the stores to the newest 1000 logs and 500 alerts.
    The rule list served by the API is a constant the analysis does not read. */
module KeywordEngine {
  import opened Common

  const MaxLogs: nat := 1000
  const MaxAlerts: nat := 500

  /** A generated log entry; `user` is `None` when the key is absent. */
  datatype Log = Log(id: Id, timestamp: int, logType: string, level: string,
                     message: string, source: string, user: Option<string>)

  /** An alert as `analyze_log` returns it. */
  datatype AlertData = AlertData(id: Id, timestamp: int, level: string, rule: string,
                                 description: string, source: string, agent: string,
                                 status: string)

  /** A stored alert: the analysis result plus a MITRE ATT&CK technique. */
  datatype Alert = Alert(id: Id, timestamp: int, level: string, rule: string,
                         description: string, source: string, agent: string,
                         status: string, mitreTechnique: string)

  datatype RuleInfo = RuleInfo(id: string, name: string, description: string,
                               severity: string, enabled: bool)

  /** `load_rules`. */
  function LoadRules(): (rs: seq<RuleInfo>)
    ensures |rs| == 4
    ensures forall r | r in rs :: r.enabled
    ensures forall i, j | 0 <= i < j < |rs| :: rs[i].id != rs[j].id
  {
    [ RuleInfo("rule-001", "Multiple Failed Logins", "Detect multiple failed login attempts", "HIGH", true),
      RuleInfo("rule-002", "Unauthorized File Access", "Detect unauthorized access to sensitive files", "CRITICAL", true),
      RuleInfo("rule-003", "Port Scanning", "Detect port scanning activity", "HIGH", true),
      RuleInfo("rule-004", "Malware Detection", "Detect suspicious files and malware", "CRITICAL", true) ]
  }

  /** The techniques `get_random_mitre_technique` chooses from. */
  function MitreTechniques(): (ts: seq<string>)
    ensures |ts| == 8
  {
    [ "T1078 - Valid Accounts", "T1055 - Process Injection",
      "T1027 - Obfuscated Files or Information", "T1082 - System Information Discovery",
      "T1059 - Command and Scripting Interpreter", "T1071 - Application Layer Protocol",
      "T1041 - Exfiltration Over C2 Channel", "T1090 - Connection Proxy" ]
  }

  /** One of the four checks of `analyze_log`: the phrase looked for and the
      alert it raises. `agent == None` stands for the log's `user` field,
      defaulting to "Unknown". */
  datatype Check = Check(phrase: string, level: string, rule: string,
                         description: string, agent: Option<string>)

  /** The checks, in the order `analyze_log` performs them. */
  function Checks(): (cs: seq<Check>)
    ensures |cs| == 4
    ensures DistinctRules(cs)
  {
    [ Check("Failed login attempt", "HIGH", "Multiple Failed Logins",
            "Multiple failed login attempts detected", None),
      Check("Unauthorized access attempt", "CRITICAL", "Unauthorized File Access",
            "Unauthorized access to sensitive files", None),
      Check("Port scan detected", "HIGH", "Port Scanning Activity",
            "Port scanning activity detected", Some("Network Monitor")),
      Check("Malware detection", "CRITICAL", "Malware Detection",
            "Suspicious file detected as malware", Some("Antivirus Scanner")) ]
  }

  /** The positions of the checks whose phrase occurs in `message`: strictly
      increasing, and holding every such position. */
  ghost function PresentIndices(cs: seq<Check>, message: string): (idx: seq<nat>)
    ensures |idx| <= |cs|
    ensures forall k | 0 <= k < |idx| :: idx[k] < |cs| && HasSubstring(message, cs[idx[k]].phrase)
    ensures forall k1, k2 | 0 <= k1 < k2 < |idx| :: idx[k1] < idx[k2]
    ensures forall i | 0 <= i < |cs| && HasSubstring(message, cs[i].phrase) :: i in idx
  {
    if cs == [] then []
    else
      var n := |cs| - 1;
      PresentIndices(cs[..n], message) + (if HasSubstring(message, cs[n].phrase) then [n] else [])
  }

  /** The checks whose phrase occurs in `message` (case-sensitive), each
      once and in table order: the checks at `PresentIndices`. */
  function Present(cs: seq<Check>, message: string): (r: seq<Check>)
    ensures var idx := PresentIndices(cs, message);
            |r| == |idx| && forall k | 0 <= k < |r| :: r[k] == cs[idx[k]]
  {
    if cs == [] then []
    else
      var n := |cs| - 1;
      var before := Present(cs[..n], message);
      assert forall k | 0 <= k < |before| :: before[k] == cs[PresentIndices(cs[..n], message)[k]];
      before + (if HasSubstring(message, cs[n].phrase) then [cs[n]] else [])
  }

  /** A check is among the present ones iff it is in the table and its
      phrase occurs in the message. */
  lemma {:induction false} PresentMembers(cs: seq<Check>, message: string)
    ensures forall c :: c in Present(cs, message) <==> c in cs && HasSubstring(message, c.phrase)
  {
    var r := Present(cs, message);
    var idx := PresentIndices(cs, message);
    forall c | c in cs && HasSubstring(message, c.phrase) ensures c in r {
      var i :| 0 <= i < |cs| && cs[i] == c;
      var k :| 0 <= k < |idx| && idx[k] == i;
      assert r[k] == c;
    }
  }

  /** The alert a check raises for log `e`. */
  function Raise(c: Check, e: Log, id: Id): (a: AlertData)
    ensures a.id == id && a.status == "Active" && a.timestamp == e.timestamp && a.source == e.source
    ensures a.level == c.level && a.rule == c.rule && a.description == c.description
    ensures a.agent == (match c.agent case Some(x) => x case None => e.user.GetOr("Unknown"))
  {
    AlertData(id, e.timestamp, c.level, c.rule, c.description, e.source,
              c.agent.GetOr(e.user.GetOr("Unknown")), "Active")
  }

  /** One alert per present check, numbered from `firstId`. */
  function RaiseAll(cs: seq<Check>, e: Log, firstId: Id): (r: seq<AlertData>)
    ensures |r| == |cs|
    ensures forall k | 0 <= k < |r| :: r[k] == Raise(cs[k], e, firstId + k)
  {
    if cs == [] then []
    else RaiseAll(cs[..|cs| - 1], e, firstId) + [Raise(cs[|cs| - 1], e, firstId + |cs| - 1)]
  }

  /** `analyze_log`: one alert per check whose phrase occurs in the message,
      in the order of the checks; `firstId` is the first of the fresh ids. */
  function AnalyzeLog(e: Log, firstId: Id): (r: seq<AlertData>)
    ensures |r| <= 4
    ensures forall k | 0 <= k < |r| ::
              && r[k].id == firstId + k && r[k].status == "Active"
              && r[k].timestamp == e.timestamp && r[k].source == e.source
  {
    RaiseAll(Present(Checks(), e.message), e, firstId)
  }

  // -----------------------------------------------------------------------
  // What the analysis reports, for any table of checks

  /** No two checks of `cs` raise alerts for the same rule. */
  predicate DistinctRules(cs: seq<Check>) {
    forall i, j | 0 <= i < j < |cs| :: cs[i].rule != cs[j].rule
  }

  /** `r` holds one alert per position listed in `idx`, in that order; each
      carries the rule, level and description of the check at its position,
      whose phrase occurs in `message`; the positions strictly increase and
      include every check whose phrase occurs. */
  ghost predicate RaisedFrom(cs: seq<Check>, idx: seq<nat>, r: seq<AlertData>, message: string) {
    && |r| == |idx|
    && (forall k | 0 <= k < |idx| ::
          && idx[k] < |cs| && r[k].rule == cs[idx[k]].rule && r[k].level == cs[idx[k]].level
          && r[k].description == cs[idx[k]].description && HasSubstring(message, cs[idx[k]].phrase))
    && (forall k1, k2 | 0 <= k1 < k2 < |idx| :: idx[k1] < idx[k2])
    && (forall i | 0 <= i < |cs| && HasSubstring(message, cs[i].phrase) :: i in idx)
  }

  /** The alerts raised for a check table are raised from `PresentIndices`. */
  lemma {:induction false} RaisedFromPresent(cs: seq<Check>, e: Log, firstId: Id)
    ensures RaisedFrom(cs, PresentIndices(cs, e.message), RaiseAll(Present(cs, e.message), e, firstId), e.message)
  {
    var idx := PresentIndices(cs, e.message);
    var r := RaiseAll(Present(cs, e.message), e, firstId);
    forall k | 0 <= k < |idx|
      ensures r[k].rule == cs[idx[k]].rule && r[k].level == cs[idx[k]].level
      ensures r[k].description == cs[idx[k]].description
    {
      assert r[k] == Raise(cs[idx[k]], e, firstId + k);
    }
  }

  /** The positions of the alerts in `r` that name rule `rule`. */
  ghost function Naming(r: seq<AlertData>, rule: string): set<nat> {
    set k: nat | k < |r| && r[k].rule == rule
  }

  /** The alerts of `r` follow the order of the checks in `cs`. */
  ghost predicate InCheckOrder(cs: seq<Check>, r: seq<AlertData>) {
    forall i, j, k1, k2 | 0 <= i < j < |cs| && 0 <= k1 < |r| && 0 <= k2 < |r|
                         && r[k1].rule == cs[i].rule && r[k2].rule == cs[j].rule :: k1 < k2
  }

  /** With distinct rule names an alert names the rule of check i exactly
      when it was raised at position i. */
  lemma {:induction false} RuleAt(cs: seq<Check>, idx: seq<nat>, r: seq<AlertData>, message: string,
                                  k: nat, i: nat)
    requires DistinctRules(cs) && RaisedFrom(cs, idx, r, message) && k < |r| && i < |cs|
    ensures r[k].rule == cs[i].rule <==> idx[k] == i
  {
    if idx[k] < i {
      assert cs[idx[k]].rule != cs[i].rule;
    } else if idx[k] > i {
      assert cs[i].rule != cs[idx[k]].rule;
    }
  }

  /** The rule of check i names exactly one alert if its phrase occurs and
      none otherwise. */
  lemma {:induction false} NamedOnce(cs: seq<Check>, idx: seq<nat>, r: seq<AlertData>, message: string, i: nat)
    requires DistinctRules(cs) && RaisedFrom(cs, idx, r, message) && i < |cs|
    ensures |Naming(r, cs[i].rule)| == if HasSubstring(message, cs[i].phrase) then 1 else 0
  {
    var named := Naming(r, cs[i].rule);
    forall k | 0 <= k < |r| ensures r[k].rule == cs[i].rule <==> idx[k] == i {
      RuleAt(cs, idx, r, message, k, i);
    }
    if HasSubstring(message, cs[i].phrase) {
      var k0 :| 0 <= k0 < |idx| && idx[k0] == i;
      forall k | k in named ensures k == k0 {
        assert idx[k] == idx[k0];
      }
      assert named == {k0};
    } else {
      assert named == {};
    }
  }

  /** Alerts come in the order of the checks that raised them. */
  lemma {:induction false} NamedInOrder(cs: seq<Check>, idx: seq<nat>, r: seq<AlertData>, message: string)
    requires DistinctRules(cs) && RaisedFrom(cs, idx, r, message)
    ensures InCheckOrder(cs, r)
  {
    forall i, j, k1, k2 | 0 <= i < j < |cs| && 0 <= k1 < |r| && 0 <= k2 < |r|
                         && r[k1].rule == cs[i].rule && r[k2].rule == cs[j].rule
      ensures k1 < k2
    {
      RuleAt(cs, idx, r, message, k1, i);
      RuleAt(cs, idx, r, message, k2, j);
    }
  }

  /** Some alert names the rule of check i exactly when its phrase occurs. */
  lemma {:induction false} NamedIffPresent(cs: seq<Check>, idx: seq<nat>, r: seq<AlertData>, message: string, i: nat)
    requires DistinctRules(cs) && RaisedFrom(cs, idx, r, message) && i < |cs|
    ensures (exists a | a in r :: a.rule == cs[i].rule) <==> HasSubstring(message, cs[i].phrase)
  {
    if HasSubstring(message, cs[i].phrase) {
      var k :| 0 <= k < |idx| && idx[k] == i;
      assert r[k] in r && r[k].rule == cs[i].rule;
    }
    if exists a | a in r :: a.rule == cs[i].rule {
      var a :| a in r && a.rule == cs[i].rule;
      var k :| 0 <= k < |r| && r[k] == a;
      RuleAt(cs, idx, r, message, k, i);
    }
  }

  /** Every alert carries the rule, level and description of a check whose
      phrase occurs. */
  lemma {:induction false} FromPresentCheck(cs: seq<Check>, idx: seq<nat>, r: seq<AlertData>, message: string)
    requires RaisedFrom(cs, idx, r, message)
    ensures forall a | a in r ::
              exists i | 0 <= i < |cs| ::
                && a.rule == cs[i].rule && a.level == cs[i].level
                && a.description == cs[i].description && HasSubstring(message, cs[i].phrase)
  {
    forall a | a in r
      ensures exists i | 0 <= i < |cs| ::
                && a.rule == cs[i].rule && a.level == cs[i].level
                && a.description == cs[i].description && HasSubstring(message, cs[i].phrase)
    {
      var k :| 0 <= k < |r| && r[k] == a;
      assert idx[k] < |cs|;
    }
  }

  /** There is no alert exactly when no phrase occurs. */
  lemma {:induction false} NoneIffQuiet(cs: seq<Check>, idx: seq<nat>, r: seq<AlertData>, message: string)
    requires RaisedFrom(cs, idx, r, message)
    ensures r == [] <==> forall i | 0 <= i < |cs| :: !HasSubstring(message, cs[i].phrase)
  {
    if r != [] {
      assert idx[0] < |cs| && HasSubstring(message, cs[idx[0]].phrase);
    } else {
      forall i | 0 <= i < |cs| ensures !HasSubstring(message, cs[i].phrase) {
        assert i !in idx;
      }
    }
  }

  // -----------------------------------------------------------------------
  // What `analyze_log` reports

  /** Which rules `analyze_log` reports: an alert for rule `Checks()[i]`
      exactly when its phrase occurs in the message. */
  lemma {:induction false} AnalyzeLogRules(e: Log, firstId: Id)
    ensures var cs, r := Checks(), AnalyzeLog(e, firstId);
            forall i | 0 <= i < |cs| ::
              (exists a | a in r :: a.rule == cs[i].rule) <==> HasSubstring(e.message, cs[i].phrase)
  {
    var cs := Checks();
    var idx := PresentIndices(cs, e.message);
    var r := AnalyzeLog(e, firstId);
    assert r == RaiseAll(Present(cs, e.message), e, firstId);
    RaisedFromPresent(cs, e, firstId);
    forall i | 0 <= i < |cs|
      ensures (exists a | a in r :: a.rule == cs[i].rule) <==> HasSubstring(e.message, cs[i].phrase)
    {
      NamedIffPresent(cs, idx, r, e.message, i);
    }
  }

  /** `analyze_log` returns no alert exactly when none of the four phrases
      occurs in the message. */
  lemma {:induction false} AnalyzeLogQuiet(e: Log, firstId: Id)
    ensures var cs := Checks();
            AnalyzeLog(e, firstId) == [] <==> forall i | 0 <= i < |cs| :: !HasSubstring(e.message, cs[i].phrase)
  {
    var cs := Checks();
    assert AnalyzeLog(e, firstId) == RaiseAll(Present(cs, e.message), e, firstId);
    RaisedFromPresent(cs, e, firstId);
    NoneIffQuiet(cs, PresentIndices(cs, e.message), AnalyzeLog(e, firstId), e.message);
  }

  /** Every alert of `analyze_log` carries the rule, level and description
      of a check whose phrase occurs in the message. */
  lemma {:induction false} AnalyzeLogProvenance(e: Log, firstId: Id)
    ensures var cs, r := Checks(), AnalyzeLog(e, firstId);
            forall a | a in r ::
              exists i | 0 <= i < |cs| ::
                && a.rule == cs[i].rule && a.level == cs[i].level
                && a.description == cs[i].description
                && HasSubstring(e.message, cs[i].phrase)
  {
    var cs := Checks();
    assert AnalyzeLog(e, firstId) == RaiseAll(Present(cs, e.message), e, firstId);
    RaisedFromPresent(cs, e, firstId);
    FromPresentCheck(cs, PresentIndices(cs, e.message), AnalyzeLog(e, firstId), e.message);
  }

  /** `analyze_log` raises exactly one alert for each rule whose phrase
      occurs and none for the others, in the order of the four checks, so
      a message holding several phrases yields their alerts in table order. */
  lemma {:induction false} AnalyzeLogOncePerRule(e: Log, firstId: Id)
    ensures var cs, r := Checks(), AnalyzeLog(e, firstId);
            forall i | 0 <= i < |cs| ::
              |Naming(r, cs[i].rule)| == if HasSubstring(e.message, cs[i].phrase) then 1 else 0
    ensures InCheckOrder(Checks(), AnalyzeLog(e, firstId))
  {
    var cs := Checks();
    var idx := PresentIndices(cs, e.message);
    var r := AnalyzeLog(e, firstId);
    assert r == RaiseAll(Present(cs, e.message), e, firstId);
    RaisedFromPresent(cs, e, firstId);
    forall i | 0 <= i < |cs|
      ensures |Naming(r, cs[i].rule)| == if HasSubstring(e.message, cs[i].phrase) then 1 else 0
    {
      NamedOnce(cs, idx, r, e.message, i);
    }
    NamedInOrder(cs, idx, r, e.message);
  }

  /** `create_alert`: the stored alert copies every field of the analysis result. */
  function StoredAlert(data: AlertData, technique: string): (a: Alert)
    ensures a.id == data.id && a.timestamp == data.timestamp && a.level == data.level
    ensures a.rule == data.rule && a.description == data.description && a.source == data.source
    ensures a.agent == data.agent && a.status == data.status && a.mitreTechnique == technique
  {
    Alert(data.id, data.timestamp, data.level, data.rule, data.description,
          data.source, data.agent, data.status, technique)
  }

  /** The alerts `create_alert` stores for `found`, the k-th with technique draw `pick(k)`. */
  function StoreAll(found: seq<AlertData>, pick: nat -> nat): (r: seq<Alert>)
    ensures |r| == |found|
    ensures forall k | 0 <= k < |r| :: r[k] == StoredAlert(found[k], MitreTechniques()[pick(k) % 8])
  {
    if found == [] then []
    else StoreAll(found[..|found| - 1], pick)
         + [StoredAlert(found[|found| - 1], MitreTechniques()[pick(|found| - 1) % 8])]
  }

  class Siem {
    var logs: seq<Log>
    var alerts: seq<Alert>
    var nextId: Id
    const rules: seq<RuleInfo>

    constructor ()
      ensures logs == [] && alerts == [] && nextId == 0 && rules == LoadRules()
    {
      logs := [];
      alerts := [];
      nextId := 0;
      rules := LoadRules();
    }

    /** `create_alert`; `pick` is the random draw of the technique. */
    method CreateAlert(data: AlertData, pick: nat) returns (alert: Alert)
      modifies this`alerts
      ensures alert == StoredAlert(data, MitreTechniques()[pick % 8])
      ensures alerts == old(alerts) + [alert]
    {
      alert := StoredAlert(data, MitreTechniques()[pick % 8]);
      alerts := alerts + [alert];
    }

    /** The body shared by the generate route and the background loop: store
        the log, analyse it, store every alert the analysis returns.
        `pick(k)` is the technique draw for the k-th alert. */
    method IngestLog(entry: Log, pick: nat -> nat)
      modifies this`logs, this`alerts, this`nextId
      ensures logs == old(logs) + [entry]
      ensures nextId == old(nextId) + |AnalyzeLog(entry, old(nextId))|
      ensures alerts == old(alerts) + StoreAll(AnalyzeLog(entry, old(nextId)), pick)
    {
      logs := logs + [entry];
      var found := AnalyzeLog(entry, nextId);
      nextId := nextId + |found|;
      StoreAlerts(found, pick);
    }

    /** The `for alert in alerts: create_alert(alert)` loop. */
    method StoreAlerts(found: seq<AlertData>, pick: nat -> nat)
      modifies this`alerts
      ensures alerts == old(alerts) + StoreAll(found, pick)
    {
      var k := 0;
      while k < |found|
        invariant 0 <= k <= |found|
        invariant alerts == old(alerts) + StoreAll(found[..k], pick)
      {
        var _ := CreateAlert(found[k], pick(k));
        assert found[..k + 1][..k] == found[..k];
        k := k + 1;
      }
      assert found[..k] == found;
    }

    /** The retention step of the background loop: keep the newest 1000
        logs and 500 alerts, in their original order. */
    method TrimRetention()
      modifies this`logs, this`alerts
      ensures logs == (if |old(logs)| > MaxLogs then LastN(old(logs), MaxLogs) else old(logs))
      ensures alerts == (if |old(alerts)| > MaxAlerts then LastN(old(alerts), MaxAlerts) else old(alerts))
      ensures |logs| == Min(|old(logs)|, MaxLogs) && logs == old(logs)[|old(logs)| - |logs|..]
      ensures |alerts| == Min(|old(alerts)|, MaxAlerts) && alerts == old(alerts)[|old(alerts)| - |alerts|..]
    {
      if |logs| > MaxLogs {
        logs := LastN(logs, MaxLogs);
      } else {
        assert logs == old(logs)[|old(logs)| - |logs|..];
      }
      if |alerts| > MaxAlerts {
        alerts := LastN(alerts, MaxAlerts);
      } else {
        assert alerts == old(alerts)[|old(alerts)| - |alerts|..];
      }
    }

    /** `GET /api/alerts/<id>`: the first alert with that id, or 404. */
    method GetAlert(id: Id) returns (r: Result<Alert>)
      ensures match FirstWhere(alerts, (a: Alert) => a.id == id)
              case None => r == Err(NotFound)
              case Some(i) => r == Ok(alerts[i])
    {
      var i := 0;
      while i < |alerts|
        invariant 0 <= i <= |alerts|
        invariant forall j | 0 <= j < i :: alerts[j].id != id
      {
        if alerts[i].id == id {
          return Ok(alerts[i]);
        }
        i := i + 1;
      }
      return Err(NotFound);
    }
  }
}
