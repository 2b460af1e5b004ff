/** The rule engine of `tmen_siem_backend.py`: a fixed table of five rules,
    each a pattern with a threshold, a time window and a severity. Every new
    log is stored and then checked against every rule; a rule whose pattern
    the message contains (ignoring case) fires when enough recent logs of the
    same category are stored, and each firing appends one alert. Alerts are
    later patched by id through the HTTP layer. */
module SlidingWindowEngine {
  import opened Common

  /** A rule of the table. Its regular expression is either a plain phrase
      or an alternation of plain words, so it is kept as the list of its
      alternatives; the rule matches when one of them occurs, ignoring case. */
  datatype Rule = Rule(name: string, alternatives: seq<string>, threshold: int,
                       timeWindow: int, severity: string)

  /** A stored log entry; `timestamp` is in seconds. */
  datatype Log = Log(id: Id, timestamp: int, logType: string, message: string,
                     sourceIp: string, user: string, severity: string, agentId: string)

  /** An alert record. `assignedTo` is `None` for JSON null. */
  datatype Alert = Alert(id: Id, timestamp: int, ruleName: string, severity: string,
                         message: string, sourceIp: string, user: string, agentId: string,
                         status: string, assignedTo: Option<string>, notes: string)

  /** The body of a PUT on an alert: the keys present in the JSON object. */
  datatype Patch = Patch(id: Option<Id>, timestamp: Option<int>, ruleName: Option<string>,
                         severity: Option<string>, message: Option<string>,
                         sourceIp: Option<string>, user: Option<string>, agentId: Option<string>,
                         status: Option<string>, assignedTo: Option<Option<string>>,
                         notes: Option<string>)

  /** The rule table, in the order the dictionary literal lists it. */
  function LoadRules(): (rs: seq<Rule>)
    ensures |rs| == 5
    ensures forall r | r in rs :: r.threshold >= 1 && r.timeWindow > 0 && r.alternatives != []
    ensures forall i, j | 0 <= i < j < |rs| :: rs[i].name != rs[j].name
  {
    [ Rule("brute_force", ["Failed login attempt"], 5, 300, "high"),
      Rule("malware_detection", ["virus", "malware", "trojan", "ransomware"], 1, 60, "critical"),
      Rule("unauthorized_access", ["Unauthorized access attempt"], 3, 180, "high"),
      Rule("file_integrity", ["File modified without authorization"], 1, 60, "medium"),
      Rule("network_scan", ["Port scan detected"], 10, 60, "medium") ]
  }

  /** `re.search(pattern, message, re.IGNORECASE)` for these patterns. */
  predicate Matches(r: Rule, message: string) {
    exists a | a in r.alternatives :: HasSubstring(Lower(message), Lower(a))
  }

  /** The list comprehension `recent_logs`: the stored logs of category
      `logType` whose timestamp is strictly later than `cutoff`, in order. */
  function Recent(logs: seq<Log>, logType: string, cutoff: int): (r: seq<Log>)
    ensures |r| <= |logs|
  {
    if logs == [] then []
    else
      var last := logs[|logs| - 1];
      Recent(logs[..|logs| - 1], logType, cutoff)
        + (if last.logType == logType && last.timestamp > cutoff then [last] else [])
  }

  /** The number of logs that count for rule `r` when `entry` is analysed at `now`. */
  function WindowCount(r: Rule, entry: Log, logs: seq<Log>, now: int): (n: nat)
    ensures n <= |logs|
  {
    |Recent(logs, entry.logType, now - r.timeWindow)|
  }

  /** Rule `r` creates an alert for `entry`. */
  predicate Fires(r: Rule, entry: Log, logs: seq<Log>, now: int)
  {
    Matches(r, entry.message) && WindowCount(r, entry, logs, now) >= r.threshold
  }

  /** The rules of `rules` that fire for `entry`, in table order. */
  function FiredRules(rules: seq<Rule>, entry: Log, logs: seq<Log>, now: int): (r: seq<Rule>)
    ensures |r| <= |rules|
  {
    if rules == [] then []
    else
      var last := rules[|rules| - 1];
      FiredRules(rules[..|rules| - 1], entry, logs, now)
        + (if Fires(last, entry, logs, now) then [last] else [])
  }

  /** The alert `create_alert` builds. */
  function NewAlert(ruleName: string, entry: Log, severity: string, now: int, id: Id): (a: Alert)
  {
    Alert(id, now, ruleName, severity,
          "Rule '" + ruleName + "' triggered: " + entry.message,
          entry.sourceIp, entry.user, entry.agentId, "active", None, "")
  }

  /** The alerts created for the fired rules, with consecutive fresh ids. */
  function AlertsFor(fired: seq<Rule>, entry: Log, now: int, firstId: Id): (r: seq<Alert>)
    ensures |r| == |fired|
  {
    if fired == [] then []
    else
      var last := fired[|fired| - 1];
      AlertsFor(fired[..|fired| - 1], entry, now, firstId)
        + [NewAlert(last.name, entry, last.severity, now, firstId + |fired| - 1)]
  }

  /** `alert.update(data)`: every key present in the patch overwrites that field. */
  function Merge(a: Alert, p: Patch): (r: Alert)
    ensures p.id.None? ==> r.id == a.id
    ensures p.id.Some? ==> r.id == p.id.value
    ensures p.status.None? ==> r.status == a.status
    ensures p == NoChange ==> r == a
  {
    Alert(p.id.GetOr(a.id), p.timestamp.GetOr(a.timestamp), p.ruleName.GetOr(a.ruleName),
          p.severity.GetOr(a.severity), p.message.GetOr(a.message),
          p.sourceIp.GetOr(a.sourceIp), p.user.GetOr(a.user), p.agentId.GetOr(a.agentId),
          p.status.GetOr(a.status), p.assignedTo.GetOr(a.assignedTo), p.notes.GetOr(a.notes))
  }

  /** The position `update_alert` edits: the first alert with that id. */
  function IndexOfAlert(alerts: seq<Alert>, id: Id): (r: Option<nat>)
    ensures r.Some? ==> r.value < |alerts| && alerts[r.value].id == id
    ensures r.Some? ==> forall j | 0 <= j < r.value :: alerts[j].id != id
    ensures r.None? <==> forall j | 0 <= j < |alerts| :: alerts[j].id != id
  {
    FirstWhere(alerts, (a: Alert) => a.id == id)
  }

  /** The empty JSON object as a patch. */
  const NoChange := Patch(None, None, None, None, None, None, None, None, None, None, None)

  /** Applying the same PUT body twice leaves the alert as applying it once. */
  lemma {:induction false} MergeTwice(a: Alert, p: Patch)
    ensures Merge(Merge(a, p), p) == Merge(a, p)
  {
  }

  /** Matching is blind to case: a message and its lower-cased form match
      the same rules. */
  lemma {:induction false} MatchesLowered(r: Rule, message: string)
    ensures Matches(r, Lower(message)) == Matches(r, message)
  {
    assert Lower(Lower(message)) == Lower(message) by {
      assert forall i | 0 <= i < |message| :: LowerChar(LowerChar(message[i])) == LowerChar(message[i]);
    }
  }

  /** `items[start:end]` with `start = (page - 1) * limit`, `end = start + limit`. */
  function Page<T>(items: seq<T>, page: int, limit: int): (r: seq<T>)
    ensures page >= 1 && limit >= 0 ==>
              var start := (page - 1) * limit;
              |r| <= limit && r == items[Min(start, |items|)..Min(start + limit, |items|)]
    ensures page == 0 ==> r == []
  {
    PageBounds(page, limit);
    Window(items, (page - 1) * limit, limit)
  }

  /** The page arithmetic: from page 1 on the start is not negative, and
      page 0 ends its window at 0, so it is empty. */
  lemma PageBounds(page: int, limit: int)
    ensures page >= 1 && limit >= 0 ==> 0 <= (page - 1) * limit
    ensures page == 0 ==> (page - 1) * limit + limit == 0
  {
  }

  /** The slice `items[start:start + limit]`: from a non-negative start it
      is the window cut at the end of the list, with at most `limit` items,
      and a window that ends at index 0 is empty. */
  function Window<T>(items: seq<T>, start: int, limit: int): (r: seq<T>)
    ensures 0 <= start && 0 <= limit ==>
              |r| <= limit && r == items[Min(start, |items|)..Min(start + limit, |items|)]
    ensures start + limit == 0 ==> r == []
  {
    PySlice(items, start, start + limit)
  }


  // -----------------------------------------------------------------------
  // The window

  /** One more fired rule adds its alert, with the next id, at the end. */
  lemma {:induction false} AlertsForAppend(fired: seq<Rule>, r: Rule, entry: Log, now: int, firstId: Id)
    ensures AlertsFor(fired + [r], entry, now, firstId)
            == AlertsFor(fired, entry, now, firstId) + [NewAlert(r.name, entry, r.severity, now, firstId + |fired|)]
  {
    assert (fired + [r])[..|fired + [r]| - 1] == fired;
  }

  /** Appending a log adds it to the window exactly when it qualifies. */
  lemma {:induction false} RecentAppend(logs: seq<Log>, x: Log, logType: string, cutoff: int)
    ensures Recent(logs + [x], logType, cutoff)
            == Recent(logs, logType, cutoff)
               + (if x.logType == logType && x.timestamp > cutoff then [x] else [])
  {
    assert (logs + [x])[..|logs + [x]| - 1] == logs;
  }

  /** The window holds exactly the stored logs of that category later than the cutoff. */
  lemma {:induction false} RecentMembers(logs: seq<Log>, logType: string, cutoff: int)
    ensures forall x :: x in Recent(logs, logType, cutoff) <==>
                        x in logs && x.logType == logType && x.timestamp > cutoff
  {
    if logs != [] {
      var init := logs[..|logs| - 1];
      RecentMembers(init, logType, cutoff);
      assert logs == init + [logs[|logs| - 1]];
    }
  }

  /** The positions of the stored logs that count. */
  ghost function CountedPositions(logs: seq<Log>, logType: string, cutoff: int): set<nat> {
    set i: nat | i < |logs| && logs[i].logType == logType && logs[i].timestamp > cutoff
  }

  /** The count compared with the threshold is the number of stored logs
      of the entry's category whose timestamp is strictly after the cutoff. */
  lemma {:induction false} RecentCountsPositions(logs: seq<Log>, logType: string, cutoff: int)
    ensures |Recent(logs, logType, cutoff)| == |CountedPositions(logs, logType, cutoff)|
  {
    if logs != [] {
      var n := |logs| - 1;
      var init := logs[..n];
      RecentCountsPositions(init, logType, cutoff);
      var before := CountedPositions(init, logType, cutoff);
      var now := CountedPositions(logs, logType, cutoff);
      if logs[n].logType == logType && logs[n].timestamp > cutoff {
        assert now == before + {n};
        assert n !in before;
      } else {
        assert now == before;
      }
    }
  }

  /** Storing more logs never lowers a window count. */
  lemma {:induction false} WindowCountGrows(r: Rule, entry: Log, logs: seq<Log>, x: Log, now: int)
    ensures WindowCount(r, entry, logs + [x], now) >= WindowCount(r, entry, logs, now)
  {
    RecentAppend(logs, x, entry.logType, now - r.timeWindow);
  }

  /** A log stored at `now` is in its own window, for any rule with a positive window. */
  lemma {:induction false} NewLogCountsItself(r: Rule, logs: seq<Log>, entry: Log, now: int)
    requires entry.timestamp == now && r.timeWindow > 0
    ensures WindowCount(r, entry, logs + [entry], now) == WindowCount(r, entry, logs, now) + 1
  {
    RecentAppend(logs, entry, entry.logType, now - r.timeWindow);
  }

  // -----------------------------------------------------------------------
  // Firing

  lemma {:induction false} FiredRulesAppend(rules: seq<Rule>, r: Rule, entry: Log, logs: seq<Log>, now: int)
    ensures FiredRules(rules + [r], entry, logs, now)
            == FiredRules(rules, entry, logs, now) + (if Fires(r, entry, logs, now) then [r] else [])
  {
    assert (rules + [r])[..|rules + [r]| - 1] == rules;
  }

  /** A rule fires for a log iff it is in the table, its pattern matches and
      the window count reaches its threshold; at most one alert per rule. */
  lemma {:induction false} FiredRulesSpec(rules: seq<Rule>, entry: Log, logs: seq<Log>, now: int)
    ensures |FiredRules(rules, entry, logs, now)| <= |rules|
    ensures forall r :: r in FiredRules(rules, entry, logs, now) <==>
                        r in rules && Matches(r, entry.message) &&
                        WindowCount(r, entry, logs, now) >= r.threshold
  {
    if rules != [] {
      var init := rules[..|rules| - 1];
      FiredRulesSpec(init, entry, logs, now);
      assert rules == init + [rules[|rules| - 1]];
    }
  }

  /** Each rule fires at most once per analysed log: a rule occurs among
      the firings no more often than it occurs in the table. */
  lemma {:induction false} FiredRulesOncePerRule(rules: seq<Rule>, entry: Log, logs: seq<Log>, now: int)
    ensures forall r :: multiset(FiredRules(rules, entry, logs, now))[r] <= multiset(rules)[r]
  {
    if rules != [] {
      var init := rules[..|rules| - 1];
      var last := rules[|rules| - 1];
      FiredRulesOncePerRule(init, entry, logs, now);
      assert rules == init + [last];
      assert multiset(rules) == multiset(init) + multiset{last};
    }
  }

  /** A message that matches no pattern fires no rule. */
  lemma {:induction false} NoMatchNoFiring(rules: seq<Rule>, entry: Log, logs: seq<Log>, now: int)
    requires forall r | r in rules :: !Matches(r, entry.message)
    ensures FiredRules(rules, entry, logs, now) == []
  {
    if rules != [] {
      var init := rules[..|rules| - 1];
      assert forall r | r in init :: r in rules;
      NoMatchNoFiring(init, entry, logs, now);
    }
  }

  /** Rules are evaluated independently: the firings over two parts of a
      table are the firings of each part. */
  lemma {:induction false} FiredRulesSplit(a: seq<Rule>, b: seq<Rule>, entry: Log, logs: seq<Log>, now: int)
    ensures FiredRules(a + b, entry, logs, now)
            == FiredRules(a, entry, logs, now) + FiredRules(b, entry, logs, now)
  {
    if b == [] {
      assert a + b == a;
    } else {
      var init := b[..|b| - 1];
      var last := b[|b| - 1];
      assert a + b == (a + init) + [last];
      assert b == init + [last];
      FiredRulesAppend(a + init, last, entry, logs, now);
      FiredRulesAppend(init, last, entry, logs, now);
      FiredRulesSplit(a, init, entry, logs, now);
    }
  }

  /** No deduplication: once a rule fires for an entry, a later log of the
      same category that matches the rule fires it again. */
  lemma {:induction false} RefiresWithoutDeduplication(r: Rule, entry: Log, logs: seq<Log>, next: Log, now: int)
    requires Fires(r, entry, logs, now)
    requires next.logType == entry.logType && Matches(r, next.message)
    ensures Fires(r, next, logs + [next], now)
  {
    WindowCountGrows(r, entry, logs, next, now);
  }

  /** Every created alert is active, unassigned, unannotated, and copies the log's origin. */
  lemma {:induction false} AlertsForShape(fired: seq<Rule>, entry: Log, now: int, firstId: Id)
    ensures |AlertsFor(fired, entry, now, firstId)| == |fired|
    ensures forall k | 0 <= k < |fired| ::
              var a := AlertsFor(fired, entry, now, firstId)[k];
              && a.id == firstId + k && a.ruleName == fired[k].name
              && a.severity == fired[k].severity && a.status == "active"
              && a.assignedTo == None && a.notes == ""
              && a.message == "Rule '" + fired[k].name + "' triggered: " + entry.message
              && a.sourceIp == entry.sourceIp && a.user == entry.user && a.agentId == entry.agentId
  {
    if fired != [] {
      AlertsForShape(fired[..|fired| - 1], entry, now, firstId);
    }
  }

  // -----------------------------------------------------------------------
  // The engine object

  /** The alerts `get_alerts` counts as active, and as critical; the counts
      are the numbers of positions of the store holding such an alert. */
  predicate IsActiveAlert(a: Alert) { a.status == "active" }

  predicate IsCriticalAlert(a: Alert) { a.severity == "critical" }

  /** The `active_alerts` count of `get_alerts`. */
  function ActiveCount(alerts: seq<Alert>): (n: nat)
    ensures n == |Positions(alerts, IsActiveAlert)|
    ensures n <= |alerts|
    ensures n == 0 <==> forall i | 0 <= i < |alerts| :: alerts[i].status != "active"
  {
    CountWherePositions(alerts, IsActiveAlert);
    CountWhere(alerts, IsActiveAlert)
  }

  /** The `critical_alerts` count of `get_alerts`. */
  function CriticalCount(alerts: seq<Alert>): (n: nat)
    ensures n == |Positions(alerts, IsCriticalAlert)|
    ensures n <= |alerts|
    ensures n == 0 <==> forall i | 0 <= i < |alerts| :: alerts[i].severity != "critical"
  {
    CountWherePositions(alerts, IsCriticalAlert);
    CountWhere(alerts, IsCriticalAlert)
  }

  class Siem {
    var logs: seq<Log>
    var alerts: seq<Alert>
    /** The source of fresh ids (uuid4 in the source). */
    var nextId: Id
    const rules: seq<Rule>

    constructor ()
      ensures logs == [] && alerts == [] && nextId == 0 && rules == LoadRules()
    {
      logs := [];
      alerts := [];
      nextId := 0;
      rules := LoadRules();
    }

    /** `create_alert`: appends one alert and returns it. */
    method CreateAlert(ruleName: string, entry: Log, severity: string, now: int) returns (alert: Alert)
      modifies this`alerts, this`nextId
      ensures alert == NewAlert(ruleName, entry, severity, now, old(nextId))
      ensures alerts == old(alerts) + [alert]
      ensures nextId == old(nextId) + 1
    {
      alert := NewAlert(ruleName, entry, severity, now, nextId);
      nextId := nextId + 1;
      alerts := alerts + [alert];
    }

    /** One pass of the rule loop of `analyze_log`: when the message matches
        the rule's pattern and the window holds enough logs, one alert. */
    method ApplyRule(rule: Rule, entry: Log, now: int)
      modifies this`alerts, this`nextId
      ensures Fires(rule, entry, logs, now) ==>
                && alerts == old(alerts) + [NewAlert(rule.name, entry, rule.severity, now, old(nextId))]
                && nextId == old(nextId) + 1
      ensures !Fires(rule, entry, logs, now) ==> alerts == old(alerts) && nextId == old(nextId)
    {
      if Matches(rule, entry.message) {
        var recentLogs := Recent(logs, entry.logType, now - rule.timeWindow);
        if |recentLogs| >= rule.threshold {
          var _ := CreateAlert(rule.name, entry, rule.severity, now);
        }
      }
    }

    /** `analyze_log`: one alert per rule that fires, in table order. */
    method AnalyzeLog(entry: Log, now: int)
      modifies this`alerts, this`nextId
      ensures alerts == old(alerts) + AlertsFor(FiredRules(rules, entry, logs, now), entry, now, old(nextId))
      ensures nextId == old(nextId) + |FiredRules(rules, entry, logs, now)|
    {
      var i := 0;
      while i < |rules|
        invariant 0 <= i <= |rules|
        invariant alerts == old(alerts) + AlertsFor(FiredRules(rules[..i], entry, logs, now), entry, now, old(nextId))
        invariant nextId == old(nextId) + |FiredRules(rules[..i], entry, logs, now)|
      {
        var rule := rules[i];
        ghost var firedBefore := FiredRules(rules[..i], entry, logs, now);
        assert rules[..i + 1] == rules[..i] + [rule];
        FiredRulesAppend(rules[..i], rule, entry, logs, now);
        AlertsForAppend(firedBefore, rule, entry, now, old(nextId));
        ApplyRule(rule, entry, now);
        if !Fires(rule, entry, logs, now) {
          assert firedBefore + [] == firedBefore;
        }
        i := i + 1;
      }
      assert rules[..i] == rules;
    }

    /** `generate_security_logs` after the random choices: stores the log,
        then analyses it, so the new log counts in its own window. */
    method GenerateSecurityLogs(logType: string, message: string, sourceIp: string,
                                user: string, severity: string, agentId: string, now: int)
      returns (entry: Log)
      modifies this`logs, this`alerts, this`nextId
      ensures entry == Log(old(nextId), now, logType, message, sourceIp, user, severity, agentId)
      ensures logs == old(logs) + [entry]
      ensures alerts == old(alerts) + AlertsFor(FiredRules(rules, entry, logs, now), entry, now, old(nextId) + 1)
      ensures nextId == old(nextId) + 1 + |FiredRules(rules, entry, logs, now)|
      ensures forall r | r in rules && r.timeWindow > 0 ::
                WindowCount(r, entry, logs, now) == WindowCount(r, entry, old(logs), now) + 1
    {
      entry := Log(nextId, now, logType, message, sourceIp, user, severity, agentId);
      nextId := nextId + 1;
      logs := logs + [entry];
      AnalyzeLog(entry, now);
      forall r | r in rules && r.timeWindow > 0
        ensures WindowCount(r, entry, logs, now) == WindowCount(r, entry, old(logs), now) + 1
      {
        NewLogCountsItself(r, old(logs), entry, now);
      }
    }

    /** The PUT handler: merges the patch into the first alert with that id,
        or answers 404 and changes nothing. */
    method UpdateAlert(id: Id, patch: Patch) returns (r: Result<Alert>)
      modifies this`alerts
      ensures match IndexOfAlert(old(alerts), id)
              case None => r == Err(NotFound) && alerts == old(alerts)
              case Some(i) => alerts == old(alerts)[i := Merge(old(alerts)[i], patch)]
                              && r == Ok(alerts[i])
    {
      var i := 0;
      while i < |alerts|
        invariant 0 <= i <= |alerts| && alerts == old(alerts)
        invariant forall j | 0 <= j < i :: alerts[j].id != id
      {
        if alerts[i].id == id {
          alerts := alerts[i := Merge(alerts[i], patch)];
          return Ok(alerts[i]);
        }
        i := i + 1;
      }
      return Err(NotFound);
    }

    /** `GET /api/logs?page=&limit=`: one page of the stored logs. */
    function LogsPage(page: int, limit: int): (r: seq<Log>)
      reads this
      ensures page >= 1 && limit >= 0 ==>
                var start := (page - 1) * limit;
                |r| <= limit && r == logs[Min(start, |logs|)..Min(start + limit, |logs|)]
    {
      Page(logs, page, limit)
    }

    /** `GET /api/alerts?page=&limit=`: one page of alerts, the total, and
        the numbers of active and of critical alerts among all stored ones. */
    function AlertsPage(page: int, limit: int): (r: (seq<Alert>, nat, nat, nat))
      reads this
      ensures r.0 == Page(alerts, page, limit)
      ensures page >= 1 && limit >= 0 ==> |r.0| <= limit
      ensures r.1 == |alerts|
      ensures r.2 == |Positions(alerts, IsActiveAlert)|
      ensures r.3 == |Positions(alerts, IsCriticalAlert)|
      ensures r.2 <= r.1 && r.3 <= r.1
      ensures r.2 == 0 <==> forall i | 0 <= i < |alerts| :: alerts[i].status != "active"
      ensures r.3 == 0 <==> forall i | 0 <= i < |alerts| :: alerts[i].severity != "critical"
    {
      (Page(alerts, page, limit), |alerts|, ActiveCount(alerts), CriticalCount(alerts))
    }
  }
}
