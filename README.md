# TMEN SIEM core, modelled in Dafny

This project models the core of a small SIEM (security information and event
management) system. The system ingests security log entries, checks them
against detection rules, and raises alerts. It has three parts:

- **Three Python back ends**, each with its own rule engine and alert store:
  - a sliding-window engine: a rule fires when enough recent logs of the same
    category are stored;
  - a keyword engine: four fixed phrases, one alert per phrase, plus
    retention trimming;
  - a first-match engine: seven patterns, the first match wins, plus a
    100-alert cap.
- **The Java domain entities**: `User`, `Alert`, `Rule`, `Agent` and
  `AgentGroup`, each with its small state machine.
- **Two map-backed Java controllers**, `AlertController` and
  `AgentController`.

Each core file is one module:

| module | models |
|---|---|
| `Common` | shared vocabulary: `Option`/`Result`, counter ids, ASCII case folding, substring search, Python slices, the Java `int` wrap, first-match search, filtering, counting, map enumeration |
| `SlidingWindowEngine` | `tmen_siem_backend.py` |
| `KeywordEngine` | `wazuh/tmen_siem_backend.py` |
| `FirstMatchEngine` | `wazuh/tmen_siem_backend_no_psutil.py` |
| `UserModel`, `AlertModel`, `RuleModel`, `AgentModel` | the entities `User`, `Alert`, `Rule`, and `Agent` with `AgentGroup` |
| `AlertController`, `AgentController` | the two controllers |

Code that changes state becomes a Dafny `class`:

- **The Python engines.** A class holds the log and alert lists as `seq`
  fields, which the methods reassign.
- **The Java entities.** A class has the entity's fields, with one method
  per mutator.
- **The controllers.** A class holds a `map` from id to a record value.

Each method's `ensures` gives the new state as a function of the old state
and the inputs. The source's promises are then proved as lemmas about those
functions. Code that only computes a value becomes a function.

Several inputs of the source become parameters, or are replaced:

- **Time.** Clock readings (`datetime.now()`, `LocalDateTime.now()`)
  become an integer parameter `now`, in seconds.
- **Identifiers.** `uuid4()` and `UUID.randomUUID()` become a counter
  `nextId`, so an id is a natural number.
- **Random draws.** A draw that does not change control flow becomes a
  parameter: `pick` for the MITRE technique.
- **Generated logs.** Log entries are taken as inputs.

## Model

| member | source | states |
|---|---|---|
| `SlidingWindowEngine.LoadRules` | tmen_siem_backend.py:40-73 | five rules; every threshold ≥ 1, every window > 0, every pattern non-empty; the names are distinct |
| `SlidingWindowEngine.Matches` | tmen_siem_backend.py:171 | the pattern test: one of the rule's alternatives occurs in the message, both lower-cased (no contract of its own; see `MatchesLowered` and `FiredRulesSpec`) |
| `SlidingWindowEngine.MatchesLowered` | tmen_siem_backend.py:171 | `re.search(…, re.IGNORECASE)`: a message and its lower-cased form match the same rules |
| `SlidingWindowEngine.Recent` | tmen_siem_backend.py:173-176 | the `recent_logs` comprehension: never longer than the stored log list |
| `SlidingWindowEngine.WindowCount` | tmen_siem_backend.py:173-178 | `len(recent_logs)`, at most the number of stored logs |
| `SlidingWindowEngine.Fires` | tmen_siem_backend.py:171-178 | the pattern matches and the window count reaches the threshold (no contract of its own; `FiredRulesSpec` states it) |
| `SlidingWindowEngine.RecentMembers` | tmen_siem_backend.py:173-176 | a log is in the window iff it is stored, has the entry's `type` (not only a matching message), and has a timestamp strictly after `now - time_window` |
| `SlidingWindowEngine.RecentCountsPositions` | tmen_siem_backend.py:173-178 | the count compared with the threshold equals the number of stored positions that qualify |
| `SlidingWindowEngine.RecentAppend` | tmen_siem_backend.py:164-176 | storing one more log adds it to the window exactly when it qualifies |
| `SlidingWindowEngine.WindowCountGrows` | tmen_siem_backend.py:164-176 | storing a log never lowers a window count |
| `SlidingWindowEngine.NewLogCountsItself` | tmen_siem_backend.py:164-176 | a log stored at `now` raises its own window count by exactly one, for any rule with a positive window |
| `SlidingWindowEngine.FiredRules` | tmen_siem_backend.py:170-179 | the rules of the table that fire, in table order; never more than the rules tried |
| `SlidingWindowEngine.FiredRulesAppend` | tmen_siem_backend.py:170-179 | rules are tried one after another, each contributing its own firing or nothing |
| `SlidingWindowEngine.FiredRulesSpec` | tmen_siem_backend.py:170-179 | a rule fires iff it is in the table, its pattern matches ignoring case, and its window count reaches its threshold; there are at most `\|rules\|` firings |
| `SlidingWindowEngine.FiredRulesOncePerRule` | tmen_siem_backend.py:170-179 | at most one firing per rule: a rule occurs among the firings no more often than in the table (as multisets) |
| `SlidingWindowEngine.NoMatchNoFiring` | tmen_siem_backend.py:170-171 | a message that matches no pattern fires no rule |
| `SlidingWindowEngine.FiredRulesSplit` | tmen_siem_backend.py:170-179 | rules are independent: the firings over two parts of the table are the firings of each part |
| `SlidingWindowEngine.RefiresWithoutDeduplication` | tmen_siem_backend.py:168-198 | no deduplication: after a firing, a later matching log of the same type fires the rule again |
| `SlidingWindowEngine.AlertsForShape` | tmen_siem_backend.py:181-198 | one alert per fired rule, with consecutive fresh ids; each is status 'active', unassigned, with empty notes, the rule's severity, message "Rule '<name>' triggered: <message>", and the log's source_ip, user and agent_id |
| `SlidingWindowEngine.AlertsFor` | tmen_siem_backend.py:179-197 | the alerts the fired rules append: exactly one per fired rule |
| `SlidingWindowEngine.NewAlert` | tmen_siem_backend.py:183-195 | the alert dictionary of `create_alert` (no contract of its own; `AlertsForShape` states every field) |
| `SlidingWindowEngine.AlertsForAppend` | tmen_siem_backend.py:179-197 | one more fired rule appends its alert, with the next id, after the earlier ones |
| `SlidingWindowEngine.Merge` | tmen_siem_backend.py:342 | `alert.update(data)`: a key absent from the body keeps its field (in particular the id and the status), a present `id` key overwrites the id, and the empty body changes nothing |
| `SlidingWindowEngine.MergeTwice` | tmen_siem_backend.py:342 | applying the same PUT body twice gives the alert that applying it once gives |
| `SlidingWindowEngine.IndexOfAlert` | tmen_siem_backend.py:340-341 | the position of the first alert with the id: it has the id and no earlier alert has it; none iff no alert has the id |
| `SlidingWindowEngine.Page` | tmen_siem_backend.py:289-294 | `items[start : start+limit]`, with `start = (page-1)*limit` and Python slice semantics: for page ≥ 1 and a limit ≥ 0 it is the window `[start, start+limit)` cut at the end, with at most `limit` items; page 0 gives an empty list (a negative limit or page is an ordinary Python slice, see Left out) |
| `SlidingWindowEngine.Window` | tmen_siem_backend.py:291-294 | the slice `[start:start+limit]`: from a non-negative start with a non-negative limit it is the window cut at the end of the list, with at most `limit` items; a window ending at 0 is empty |
| `SlidingWindowEngine.Siem.constructor` | tmen_siem_backend.py:25-32 | `__init__`: empty log and alert lists, a fresh id counter, and `rules == LoadRules()` |
| `SlidingWindowEngine.Siem.CreateAlert` | tmen_siem_backend.py:181-198 | appends exactly one alert, built from the log, at the end; earlier alerts are unchanged |
| `SlidingWindowEngine.Siem.ApplyRule` | tmen_siem_backend.py:171-179 | one pass of the rule loop: a rule that fires appends its alert with the next id; any other rule changes nothing |
| `SlidingWindowEngine.Siem.AnalyzeLog` | tmen_siem_backend.py:168-179 | the alert list becomes the old list followed by one alert per fired rule, in table order; the id counter advances by the number of firings |
| `SlidingWindowEngine.Siem.GenerateSecurityLogs` | tmen_siem_backend.py:153-166 | appends exactly one log, then analyses it against the log list that already holds it; every window count with a positive window grows by one; the id counter advances by one for the log and one per firing |
| `SlidingWindowEngine.Siem.UpdateAlert` | tmen_siem_backend.py:335-353 | merges the patch into the first alert with the id and changes no other alert; with no such alert it answers 404 and changes nothing |
| `SlidingWindowEngine.Siem.LogsPage` | tmen_siem_backend.py:286-302 | one page of the stored logs, with at most `limit` items |
| `SlidingWindowEngine.Siem.AlertsPage` | tmen_siem_backend.py:318-329 | the `Page` of the alert list, the total, the number of positions holding an alert with status 'active' and the number holding one with severity 'critical'; both counts ≤ total; the active count is 0 iff no alert is active, and the critical count is 0 iff none is critical |
| `SlidingWindowEngine.ActiveCount` | tmen_siem_backend.py:328 | `len([a for a in alerts if a['status'] == 'active'])`: the number of positions holding an active alert; 0 iff none is active |
| `SlidingWindowEngine.CriticalCount` | tmen_siem_backend.py:329 | `len([a for a in alerts if a['severity'] == 'critical'])`: the number of positions holding a critical alert; 0 iff none is critical |
| `KeywordEngine.LoadRules` | wazuh/tmen_siem_backend.py:304-335 | four rules, rule-001 to rule-004, all enabled, with distinct ids |
| `KeywordEngine.Checks` | wazuh/tmen_siem_backend.py:149-199 | the four checks, in order: phrase, level, rule, description, agent; the rule names are distinct |
| `KeywordEngine.PresentIndices` | wazuh/tmen_siem_backend.py:147-199 | the positions of the checks whose phrase occurs (case-sensitive): strictly increasing, and containing every such position |
| `KeywordEngine.Present` | wazuh/tmen_siem_backend.py:147-199 | the checks at `PresentIndices`, one per position and in that order: an order-preserving subsequence of the table |
| `KeywordEngine.PresentMembers` | wazuh/tmen_siem_backend.py:147-199 | a check is present iff it is in the table and its phrase occurs in the message |
| `KeywordEngine.Raise` | wazuh/tmen_siem_backend.py:151-160 | the alert a check raises: status 'Active', timestamp and source copied from the log, and the agent from `user` (default 'Unknown') or fixed by the check |
| `KeywordEngine.RaiseAll` | wazuh/tmen_siem_backend.py:147-201 | one alert per present check, ids numbered in order |
| `KeywordEngine.AnalyzeLog` | wazuh/tmen_siem_backend.py:145-201 | a pure function returning 0–4 alerts; each has status 'Active', the log's timestamp and source, and a consecutive fresh id |
| `KeywordEngine.RaisedFromPresent` | wazuh/tmen_siem_backend.py:147-201 | for any check table, the alerts raised correspond one to one, in order, to the strictly increasing positions of the present checks, each with its check's rule, level and description |
| `KeywordEngine.RuleAt` | wazuh/tmen_siem_backend.py:147-201 | with distinct rule names, an alert names the rule of check i iff it was raised at position i |
| `KeywordEngine.NamedOnce` | wazuh/tmen_siem_backend.py:147-201 | with distinct rule names, the rule of check i names exactly one alert if its phrase occurs and none otherwise |
| `KeywordEngine.NamedInOrder` | wazuh/tmen_siem_backend.py:147-201 | with distinct rule names, alerts come in the order of the checks that raised them |
| `KeywordEngine.NamedIffPresent` | wazuh/tmen_siem_backend.py:147-201 | with distinct rule names, some alert names the rule of check i iff its phrase occurs |
| `KeywordEngine.FromPresentCheck` | wazuh/tmen_siem_backend.py:147-201 | every alert carries the rule, level and description of a check whose phrase occurs |
| `KeywordEngine.NoneIffQuiet` | wazuh/tmen_siem_backend.py:147-201 | there is no alert iff no phrase occurs |
| `KeywordEngine.AnalyzeLogRules` | wazuh/tmen_siem_backend.py:150-199 | `analyze_log` returns an alert for rule i iff phrase i occurs in the message (case-sensitive) |
| `KeywordEngine.AnalyzeLogQuiet` | wazuh/tmen_siem_backend.py:150-201 | `analyze_log` returns no alert iff none of the four phrases occurs |
| `KeywordEngine.AnalyzeLogProvenance` | wazuh/tmen_siem_backend.py:150-199 | every alert of `analyze_log` carries the rule, level and description of a check whose phrase occurs |
| `KeywordEngine.AnalyzeLogOncePerRule` | wazuh/tmen_siem_backend.py:150-201 | exactly one alert for each rule whose phrase occurs and none for the others, in the order of the four checks |
| `KeywordEngine.MitreTechniques` | wazuh/tmen_siem_backend.py:220-231 | the eight techniques to choose from |
| `KeywordEngine.StoredAlert` | wazuh/tmen_siem_backend.py:203-216 | the stored alert keeps the input's id, timestamp, level, rule, description, source, agent and status, and adds the technique |
| `KeywordEngine.StoreAll` | wazuh/tmen_siem_backend.py:364-365 | the alerts stored for a list of results, in order |
| `KeywordEngine.Siem.constructor` | wazuh/tmen_siem_backend.py:24-31 | `__init__`: empty log and alert lists, a fresh id counter, and `rules == LoadRules()` |
| `KeywordEngine.Siem.CreateAlert` | wazuh/tmen_siem_backend.py:203-218 | appends exactly one alert built from the input |
| `KeywordEngine.Siem.IngestLog` | wazuh/tmen_siem_backend.py:356-367 | appends the log, then stores every alert the analysis returns, in order, after the existing ones |
| `KeywordEngine.Siem.StoreAlerts` | wazuh/tmen_siem_backend.py:364-365 | the loop of `create_alert` calls appends the stored form of each result |
| `KeywordEngine.Siem.TrimRetention` | wazuh/tmen_siem_backend.py:428-434 | keeps the newest 1000 logs and 500 alerts as suffixes, in their original order; lists at or under the cap are untouched |
| `KeywordEngine.Siem.GetAlert` | wazuh/tmen_siem_backend.py:374-380 | the first alert with the id, or 404 when none has it |
| `FirstMatchEngine.SuspiciousPatterns` | wazuh/tmen_siem_backend_no_psutil.py:149-152 | the seven patterns, in the order they are tried |
| `FirstMatchEngine.Techniques` | wazuh/tmen_siem_backend_no_psutil.py:182-193 | the eight technique records to choose from |
| `FirstMatchEngine.LoadRules` | wazuh/tmen_siem_backend_no_psutil.py:262-289 | three enabled rules with distinct ids, whose patterns are patterns 0, 1 and 4 of the analysis |
| `FirstMatchEngine.AlertLevelFor` | wazuh/tmen_siem_backend_no_psutil.py:159 | 'HIGH' iff the log level is ERROR or CRITICAL, otherwise 'MEDIUM' |
| `FirstMatchEngine.MatchedPattern` | wazuh/tmen_siem_backend_no_psutil.py:146-155 | the first pattern occurring in the lower-cased message: it occurs, no earlier pattern occurs, and there is none iff no pattern occurs |
| `FirstMatchEngine.BuildAlertData` | wazuh/tmen_siem_backend_no_psutil.py:156-166 | the alert record: status 'Active', type 'Security Alert', the prefixed message, the log's timestamp and source, the IP address defaulting to 'Unknown', and the level from the log level |
| `FirstMatchEngine.Stamp` | wazuh/tmen_siem_backend_no_psutil.py:172-174 | a new id, created_at == updated_at == now; every other field is unchanged |
| `FirstMatchEngine.Capped` | wazuh/tmen_siem_backend_no_psutil.py:178-180 | at most 100 alerts: over the cap only the newest remain, and the newest stays last |
| `FirstMatchEngine.Siem.constructor` | wazuh/tmen_siem_backend_no_psutil.py:23-30 | `__init__`: empty log and alert lists, a fresh id counter, and `rules == LoadRules()` |
| `FirstMatchEngine.Siem.CreateAlert` | wazuh/tmen_siem_backend_no_psutil.py:170-180 | appends the stamped alert as the newest one, then caps the list at 100 |
| `FirstMatchEngine.Siem.AnalyzeLog` | wazuh/tmen_siem_backend_no_psutil.py:144-168 | with no pattern present, nothing changes; otherwise exactly one alert, for the first pattern, is created through the cap |
| `FirstMatchEngine.Siem.GenerateSecurityLogs` | wazuh/tmen_siem_backend_no_psutil.py:127-142 | appends exactly one log before analysing it |
| `FirstMatchEngine.Siem.RecentLogs` | wazuh/tmen_siem_backend_no_psutil.py:304 | the newest min(n, 50) logs, as a suffix |
| `FirstMatchEngine.Siem.RecentAlerts` | wazuh/tmen_siem_backend_no_psutil.py:321 | the newest min(n, 20) alerts, as a suffix |
| `FirstMatchEngine.Siem.GetAlert` | wazuh/tmen_siem_backend_no_psutil.py:323-328 | the first alert with the id, or 404 |
| `FirstMatchEngine.MatchIgnoresCase` | wazuh/tmen_siem_backend_no_psutil.py:146 | two messages that lower-case alike match the same first pattern, so they raise alerts with the same rule and level; the alert's message field keeps the original text |
| `FirstMatchEngine.LowerIdempotent` | wazuh/tmen_siem_backend_no_psutil.py:146 | lower-casing twice is lower-casing once |
| `UserModel.GrantsByPrefix` | wazuh/custom-siem/backend-api/src/main/java/com/customsiem/model/User.java:387-405 | ADMIN grants everything; every other role grants exactly the permissions starting with one of its prefixes (ANALYST: ALERT_/RULE_/DASHBOARD_; MANAGER: REPORT_/DASHBOARD_/AGENT_; VIEWER: DASHBOARD_VIEW/REPORT_VIEW) |
| `UserModel.RoleNamesDistinct` | wazuh/custom-siem/backend-api/src/main/java/com/customsiem/model/User.java:371-375 | distinct roles have distinct `name()`s, so the authority `ROLE_<name>` identifies the role |
| `UserModel.UserRole.Prefixes` | wazuh/custom-siem/backend-api/src/main/java/com/customsiem/model/User.java:387-405 | the prefix table of the switch in `UserRole.hasPermission`; empty exactly for ADMIN, which grants everything |
| `UserModel.UserRole.HasPermission` | wazuh/custom-siem/backend-api/src/main/java/com/customsiem/model/User.java:387-405 | the switch of `UserRole.hasPermission` (no contract of its own; `GrantsByPrefix` states it as the prefix table) |
| `UserModel.UserRole.Name` | wazuh/custom-siem/backend-api/src/main/java/com/customsiem/model/User.java:371-375 | the enum constant's `name()` (no contract of its own; `RoleNamesDistinct` states that it identifies the role) |
| `UserModel.ViewerWithinManager` | wazuh/custom-siem/backend-api/src/main/java/com/customsiem/model/User.java:397-403 | every viewer permission is a manager permission |
| `UserModel.ViewerNotWithinAnalyst` | wazuh/custom-siem/backend-api/src/main/java/com/customsiem/model/User.java:393-403 | REPORT_VIEW is granted to a viewer but not to an analyst, so the roles are not nested |
| `UserModel.RecordFailure` | wazuh/custom-siem/backend-api/src/main/java/com/customsiem/model/User.java:302-307 | the counter rises by one (as a Java `int`); the lock is set once the counter is ≥ 5 and is never cleared |
| `UserModel.FailuresFromReset` | wazuh/custom-siem/backend-api/src/main/java/com/customsiem/model/User.java:302-307 | from the initial state, n failures leave the counter at n, and the account is locked iff n ≥ 5 |
| `UserModel.Failures` | wazuh/custom-siem/backend-api/src/main/java/com/customsiem/model/User.java:302-307 | n consecutive `incrementFailedLoginAttempts` steps (no contract of its own; `FailuresFromReset` states the result) |
| `UserModel.CounterWraps` | wazuh/custom-siem/backend-api/src/main/java/com/customsiem/model/User.java:302-307 | the `int` counter wraps to -2^31 after 2^31-1, and the lock stays |
| `UserModel.User.constructor` | wazuh/custom-siem/backend-api/src/main/java/com/customsiem/model/User.java:56-105 | the given fields; status ACTIVE, role ANALYST, counter 0, unlocked, active, no permissions |
| `UserModel.User.Authorities` | wazuh/custom-siem/backend-api/src/main/java/com/customsiem/model/User.java:265-275 | fails with `IllegalArgumentException` (from `SimpleGrantedAuthority`) exactly when some explicit permission is empty or all whitespace in the sense of `Character.isWhitespace`; otherwise "ROLE_"+role.name() together with every explicit permission, and nothing else |
| `UserModel.BlankPermissionThrows` | wazuh/custom-siem/backend-api/src/main/java/com/customsiem/model/User.java:265-275 | after adding the permission "" or " ", `getAuthorities` throws |
| `UserModel.User.HasPermission` | wazuh/custom-siem/backend-api/src/main/java/com/customsiem/model/User.java:327-329 | an explicit permission is always held, and an ADMIN holds every permission |
| `UserModel.User.IsEnabled` | wazuh/custom-siem/backend-api/src/main/java/com/customsiem/model/User.java:293-295 | an enabled account has status ACTIVE, so it is neither expired nor locked by status |
| `UserModel.User.IsAccountNonLocked` | wazuh/custom-siem/backend-api/src/main/java/com/customsiem/model/User.java:283-285 | not locked by the counter and status not LOCKED (a plain definition) |
| `UserModel.User.IsAccountNonExpired` | wazuh/custom-siem/backend-api/src/main/java/com/customsiem/model/User.java:278-280 | status not EXPIRED (a plain definition) |
| `UserModel.User.Login` | wazuh/custom-siem/backend-api/src/main/java/com/customsiem/model/User.java:302-307 | the counter and lock fields that `incrementFailedLoginAttempts` updates, as a `LoginState` (a plain projection) |
| `UserModel.User.IncrementFailedLoginAttempts` | wazuh/custom-siem/backend-api/src/main/java/com/customsiem/model/User.java:302-307 | the new counter and lock are the `RecordFailure` step of the old ones |
| `UserModel.User.ResetFailedLoginAttempts` | wazuh/custom-siem/backend-api/src/main/java/com/customsiem/model/User.java:309-312 | counter 0, unlocked |
| `UserModel.User.UpdateLastLogin` | wazuh/custom-siem/backend-api/src/main/java/com/customsiem/model/User.java:314-317 | lastLogin = now, and the counter and the lock are reset |
| `UserModel.User.AddPermission` | wazuh/custom-siem/backend-api/src/main/java/com/customsiem/model/User.java:319-329 | adds to the explicit set; `hasPermission` then holds |
| `UserModel.User.RemovePermission` | wazuh/custom-siem/backend-api/src/main/java/com/customsiem/model/User.java:323-329 | removes from the explicit set only; `hasPermission` then equals what the role grants |
| `AlertModel.HighPriorityIsTopTwo` | wazuh/custom-siem/backend-api/src/main/java/com/customsiem/model/Alert.java:398-400 | high priority iff the level is HIGH or CRITICAL, the two highest levels |
| `AlertModel.IsHighPriorityLevel` | wazuh/custom-siem/backend-api/src/main/java/com/customsiem/model/Alert.java:398-400 | CRITICAL or HIGH (no contract of its own; `HighPriorityIsTopTwo` states it by level order) |
| `AlertModel.Alert.IsHighPriority` | wazuh/custom-siem/backend-api/src/main/java/com/customsiem/model/Alert.java:398-400 | `IsHighPriorityLevel` of the alert's level (a plain definition) |
| `AlertModel.LevelNamesDistinct` | wazuh/custom-siem/backend-api/src/main/java/com/customsiem/model/Alert.java:417-423 | distinct levels print distinctly |
| `AlertModel.StatusNamesDistinct` | wazuh/custom-siem/backend-api/src/main/java/com/customsiem/model/Alert.java:428-434 | distinct statuses print distinctly |
| `AlertModel.ResolvedAtAfterSetStatus` | wazuh/custom-siem/backend-api/src/main/java/com/customsiem/model/Alert.java:181-186 | an existing resolvedAt is kept; a status other than RESOLVED never touches it; it is set iff it was set before or the status is RESOLVED |
| `AlertModel.ResolvedAtSetOnce` | wazuh/custom-siem/backend-api/src/main/java/com/customsiem/model/Alert.java:181-186 | after a RESOLVED, later `setStatus` calls, at any status and any time, keep the first stamp |
| `AlertModel.Alert.constructor` | wazuh/custom-siem/backend-api/src/main/java/com/customsiem/model/Alert.java:37-125 | defaults: level INFO, status OPEN, category SECURITY, not a false positive, not escalated, no tags |
| `AlertModel.Alert.Create` | wazuh/custom-siem/backend-api/src/main/java/com/customsiem/model/Alert.java:128-134 | the four given fields, eventTime = now, every other field at its default |
| `AlertModel.Alert.SetStatus` | wazuh/custom-siem/backend-api/src/main/java/com/customsiem/model/Alert.java:181-186 | the new status, and resolvedAt as `ResolvedAtAfterSetStatus` gives it |
| `AlertModel.Alert.Resolve` | wazuh/custom-siem/backend-api/src/main/java/com/customsiem/model/Alert.java:385-390 | status RESOLVED, resolvedBy, notes, and resolvedAt always overwritten with now |
| `AlertModel.Alert.Escalate` | wazuh/custom-siem/backend-api/src/main/java/com/customsiem/model/Alert.java:392-396 | escalated, escalatedBy, escalatedAt = now; status and level unchanged |
| `AlertModel.Alert.AddTag` | wazuh/custom-siem/backend-api/src/main/java/com/customsiem/model/Alert.java:381-383 | tags[key] == value; the key set gains at most that key; other keys keep their values |
| `RuleModel.KindCount` | wazuh/custom-siem/backend-api/src/main/java/com/customsiem/model/Rule.java:297-307 | at most one of the correlation/threshold/pattern predicates holds, and none holds for ANOMALY or COMPLIANCE |
| `RuleModel.Rule.IsActive` | wazuh/custom-siem/backend-api/src/main/java/com/customsiem/model/Rule.java:283-285 | status ACTIVE and enabled (a plain definition; `Enable`, `Disable` and the constructor state when it holds) |
| `RuleModel.Rule.IsCorrelationRule` | wazuh/custom-siem/backend-api/src/main/java/com/customsiem/model/Rule.java:297-299 | type CORRELATION (a plain definition; `KindCount` relates the three kinds) |
| `RuleModel.Rule.IsThresholdRule` | wazuh/custom-siem/backend-api/src/main/java/com/customsiem/model/Rule.java:301-303 | type THRESHOLD (a plain definition; see `KindCount`) |
| `RuleModel.Rule.IsPatternRule` | wazuh/custom-siem/backend-api/src/main/java/com/customsiem/model/Rule.java:305-307 | type PATTERN (a plain definition; see `KindCount`) |
| `RuleModel.Rule.constructor` | wazuh/custom-siem/backend-api/src/main/java/com/customsiem/model/Rule.java:37-103 | type CORRELATION, status ACTIVE, level MEDIUM, category SECURITY, enabled; so the rule is active |
| `RuleModel.Rule.Enable` | wazuh/custom-siem/backend-api/src/main/java/com/customsiem/model/Rule.java:283-290 | enabled, status ACTIVE, so `isActive`; the new state does not depend on the old, so a repeat call changes nothing |
| `RuleModel.Rule.Disable` | wazuh/custom-siem/backend-api/src/main/java/com/customsiem/model/Rule.java:283-295 | disabled, status INACTIVE, so not `isActive`; likewise idempotent |
| `AgentModel.HeartbeatLasts` | wazuh/custom-siem/backend-api/src/main/java/com/customsiem/model/Agent.java:219-228 | a heartbeat at `now` is online at `now`, and at a later time iff less than 90 s have passed |
| `AgentModel.OfflineStaysOffline` | wazuh/custom-siem/backend-api/src/main/java/com/customsiem/model/Agent.java:219-224 | without a new heartbeat, an offline agent stays offline as the clock advances (a missing heartbeat is never online) |
| `AgentModel.Online` | wazuh/custom-siem/backend-api/src/main/java/com/customsiem/model/Agent.java:219-224 | a heartbeat exists and lies strictly after now - 90 s (no contract of its own; `HeartbeatLasts` and `OfflineStaysOffline` state it) |
| `AgentModel.Agent.IsOnline` | wazuh/custom-siem/backend-api/src/main/java/com/customsiem/model/Agent.java:219-224 | `Online` of the agent's last heartbeat (a plain definition) |
| `AgentModel.Agent.constructor` | wazuh/custom-siem/backend-api/src/main/java/com/customsiem/model/Agent.java:52-87 | status PENDING, no heartbeat, active, not auto-approved, no group; so offline at every time |
| `AgentModel.Agent.UpdateHeartbeat` | wazuh/custom-siem/backend-api/src/main/java/com/customsiem/model/Agent.java:223-228 | lastHeartbeat = now, so `isOnline` holds at now |
| `AgentModel.AgentGroup.constructor` | wazuh/custom-siem/backend-api/src/main/java/com/customsiem/model/AgentGroup.java:51-62 | the given id and name, active, no agents |
| `AgentModel.AgentGroup.AddAgent` | wazuh/custom-siem/backend-api/src/main/java/com/customsiem/model/AgentGroup.java:146-149 | the agent joins the set and points at this group; adding a member again leaves the count unchanged, and adding a newcomer raises it by one |
| `AgentModel.AgentGroup.RemoveAgent` | wazuh/custom-siem/backend-api/src/main/java/com/customsiem/model/AgentGroup.java:151-154 | the agent leaves the set and its group becomes null |
| `AgentModel.AgentGroup.AgentCount` | wazuh/custom-siem/backend-api/src/main/java/com/customsiem/model/AgentGroup.java:156-158 | the number of members (a plain definition; the active and online counts are bounded by it) |
| `AgentModel.AgentGroup.ActiveAgents` | wazuh/custom-siem/backend-api/src/main/java/com/customsiem/model/AgentGroup.java:160-164 | exactly the members with `active` set |
| `AgentModel.AgentGroup.OnlineAgents` | wazuh/custom-siem/backend-api/src/main/java/com/customsiem/model/AgentGroup.java:166-170 | exactly the members online at now |
| `AgentModel.AgentGroup.ActiveAgentCount` | wazuh/custom-siem/backend-api/src/main/java/com/customsiem/model/AgentGroup.java:156-164 | the number of members with `active` set; ≤ the agent count, with equality iff every member is active |
| `AgentModel.AgentGroup.OnlineAgentCount` | wazuh/custom-siem/backend-api/src/main/java/com/customsiem/model/AgentGroup.java:156-170 | the number of members online at now; ≤ the agent count, with equality iff every member is online |
| `AgentModel.StrictSubsetCardinality` | wazuh/custom-siem/backend-api/src/main/java/com/customsiem/model/AgentGroup.java:160-170 | a filter that drops a member counts fewer than all members |
| `AgentModel.BackPointerCanDisagree` | wazuh/custom-siem/backend-api/src/main/java/com/customsiem/model/AgentGroup.java:146-149 | adding an agent to a second group leaves it in the first group's set while pointing at the second |
| `AlertController.Paginate` | wazuh/custom-siem/backend-api/src/main/java/com/customsiem/controller/AlertController.java:42-50 | start = page·size and end = min(start+size, n) in `int` arithmetic: an empty list when start ≥ n; `IndexOutOfBounds` iff the start is negative; the only other failure is `IllegalArgument`; a page holds only stored items, at most n, and none when size ≤ 0 (the exact window is `PaginateInRange`) |
| `AlertController.PaginateInRange` | wazuh/custom-siem/backend-api/src/main/java/com/customsiem/controller/AlertController.java:43-50 | without overflow: empty if start ≥ n, otherwise exactly the items [start, min(start+size, n)), so at most `size` |
| `AlertController.PaginateWraps` | wazuh/custom-siem/backend-api/src/main/java/com/customsiem/controller/AlertController.java:43 | page 65536 with size 65536 wraps to start 0 and serves the first page |
| `AlertController.FilterBy` | wazuh/custom-siem/backend-api/src/main/java/com/customsiem/controller/AlertController.java:30-40 | the level or status stream filter, by its printed-field projection: exactly the alerts whose field prints as the filter; a stored null field raises a NullPointerException |
| `AlertController.ListAlerts` | wazuh/custom-siem/backend-api/src/main/java/com/customsiem/controller/AlertController.java:27-50 | the level filter, then the status filter, then the page; a filter failure stops the listing (its properties are `ListAlertsFilters`) |
| `AlertController.ListAlertsFilters` | wazuh/custom-siem/backend-api/src/main/java/com/customsiem/controller/AlertController.java:27-50 | every listed alert is stored and matches the level and status filters that are given; with no filter the listing is the page of all records; a null-pointer failure needs a filter |
| `AlertController.AlertController.constructor` | wazuh/custom-siem/backend-api/src/main/java/com/customsiem/controller/AlertController.java:18 | the `new HashMap<>()` field: an empty map and a fresh id counter, so `Valid()` holds |
| `AlertController.AlertController.GetAllAlerts` | wazuh/custom-siem/backend-api/src/main/java/com/customsiem/controller/AlertController.java:20-51 | the listing of the map's values in some enumeration of its keys |
| `AlertController.AlertController.GetAlert` | wazuh/custom-siem/backend-api/src/main/java/com/customsiem/controller/AlertController.java:53-60 | the stored alert, or 404 |
| `AlertController.AlertController.CreateAlert` | wazuh/custom-siem/backend-api/src/main/java/com/customsiem/controller/AlertController.java:62-75 | a fresh id, createdAt = updatedAt = now, status OPEN when null; the map gains exactly that key, and other entries are unchanged |
| `AlertController.AlertController.UpdateAlert` | wazuh/custom-siem/backend-api/src/main/java/com/customsiem/controller/AlertController.java:77-91 | unknown id: 404 and no change; known id: the record is replaced, with its id and the existing createdAt kept and updatedAt = now; the key set is unchanged |
| `AlertController.AlertController.DeleteAlert` | wazuh/custom-siem/backend-api/src/main/java/com/customsiem/controller/AlertController.java:93-100 | removes exactly that key and answers 200 with no body, or answers 404 and changes nothing |
| `AlertController.AlertController.OpenIds` | wazuh/custom-siem/backend-api/src/main/java/com/customsiem/controller/AlertController.java:107-109 | exactly the keys whose alert has status OPEN |
| `AlertController.AlertController.CriticalIds` | wazuh/custom-siem/backend-api/src/main/java/com/customsiem/controller/AlertController.java:110-112 | exactly the keys whose alert has level CRITICAL |
| `AlertController.AlertController.Stats` | wazuh/custom-siem/backend-api/src/main/java/com/customsiem/controller/AlertController.java:102-120 | total = map size; open and critical are the sizes of those key sets, each ≤ total |
| `AgentController.AgentController.constructor` | wazuh/custom-siem/backend-api/src/main/java/com/customsiem/controller/AgentController.java:18 | the `new HashMap<>()` field: an empty map and a fresh id counter, so `Valid()` holds |
| `AgentController.AgentController.GetAllAgents` | wazuh/custom-siem/backend-api/src/main/java/com/customsiem/controller/AgentController.java:20-23 | one element per stored agent, in some enumeration of the keys |
| `AgentController.AgentController.GetAgent` | wazuh/custom-siem/backend-api/src/main/java/com/customsiem/controller/AgentController.java:25-32 | the stored agent, or 404 |
| `AgentController.AgentController.RegisterAgent` | wazuh/custom-siem/backend-api/src/main/java/com/customsiem/controller/AgentController.java:34-44 | a fresh id, status ACTIVE, registration and heartbeat at now (so online); the map gains exactly that key |
| `AgentController.AgentController.Heartbeat` | wazuh/custom-siem/backend-api/src/main/java/com/customsiem/controller/AgentController.java:46-62 | unknown id: 404 and no change; known id: heartbeat = now and status ACTIVE for that agent only, reply status "OK" with the agent id |
| `AgentController.AgentController.DeleteAgent` | wazuh/custom-siem/backend-api/src/main/java/com/customsiem/controller/AgentController.java:64-71 | removes exactly that key and answers 200 with no body, or answers 404 and changes nothing |
| `Common.CountWherePositions` | tmen_siem_backend.py:328-329 | `len` of a filtering comprehension is the number of positions whose element passes it |
| `Common.FilterAppend` | wazuh/custom-siem/backend-api/src/main/java/com/customsiem/controller/AlertController.java:30-40 | a stream filter over one more element keeps it at the end exactly when it passes |
| `Common.FilterConcat` | wazuh/custom-siem/backend-api/src/main/java/com/customsiem/controller/AlertController.java:30-40 | a stream filter distributes over concatenation, so it keeps the passing elements in their order |

Where the code and its documentation diverge, the model follows the code:

- On the sliding-window engine, the window counts every stored log of the
  entry's `type`, whether or not it matches the rule's pattern.
- On `AlertController.updateAlert`, a null status is not defaulted to OPEN.
  Only `createAlert` does that.

## Left out

- System metrics (`get_system_metrics`): they read psutil or random floats and round floating-point numbers.
- Random generation: the message and field choice in `generate_security_logs`, `get_network_threats`, `get_file_integrity_data` and `get_agents_status`. The log is an input, and the technique draw is a parameter `pick`.
- Threads, `time.sleep`, Flask routing and JSON encoding, CORS: these are concurrency and I/O. Only the sequential trim step of the background loop is modelled.
- uuid4 / UUID.randomUUID: these become a counter, so ids are fresh by construction. Timestamps are integer seconds passed in; ISO strings and sub-second precision are not modelled.
- The Python `re` engine: the patterns are plain phrases or alternations of plain words, so each is a list of literal alternatives. They are matched ignoring case.
- `Common.Lower`: it folds ASCII letters only, not Unicode case.
- `SlidingWindowEngine.Siem.AnalyzeLog`: each rule reads the clock again in the source. The model uses one clock value per analysis.
- `SlidingWindowEngine.Siem.UpdateAlert`: the patch covers the eleven alert keys. Extra keys from the JSON body, and a body that is not an object, are not modelled.
- `int(...)` of non-numeric query parameters (a 500 in the source) is not modelled; page and limit are integers.
- Request defaults: a missing `page` is 1 and a missing `limit` 50 for `get_logs` and 20 for `get_alerts`; `getAllAlerts` defaults to page 0 and size 50. The model takes page and limit as given, so these defaults are the caller's.
- `SlidingWindowEngine.Page`: a negative limit or page is an ordinary Python slice (`?limit=-5` serves `logs[0:-5]`, everything but the last five). The model computes it by `PySlice`, but the contract states the window only for page ≥ 1 and limit ≥ 0, and the empty page for page 0.
- The definitions marked "no contract of its own" or "a plain definition" in the table are one-line getters or record builders. Their properties are the lemmas they name.
- The keyword engine keeps a rule list that its analysis never reads. It is modelled as the constant it is.
- JPA/Spring persistence: relationship mappings, validation constraints and auditing timestamps. Plain getters and setters, and the hard-coded users table of the Python back ends, are left out too.
- Java `null` arguments to the entity methods (for example `setStatus(null)`) are not modelled. Nullable entity fields are `Option` or `X?`.
- The controllers store records as values. The source stores the request object itself, so a caller holding it could change the stored alert later. That aliasing is not captured.
- `AlertRecord` keeps the alert fields the controller touches. It reads or writes id, level, status, createdAt and updatedAt. Title, description and resolvedAt are carried along unread. The others pass through unchanged in the source.
- `AlertController.Paginate`: the list size is assumed to fit a Java `int`.
- The Java entities' `toString` and `getFullName`, and the user role predicates `isAdmin`/`isAnalyst`/`isViewer`, are display helpers. They are left out.
