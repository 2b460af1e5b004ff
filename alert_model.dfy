/** The `Alert` entity of the Java back end: its lifecycle (status changes,
    resolution, escalation), tags, and priority by level. */
module AlertModel {
  import opened Common
  import AgentModel

  datatype AlertLevel = Info | Low | Medium | High | Critical {
    /** Declaration order of the Java enum. */
    function Ordinal(): nat {
      match this
      case Info => 0
      case Low => 1
      case Medium => 2
      case High => 3
      case Critical => 4
    }

    function Name(): string {
      match this
      case Info => "INFO"
      case Low => "LOW"
      case Medium => "MEDIUM"
      case High => "HIGH"
      case Critical => "CRITICAL"
    }
  }

  datatype AlertStatus = Open | InProgress | Resolved | Closed | FalsePositive {
    function Name(): string {
      match this
      case Open => "OPEN"
      case InProgress => "IN_PROGRESS"
      case Resolved => "RESOLVED"
      case Closed => "CLOSED"
      case FalsePositive => "FALSE_POSITIVE"
    }
  }

  datatype AlertCategory = Security | Compliance | Performance | System | Network
                         | Application | FileIntegrity | Vulnerability

  /** `isHighPriority` on a level. */
  predicate IsHighPriorityLevel(level: AlertLevel) {
    level == Critical || level == High
  }

  /** High priority means the two most severe levels. */
  lemma HighPriorityIsTopTwo(level: AlertLevel)
    ensures IsHighPriorityLevel(level) <==> level.Ordinal() >= High.Ordinal()
  {
  }

  /** Distinct levels print distinctly, so the controller's string filter
      selects exactly one level. */
  lemma {:induction false} LevelNamesDistinct(a: AlertLevel, b: AlertLevel)
    ensures a.Name() == b.Name() <==> a == b
  {
    if a != b {
      assert a.Name()[0] != b.Name()[0] || |a.Name()| != |b.Name()|;
    }
  }

  /** Distinct statuses print distinctly. */
  lemma {:induction false} StatusNamesDistinct(a: AlertStatus, b: AlertStatus)
    ensures a.Name() == b.Name() <==> a == b
  {
    if a != b {
      assert a.Name()[0] != b.Name()[0] || |a.Name()| != |b.Name()|;
    }
  }

  /** The resolution time after `setStatus(status)` at `now`: it is stamped
      when the new status is RESOLVED and no time was recorded yet. */
  function ResolvedAtAfterSetStatus(status: AlertStatus, resolvedAt: Option<int>, now: int): (r: Option<int>)
    ensures resolvedAt.Some? ==> r == resolvedAt
    ensures status != Resolved ==> r == resolvedAt
    ensures r.Some? <==> resolvedAt.Some? || status == Resolved
  {
    if status == Resolved && resolvedAt.None? then Some(now) else resolvedAt
  }

  /** The resolution time is set once: further `setStatus` calls, whatever
      the status and the clock, keep it. */
  lemma {:induction false} ResolvedAtSetOnce(s1: AlertStatus, s2: AlertStatus,
                                             resolvedAt: Option<int>, t1: int, t2: int)
    requires s1 == Resolved
    ensures var once := ResolvedAtAfterSetStatus(s1, resolvedAt, t1);
            ResolvedAtAfterSetStatus(s2, once, t2) == once
    ensures resolvedAt.None? ==> ResolvedAtAfterSetStatus(s1, resolvedAt, t1) == Some(t1)
  {
  }

  class Alert {
    var alertId: Option<string>
    var title: Option<string>
    var description: Option<string>
    var level: AlertLevel
    var status: AlertStatus
    var category: AlertCategory
    var agent: AgentModel.Agent?
    var eventTime: Option<int>
    var resolvedAt: Option<int>
    var resolvedBy: Option<string>
    var resolutionNotes: Option<string>
    var falsePositive: bool
    var escalated: bool
    var escalatedAt: Option<int>
    var escalatedBy: Option<string>
    var tags: map<string, string>

    /** The no-argument constructor: every field at its default. */
    constructor ()
      ensures alertId == None && title == None && description == None
      ensures level == Info && status == Open && category == Security && agent == null
      ensures eventTime == None && resolvedAt == None && resolvedBy == None && resolutionNotes == None
      ensures !falsePositive && !escalated && escalatedAt == None && escalatedBy == None
      ensures tags == map[]
    {
      alertId := None;
      title := None;
      description := None;
      level := Info;
      status := Open;
      category := Security;
      agent := null;
      eventTime := None;
      resolvedAt := None;
      resolvedBy := None;
      resolutionNotes := None;
      falsePositive := false;
      escalated := false;
      escalatedAt := None;
      escalatedBy := None;
      tags := map[];
    }

    /** The four-argument constructor: the given fields, the event time set
        to `now`, every other field at its default. */
    constructor Create(alertId: string, title: string, level: AlertLevel,
                       agent: AgentModel.Agent?, now: int)
      ensures this.alertId == Some(alertId) && this.title == Some(title)
      ensures this.level == level && this.agent == agent && eventTime == Some(now)
      ensures description == None && status == Open && category == Security
      ensures resolvedAt == None && resolvedBy == None && resolutionNotes == None
      ensures !falsePositive && !escalated && escalatedAt == None && escalatedBy == None
      ensures tags == map[]
    {
      this.alertId := Some(alertId);
      this.title := Some(title);
      this.level := level;
      this.agent := agent;
      eventTime := Some(now);
      description := None;
      status := Open;
      category := Security;
      resolvedAt := None;
      resolvedBy := None;
      resolutionNotes := None;
      falsePositive := false;
      escalated := false;
      escalatedAt := None;
      escalatedBy := None;
      tags := map[];
    }

    predicate IsHighPriority()
      reads this
    {
      IsHighPriorityLevel(level)
    }

    /** `setStatus`. */
    method SetStatus(status: AlertStatus, now: int)
      modifies this`status, this`resolvedAt
      ensures this.status == status
      ensures resolvedAt == ResolvedAtAfterSetStatus(status, old(resolvedAt), now)
    {
      this.status := status;
      if status == Resolved && resolvedAt.None? {
        resolvedAt := Some(now);
      }
    }

    /** `resolve`: unlike `setStatus(RESOLVED)`, it always restamps the time. */
    method Resolve(resolvedBy: string, notes: string, now: int)
      modifies this`status, this`resolvedBy, this`resolutionNotes, this`resolvedAt
      ensures status == Resolved && this.resolvedBy == Some(resolvedBy)
      ensures resolutionNotes == Some(notes) && resolvedAt == Some(now)
    {
      status := Resolved;
      this.resolvedBy := Some(resolvedBy);
      resolutionNotes := Some(notes);
      resolvedAt := Some(now);
    }

    /** `escalate`: marks the alert escalated; status and level stay. */
    method Escalate(escalatedBy: string, now: int)
      modifies this`escalated, this`escalatedBy, this`escalatedAt
      ensures escalated && this.escalatedBy == Some(escalatedBy) && escalatedAt == Some(now)
      ensures status == old(status) && level == old(level)
    {
      escalated := true;
      this.escalatedBy := Some(escalatedBy);
      escalatedAt := Some(now);
    }

    /** `addTag`: `put` into the tag map. */
    method AddTag(key: string, value: string)
      modifies this`tags
      ensures tags == old(tags)[key := value]
      ensures key in tags && tags[key] == value
      ensures tags.Keys == old(tags).Keys + {key}
      ensures forall k | k in old(tags) && k != key :: tags[k] == old(tags)[k]
    {
      tags := tags[key := value];
    }
  }
}
