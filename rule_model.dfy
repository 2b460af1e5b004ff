/** The `Rule` entity of the Java back end: its kind, and enabling and
    disabling. */
module RuleModel {
  import opened Common
  import AlertModel

  datatype RuleType = Pattern | Correlation | Threshold | Anomaly | Compliance

  datatype RuleStatus = Active | Inactive | Draft | Testing

  /** `isActive` on the two fields it reads. */
  predicate ActiveWith(status: RuleStatus, enabled: bool) {
    status == Active && enabled
  }

  /** The kind predicates `isCorrelationRule`, `isThresholdRule`, `isPatternRule`. */
  predicate IsCorrelation(t: RuleType) { t == Correlation }
  predicate IsThreshold(t: RuleType) { t == Threshold }
  predicate IsPattern(t: RuleType) { t == Pattern }

  /** The number of kind predicates a rule type satisfies. */
  function KindCount(t: RuleType): (n: nat)
    ensures n <= 1
    ensures n == 0 <==> t == Anomaly || t == Compliance
  {
    (if IsCorrelation(t) then 1 else 0) + (if IsThreshold(t) then 1 else 0)
    + (if IsPattern(t) then 1 else 0)
  }

  class Rule {
    var ruleId: string
    var name: string
    var pattern: string
    var description: Option<string>
    var ruleType: RuleType
    var status: RuleStatus
    var alertLevel: AlertModel.AlertLevel
    var alertCategory: AlertModel.AlertCategory
    var systemRule: bool
    var enabled: bool

    /** The three-argument constructor; every other field takes its default,
        so a new rule is an active correlation rule. */
    constructor (ruleId: string, name: string, pattern: string)
      ensures this.ruleId == ruleId && this.name == name && this.pattern == pattern
      ensures ruleType == Correlation && status == Active && alertLevel == AlertModel.Medium
      ensures description == None && alertCategory == AlertModel.Security && !systemRule && enabled
      ensures IsActive() && IsCorrelationRule()
    {
      this.ruleId := ruleId;
      this.name := name;
      this.pattern := pattern;
      description := None;
      ruleType := Correlation;
      status := Active;
      alertLevel := AlertModel.Medium;
      alertCategory := AlertModel.Security;
      systemRule := false;
      enabled := true;
    }

    predicate IsActive()
      reads this
    {
      ActiveWith(status, enabled)
    }

    predicate IsCorrelationRule() reads this { IsCorrelation(ruleType) }
    predicate IsThresholdRule() reads this { IsThreshold(ruleType) }
    predicate IsPatternRule() reads this { IsPattern(ruleType) }

    /** `enable`: the new state does not depend on the old, so a second
        call changes nothing. */
    method Enable()
      modifies this`enabled, this`status
      ensures enabled && status == Active && IsActive()
    {
      enabled := true;
      status := Active;
    }

    /** `disable`: likewise idempotent. */
    method Disable()
      modifies this`enabled, this`status
      ensures !enabled && status == Inactive && !IsActive()
    {
      enabled := false;
      status := Inactive;
    }
  }
}
