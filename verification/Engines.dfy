/** How the three engines relate when they look at the same student. */
module Engines {
  import opened Risk
  import opened Wrappers
  import D = DecisionEngine
  import E = Eligibility
  import P = PriorityEngine

  // ---- AI tiers ----

  /**
   * The priority engine and the decision engine classify alike unless a reviewed insight has no stale flag and no
   * lifetime is configured; a null lifetime counts as configured.
   */
  lemma PriorityAndDecisionTiersAgreeIff(ai: AiInput, rules: RuleSet)
    ensures P.ClassifyAiTier(ai, P.LifetimeConfigured(rules)) == D.AssessAiTier(ai) <==>
            !(ai.state.Reviewed? && !ai.finalizedCopy && ai.stale.None? && !P.LifetimeConfigured(rules))
  {}

  /**
   * The priority engine and the eligibility engine differ exactly on a reviewed insight that only the former can
   * rate.
   */
  lemma PriorityAndEligibilityTiersAgreeIff(ai: AiInput, rules: RuleSet)
    ensures P.ClassifyAiTier(ai, P.LifetimeConfigured(rules)) ==
            E.AssessAiTier(ai, Threshold(rules, AiInsightTtlHours)) <==>
            !(&& ai.state.Reviewed? && !ai.finalizedCopy && Threshold(rules, AiInsightTtlHours).None?
              && (ai.stale.Some? || P.LifetimeConfigured(rules)))
  {}

  /** A reviewed insight without stale flag: the null alone takes it from UNAVAILABLE to ADVISORY in one engine only. */
  lemma NullLifetimeSplitsTiers()
    ensures var ai, rules := AiInput(Reviewed, None, None, false, Escalate), map[AiInsightTtlHours := Null];
            && P.ClassifyAiTier(ai, P.LifetimeConfigured(rules)) == Advisory
            && E.AssessAiTier(ai, Threshold(rules, AiInsightTtlHours)) == Unavailable
            && P.ClassifyAiTier(ai, P.LifetimeConfigured(map[])) == Unavailable
            && E.AssessAiTier(ai, Threshold(map[], AiInsightTtlHours)) == Unavailable
  {}

  /** The eligibility engine agrees with the decision engine unless a reviewed insight has no configured lifetime. */
  lemma EligibilityAndDecisionTiersAgreeIff(ai: AiInput, ttl: Option<real>)
    ensures E.AssessAiTier(ai, ttl) == D.AssessAiTier(ai) <==>
            !(ai.state.Reviewed? && !ai.finalizedCopy && ttl.None?)
  {}

  // ---- Risk levels ----

  /** The two MEDIUM factors only the priority engine has. */
  predicate ModerateFactorFires(s: CountedSignals, rules: RuleSet) {
    P.HwsGrade(s, rules).Medium? || P.InactivityGrade(s, rules).Medium?
  }

  /**
   * The decision engine never rates a student above the priority engine's base priority, and rates alike without a
   * moderate factor.
   */
  lemma DecisionRiskNeverExceedsBasePriority(s: CountedSignals, rules: RuleSet, tier: Tier, r: Recommendation)
    ensures var risk, base := D.RiskLevel(s, rules, tier, r), P.BasePriority(s, rules, tier, r);
            Level(risk) <= Level(base) && (!ModerateFactorFires(s, rules) ==> risk == base)
  {
    hide LevelOf;
    var d, p := D.RiskGrades(s, rules, tier, r), P.GradesOf(s, rules, P.AiGrade(tier, r));
    P.BaseLevel(s, rules, tier, r);
    assert NoBetter(d, p);
    AggregationIsMonotone(d, p);
    if !ModerateFactorFires(s, rules) {
      assert NoBetter(p, d);
      AggregationIsMonotone(p, d);
    }
  }

  /** Absent moderate thresholds are such a case. */
  lemma WithoutModerateThresholdsRiskIsBasePriority(s: CountedSignals, rules: RuleSet, tier: Tier, r: Recommendation)
    requires Threshold(rules, HwsBehindModerate).None? && Threshold(rules, LastActivityModerateDays).None?
    ensures D.RiskLevel(s, rules, tier, r) == P.BasePriority(s, rules, tier, r)
  {
    DecisionRiskNeverExceedsBasePriority(s, rules, tier, r);
  }

  /** Where the decision engine sees no risk at all, a moderate factor is exactly what makes the ratings differ. */
  lemma LowRiskAgreesIff(s: CountedSignals, rules: RuleSet, tier: Tier, r: Recommendation)
    requires D.RiskLevel(s, rules, tier, r) == LowPriority
    ensures P.BasePriority(s, rules, tier, r) == LowPriority <==> !ModerateFactorFires(s, rules)
  {
    P.BaseLevel(s, rules, tier, r);
    DecisionRiskNeverExceedsBasePriority(s, rules, tier, r);
  }

  // ---- Decisions and eligibility ----

  /** The same student, run and configuration, as each engine is given it. */
  predicate SameStudent(d: D.Context, e: E.Context) {
    && d.mode == e.mode && d.executionType == e.executionType && d.complianceHold == e.complianceHold
    && d.access == e.access && d.outreachState == e.outreachState && d.attempts == e.attempts
    && d.retryEligible == e.retryEligible && d.rules == e.rules && d.signals == e.signals && d.ai == e.ai
  }

  /**
   * When the decision engine initiates or retries, the eligibility engine grants the same action
   * exactly when the student can be contacted now: an address, and no exclusion window.
   */
  lemma ActionsAgreeWhenContactable(d: D.Context, e: E.Context)
    requires SameStudent(d, e) && E.Preconditions(e)
    ensures D.Tolerable(d) && D.MayInitiate(d) ==> (E.Actionable(e) && E.FirstContactDue(e) <==> E.Contactable(e))
    ensures D.Tolerable(d) && D.MayRetry(d) ==> (E.Actionable(e) && E.RetryDue(e) <==> E.Contactable(e))
  {
    EligibilityAndDecisionTiersAgreeIff(e.ai, Threshold(e.rules, AiInsightTtlHours));
  }

  /**
   * Conversely, a granted action the decision engine does not take was stopped by risk, by an AI recommendation or by
   * an unset ceiling.
   */
  lemma WithheldActions(d: D.Context, e: E.Context)
    requires SameStudent(d, e) && D.Preconditions(d)
    ensures E.Actionable(e) && E.FirstContactDue(e) ==>
              D.Assessable(d) && D.MayInitiate(d)
    ensures E.Actionable(e) && E.RetryDue(e) ==>
              D.Assessable(d) && (D.MayRetry(d) <==> Threshold(d.rules, OutreachMaxAttempts).Some?)
  {
    EligibilityAndDecisionTiersAgreeIff(e.ai, Threshold(e.rules, AiInsightTtlHours));
  }
}
