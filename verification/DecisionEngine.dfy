/** The decision engine: its own risk computation, and the ladder from context to orchestration intent. */
module DecisionEngine {
  import opened Risk
  import opened Wrappers

  datatype Context = Context(
    hasConfigVersion: bool, mode: string, executionType: string, hasCorrelationId: bool, attributionComplete: bool,
    hasFingerprint: bool, complianceHold: bool,
    access: string, outreachState: Option<string>, attempts: int, retryEligible: bool,
    rules: RuleSet, signals: CountedSignals, ai: AiInput)

  datatype Intent =
    | NoEligibleIntent | EscalateToOperator | DeferPendingAi | CloseOrchestration
    | RetryOutreach | RecommendIntervention | InitiateOutreach

  datatype GovernanceScope = NoScope | ReplayOnly | ShadowOnly | Authorized

  datatype Decision = Decision(intent: Intent, blocked: bool, mode: string, scope: GovernanceScope,
                               risk: Option<Priority>)

  predicate IsReplay(executionType: string) { executionType == "replay" || executionType == "regeneration" }

  predicate Preconditions(ctx: Context) {
    && ctx.hasConfigVersion
    && (ctx.mode == "SHADOW" || ctx.mode == "LIVE")
    && ctx.hasCorrelationId
    && ctx.attributionComplete
    && (IsReplay(ctx.executionType) ==> ctx.hasFingerprint)
  }

  function AssessAiTier(ai: AiInput): (tier: Tier)
    ensures tier.FinalizedCopy? <==> ai.finalizedCopy
    ensures tier.InFlight? <==> !ai.finalizedCopy && (ai.state.Generating? || ai.state.Pending?)
    ensures tier.Stale? <==> !ai.finalizedCopy && ai.state.Reviewed? && ai.stale == Some(true)
    ensures tier.Confident? <==>
            && !ai.finalizedCopy && ai.state.Reviewed? && ai.stale != Some(true)
            && ai.confidence.Some? && ai.confidence.value >= 0.70
    ensures tier.Advisory? <==>
            && !ai.finalizedCopy && ai.state.Reviewed? && ai.stale != Some(true)
            && (ai.confidence.None? || ai.confidence.value < 0.70)
  {
    if ai.finalizedCopy then FinalizedCopy
    else if ai.state.Generating? || ai.state.Pending? then InFlight
    else if ai.state.Reviewed? then
      if ai.stale.Some? && ai.stale.value then Stale else Scored(ai.confidence)
    else Unavailable
  }

  // ---- Risk ----

  datatype Factor =
    | HwsDelinquency | EffortDecline | Inactivity | PaymentRisk | EscalationRecurrence
    | HistoricalTrendCritical | HistoricalTrendDeclining | AiConfidentEscalateSignal | AiAdvisoryEscalateSignal

  function RiskGrades(s: CountedSignals, rules: RuleSet, tier: Tier, r: Recommendation): Grades {
    Grades(Graded(Reaches(s.hwsBehind, Threshold(rules, HwsBehindHighRisk)), false),
           Graded(false, FallsShort(s.effort, Threshold(rules, AvgEffRatingLowRisk))),
           Graded(Exceeds(s.inactivityDays, Threshold(rules, LastActivityHighRiskDays)), false),
           Graded(false, Exceeds(s.paymentBalance, Threshold(rules, PaymentBalanceRisk))),
           Graded(Reaches(s.priorEscalations, Threshold(rules, PriorEscalationRepeat)), false),
           TrendGrade(s.trend),
           Graded(tier.Confident? && r.Escalate?, tier.Advisory? && r.Escalate?))
  }

  /** This engine's aggregation, on the two factor lists, is the reference one. */
  function Aggregate(high: seq<Factor>, medium: seq<Factor>): (p: Priority)
    ensures Level(p) == AggregateLevel(|high|, |medium|)
  {
    if |high| >= 2 then Critical
    else if high != [] && medium != [] then HighPriority
    else if high != [] || medium != [] then MediumPriority
    else LowPriority
  }

  method TallyAcademicRisk(s: CountedSignals, rules: RuleSet) returns (high: seq<Factor>, medium: seq<Factor>)
    ensures forall tier, r :: |high| == AcademicTally(RiskGrades(s, rules, tier, r), High)
    ensures forall tier, r :: |medium| == AcademicTally(RiskGrades(s, rules, tier, r), Medium)
    ensures forall f :: f in high ==> f == HwsDelinquency || f == Inactivity
    ensures forall f :: f in medium ==> f == EffortDecline || f == PaymentRisk
    ensures HwsDelinquency in high <==> Reaches(s.hwsBehind, Threshold(rules, HwsBehindHighRisk))
    ensures Inactivity in high <==> Exceeds(s.inactivityDays, Threshold(rules, LastActivityHighRiskDays))
    ensures EffortDecline in medium <==> FallsShort(s.effort, Threshold(rules, AvgEffRatingLowRisk))
    ensures PaymentRisk in medium <==> Exceeds(s.paymentBalance, Threshold(rules, PaymentBalanceRisk))
  {
    high, medium := [], [];
    var hws := Threshold(rules, HwsBehindHighRisk);
    if s.hwsBehind.Some? && hws.Some? && s.hwsBehind.value >= hws.value { high := high + [HwsDelinquency]; }
    var effort := Threshold(rules, AvgEffRatingLowRisk);
    if s.effort.Some? && effort.Some? && s.effort.value < effort.value { medium := medium + [EffortDecline]; }
    var inactivity := Threshold(rules, LastActivityHighRiskDays);
    if s.inactivityDays.Some? && inactivity.Some? && s.inactivityDays.value > inactivity.value {
      high := high + [Inactivity];
    }
    var payment := Threshold(rules, PaymentBalanceRisk);
    if s.paymentBalance.Some? && payment.Some? && s.paymentBalance.value > payment.value {
      medium := medium + [PaymentRisk];
    }
  }

  method TallyHistoryRisk(s: CountedSignals, rules: RuleSet, tier: Tier, r: Recommendation)
    returns (high: seq<Factor>, medium: seq<Factor>)
    ensures |high| == HistoryTally(RiskGrades(s, rules, tier, r), High)
    ensures |medium| == HistoryTally(RiskGrades(s, rules, tier, r), Medium)
    ensures forall f :: f in high ==>
              f == EscalationRecurrence || f == HistoricalTrendCritical || f == AiConfidentEscalateSignal
    ensures forall f :: f in medium ==> f == HistoricalTrendDeclining || f == AiAdvisoryEscalateSignal
    ensures EscalationRecurrence in high <==> Reaches(s.priorEscalations, Threshold(rules, PriorEscalationRepeat))
    ensures HistoricalTrendCritical in high <==> s.trend == CriticalTrend
    ensures HistoricalTrendDeclining in medium <==> s.trend == Declining
    ensures AiConfidentEscalateSignal in high <==> tier == Confident && r == Escalate
    ensures AiAdvisoryEscalateSignal in medium <==> tier == Advisory && r == Escalate
  {
    high, medium := [], [];
    var repeat := Threshold(rules, PriorEscalationRepeat);
    if repeat.Some? && s.priorEscalations.value >= repeat.value { high := high + [EscalationRecurrence]; }
    if s.trend.CriticalTrend? {
      high := high + [HistoricalTrendCritical];
    } else if s.trend.Declining? {
      medium := medium + [HistoricalTrendDeclining];
    }
    if tier.Confident? && r.Escalate? {
      high := high + [AiConfidentEscalateSignal];
    } else if tier.Advisory? && r.Escalate? {
      medium := medium + [AiAdvisoryEscalateSignal];
    }
  }

  function RiskLevel(s: CountedSignals, rules: RuleSet, tier: Tier, r: Recommendation): (p: Priority)
    ensures Level(p) == LevelOf(RiskGrades(s, rules, tier, r))
  {
    hide RiskGrades, Tally;
    match LevelOf(RiskGrades(s, rules, tier, r))
    case 0 => LowPriority
    case 1 => MediumPriority
    case 2 => HighPriority
    case _ => Critical
  }

  /**
   * The level is the reference aggregate of the graded factors; the factor lists hold one label for each that fired.
   */
  method ComputeRisk(s: CountedSignals, rules: RuleSet, tier: Tier, r: Recommendation)
    returns (level: Priority, high: seq<Factor>, medium: seq<Factor>)
    ensures level == RiskLevel(s, rules, tier, r)
    ensures Level(level) == LevelOf(RiskGrades(s, rules, tier, r))
    ensures |high| == Tally(RiskGrades(s, rules, tier, r), High) &&
            |medium| == Tally(RiskGrades(s, rules, tier, r), Medium)
    ensures HwsDelinquency in high <==> Reaches(s.hwsBehind, Threshold(rules, HwsBehindHighRisk))
    ensures Inactivity in high <==> Exceeds(s.inactivityDays, Threshold(rules, LastActivityHighRiskDays))
    ensures EffortDecline in medium <==> FallsShort(s.effort, Threshold(rules, AvgEffRatingLowRisk))
    ensures PaymentRisk in medium <==> Exceeds(s.paymentBalance, Threshold(rules, PaymentBalanceRisk))
    ensures EscalationRecurrence in high <==> Reaches(s.priorEscalations, Threshold(rules, PriorEscalationRepeat))
    ensures HistoricalTrendCritical in high <==> s.trend == CriticalTrend
    ensures HistoricalTrendDeclining in medium <==> s.trend == Declining
    ensures AiConfidentEscalateSignal in high <==> tier == Confident && r == Escalate
    ensures AiAdvisoryEscalateSignal in medium <==> tier == Advisory && r == Escalate
  {
    hide RiskGrades, AcademicTally, HistoryTally, AggregateLevel;
    high, medium := TallyAcademicRisk(s, rules);
    var moreHigh, moreMedium := TallyHistoryRisk(s, rules, tier, r);
    high, medium := high + moreHigh, medium + moreMedium;
    level := Aggregate(high, medium);
  }

  lemma SignalsWorsenGrades(a: CountedSignals, b: CountedSignals, rules: RuleSet, tier: Tier, r: Recommendation)
    requires AtLeastAsBad(a, b)
    ensures NoBetter(RiskGrades(a, rules, tier, r), RiskGrades(b, rules, tier, r))
  {}

  lemma WorseSignalsNeverLower(a: CountedSignals, b: CountedSignals, rules: RuleSet, tier: Tier, r: Recommendation)
    requires AtLeastAsBad(a, b)
    ensures NotLowered(RiskLevel(a, rules, tier, r), RiskLevel(b, rules, tier, r))
  {
    SignalsWorsenGrades(a, b, rules, tier, r);
    hide RiskGrades, RiskLevel, Tally, NoBetter, AtLeastAsBad;
    AggregationIsMonotone(RiskGrades(a, rules, tier, r), RiskGrades(b, rules, tier, r));
  }

  // ---- Intents ----

  predicate Open(ctx: Context) {
    Preconditions(ctx) && !IsReplay(ctx.executionType) && ctx.outreachState != Some("CLOSED")
  }

  function MaxAttempts(ctx: Context): Option<real> { Threshold(ctx.rules, OutreachMaxAttempts) }

  predicate Exhausted(ctx: Context) {
    MaxAttempts(ctx).Some? && ctx.attempts as real >= MaxAttempts(ctx).value
  }

  /** The context gets as far as the risk assessment of Rule 7. */
  predicate Assessable(ctx: Context) {
    && Open(ctx) && !ctx.complianceHold && ctx.access != "REVOKED" && ctx.access != "SUSPENDED"
    && !(AssessAiTier(ctx.ai).InFlight? && ctx.executionType == "original")
    && !Exhausted(ctx)
  }

  function ContextRisk(ctx: Context): Priority {
    RiskLevel(ctx.signals, ctx.rules, AssessAiTier(ctx.ai), ctx.ai.recommendation)
  }

  predicate Tolerable(ctx: Context) { Assessable(ctx) && Level(ContextRisk(ctx)) <= 1 }

  predicate MayRetry(ctx: Context) {
    ctx.attempts > 0 && MaxAttempts(ctx).Some? && !Exhausted(ctx) && ctx.retryEligible
  }

  predicate Recommendable(r: Recommendation) { r.Meeting? || r.ResourceDelivery? || r.IpbcFollowup? }

  predicate AiRecommends(ctx: Context) {
    var tier := AssessAiTier(ctx.ai);
    (tier.Confident? || tier.Advisory?) && Recommendable(ctx.ai.recommendation)
  }

  predicate MayInitiate(ctx: Context) {
    ctx.attempts == 0 &&
      (ctx.outreachState.None? || ctx.outreachState.value == "ELIGIBLE" || ctx.outreachState.value == "QUEUED")
  }

  /** Rule 0: one code for each precondition that fails. */
  method ValidateGovernancePreconditions(ctx: Context) returns (codes: seq<string>)
    ensures codes == [] <==> Preconditions(ctx)
  {
    codes := [];
    if !ctx.hasConfigVersion { codes := codes + ["CONFIG_UNRESOLVED"]; }
    if ctx.mode != "SHADOW" && ctx.mode != "LIVE" { codes := codes + ["EXECUTION_MODE_INVALID"]; }
    if !ctx.hasCorrelationId { codes := codes + ["CORRELATION_ID_MISSING"]; }
    if !ctx.attributionComplete { codes := codes + ["ATTRIBUTION_INCOMPLETE"]; }
    if (ctx.executionType == "replay" || ctx.executionType == "regeneration") && !ctx.hasFingerprint {
      codes := codes + ["REPLAY_FINGERPRINT_MISSING"];
    }
  }

  lemma PreconditionsGive(ctx: Context)
    requires Preconditions(ctx)
    ensures IsReplay(ctx.executionType) ==> ctx.hasFingerprint
    ensures ctx.mode != "LIVE" <==> ctx.mode == "SHADOW"
  {}

  method EvaluateReplayIntent(ctx: Context) returns (d: Decision)
    ensures d.intent == NoEligibleIntent && d.mode == "SHADOW" && d.scope == ReplayOnly && d.risk == None
    ensures d.blocked <==> ctx.mode == "LIVE" || !ctx.hasFingerprint
  {
    var violations: seq<string> := [];
    if ctx.mode == "LIVE" { violations := violations + ["REPLAY_LIVE_MODE_BLOCKED"]; }
    if !ctx.hasFingerprint { violations := violations + ["REPLAY_FINGERPRINT_MISSING"]; }
    d := Decision(NoEligibleIntent, violations != [], "SHADOW", ReplayOnly, None);
  }

  /** Rules 7 to 10. */
  method IntentFromRisk(ctx: Context, tier: Tier, maxAttempts: Option<real>) returns (level: Priority, intent: Intent)
    requires tier == AssessAiTier(ctx.ai) && maxAttempts == MaxAttempts(ctx) && !Exhausted(ctx)
    ensures level == ContextRisk(ctx)
    ensures intent == EscalateToOperator <==> Level(level) >= 2
    ensures intent == RetryOutreach <==> Level(level) <= 1 && MayRetry(ctx)
    ensures intent == RecommendIntervention <==> Level(level) <= 1 && !MayRetry(ctx) && AiRecommends(ctx)
    ensures intent == InitiateOutreach <==> Level(level) <= 1 && MayInitiate(ctx) && !AiRecommends(ctx)
    ensures intent != CloseOrchestration && intent != DeferPendingAi
  {
    hide RiskLevel, AssessAiTier, Threshold;
    var risk, _, _ := ComputeRisk(ctx.signals, ctx.rules, tier, ctx.ai.recommendation);
    level := risk;
    if level == Critical { return level, EscalateToOperator; }
    if level == HighPriority { return level, EscalateToOperator; }
    var recommended := false;
    if tier.Confident? || tier.Advisory? {
      var kind := ctx.ai.recommendation;
      if kind.Meeting? || kind.ResourceDelivery? || kind.IpbcFollowup? { recommended := true; }
    }
    if ctx.attempts > 0 && maxAttempts.Some? && (ctx.attempts as real) < maxAttempts.value && ctx.retryEligible {
      return level, RetryOutreach;
    }
    if recommended { return level, RecommendIntervention; }
    if ctx.attempts == 0 {
      var state := ctx.outreachState;
      if state.None? || state.value == "ELIGIBLE" || state.value == "QUEUED" { return level, InitiateOutreach; }
    }
    intent := NoEligibleIntent;
  }

  method EvaluateOrchestrationIntent(ctx: Context) returns (d: Decision)
    ensures d.risk == if Assessable(ctx) then Some(ContextRisk(ctx)) else None
    ensures d.intent == EscalateToOperator <==>
            Open(ctx) && (ctx.complianceHold || ctx.access == "REVOKED" ||
                          (Assessable(ctx) && Level(ContextRisk(ctx)) >= 2))
    ensures d.intent == RetryOutreach <==> Tolerable(ctx) && MayRetry(ctx)
    ensures d.intent == RecommendIntervention <==> Tolerable(ctx) && !MayRetry(ctx) && AiRecommends(ctx)
    ensures d.intent == InitiateOutreach <==> Tolerable(ctx) && MayInitiate(ctx) && !AiRecommends(ctx)
    ensures d.intent == CloseOrchestration <==>
            && Open(ctx) && !ctx.complianceHold && ctx.access != "REVOKED" && ctx.access != "SUSPENDED"
            && !(AssessAiTier(ctx.ai).InFlight? && ctx.executionType == "original") && Exhausted(ctx)
    ensures d.intent == DeferPendingAi <==>
            && Open(ctx) && !ctx.complianceHold && ctx.access != "REVOKED" && ctx.access != "SUSPENDED"
            && AssessAiTier(ctx.ai).InFlight? && ctx.executionType == "original"
    ensures d.intent == NoEligibleIntent <==>
            || !Open(ctx)
            || (!ctx.complianceHold && ctx.access == "SUSPENDED")
            || (Tolerable(ctx) && !MayRetry(ctx) && !AiRecommends(ctx) && !MayInitiate(ctx))
    ensures d.blocked <==> !Preconditions(ctx) || (IsReplay(ctx.executionType) && ctx.mode == "LIVE")
    // The mode and the scope a decision carries, in the mode and the type of its run.
    ensures d.scope == NoScope <==> !Preconditions(ctx)
    ensures d.scope == ReplayOnly <==>
            Preconditions(ctx) && (ctx.executionType == "replay" || ctx.executionType == "regeneration")
    ensures d.scope == ShadowOnly <==>
            && Preconditions(ctx) && ctx.executionType != "replay" && ctx.executionType != "regeneration"
            && ctx.mode == "SHADOW"
    ensures d.scope == Authorized <==>
            && Preconditions(ctx) && ctx.executionType != "replay" && ctx.executionType != "regeneration"
            && ctx.mode == "LIVE"
    ensures d.mode == if d.scope == ReplayOnly then "SHADOW" else if ctx.mode == "" then "UNKNOWN" else ctx.mode
  {
    hide ContextRisk, AssessAiTier, Preconditions, MayRetry, AiRecommends, MayInitiate, Threshold;
    var codes := ValidateGovernancePreconditions(ctx);
    if codes != [] {
      return Decision(NoEligibleIntent, true, if ctx.mode == "" then "UNKNOWN" else ctx.mode, NoScope, None);
    }
    PreconditionsGive(ctx);
    if ctx.executionType == "replay" || ctx.executionType == "regeneration" {
      d := EvaluateReplayIntent(ctx);
      return;
    }
    d := Decision(NoEligibleIntent, false, ctx.mode, if ctx.mode == "SHADOW" then ShadowOnly else Authorized, None);
    if ctx.outreachState == Some("CLOSED") { return; }
    if ctx.complianceHold { return d.(intent := EscalateToOperator); }
    if ctx.access == "REVOKED" { return d.(intent := EscalateToOperator); }
    if ctx.access == "SUSPENDED" { return; }
    var tier := AssessAiTier(ctx.ai);
    if tier.InFlight? && ctx.executionType == "original" { return d.(intent := DeferPendingAi); }
    var maxAttempts := Threshold(ctx.rules, OutreachMaxAttempts);
    if maxAttempts.Some? && ctx.attempts as real >= maxAttempts.value { return d.(intent := CloseOrchestration); }
    var level, intent := IntentFromRisk(ctx, tier, maxAttempts);
    d := d.(intent := intent, risk := Some(level));
  }
}
