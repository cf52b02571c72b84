/** The eligibility assessment: which scope a context gets, and which priority. */
module Eligibility {
  import opened Risk
  import opened Wrappers

  datatype LastContact = Never | Unparsable | HoursAgo(hours: real)

  /** The inputs the rules read; for identifiers only whether they are present. */
  datatype Context = Context(
    hasConfigVersion: bool, mode: string, executionType: string, hasCorrelationId: bool, attributionComplete: bool,
    hasReplayContext: bool, hasSourceArtifact: bool, hasFingerprint: bool, complianceHold: bool,
    access: string, hasEmail: bool, hasPhone: bool,
    outreachState: Option<string>, attempts: int, retryEligible: bool, lastContact: LastContact,
    rules: RuleSet, signals: CountedSignals, ai: AiInput)

  datatype Scope = NoScope | Outreach | RetryScope | EscalationCandidate | ReplayCandidate | PrioritizationOnly

  datatype Assessment = Assessment(
    eligible: bool, scope: Scope, priority: Priority, blocked: bool, liveOutreachPermitted: bool)

  predicate IsReplay(ctx: Context) { ctx.executionType == "replay" || ctx.executionType == "regeneration" }

  predicate Preconditions(ctx: Context) {
    && ctx.hasConfigVersion
    && (ctx.mode == "SHADOW" || ctx.mode == "LIVE")
    && ctx.hasCorrelationId
    && ctx.attributionComplete
    && (ctx.executionType == "original" || IsReplay(ctx))
    && (IsReplay(ctx) ==> ctx.hasReplayContext)
  }

  /** A reviewed insight without a configured lifetime is unavailable, whatever its stale flag says. */
  function AssessAiTier(ai: AiInput, ttl: Option<real>): Tier {
    if ai.finalizedCopy then FinalizedCopy
    else if ai.state.Generating? || ai.state.Pending? then InFlight
    else if ai.state.Reviewed? then
      if ttl.None? then Unavailable
      else if ai.stale.Some? && ai.stale.value then Stale
      else Scored(ai.confidence)
    else Unavailable
  }

  function TierOf(ctx: Context): Tier { AssessAiTier(ctx.ai, Threshold(ctx.rules, AiInsightTtlHours)) }

  // ---- Scope, declaratively ----

  predicate Open(ctx: Context) { Preconditions(ctx) && ctx.outreachState != Some("CLOSED") }

  predicate Admitted(ctx: Context) {
    Open(ctx) && !ctx.complianceHold && ctx.access != "REVOKED" && ctx.access != "SUSPENDED"
  }

  predicate InExclusionWindow(ctx: Context) {
    var window := Threshold(ctx.rules, OutreachExclusionWindowHours);
    window.Some? && ctx.lastContact.HoursAgo? && ctx.lastContact.hours < window.value
  }

  predicate Contactable(ctx: Context) { (ctx.hasEmail || ctx.hasPhone) && !InExclusionWindow(ctx) }

  predicate Exhausted(ctx: Context) {
    var ceiling := Threshold(ctx.rules, OutreachMaxAttempts);
    ceiling.Some? && ctx.attempts as real >= ceiling.value
  }

  predicate FirstContactDue(ctx: Context) {
    ctx.attempts == 0 &&
      (ctx.outreachState.None? || ctx.outreachState.value == "ELIGIBLE" || ctx.outreachState.value == "QUEUED")
  }

  predicate RetryDue(ctx: Context) { ctx.attempts > 0 && ctx.retryEligible }

  /** An original run gets past Rule 8's ceiling. */
  predicate Actionable(ctx: Context) {
    Admitted(ctx) && !IsReplay(ctx) && !TierOf(ctx).InFlight? && Contactable(ctx) && !Exhausted(ctx)
  }

  predicate ReplayBlocked(ctx: Context) {
    ctx.mode == "LIVE" || !ctx.hasSourceArtifact || !ctx.hasFingerprint
  }

  predicate Replayable(ctx: Context) {
    Admitted(ctx) && IsReplay(ctx) && Contactable(ctx) && !ReplayBlocked(ctx)
  }

  function ScopeOf(ctx: Context): Scope {
    if Actionable(ctx) && FirstContactDue(ctx) then Outreach
    else if Actionable(ctx) && RetryDue(ctx) then RetryScope
    else if Open(ctx) && (ctx.complianceHold || ctx.access == "REVOKED") then EscalationCandidate
    else if Replayable(ctx) && !Exhausted(ctx) then ReplayCandidate
    else if Admitted(ctx) && !IsReplay(ctx) && TierOf(ctx).InFlight? then PrioritizationOnly
    else NoScope
  }

  predicate LivePermitted(ctx: Context) {
    ScopeOf(ctx) != NoScope && ctx.mode == "LIVE" && ctx.executionType == "original"
  }

  // ---- Risk and priority ----

  function RiskGrades(s: CountedSignals, rules: RuleSet): Grades {
    Grades(Graded(Reaches(s.hwsBehind, Threshold(rules, HwsBehindHighRisk)),
                  Reaches(s.hwsBehind, Threshold(rules, HwsBehindMinimum))),
           Graded(false, FallsShort(s.effort, Threshold(rules, AvgEffRatingMinimum))),
           Graded(Reaches(s.inactivityDays, Threshold(rules, LastActivityHighRiskDays)),
                  Reaches(s.inactivityDays, Threshold(rules, LastActivityMaxDays))),
           Graded(false, Exceeds(s.paymentBalance, Threshold(rules, PaymentBalanceRisk))),
           Graded(Reaches(s.priorEscalations, Threshold(rules, PriorEscalationRepeat)), false),
           TrendGrade(s.trend),
           NoRisk)
  }

  /** This engine's aggregation, on its two counters, is the reference one. */
  function Aggregate(high: nat, medium: nat): (p: Priority)
    ensures Level(p) == AggregateLevel(high, medium)
  {
    if high >= 2 then Critical
    else if high == 1 && medium >= 1 then HighPriority
    else if high >= 1 || medium >= 1 then MediumPriority
    else LowPriority
  }

  function RiskPriority(s: CountedSignals, rules: RuleSet): Priority {
    Aggregate(Tally(RiskGrades(s, rules), High), Tally(RiskGrades(s, rules), Medium))
  }

  function Upgraded(p: Priority): Priority {
    match p
    case LowPriority => MediumPriority
    case MediumPriority => HighPriority
    case HighPriority => Critical
    case _ => p
  }

  function AiPrioritized(p: Priority, tier: Tier, r: Recommendation): Priority {
    if tier.Confident? && r.Escalate? then Critical
    else if (tier.Confident? && IsUpward(r)) || (tier.Advisory? && r.Escalate?) then Upgraded(p)
    else p
  }

  /** The priority every kind of exit carries; only a run that reaches Rule 9 is scored. */
  function PriorityOf(ctx: Context): Priority {
    if !Open(ctx) then Unknown
    else if ctx.complianceHold then Critical
    else if ctx.access == "REVOKED" then HighPriority
    else if !Replayable(ctx) &&
      !(Admitted(ctx) && !IsReplay(ctx) && !TierOf(ctx).InFlight? && Contactable(ctx)) then Unknown
    else if Exhausted(ctx) then MediumPriority
    else if IsReplay(ctx) then RiskPriority(ctx.signals, ctx.rules)
    else if !FirstContactDue(ctx) && !RetryDue(ctx) then Unknown
    else AiPrioritized(RiskPriority(ctx.signals, ctx.rules), TierOf(ctx), ctx.ai.recommendation)
  }

  // ---- The assessment ----

  /** Rule 9's counter for one two-threshold factor. */
  method Check(v: Option<real>, highThreshold: Option<real>, mediumThreshold: Option<real>, high: nat, medium: nat)
    returns (h: nat, m: nat)
    ensures var g := Graded(Reaches(v, highThreshold), Reaches(v, mediumThreshold));
            h == high + Is(g, High) && m == medium + Is(g, Medium)
  {
    h, m := high, medium;
    if v.None? { return; }
    if highThreshold.Some? && v.value >= highThreshold.value {
      h := h + 1;
    } else if mediumThreshold.Some? && v.value >= mediumThreshold.value {
      m := m + 1;
    }
  }

  method CountAcademicRisk(s: CountedSignals, rules: RuleSet) returns (high: nat, medium: nat)
    ensures high == AcademicTally(RiskGrades(s, rules), High) && medium == AcademicTally(RiskGrades(s, rules), Medium)
  {
    high, medium := Check(s.hwsBehind, Threshold(rules, HwsBehindHighRisk), Threshold(rules, HwsBehindMinimum), 0, 0);
    var effort := Threshold(rules, AvgEffRatingMinimum);
    if s.effort.Some? && effort.Some? && s.effort.value < effort.value { medium := medium + 1; }
    high, medium := Check(s.inactivityDays, Threshold(rules, LastActivityHighRiskDays),
                          Threshold(rules, LastActivityMaxDays), high, medium);
    var payment := Threshold(rules, PaymentBalanceRisk);
    if s.paymentBalance.Some? && payment.Some? && s.paymentBalance.value > payment.value { medium := medium + 1; }
  }

  method CountHistoryRisk(s: CountedSignals, rules: RuleSet, high: nat, medium: nat) returns (h: nat, m: nat)
    ensures h == high + HistoryTally(RiskGrades(s, rules), High) &&
            m == medium + HistoryTally(RiskGrades(s, rules), Medium)
  {
    h, m := high, medium;
    var repeat := Threshold(rules, PriorEscalationRepeat);
    if repeat.Some? && s.priorEscalations.value >= repeat.value { h := h + 1; }
    if s.trend.CriticalTrend? {
      h := h + 1;
    } else if s.trend.Declining? {
      m := m + 1;
    }
  }

  /** Sets the permission afresh from the scope, whatever an earlier rule set it to. */
  function Emit(ctx: Context, scope: Scope, priority: Priority, blocked: bool): Assessment {
    Assessment(scope != NoScope, scope, priority, blocked, scope != NoScope && ctx.mode == "LIVE" && !IsReplay(ctx))
  }

  /** Rules 9 to 11: the two counters, the aggregation, and the one upward step the AI may take. */
  method ScorePriority(ctx: Context, tier: Tier) returns (priority: Priority)
    ensures priority == AiPrioritized(RiskPriority(ctx.signals, ctx.rules), tier, ctx.ai.recommendation)
  {
    hide AcademicTally, HistoryTally, RiskGrades, Aggregate;
    var high, medium := CountAcademicRisk(ctx.signals, ctx.rules);
    high, medium := CountHistoryRisk(ctx.signals, ctx.rules, high, medium);
    priority := Aggregate(high, medium);
    var kind := ctx.ai.recommendation;
    if tier.Confident? && kind.Escalate? {
      priority := Critical;
    } else if tier.Confident? && (kind.Meeting? || kind.OutreachRecommended? || kind.ResourceDelivery?) {
      priority := Upgraded(priority);
    } else if tier.Advisory? && kind.Escalate? {
      priority := Upgraded(priority);
    }
  }

  /** Rule 0: one code for each precondition that fails. */
  method GovernanceGate(ctx: Context) returns (codes: seq<string>)
    ensures codes == [] <==> Preconditions(ctx)
  {
    codes := [];
    var isReplay := ctx.executionType == "replay" || ctx.executionType == "regeneration";
    if !ctx.hasConfigVersion { codes := codes + ["CONFIG_UNRESOLVED"]; }
    if ctx.mode != "SHADOW" && ctx.mode != "LIVE" { codes := codes + ["EXECUTION_MODE_INVALID"]; }
    if !ctx.hasCorrelationId { codes := codes + ["CORRELATION_ID_MISSING"]; }
    if !ctx.attributionComplete { codes := codes + ["ATTRIBUTION_INCOMPLETE"]; }
    if ctx.executionType != "original" && !isReplay { codes := codes + ["EXECUTION_TYPE_INVALID"]; }
    if isReplay && !ctx.hasReplayContext { codes := codes + ["REPLAY_CONTEXT_MISSING"]; }
  }

  /** Rules 8B to 8D. */
  method AttemptScope(ctx: Context) returns (scope: Scope)
    ensures scope == if RetryDue(ctx) then RetryScope else if FirstContactDue(ctx) then Outreach else NoScope
    ensures !(RetryDue(ctx) && FirstContactDue(ctx))
  {
    if ctx.attempts > 0 && ctx.retryEligible { return RetryScope; }
    if ctx.attempts == 0 {
      var state := ctx.outreachState;
      if state.None? || state.value == "ELIGIBLE" || state.value == "QUEUED" { return Outreach; }
    }
    scope := NoScope;
  }

  lemma OriginalIsNoReplay(ctx: Context)
    requires Preconditions(ctx)
    ensures ctx.executionType == "original" <==> !IsReplay(ctx)
  {}

  /** Rules 1 to 7: an assessment if one of them ends the run, and the tier as Rule 5A leaves it. */
  method RulesBeforeReplay(ctx: Context) returns (exit: Option<Assessment>, tier: Tier)
    requires Preconditions(ctx)
    ensures exit.None? <==> Admitted(ctx) && !(TierOf(ctx).InFlight? && !IsReplay(ctx)) && Contactable(ctx)
    ensures exit.Some? ==> exit.value == Emit(ctx, ScopeOf(ctx), PriorityOf(ctx), false)
    ensures exit.None? && TierOf(ctx).InFlight? ==> tier == Stale
    ensures exit.None? && !TierOf(ctx).InFlight? ==> tier == TierOf(ctx)
  {
    hide RiskPriority, Threshold, Preconditions, AssessAiTier, FirstContactDue, RetryDue;
    OriginalIsNoReplay(ctx);
    tier := TierOf(ctx);
    if ctx.outreachState == Some("CLOSED") { return Some(Emit(ctx, NoScope, Unknown, false)), tier; }
    if ctx.complianceHold { return Some(Emit(ctx, EscalationCandidate, Critical, false)), tier; }
    if ctx.access == "REVOKED" { return Some(Emit(ctx, EscalationCandidate, HighPriority, false)), tier; }
    if ctx.access == "SUSPENDED" { return Some(Emit(ctx, NoScope, Unknown, false)), tier; }

    if tier.InFlight? {
      if ctx.executionType == "original" { return Some(Emit(ctx, PrioritizationOnly, Unknown, false)), tier; }
      tier := Stale;
    }
    if !ctx.hasEmail && !ctx.hasPhone { return Some(Emit(ctx, NoScope, Unknown, false)), tier; }
    var window := Threshold(ctx.rules, OutreachExclusionWindowHours);
    if window.Some? && ctx.lastContact.HoursAgo? && ctx.lastContact.hours < window.value {
      return Some(Emit(ctx, NoScope, Unknown, false)), tier;
    }
    exit := None;
  }

  method AssessOrchestrationEligibility(ctx: Context) returns (r: Assessment)
    ensures r.scope == Outreach <==> Actionable(ctx) && FirstContactDue(ctx)
    ensures r.scope == RetryScope <==> Actionable(ctx) && RetryDue(ctx)
    ensures r.scope == EscalationCandidate <==> Open(ctx) && (ctx.complianceHold || ctx.access == "REVOKED")
    ensures r.scope == ReplayCandidate <==> Replayable(ctx) && !Exhausted(ctx)
    ensures r.scope == PrioritizationOnly <==> Admitted(ctx) && !IsReplay(ctx) && TierOf(ctx).InFlight?
    ensures r.scope == ScopeOf(ctx) && (r.eligible <==> r.scope != NoScope)
    ensures r.liveOutreachPermitted <==> LivePermitted(ctx)
    // A hold does not deny live outreach to an open LIVE run of original type.
    ensures ctx.complianceHold ==>
              (r.liveOutreachPermitted <==> Open(ctx) && ctx.mode == "LIVE" && ctx.executionType == "original")
    ensures r.blocked <==>
              !Preconditions(ctx) || (Admitted(ctx) && IsReplay(ctx) && Contactable(ctx) && ReplayBlocked(ctx))
    ensures r.priority == PriorityOf(ctx)
  {
    hide RiskPriority, Threshold, Preconditions, AssessAiTier, FirstContactDue;
    var codes := GovernanceGate(ctx);
    if codes != [] { return Assessment(false, NoScope, Unknown, true, false); }
    OriginalIsNoReplay(ctx);
    var exit, tier := RulesBeforeReplay(ctx);
    if exit.Some? { return exit.value; }

    var scope := NoScope;
    if ctx.executionType == "replay" || ctx.executionType == "regeneration" {
      if ctx.mode == "LIVE" || !ctx.hasSourceArtifact || !ctx.hasFingerprint {
        return Emit(ctx, NoScope, Unknown, true);
      }
      scope, tier := ReplayCandidate, FinalizedCopy;
    }

    var ceiling := Threshold(ctx.rules, OutreachMaxAttempts);
    if ceiling.Some? && ctx.attempts as real >= ceiling.value { return Emit(ctx, NoScope, MediumPriority, false); }
    if scope != ReplayCandidate {
      scope := AttemptScope(ctx);
      if scope == NoScope { return Emit(ctx, NoScope, Unknown, false); }
    }

    var priority := ScorePriority(ctx, tier);
    r := Emit(ctx, scope, priority, false);
  }

  // ---- Scope and risk in the raw inputs ----

  /** The one conjunction behind OUTREACH and RETRY. */
  lemma OutreachOrRetryIff(ctx: Context)
    ensures ScopeOf(ctx) == Outreach || ScopeOf(ctx) == RetryScope <==>
            && Preconditions(ctx) && ctx.executionType == "original" && ctx.outreachState != Some("CLOSED")
            && !ctx.complianceHold && ctx.access != "REVOKED" && ctx.access != "SUSPENDED"
            && (ctx.ai.finalizedCopy || !(ctx.ai.state.Generating? || ctx.ai.state.Pending?))
            && (ctx.hasEmail || ctx.hasPhone)
            && (ctx.lastContact.HoursAgo? ==>
                  forall w :: Threshold(ctx.rules, OutreachExclusionWindowHours) == Some(w) ==>
                    ctx.lastContact.hours >= w)
            && (forall n :: Threshold(ctx.rules, OutreachMaxAttempts) == Some(n) ==> ctx.attempts as real < n)
            && ((ctx.attempts > 0 && ctx.retryEligible) ||
                (ctx.attempts == 0 && (ctx.outreachState == None || ctx.outreachState == Some("ELIGIBLE") ||
                                       ctx.outreachState == Some("QUEUED"))))
  {
    hide Threshold;
    var window := Threshold(ctx.rules, OutreachExclusionWindowHours);
    var ceiling := Threshold(ctx.rules, OutreachMaxAttempts);
    assert window.Some? ==> window == Some(window.value);
    assert ceiling.Some? ==> ceiling == Some(ceiling.value);
    assert ctx.executionType == "original" ==> !IsReplay(ctx);
  }

  predicate AtLeast(v: Option<real>, rules: RuleSet, key: Key) {
    v.Some? && key in rules && rules[key].Number? && v.value >= rules[key].value
  }

  function One(b: bool): nat { if b then 1 else 0 }

  /** How many HIGH factors fire. */
  function HighFactors(s: CountedSignals, rules: RuleSet): nat {
    One(AtLeast(s.hwsBehind, rules, HwsBehindHighRisk)) +
      One(AtLeast(s.inactivityDays, rules, LastActivityHighRiskDays))
    + One(AtLeast(s.priorEscalations, rules, PriorEscalationRepeat)) + One(s.trend.CriticalTrend?)
  }

  /** How many MEDIUM factors fire; a two-threshold factor counts once, for the higher. */
  function MediumFactors(s: CountedSignals, rules: RuleSet): nat {
    One(!AtLeast(s.hwsBehind, rules, HwsBehindHighRisk) && AtLeast(s.hwsBehind, rules, HwsBehindMinimum))
    + One(s.effort.Some? && AvgEffRatingMinimum in rules && rules[AvgEffRatingMinimum].Number?
          && s.effort.value < rules[AvgEffRatingMinimum].value)
    + One(!AtLeast(s.inactivityDays, rules, LastActivityHighRiskDays)
          && AtLeast(s.inactivityDays, rules, LastActivityMaxDays))
    + One(s.paymentBalance.Some? && PaymentBalanceRisk in rules && rules[PaymentBalanceRisk].Number?
          && s.paymentBalance.value > rules[PaymentBalanceRisk].value)
    + One(s.trend.Declining?)
  }

  lemma GradesAreFactors(s: CountedSignals, rules: RuleSet)
    ensures var g := RiskGrades(s, rules);
            && Is(g.hws, High) == One(AtLeast(s.hwsBehind, rules, HwsBehindHighRisk))
            && Is(g.inactivity, High) == One(AtLeast(s.inactivityDays, rules, LastActivityHighRiskDays))
            && Is(g.escalations, High) == One(AtLeast(s.priorEscalations, rules, PriorEscalationRepeat))
            && Is(g.trend, High) == One(s.trend.CriticalTrend?)
            && !g.effort.High? && !g.payment.High? && g.ai.NoRisk?
  {}

  lemma GradesAreMediumFactors(s: CountedSignals, rules: RuleSet)
    ensures var g := RiskGrades(s, rules);
            Is(g.hws, Medium) + Is(g.effort, Medium) + Is(g.inactivity, Medium) + Is(g.payment, Medium)
            + Is(g.trend, Medium) == MediumFactors(s, rules)
            && !g.escalations.Medium?
  {}

  lemma TalliesAreFactors(s: CountedSignals, rules: RuleSet)
    ensures Tally(RiskGrades(s, rules), High) == HighFactors(s, rules)
    ensures Tally(RiskGrades(s, rules), Medium) == MediumFactors(s, rules)
  {
    GradesAreFactors(s, rules);
    GradesAreMediumFactors(s, rules);
    hide RiskGrades, AtLeast, MediumFactors;
  }

  /** CRITICAL is two high factors, HIGH one with a medium one, MEDIUM either alone, LOW none. */
  lemma RiskPriorityIs(s: CountedSignals, rules: RuleSet)
    ensures var high, medium := HighFactors(s, rules), MediumFactors(s, rules);
            && (RiskPriority(s, rules) == Critical <==> high >= 2)
            && (RiskPriority(s, rules) == HighPriority <==> high == 1 && medium >= 1)
            && (RiskPriority(s, rules) == MediumPriority <==>
                (high == 1 && medium == 0) || (high == 0 && medium >= 1))
            && (RiskPriority(s, rules) == LowPriority <==> high + medium == 0)
  {
    hide Tally, HighFactors, MediumFactors, RiskGrades;
    TalliesAreFactors(s, rules);
  }

  /** The AI's upward step: one level for a CONFIDENT MEETING,
    OUTREACH or RESOURCE_DELIVERY and an ADVISORY ESCALATE. */
  lemma UpwardAdviceRaisesOne(p: Priority, tier: Tier, r: Recommendation)
    requires 0 <= Level(p) <= 3
    ensures Level(AiPrioritized(p, tier, r)) ==
            if tier == Confident && r == Escalate then 3
            else if (tier == Confident && r in {Meeting, OutreachRecommended, ResourceDelivery})
                    || (tier == Advisory && r == Escalate)
            then (if Level(p) < 3 then Level(p) + 1 else 3)
            else Level(p)
  {}

  // ---- A compliance hold ----

  /** A held student is denied live outreach exactly when the run is closed, invalid, not LIVE or not original. */
  lemma HoldDeniesLiveIff(ctx: Context)
    requires ctx.complianceHold
    ensures !LivePermitted(ctx) <==> !(Open(ctx) && ctx.mode == "LIVE" && ctx.executionType == "original")
  {}

  /** The hold alone does not: a held student of a LIVE original run, permitted. */
  lemma HeldYetPermitted() returns (ctx: Context)
    ensures ctx.complianceHold && LivePermitted(ctx)
  {
    ctx := Context(
      true, "LIVE", "original", true, true, false, false, false, true, "ACTIVE", true, true,
      None, 0, false, Never, map[], Signals(None, None, None, None, Some(0.0), Calm, None),
      AiInput(Absent, None, None, false, NoRecommendation));
    assert Open(ctx);
    HoldDeniesLiveIff(ctx);
  }

  // ---- Relations between runs ----

  /** No risk signal can change the scope: every condition of the scope contract reads other inputs. */
  lemma ScopeIgnoresRisk(ctx: Context, other: CountedSignals)
    ensures var c := ctx.(signals := other);
            && Actionable(c) == Actionable(ctx) && FirstContactDue(c) == FirstContactDue(ctx) &&
              RetryDue(c) == RetryDue(ctx)
            && Open(c) == Open(ctx) && Admitted(c) == Admitted(ctx) && Replayable(c) == Replayable(ctx)
            && Exhausted(c) == Exhausted(ctx) && TierOf(c) == TierOf(ctx)
  {}

  lemma SignalsWorsenGrades(a: CountedSignals, b: CountedSignals, rules: RuleSet)
    requires AtLeastAsBad(a, b)
    ensures NoBetter(RiskGrades(a, rules), RiskGrades(b, rules))
  {}

  lemma RiskPriorityIsMonotone(a: CountedSignals, b: CountedSignals, rules: RuleSet)
    requires AtLeastAsBad(a, b)
    ensures 0 <= Level(RiskPriority(a, rules)) <= Level(RiskPriority(b, rules))
  {
    hide Tally;
    SignalsWorsenGrades(a, b, rules);
    AggregationIsMonotone(RiskGrades(a, rules), RiskGrades(b, rules));
  }

  lemma AiPrioritizedIsMonotone(p: Priority, q: Priority, tier: Tier, r: Recommendation)
    requires 0 <= Level(p) <= Level(q)
    ensures NotLowered(p, q) && NotLowered(AiPrioritized(p, tier, r), AiPrioritized(q, tier, r))
  {}

  /** Worse signals never lower the priority of the assessment, whatever the thresholds and the rest of the context. */
  lemma WorseSignalsNeverLower(ctx: Context, worse: CountedSignals)
    requires AtLeastAsBad(ctx.signals, worse)
    ensures NotLowered(PriorityOf(ctx), PriorityOf(ctx.(signals := worse)))
  {
    hide RiskPriority;
    RiskPriorityIsMonotone(ctx.signals, worse, ctx.rules);
    ScopeIgnoresRisk(ctx, worse);
    AiPrioritizedIsMonotone(RiskPriority(ctx.signals, ctx.rules), RiskPriority(worse, ctx.rules), TierOf(ctx),
                            ctx.ai.recommendation);
  }
}
