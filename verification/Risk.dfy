/**
 * Signals, configured thresholds, graded risk factors and their aggregation: the common ground of the three engines.
 */
module Risk {
  import opened Wrappers

  // ---- Configuration ----

  datatype Value = Null | UnknownV0 | Number(value: real)

  /** The configuration keys the engines read, named after the strings of the rule set. */
  datatype Key =
    | HwsBehindHighRisk | HwsBehindModerate | HwsBehindMinimum
    | AvgEffRatingLowRisk | AvgEffRatingMinimum
    | LastActivityHighRiskDays | LastActivityModerateDays | LastActivityMaxDays
    | PaymentBalanceRisk | PriorEscalationRepeat
    | AiInsightTtlHours | OutreachMaxAttempts | OutreachExclusionWindowHours

  type RuleSet = map<Key, Value>

  /** A missing key, a null and the UNKNOWN_V0 sentinel all leave a number to compare with unset. */
  function Threshold(rules: RuleSet, key: Key): Option<real> {
    if key in rules && rules[key].Number? then Some(rules[key].value) else None
  }

  lemma ThresholdIs(rules: RuleSet, key: Key, v: real)
    ensures Threshold(rules, key) == Some(v) <==> key in rules && rules[key] == Number(v)
  {}

  // ---- Signals ----

  /** Every trend other than DECLINING and CRITICAL is calm. */
  datatype Trend = Calm | Declining | CriticalTrend

  datatype Signals = Signals(
    hwsBehind: Option<real>,
    effort: Option<real>,
    inactivityDays: Option<real>,
    paymentBalance: Option<real>,
    priorEscalations: Option<real>,
    trend: Trend,
    accessChangedDays: Option<real>)

  /** The engines whose escalation count is a plain number take these. */
  type CountedSignals = s: Signals | s.priorEscalations.Some?
    witness Signals(None, None, None, None, Some(0.0), Calm, None)

  predicate NoMore(a: Option<real>, b: Option<real>) {
    a.None? || (b.Some? && a.value <= b.value)
  }

  /** `b` is at least as bad as `a` in every academic and historical signal; an unknown signal is the best one. */
  predicate AtLeastAsBad(a: Signals, b: Signals) {
    && NoMore(a.hwsBehind, b.hwsBehind)
    && (a.effort.None? || (b.effort.Some? && b.effort.value <= a.effort.value))
    && NoMore(a.inactivityDays, b.inactivityDays)
    && NoMore(a.paymentBalance, b.paymentBalance)
    && NoMore(a.priorEscalations, b.priorEscalations)
    && (a.trend.Calm? || b.trend == a.trend || b.trend.CriticalTrend?)
  }

  predicate Reaches(v: Option<real>, th: Option<real>) { v.Some? && th.Some? && v.value >= th.value }

  predicate Exceeds(v: Option<real>, th: Option<real>) { v.Some? && th.Some? && v.value > th.value }

  predicate FallsShort(v: Option<real>, th: Option<real>) { v.Some? && th.Some? && v.value < th.value }

  // ---- Grades ----

  datatype Grade = NoRisk | Low | Medium | High

  /** What a grade weighs in the aggregate: LOW counts for nothing. */
  function Weight(g: Grade): nat {
    match g case NoRisk => 0 case Low => 0 case Medium => 1 case High => 2
  }

  function Graded(high: bool, medium: bool): Grade {
    if high then High else if medium then Medium else NoRisk
  }

  function TrendGrade(t: Trend): Grade {
    match t case Calm => NoRisk case Declining => Medium case CriticalTrend => High
  }

  /** The factors all three engines look at, graded. */
  datatype Grades = Grades(
    hws: Grade, effort: Grade, inactivity: Grade, payment: Grade, escalations: Grade, trend: Grade, ai: Grade)

  function Is(g: Grade, x: Grade): nat { if g == x then 1 else 0 }

  function AcademicTally(g: Grades, x: Grade): nat {
    Is(g.hws, x) + Is(g.effort, x) + Is(g.inactivity, x) + Is(g.payment, x)
  }

  function HistoryTally(g: Grades, x: Grade): nat {
    Is(g.escalations, x) + Is(g.trend, x) + Is(g.ai, x)
  }

  function Tally(g: Grades, x: Grade): nat {
    AcademicTally(g, x) + HistoryTally(g, x)
  }

  // ---- Priorities ----

  datatype Priority = Unknown | LowPriority | MediumPriority | HighPriority | Critical

  function Level(p: Priority): int {
    match p case Unknown => -1 case LowPriority => 0 case MediumPriority => 1 case HighPriority => 2 case Critical => 3
  }

  /** No lower in the order of priorities; UNKNOWN compares only with itself. */
  predicate NotLowered(p: Priority, q: Priority) {
    p == q || (p != Unknown && Level(p) <= Level(q))
  }

  /** Reference aggregation: one level for any real factor, one for a HIGH with company, one for two HIGHs. */
  function AggregateLevel(high: nat, medium: nat): nat {
    (if high + medium >= 1 then 1 else 0)
    + (if high >= 1 && high + medium >= 2 then 1 else 0)
    + (if high >= 2 then 1 else 0)
  }

  function LevelOf(g: Grades): nat {
    AggregateLevel(Tally(g, High), Tally(g, Medium))
  }

  predicate NoBetter(a: Grades, b: Grades) {
    && Weight(a.hws) <= Weight(b.hws) && Weight(a.effort) <= Weight(b.effort)
    && Weight(a.inactivity) <= Weight(b.inactivity) && Weight(a.payment) <= Weight(b.payment)
    && Weight(a.escalations) <= Weight(b.escalations) && Weight(a.trend) <= Weight(b.trend)
    && Weight(a.ai) <= Weight(b.ai)
  }

  lemma OneGrows(a: Grade, b: Grade)
    requires Weight(a) <= Weight(b)
    ensures Is(a, High) <= Is(b, High)
    ensures Is(a, High) + Is(a, Medium) <= Is(b, High) + Is(b, Medium)
  {}

  lemma AcademicTallyGrows(a: Grades, b: Grades)
    requires NoBetter(a, b)
    ensures AcademicTally(a, High) <= AcademicTally(b, High)
    ensures AcademicTally(a, High) + AcademicTally(a, Medium) <= AcademicTally(b, High) + AcademicTally(b, Medium)
  {
    hide Is, Weight;
    OneGrows(a.hws, b.hws);
    OneGrows(a.effort, b.effort);
    OneGrows(a.inactivity, b.inactivity);
    OneGrows(a.payment, b.payment);
  }

  lemma HistoryTallyGrows(a: Grades, b: Grades)
    requires NoBetter(a, b)
    ensures HistoryTally(a, High) <= HistoryTally(b, High)
    ensures HistoryTally(a, High) + HistoryTally(a, Medium) <= HistoryTally(b, High) + HistoryTally(b, Medium)
  {
    hide Is, Weight;
    OneGrows(a.escalations, b.escalations);
    OneGrows(a.trend, b.trend);
    OneGrows(a.ai, b.ai);
  }

  /** Worsening any factors never lowers the aggregate. */
  lemma AggregationIsMonotone(a: Grades, b: Grades)
    requires NoBetter(a, b)
    ensures LevelOf(a) <= LevelOf(b)
  {
    hide AcademicTally, HistoryTally;
    AcademicTallyGrows(a, b);
    HistoryTallyGrows(a, b);
  }

  // ---- AI input ----

  datatype Tier = Confident | Advisory | Stale | InFlight | Unavailable | FinalizedCopy

  /** The stored insight state; an empty string counts as absent, any other unlisted string as OtherState. */
  datatype InsightState = Absent | Generating | Pending | GenerationFailed | Archived | Reviewed | OtherState

  /** The AI's recommended intervention. */
  datatype Recommendation =
    | Escalate | Meeting | OutreachRecommended | ResourceDelivery | IpbcFollowup | NoRecommendation

  /** The recommendations a CONFIDENT insight may raise the priority for, short of ESCALATE. */
  predicate IsUpward(r: Recommendation) { r.Meeting? || r.OutreachRecommended? || r.ResourceDelivery? }

  /** A caller of the priority engine may leave the stale flag unset. */
  datatype AiInput = AiInput(
    state: InsightState, confidence: Option<real>, stale: Option<bool>, finalizedCopy: bool,
    recommendation: Recommendation)

  function Scored(confidence: Option<real>): (tier: Tier)
    ensures tier == Confident <==> confidence.Some? && confidence.value >= 0.70
    ensures tier == Advisory <==> confidence.None? || confidence.value < 0.70
  {
    if confidence.Some? && confidence.value >= 0.70 then Confident else Advisory
  }
}
