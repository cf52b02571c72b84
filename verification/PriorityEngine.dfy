/** The prioritization advisory: scored factors, aggregation, AI adjustment. */
module PriorityEngine {
  import Ledgers
  import opened Risk
  import opened Wrappers

  /** What the assessment reads; for identifiers only whether they are present. */
  datatype Context = Context(
    mode: string, executionType: string, identified: bool, key: Option<string>, maintenance: bool,
    rules: RuleSet, signals: Signals, ai: AiInput)

  const VALID_MODES := {"SHADOW", "LIVE"}
  const VALID_TYPES := {"original", "replay", "regeneration", "recovery"}
  const REPLAY_TYPES := {"replay", "regeneration"}

  /** Only a set lifetime counts, but the test is for the sentinel alone: a null is taken for one. */
  predicate LifetimeConfigured(rules: RuleSet) {
    AiInsightTtlHours in rules && rules[AiInsightTtlHours] != UnknownV0
  }

  function ClassifyAiTier(ai: AiInput, lifetimeConfigured: bool): Tier {
    if ai.finalizedCopy then FinalizedCopy
    else if ai.state.Generating? || ai.state.Pending? then InFlight
    else if ai.state.GenerationFailed? || ai.state.Archived? || ai.state.Absent? then Unavailable
    else if ai.state.Reviewed? then
      if ai.stale.Some? && ai.stale.value then Stale
      else if ai.stale.Some? then Scored(ai.confidence)
      else if !lifetimeConfigured then Unavailable
      else Scored(ai.confidence)
    else Unavailable
  }

  // ---- Factors ----

  function HwsGrade(s: Signals, rules: RuleSet): Grade {
    Graded(Reaches(s.hwsBehind, Threshold(rules, HwsBehindHighRisk)),
           Reaches(s.hwsBehind, Threshold(rules, HwsBehindModerate)))
  }

  function InactivityGrade(s: Signals, rules: RuleSet): Grade {
    Graded(Exceeds(s.inactivityDays, Threshold(rules, LastActivityHighRiskDays)),
           Exceeds(s.inactivityDays, Threshold(rules, LastActivityModerateDays)))
  }

  function RecencyGrade(s: Signals): Grade {
    if s.accessChangedDays.Some? && s.accessChangedDays.value <= 7.0 then Low else NoRisk
  }

  /** The factors of Rule 6, with the AI signal's grade alongside; access recency never weighs more than LOW. */
  function GradesOf(s: Signals, rules: RuleSet, ai: Grade): Grades {
    Grades(HwsGrade(s, rules),
           Graded(false, FallsShort(s.effort, Threshold(rules, AvgEffRatingLowRisk))),
           InactivityGrade(s, rules),
           Graded(false, Exceeds(s.paymentBalance, Threshold(rules, PaymentBalanceRisk))),
           Graded(Reaches(s.priorEscalations, Threshold(rules, PriorEscalationRepeat)), false),
           TrendGrade(s.trend),
           ai)
  }

  function AiGrade(tier: Tier, r: Recommendation): Grade {
    if !r.Escalate? then NoRisk
    else match tier case Confident => High case Advisory => Medium case Stale => Low case _ => NoRisk
  }

  function Fired(g: Grade): seq<Grade> {
    if g.NoRisk? then [] else [g]
  }

  /** The contributions of the factors that fired, in scoring order. */
  function Contributions(g: Grades, recency: Grade): seq<Grade> {
    Fired(g.hws) + Fired(g.effort) + Fired(g.inactivity) + Fired(g.payment)
    + Fired(g.escalations) + Fired(g.trend) + Fired(recency) + Fired(g.ai)
  }

  method ScoreHws(s: Signals, rules: RuleSet) returns (added: seq<Grade>)
    ensures added == Fired(HwsGrade(s, rules))
  {
    added := [];
    if s.hwsBehind.Some? {
      var high, moderate := Threshold(rules, HwsBehindHighRisk), Threshold(rules, HwsBehindModerate);
      if high.Some? && s.hwsBehind.value >= high.value {
        added := added + [High];
      } else if moderate.Some? && s.hwsBehind.value >= moderate.value {
        added := added + [Medium];
      }
    }
  }

  method ScoreEffort(s: Signals, rules: RuleSet) returns (added: seq<Grade>)
    ensures added == Fired(Graded(false, FallsShort(s.effort, Threshold(rules, AvgEffRatingLowRisk))))
  {
    added := [];
    if s.effort.Some? {
      var low := Threshold(rules, AvgEffRatingLowRisk);
      if low.Some? && s.effort.value < low.value { added := added + [Medium]; }
    }
  }

  method ScoreInactivity(s: Signals, rules: RuleSet) returns (added: seq<Grade>)
    ensures added == Fired(InactivityGrade(s, rules))
  {
    added := [];
    if s.inactivityDays.Some? {
      var high, moderate := Threshold(rules, LastActivityHighRiskDays), Threshold(rules, LastActivityModerateDays);
      if high.Some? && s.inactivityDays.value > high.value {
        added := added + [High];
      } else if moderate.Some? && s.inactivityDays.value > moderate.value {
        added := added + [Medium];
      }
    }
  }

  method ScorePayment(s: Signals, rules: RuleSet) returns (added: seq<Grade>)
    ensures added == Fired(Graded(false, Exceeds(s.paymentBalance, Threshold(rules, PaymentBalanceRisk))))
  {
    added := [];
    if s.paymentBalance.Some? {
      var th := Threshold(rules, PaymentBalanceRisk);
      if th.Some? && s.paymentBalance.value > th.value { added := added + [Medium]; }
    }
  }

  method ScoreTrend(s: Signals) returns (added: seq<Grade>)
    ensures added == Fired(TrendGrade(s.trend))
  {
    added := [];
    if s.trend.CriticalTrend? {
      added := added + [High];
    } else if s.trend.Declining? {
      added := added + [Medium];
    }
  }

  method ScoreAi(tier: Tier, r: Recommendation) returns (added: seq<Grade>)
    ensures added == Fired(AiGrade(tier, r))
  {
    added := [];
    if tier.Confident? && r.Escalate? {
      added := added + [High];
    } else if tier.Advisory? && r.Escalate? {
      added := added + [Medium];
    } else if tier.Stale? && r.Escalate? {
      added := added + [Low];
    }
  }

  method ScoreEscalations(s: Signals, rules: RuleSet) returns (added: seq<Grade>)
    ensures added == Fired(Graded(Reaches(s.priorEscalations, Threshold(rules, PriorEscalationRepeat)), false))
  {
    added := [];
    if s.priorEscalations.Some? {
      var th := Threshold(rules, PriorEscalationRepeat);
      if th.Some? && s.priorEscalations.value >= th.value { added := added + [High]; }
    }
  }

  method ScoreAccessRecency(s: Signals) returns (added: seq<Grade>)
    ensures added == Fired(RecencyGrade(s))
  {
    added := [];
    if s.accessChangedDays.Some? && s.accessChangedDays.value <= 7.0 { added := added + [Low]; }
  }

  /** The list holds exactly the factors that fired, in scoring order. */
  method ScoreRiskFactors(s: Signals, rules: RuleSet, tier: Tier, r: Recommendation) returns (contributions: seq<Grade>)
    ensures contributions == Contributions(GradesOf(s, rules, AiGrade(tier, r)), RecencyGrade(s))
  {
    contributions := ScoreHws(s, rules);
    var added := ScoreEffort(s, rules);
    contributions := contributions + added;
    added := ScoreInactivity(s, rules);
    contributions := contributions + added;
    added := ScorePayment(s, rules);
    contributions := contributions + added;
    added := ScoreEscalations(s, rules);
    contributions := contributions + added;
    added := ScoreTrend(s);
    contributions := contributions + added;
    added := ScoreAccessRecency(s);
    contributions := contributions + added;
    added := ScoreAi(tier, r);
    contributions := contributions + added;
  }

  // ---- Aggregation and adjustment ----

  function Count(contributions: seq<Grade>, g: Grade): nat {
    if contributions == [] then 0 else Is(contributions[0], g) + Count(contributions[1..], g)
  }

  lemma {:induction false} CountConcat(a: seq<Grade>, b: seq<Grade>, g: Grade)
    ensures Count(a + b, g) == Count(a, g) + Count(b, g)
  {
    if a == [] {
      assert a + b == b;
    } else {
      CountConcat(a[1..], b, g);
      assert (a + b)[1..] == a[1..] + b;
    }
  }

  lemma CountFired(before: seq<Grade>, f: Grade, g: Grade)
    requires !g.NoRisk?
    ensures Count(before + Fired(f), g) == Count(before, g) + Is(f, g)
  {
    CountConcat(before, Fired(f), g);
    assert Count(Fired(f), g) == Is(f, g);
  }

  /** Counting the list is tallying the factors. */
  lemma CountContributions(g: Grades, recency: Grade, x: Grade)
    requires x == High || x == Medium
    requires recency == NoRisk || recency == Low
    ensures Count(Contributions(g, recency), x) == Tally(g, x)
  {
    var c1 := Fired(g.hws);
    assert c1 == [] + Fired(g.hws);
    CountFired([], g.hws, x);
    CountFired(c1, g.effort, x);
    var c2 := c1 + Fired(g.effort);
    CountFired(c2, g.inactivity, x);
    var c3 := c2 + Fired(g.inactivity);
    CountFired(c3, g.payment, x);
    var c4 := c3 + Fired(g.payment);
    CountFired(c4, g.escalations, x);
    var c5 := c4 + Fired(g.escalations);
    CountFired(c5, g.trend, x);
    var c6 := c5 + Fired(g.trend);
    CountFired(c6, recency, x);
    CountFired(c6 + Fired(recency), g.ai, x);
  }

  /** This engine's aggregation, on the contributions list, is the reference one. */
  function AggregatePriority(contributions: seq<Grade>): (p: Priority)
    ensures Level(p) == AggregateLevel(Count(contributions, High), Count(contributions, Medium))
  {
    var high, medium := Count(contributions, High), Count(contributions, Medium);
    if high >= 2 then Critical
    else if high >= 1 && medium >= 1 then HighPriority
    else if high >= 1 then MediumPriority
    else if medium >= 1 then MediumPriority
    else LowPriority
  }

  function Upgraded(p: Priority): Priority {
    match p
    case LowPriority => MediumPriority
    case MediumPriority => HighPriority
    case HighPriority => Critical
    case _ => p
  }

  function ApplyAiAdjustment(p: Priority, tier: Tier, r: Recommendation): (q: Priority)
    ensures p != Unknown ==> Level(p) <= Level(q) <= 3
    ensures p != Unknown && !(tier.Confident? && r.Escalate?) ==> Level(q) <= Level(p) + 1
    ensures !tier.Confident? && !tier.Advisory? ==> q == p
    ensures tier == Confident && r == Escalate ==> q == Critical
    ensures p != Unknown && tier == Confident && (r == Meeting || r == OutreachRecommended || r == ResourceDelivery) ==>
              Level(q) == if Level(p) < 3 then Level(p) + 1 else 3
    ensures p != Unknown && tier == Advisory && r == Escalate ==>
              Level(q) == if Level(p) < 3 then Level(p) + 1 else 3
    ensures tier == Confident && (r == IpbcFollowup || r == NoRecommendation) ==> q == p
    ensures tier == Advisory && r != Escalate ==> q == p
  {
    match tier
    case Confident => if r.Escalate? then Critical else if IsUpward(r) then Upgraded(p) else p
    case Advisory => if r.Escalate? then Upgraded(p) else p
    case _ => p
  }

  /** Base priority of Rule 7 and advisory priority of Rule 8. */
  function BasePriority(s: Signals, rules: RuleSet, tier: Tier, r: Recommendation): Priority {
    AggregatePriority(Contributions(GradesOf(s, rules, AiGrade(tier, r)), RecencyGrade(s)))
  }

  function AdvisoryPriority(s: Signals, rules: RuleSet, tier: Tier, r: Recommendation): Priority {
    ApplyAiAdjustment(BasePriority(s, rules, tier, r), tier, r)
  }

  /** The call as the key store sees it: original execution takes its key. */
  function LedgerCall(ctx: Context): Ledgers.Call {
    Ledgers.Call((ctx.mode == "SHADOW" || ctx.mode == "LIVE") &&
                 ctx.executionType in {"original", "replay", "regeneration", "recovery"} && ctx.identified,
                 ctx.executionType == "original", ctx.key)
  }

  predicate PassesGate(ctx: Context, keys: set<string>) { Ledgers.Admits(keys, LedgerCall(ctx)) }

  /** Blocked, maintenance, replay and deferred assessments are UNKNOWN; all others are scored. */
  predicate IsScored(ctx: Context) {
    && !ctx.maintenance && ctx.executionType != "replay" && ctx.executionType != "regeneration"
    && !(ClassifyAiTier(ctx.ai, LifetimeConfigured(ctx.rules)).InFlight? && ctx.executionType == "original")
  }

  function Assessed(ctx: Context, keys: set<string>): Priority {
    if PassesGate(ctx, keys) && IsScored(ctx)
    then AdvisoryPriority(ctx.signals, ctx.rules, ClassifyAiTier(ctx.ai, LifetimeConfigured(ctx.rules)),
                          ctx.ai.recommendation)
    else Unknown
  }

  /** The service with its in-memory key store. */
  class Service {
    var keys: set<string>

    constructor ()
      ensures keys == {}
    {
      keys := {};
    }

    method AssessOrchestrationPriority(ctx: Context) returns (accepted: bool, p: Priority)
      modifies this`keys
      ensures accepted <==> PassesGate(ctx, old(keys))
      ensures p == Assessed(ctx, old(keys))
      ensures keys == Ledgers.After(old(keys), LedgerCall(ctx))
    {
      var ok := true;
      if ctx.mode !in VALID_MODES { ok := false; }
      if ctx.executionType !in VALID_TYPES { ok := false; }
      if !ctx.identified { ok := false; }
      if ctx.key.Some? && ctx.key.value != "" && ctx.key.value in keys { ok := false; }
      if !ok { return false, Unknown; }
      if ctx.key.Some? && ctx.key.value != "" && ctx.executionType == "original" { keys := keys + {ctx.key.value}; }
      accepted := true;
      if ctx.maintenance { return true, Unknown; }
      if ctx.executionType in REPLAY_TYPES { return true, Unknown; }
      var tier, r := ClassifyAiTier(ctx.ai, LifetimeConfigured(ctx.rules)), ctx.ai.recommendation;
      if tier.InFlight? && ctx.executionType == "original" { return true, Unknown; }
      var contributions := ScoreRiskFactors(ctx.signals, ctx.rules, tier, r);
      var base := AggregatePriority(contributions);
      p := ApplyAiAdjustment(base, tier, r);
    }
  }

  // ---- Whole-pipeline properties ----

  lemma BaseLevel(s: Signals, rules: RuleSet, tier: Tier, r: Recommendation)
    ensures Level(BasePriority(s, rules, tier, r)) == LevelOf(GradesOf(s, rules, AiGrade(tier, r)))
  {
    CountContributions(GradesOf(s, rules, AiGrade(tier, r)), RecencyGrade(s), High);
    CountContributions(GradesOf(s, rules, AiGrade(tier, r)), RecencyGrade(s), Medium);
  }

  lemma SignalsWorsenGrades(a: Signals, b: Signals, rules: RuleSet, ai: Grade)
    requires AtLeastAsBad(a, b)
    ensures NoBetter(GradesOf(a, rules, ai), GradesOf(b, rules, ai))
  {}

  lemma AdjustmentIsMonotone(p: Priority, q: Priority, tier: Tier, r: Recommendation)
    requires NotLowered(p, q)
    ensures NotLowered(ApplyAiAdjustment(p, tier, r), ApplyAiAdjustment(q, tier, r))
  {}

  /** Worse signals never lower the assessment, whatever the thresholds, the AI input and the rest of the context. */
  lemma WorseSignalsNeverLower(ctx: Context, worse: Signals, keys: set<string>)
    requires AtLeastAsBad(ctx.signals, worse)
    ensures NotLowered(Assessed(ctx, keys), Assessed(ctx.(signals := worse), keys))
  {
    var tier, r := ClassifyAiTier(ctx.ai, LifetimeConfigured(ctx.rules)), ctx.ai.recommendation;
    hide LevelOf;
    var ai := AiGrade(tier, r);
    SignalsWorsenGrades(ctx.signals, worse, ctx.rules, ai);
    AggregationIsMonotone(GradesOf(ctx.signals, ctx.rules, ai), GradesOf(worse, ctx.rules, ai));
    BaseLevel(ctx.signals, ctx.rules, tier, r);
    BaseLevel(worse, ctx.rules, tier, r);
    AdjustmentIsMonotone(BasePriority(ctx.signals, ctx.rules, tier, r),
                         BasePriority(worse, ctx.rules, tier, r), tier, r);
  }

  /** The level the signals alone give. */
  function AiFreeLevel(s: Signals, rules: RuleSet): nat {
    LevelOf(GradesOf(s, rules, NoRisk))
  }

  lemma AiGradeTally(g: Grades, ai: Grade)
    requires g.ai == NoRisk
    ensures Tally(g.(ai := ai), High) == Tally(g, High) + Is(ai, High)
    ensures Tally(g.(ai := ai), Medium) == Tally(g, Medium) + Is(ai, Medium)
  {}

  /** The scored AI factor alone: no effect when LOW, at most one level when MEDIUM. */
  lemma AiGradeLifts(g: Grades, ai: Grade)
    requires g.ai == NoRisk
    ensures LevelOf(g) <= LevelOf(g.(ai := ai)) <= 3
    ensures ai.NoRisk? || ai.Low? ==> LevelOf(g.(ai := ai)) == LevelOf(g)
    ensures ai.Medium? ==> LevelOf(g.(ai := ai)) <= LevelOf(g) + 1
  {
    hide Tally;
    AiGradeTally(g, ai);
  }

  /**
   * End to end, counting both the scored AI factor and the adjustment: AI never lowers the priority, only CONFIDENT and
   * ADVISORY tiers change it, ADVISORY raises it by at most two levels and CONFIDENT without ESCALATE by at most one,
   * and a CONFIDENT ESCALATE always gives CRITICAL.
   */
  lemma AiInfluenceIsBounded(s: Signals, rules: RuleSet, tier: Tier, r: Recommendation)
    ensures var free, advised := AiFreeLevel(s, rules), Level(AdvisoryPriority(s, rules, tier, r));
            && free <= advised
            && (!tier.Confident? && !tier.Advisory? ==> advised == free)
            && (!r.Escalate? && !IsUpward(r) ==> advised == free)
            && (tier.Advisory? ==> advised <= free + 2)
            && (tier.Confident? && !r.Escalate? ==> advised <= free + 1)
            && (tier.Confident? && r.Escalate? ==> AdvisoryPriority(s, rules, tier, r) == Critical)
  {
    BaseLevel(s, rules, tier, r);
    AiGradeLifts(GradesOf(s, rules, NoRisk), AiGrade(tier, r));
  }

  /** What the AI's upward recommendations come to, over the level of the signals alone. */
  lemma UpwardAdviceRaisesOne(s: Signals, rules: RuleSet, tier: Tier, r: Recommendation)
    ensures var free, scored := AiFreeLevel(s, rules), Level(BasePriority(s, rules, tier, r));
            var advised := Level(AdvisoryPriority(s, rules, tier, r));
            && (tier == Confident && r in {Meeting, OutreachRecommended, ResourceDelivery} ==>
                  advised == if free < 3 then free + 1 else 3)
            && (tier == Advisory && r == Escalate ==> advised == if scored < 3 then scored + 1 else 3)
            && (tier == Confident && r !in {Escalate, Meeting, OutreachRecommended, ResourceDelivery} ==>
                advised == free)
  {
    BaseLevel(s, rules, tier, r);
    AiGradeLifts(GradesOf(s, rules, NoRisk), AiGrade(tier, r));
  }

  /** Two levels are reached: an ADVISORY ESCALATE takes a student without any risk factor from LOW to HIGH. */
  lemma AdvisoryRaisesTwoLevels(s: Signals, rules: RuleSet)
    requires AiFreeLevel(s, rules) == 0
    ensures AdvisoryPriority(s, rules, Advisory, Escalate) == HighPriority
  {
    hide Tally;
    BaseLevel(s, rules, Advisory, Escalate);
    AiGradeTally(GradesOf(s, rules, NoRisk), Medium);
  }
}
