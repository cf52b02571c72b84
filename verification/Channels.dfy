/**
 * The channel advisory pipeline: in-place gates over the channel list, then two ways to move a channel to the front.
 */
module Channels {
  import opened Lists
  import opened Wrappers
  import Risk

  datatype Channel = Call | Sms | Email

  const ALL_CHANNELS: seq<Channel> := [Call, Sms, Email]

  /**
   * Configured values; a missing key and the UNKNOWN_V0 sentinel are both None, as is a preferred channel that names
   * none.
   */
  datatype Thresholds = Thresholds(
    preferred: Option<Channel>,
    failureSuspension: Option<real>,
    callEngagement: Option<real>, smsEngagement: Option<real>, emailEngagement: Option<real>,
    aiTtlHours: Option<real>)

  datatype Age = NoTimestamp | Unparsable | Hours(hours: real)

  datatype AiInput = AiInput(
    finalizedCopy: bool, state: string, staleFlag: bool, age: Age, score: Option<real>, preference: Option<Channel>)

  /** The inputs the rules read; for identifiers only whether they are present. */
  datatype Context = Context(
    hasConfigVersion: bool, configActive: bool, mode: string, executionType: string,
    hasCorrelationId: bool, attributionComplete: bool, complianceHold: bool,
    hasReplayContext: bool, hasSourceArtifact: bool, hasFingerprint: bool,
    closed: bool, hasPhone: bool, hasEmail: bool,
    optOut: set<Channel>, health: map<Channel, string>, suspended: set<Channel>,
    failures: map<Channel, int>, exhaustion: string, engagement: Option<real>,
    ai: AiInput, thresholds: Thresholds)

  datatype Scope = Nothing | Preferred(channel: Channel) | MultiChannel | Exhausted | ReplayCandidate

  datatype GovernanceScope = ShadowOnly | ReplayOnly | Authorized

  datatype Urgency = Medium | High | Critical

  datatype Assessment = Assessment(
    produced: bool, blocked: bool, scope: Scope,
    candidates: seq<Channel>, prohibited: seq<Channel>,
    optOutExclusions: seq<Channel>, suspendedChannels: seq<Channel>,
    escalation: Option<Urgency>,
    liveDelivery: bool, governance: GovernanceScope)

  // ---- What the gates decide, channel by channel ----

  predicate IsReplay(ctx: Context) { ctx.executionType == "replay" || ctx.executionType == "regeneration" }

  predicate Preconditions(ctx: Context) {
    && ctx.hasConfigVersion
    && (ctx.executionType == "original" ==> ctx.configActive)
    && (ctx.mode == "SHADOW" || ctx.mode == "LIVE")
    && ctx.hasCorrelationId
    && ctx.attributionComplete
    && (ctx.executionType == "original" || IsReplay(ctx))
    && (IsReplay(ctx) ==> ctx.hasReplayContext)
  }

  /** The run gets past Rule 2. */
  predicate Proceeds(ctx: Context) { Preconditions(ctx) && !ctx.closed && !ctx.complianceHold }

  predicate Unreachable(ctx: Context, ch: Channel) {
    match ch
    case Email => !ctx.hasEmail
    case _ => !ctx.hasPhone
  }

  predicate HealthIs(ctx: Context, ch: Channel, state: string) { ch in ctx.health && ctx.health[ch] == state }

  predicate OutOfService(ctx: Context, ch: Channel) { HealthIs(ctx, ch, "UNAVAILABLE") || ch in ctx.suspended }

  function Closed(ctx: Context): set<Channel> {
    set ch: Channel | OutOfService(ctx, ch)
  }

  function FailureCount(ctx: Context, ch: Channel): int { if ch in ctx.failures then ctx.failures[ch] else 0 }

  predicate FailsTooOften(ctx: Context, ch: Channel) {
    ctx.thresholds.failureSuspension.Some? && FailureCount(ctx, ch) as real >= ctx.thresholds.failureSuspension.value
  }

  function Failing(ctx: Context): set<Channel> {
    set ch: Channel | FailsTooOften(ctx, ch)
  }

  /** Open to Rule 9: contact data, no opt-out, provider available, not suspended. */
  function Reachable(ctx: Context): set<Channel> {
    set ch: Channel | !Unreachable(ctx, ch) && ch !in ctx.optOut && !OutOfService(ctx, ch)
  }

  /** The one filter that all the gates together amount to. */
  function Available(ctx: Context): set<Channel> {
    set ch | ch in Reachable(ctx) && !FailsTooOften(ctx, ch)
  }

  function Degraded(ctx: Context): set<Channel> {
    set ch: Channel | HealthIs(ctx, ch, "DEGRADED")
  }

  predicate ReplayBlocked(ctx: Context) {
    IsReplay(ctx) && (ctx.mode == "LIVE" || !ctx.hasSourceArtifact || !ctx.hasFingerprint)
  }

  // ---- Preference ----

  /** The insight may be used: reviewed, not a finalized copy, flag clear, and no older than the configured lifetime. */
  predicate Usable(ai: AiInput, ttl: Option<real>) {
    && !ai.finalizedCopy && ai.state == "AI_REVIEWED" && !ai.staleFlag
    && ttl.Some? && !ai.age.Unparsable? && (ai.age.Hours? ==> ai.age.hours <= ttl.value)
  }

  function AiTier(ai: AiInput, ttl: Option<real>): (tier: Risk.Tier)
    ensures tier.Confident? <==> Usable(ai, ttl) && ai.score.Some? && ai.score.value >= 0.70
    ensures tier.Advisory? <==> Usable(ai, ttl) && !(ai.score.Some? && ai.score.value >= 0.70)
    ensures tier.FinalizedCopy? <==> ai.finalizedCopy
    ensures tier.InFlight? <==>
            !ai.finalizedCopy && ttl.Some? && (ai.state == "AI_GENERATING" || ai.state == "AI_PENDING")
    ensures tier.Stale? <==> !ai.finalizedCopy && ttl.Some? && ai.state == "AI_REVIEWED" && !Usable(ai, ttl)
  {
    if ai.finalizedCopy then Risk.FinalizedCopy
    else if ttl.None? then Risk.Unavailable
    else if ai.state == "AI_GENERATING" || ai.state == "AI_PENDING" then Risk.InFlight
    else if ai.state == "AI_REVIEWED" then
      if ai.staleFlag || ai.age.Unparsable? || (ai.age.Hours? && ai.age.hours > ttl.value) then Risk.Stale
      else Risk.Scored(ai.score)
    else Risk.Unavailable
  }

  predicate Reached(score: Option<real>, threshold: Option<real>) {
    score.Some? && threshold.Some? && score.value >= threshold.value
  }

  /** The channel the engagement score speaks for. */
  function EngagementPick(open: set<Channel>, score: Option<real>, th: Thresholds): Option<Channel> {
    if Reached(score, th.callEngagement) && Call in open then Some(Call)
    else if Reached(score, th.smsEngagement) && Sms in open then Some(Sms)
    else if Reached(score, th.emailEngagement) && Email in open then Some(Email)
    else None
  }

  function RulePick(open: set<Channel>, score: Option<real>, th: Thresholds): Option<Channel> {
    var signal := EngagementPick(open, score, th);
    if signal.Some? then signal
    else if th.preferred.Some? && th.preferred.value in open then th.preferred
    else None
  }

  /** AI moves a channel only outside replay, and in the ADVISORY tier only when the engagement score is silent. */
  function AiPick(ctx: Context): Option<Channel> {
    var tier := AiTier(ctx.ai, ctx.thresholds.aiTtlHours);
    var silent := EngagementPick(Available(ctx), ctx.engagement, ctx.thresholds).None?;
    if !IsReplay(ctx) && ctx.ai.preference.Some? && ctx.ai.preference.value in Available(ctx)
       && (tier.Confident? || (tier.Advisory? && silent))
    then ctx.ai.preference
    else None
  }

  /** The engagement score reaches the threshold of no available channel. */
  predicate Silent(ctx: Context) {
    var s, th := ctx.engagement, ctx.thresholds;
    && !(s.Some? && th.callEngagement.Some? && s.value >= th.callEngagement.value && Call in Available(ctx))
    && !(s.Some? && th.smsEngagement.Some? && s.value >= th.smsEngagement.value && Sms in Available(ctx))
    && !(s.Some? && th.emailEngagement.Some? && s.value >= th.emailEngagement.value && Email in Available(ctx))
  }

  /**
   * The AI may put its channel first: an original run, an available channel, a reviewed insight that is no finalized
   * copy, with a clear flag, a configured lifetime, and an age, if it has a timestamp, that parses and is within it;
   * and a score of at least 0.70, or an engagement score that speaks for no channel.
   */
  predicate AiLeads(ctx: Context) {
    && ctx.executionType == "original"
    && ctx.ai.preference.Some? && ctx.ai.preference.value in Available(ctx)
    && !ctx.ai.finalizedCopy && ctx.ai.state == "AI_REVIEWED" && !ctx.ai.staleFlag
    && ctx.thresholds.aiTtlHours.Some?
    && (ctx.ai.age.NoTimestamp? || (ctx.ai.age.Hours? && ctx.ai.age.hours <= ctx.thresholds.aiTtlHours.value))
    && ((ctx.ai.score.Some? && ctx.ai.score.value >= 0.70) || Silent(ctx))
  }

  lemma AiPickIff(ctx: Context)
    requires Preconditions(ctx)
    ensures AiPick(ctx).Some? <==> AiLeads(ctx)
    ensures AiPick(ctx).Some? ==> AiPick(ctx) == ctx.ai.preference
  {
    hide Available;
  }

  function Fronted(s: seq<Channel>, pick: Option<Channel>): seq<Channel>
    requires pick.Some? ==> pick.value in s
  {
    if pick.Some? then ToFront(s, pick.value) else s
  }

  lemma EveryChannel()
    ensures Distinct(ALL_CHANNELS) && forall ch: Channel :: ch in Elements(ALL_CHANNELS)
  {
    forall ch: Channel ensures ch in ALL_CHANNELS {
      assert ALL_CHANNELS[0] == Call && ALL_CHANNELS[1] == Sms && ALL_CHANNELS[2] == Email;
      match ch { case Call => case Sms => case Email => }
    }
  }

  /** Healthy before degraded, each in the configured channel order. */
  function HealthOrder(ctx: Context): (r: seq<Channel>)
    ensures Distinct(r) && Elements(r) == Available(ctx)
  {
    var open, degraded := Available(ctx), Degraded(ctx);
    EveryChannel();
    AmongMembers(ALL_CHANNELS, open - degraded);
    AmongMembers(ALL_CHANNELS, open * degraded);
    var healthy, rest := Among(ALL_CHANNELS, open - degraded), Among(ALL_CHANNELS, open * degraded);
    ConcatElements(healthy, rest);
    healthy + rest
  }

  lemma FrontedPermutes(s: seq<Channel>, pick: Option<Channel>)
    requires Distinct(s) && (pick.Some? ==> pick.value in Elements(s))
    ensures pick.Some? ==> pick.value in s
    ensures Distinct(Fronted(s, pick)) && Elements(Fronted(s, pick)) == Elements(s)
  {
    if pick.Some? {
      ToFrontPermutes(s, pick.value);
    }
  }

  /** The health order with the channel of the rules in front. */
  function ByRule(ctx: Context): (r: seq<Channel>)
    ensures Distinct(r) && Elements(r) == Available(ctx)
  {
    FrontedPermutes(HealthOrder(ctx), RulePick(Available(ctx), ctx.engagement, ctx.thresholds));
    Fronted(HealthOrder(ctx), RulePick(Available(ctx), ctx.engagement, ctx.thresholds))
  }

  /** The advice: the health order with at most two channels moved to the front. */
  function Ranked(ctx: Context): (r: seq<Channel>)
    ensures Distinct(r) && Elements(r) == Available(ctx)
  {
    FrontedPermutes(ByRule(ctx), AiPick(ctx));
    Fronted(ByRule(ctx), AiPick(ctx))
  }

  // ---- The pipeline ----

  function Contactable(ctx: Context): set<Channel> {
    set ch: Channel | !Unreachable(ctx, ch)
  }

  /** The barred list is the duplicate-free complement of the open channels. */
  predicate Complements(barred: seq<Channel>, open: set<Channel>) {
    Distinct(barred) && Elements(barred) == Elements(ALL_CHANNELS) - open
  }

  /** The list Rule 7 leaves. */
  function DegradedLast(ctx: Context): seq<Channel> {
    Among(ALL_CHANNELS, Reachable(ctx) - Degraded(ctx)) + Among(ALL_CHANNELS, Reachable(ctx) * Degraded(ctx))
  }

  /** A list of the pipeline and its barred list: duplicate-free, and complementary. */
  predicate Parts(list: seq<Channel>, open: set<Channel>, barred: seq<Channel>) {
    Distinct(list) && Elements(list) == open && Complements(barred, open)
  }

  function ContactBarred(ctx: Context): seq<Channel> {
    (if ctx.hasPhone then [] else [Call, Sms]) + (if ctx.hasEmail then [] else [Email])
  }

  lemma ContactGate(ctx: Context, barred: seq<Channel>)
    requires barred == (if ctx.hasPhone then [] else [Call, Sms]) + (if ctx.hasEmail then [] else [Email])
    ensures barred == ContactBarred(ctx)
    ensures (set ch | ch in ALL_CHANNELS && ch !in barred) == Contactable(ctx)
    ensures Parts(Among(ALL_CHANNELS, Contactable(ctx)), Contactable(ctx), barred)
  {
    EveryChannel();
    AmongMembers(ALL_CHANNELS, Contactable(ctx));
    forall ch: Channel ensures ch in barred <==> Unreachable(ctx, ch) {
      assert ch in barred <==> ch in Elements(barred);
    }
    assert forall ch: Channel :: ch in ALL_CHANNELS <==> ch in Elements(ALL_CHANNELS);
  }

  /** A stage leaves nothing exactly when its open channels are none; all channels are barred then. */
  lemma EmptyParts(list: seq<Channel>, open: set<Channel>, barred: seq<Channel>)
    requires Parts(list, open, barred)
    ensures list == [] <==> open == {}
    ensures list == [] ==> Complements(barred, {})
  {
    NoElements(list);
  }

  lemma NothingLeft(a: set<Channel>, b: set<Channel>)
    ensures a - b == {} <==> a <= b
  {
    if a - b == {} {
      forall x | x in a ensures x in b {
        assert x !in a - b;
      }
    }
  }

  lemma BarredStep(barred: seq<Channel>, list: seq<Channel>, closed: set<Channel>)
    requires Distinct(list) && Complements(barred, Elements(list))
    ensures Complements(barred + Among(list, closed), Elements(list) - closed)
    ensures Distinct(Among(list, Elements(list) - closed))
    ensures Elements(Among(list, Elements(list) - closed)) == Elements(list) - closed
  {
    EveryChannel();
    AmongMembers(list, closed);
    AmongMembers(list, Elements(list) - closed);
    ConcatElements(barred, Among(list, closed));
  }

  lemma ProviderStep(ctx: Context, list: seq<Channel>, barred: seq<Channel>)
    requires list == Among(ALL_CHANNELS, Contactable(ctx) - ctx.optOut)
    requires Distinct(list) && Complements(barred, Elements(list))
    ensures var closed := Closed(ctx);
            var open, degraded := Among(list, Elements(list) - closed), Among(list, Degraded(ctx) - closed);
            && Complements(barred + Among(list, closed), Reachable(ctx))
            && open == Among(ALL_CHANNELS, Reachable(ctx)) && Distinct(open) && Elements(open) == Reachable(ctx)
            && degraded == Among(ALL_CHANNELS, Reachable(ctx) * Degraded(ctx))
            && Distinct(degraded) && Elements(degraded) == Reachable(ctx) * Degraded(ctx)
            && Among(open, Elements(open) - Elements(degraded)) == Among(ALL_CHANNELS, Reachable(ctx) - Degraded(ctx))
            && Distinct(DegradedLast(ctx)) && Elements(DegradedLast(ctx)) == Reachable(ctx)
  {
    var closed := Closed(ctx);
    var before, degraded := Contactable(ctx) - ctx.optOut, Reachable(ctx) * Degraded(ctx);
    EveryChannel();
    AmongMembers(ALL_CHANNELS, before);
    assert Elements(list) == before && before - closed == Reachable(ctx);
    BarredStep(barred, list, closed);
    GateOfAmong(ALL_CHANNELS, before, closed);
    GateOfAmong(ALL_CHANNELS, before, Degraded(ctx) - closed);
    assert before * (Degraded(ctx) - closed) == degraded;
    AmongMembers(ALL_CHANNELS, degraded);
    AmongMembers(ALL_CHANNELS, Reachable(ctx) - Degraded(ctx));
    GateOfAmong(ALL_CHANNELS, Reachable(ctx), degraded);
    assert Reachable(ctx) - degraded == Reachable(ctx) - Degraded(ctx);
    ConcatElements(Among(ALL_CHANNELS, Reachable(ctx) - Degraded(ctx)), Among(ALL_CHANNELS, degraded));
  }

  /** Both halves of the list lose the channels that fail too often. */
  lemma HalvesKept(ctx: Context, tooMany: set<Channel>)
    requires tooMany == set ch: Channel | FailsTooOften(ctx, ch)
    ensures var healthy, rest := Reachable(ctx) - Degraded(ctx), Reachable(ctx) * Degraded(ctx);
            var kept := Elements(DegradedLast(ctx)) - tooMany;
            healthy * kept == Available(ctx) - Degraded(ctx) && rest * kept == Available(ctx) * Degraded(ctx)
  {
    hide Among;
    var healthy, rest := Reachable(ctx) - Degraded(ctx), Reachable(ctx) * Degraded(ctx);
    EveryChannel();
    AmongMembers(ALL_CHANNELS, healthy);
    AmongMembers(ALL_CHANNELS, rest);
    ConcatElements(Among(ALL_CHANNELS, healthy), Among(ALL_CHANNELS, rest));
    assert Elements(DegradedLast(ctx)) == Reachable(ctx);
  }

  lemma FailureStep(ctx: Context, tooMany: set<Channel>)
    requires tooMany == set ch: Channel | FailsTooOften(ctx, ch)
    ensures Among(DegradedLast(ctx), Elements(DegradedLast(ctx)) - tooMany) == HealthOrder(ctx)
  {
    hide Among, Elements, Available, Reachable, Degraded;
    var healthy, rest := Reachable(ctx) - Degraded(ctx), Reachable(ctx) * Degraded(ctx);
    var kept := Elements(DegradedLast(ctx)) - tooMany;
    HalvesKept(ctx, tooMany);
    AmongConcat(Among(ALL_CHANNELS, healthy), Among(ALL_CHANNELS, rest), kept);
    AmongAmong(ALL_CHANNELS, healthy, kept);
    AmongAmong(ALL_CHANNELS, rest, kept);
  }

  /** The provider loop after i channels: those taken out, those marked degraded, and what the list still holds. */
  predicate Gated(ctx: Context, list: seq<Channel>, i: nat,
                  open: seq<Channel>, hits: seq<Channel>, degraded: seq<Channel>)
    requires i <= |list|
  {
    && open == Among(list[..i], Elements(list) - Closed(ctx)) + list[i..]
    && hits == Among(list[..i], Closed(ctx))
    && degraded == Among(list[..i], Degraded(ctx) - Closed(ctx))
  }

  lemma GateBegins(ctx: Context, list: seq<Channel>)
    ensures Gated(ctx, list, 0, list, [], [])
  {}

  lemma GateEnds(ctx: Context, list: seq<Channel>, open: seq<Channel>, hits: seq<Channel>, degraded: seq<Channel>)
    requires Gated(ctx, list, |list|, open, hits, degraded)
    ensures open == Among(list, Elements(list) - Closed(ctx)) && hits == Among(list, Closed(ctx))
    ensures degraded == Among(list, Degraded(ctx) - Closed(ctx))
  {
    hide Among, Elements, Closed, Degraded;
    assert list[..|list|] == list && list[|list|..] == [];
  }

  lemma ProviderGateStep(ctx: Context, list: seq<Channel>, i: nat,
                         open: seq<Channel>, hits: seq<Channel>, degraded: seq<Channel>)
    requires Distinct(list) && i < |list| && Gated(ctx, list, i, open, hits, degraded)
    ensures list[i] in open
    ensures OutOfService(ctx, list[i]) <==> HealthIs(ctx, list[i], "UNAVAILABLE") || list[i] in ctx.suspended
    ensures OutOfService(ctx, list[i]) ==> Gated(ctx, list, i + 1, Without(open, list[i]), hits + [list[i]], degraded)
    ensures !OutOfService(ctx, list[i]) ==>
              Gated(ctx, list, i + 1, open, hits,
                    if HealthIs(ctx, list[i], "DEGRADED") then degraded + [list[i]] else degraded)
  {
    hide Among, Without, Elements, Distinct, HealthIs;
    assert list[i] in Closed(ctx) <==> OutOfService(ctx, list[i]);
    assert list[i] in Degraded(ctx) <==> HealthIs(ctx, list[i], "DEGRADED");
    assert OutOfService(ctx, list[i]) <==> HealthIs(ctx, list[i], "UNAVAILABLE") || list[i] in ctx.suspended;
    hide Closed, Degraded, OutOfService;
    GateStep(list, i, Closed(ctx), open);
    AmongSnoc(list[..i], list[i], Degraded(ctx) - Closed(ctx));
    assert list[..i + 1] == list[..i] + [list[i]];
  }

  method ProviderGate(ctx: Context, list: seq<Channel>, barred: seq<Channel>)
    returns (open: seq<Channel>, out: seq<Channel>, hits: seq<Channel>, degraded: seq<Channel>)
    requires Distinct(list)
    ensures var closed := Closed(ctx);
            && open == Among(list, Elements(list) - closed) && hits == Among(list, closed) && out == barred + hits
            && degraded == Among(list, Degraded(ctx) - closed)
  {
    hide Gated, HealthIs, OutOfService;
    open, out, hits, degraded := list, barred, [], [];
    GateBegins(ctx, list);
    for i := 0 to |list|
      invariant Gated(ctx, list, i, open, hits, degraded) && out == barred + hits
    {
      var ch := list[i];
      ProviderGateStep(ctx, list, i, open, hits, degraded);
      if HealthIs(ctx, ch, "UNAVAILABLE") {
        open, out, hits := Without(open, ch), out + [ch], hits + [ch];
      } else if ch in ctx.suspended {
        open, out, hits := Without(open, ch), out + [ch], hits + [ch];
      } else if HealthIs(ctx, ch, "DEGRADED") {
        degraded := degraded + [ch];
      }
    }
    GateEnds(ctx, list, open, hits, degraded);
  }

  method PrioritizeChannels(eligible: seq<Channel>, score: Option<real>, th: Thresholds)
    returns (ordered: seq<Channel>, hasPreference: bool)
    ensures var pick := RulePick(Elements(eligible), score, th);
            (pick.Some? ==> pick.value in eligible) && ordered == Fronted(eligible, pick)
    ensures hasPreference <==> EngagementPick(Elements(eligible), score, th).Some?
  {
    ordered, hasPreference := eligible, false;
    if score.Some? {
      if th.callEngagement.Some? && score.value >= th.callEngagement.value && Call in ordered {
        ordered, hasPreference := ToFront(ordered, Call), true;
      } else if th.smsEngagement.Some? && score.value >= th.smsEngagement.value && Sms in ordered {
        ordered, hasPreference := ToFront(ordered, Sms), true;
      } else if th.emailEngagement.Some? && score.value >= th.emailEngagement.value && Email in ordered {
        ordered, hasPreference := ToFront(ordered, Email), true;
      }
    }
    if !hasPreference && th.preferred.Some? && th.preferred.value in ordered {
      ordered := ToFront(ordered, th.preferred.value);
    }
  }

  /** Rule 0: one code for each precondition that fails. */
  method GovernanceGate(ctx: Context) returns (codes: seq<string>)
    ensures codes == [] <==> Preconditions(ctx)
  {
    codes := [];
    var isReplay := ctx.executionType == "replay" || ctx.executionType == "regeneration";
    if !ctx.hasConfigVersion { codes := codes + ["CONFIG_UNRESOLVED"]; }
    if !ctx.configActive && ctx.executionType == "original" { codes := codes + ["CONFIG_VERSION_NOT_ACTIVE"]; }
    if ctx.mode != "SHADOW" && ctx.mode != "LIVE" { codes := codes + ["EXECUTION_MODE_INVALID"]; }
    if !ctx.hasCorrelationId { codes := codes + ["CORRELATION_ID_MISSING"]; }
    if !ctx.attributionComplete { codes := codes + ["ATTRIBUTION_INCOMPLETE"]; }
    if ctx.executionType != "original" && !isReplay { codes := codes + ["EXECUTION_TYPE_INVALID"]; }
    if isReplay && !ctx.hasReplayContext { codes := codes + ["REPLAY_CONTEXT_MISSING"]; }
  }

  /** The last step of every rule: live delivery and governance scope follow from what the rule hands over. */
  function Emit(ctx: Context, a: Assessment): Assessment {
    var live := a.produced && (a.scope.Preferred? || a.scope.MultiChannel?) && ctx.mode == "LIVE" &&
      !IsReplay(ctx) && !a.blocked;
    a.(liveDelivery := live,
       governance := if IsReplay(ctx) then ReplayOnly
                     else if ctx.mode == "SHADOW" then ShadowOnly
                     else if live then Authorized
                     else ShadowOnly)
  }

  const BLANK := Assessment(false, false, Nothing, [], [], [], [], None, false, ShadowOnly)

  /** Rule 6. */
  method OptOutStage(ctx: Context, list: seq<Channel>, barred: seq<Channel>)
    returns (open: seq<Channel>, out: seq<Channel>, hits: seq<Channel>)
    requires list == Among(ALL_CHANNELS, Contactable(ctx)) && Parts(list, Contactable(ctx), barred)
    ensures open == Among(ALL_CHANNELS, Contactable(ctx) - ctx.optOut) && out == barred + hits
    ensures hits == Among(ALL_CHANNELS, Contactable(ctx) * ctx.optOut)
    ensures Parts(open, Contactable(ctx) - ctx.optOut, out)
  {
    BarredStep(barred, list, ctx.optOut);
    open, out, hits := Gate(list, barred, ctx.optOut);
    GateOfAmong(ALL_CHANNELS, Contactable(ctx), ctx.optOut);
  }

  /** Rule 7. */
  method ProviderStage(ctx: Context, list: seq<Channel>, barred: seq<Channel>)
    returns (open: seq<Channel>, out: seq<Channel>, hits: seq<Channel>)
    requires list == Among(ALL_CHANNELS, Contactable(ctx) - ctx.optOut) &&
             Parts(list, Contactable(ctx) - ctx.optOut, barred)
    ensures open == DegradedLast(ctx) && out == barred + hits
    ensures hits == Among(ALL_CHANNELS, (Contactable(ctx) - ctx.optOut) * Closed(ctx))
    ensures Parts(open, Reachable(ctx), out)
  {
    ProviderStep(ctx, list, barred);
    GateOfAmong(ALL_CHANNELS, Contactable(ctx) - ctx.optOut, Closed(ctx));
    var degraded;
    open, out, hits, degraded := ProviderGate(ctx, list, barred);
    open := Demote(open, degraded);
  }

  /** Rule 10. */
  method FailureStage(ctx: Context, list: seq<Channel>, barred: seq<Channel>)
    returns (open: seq<Channel>, out: seq<Channel>, hits: seq<Channel>)
    requires list == DegradedLast(ctx) && Parts(list, Reachable(ctx), barred)
    ensures open == HealthOrder(ctx) && out == barred + hits
    ensures hits == Among(DegradedLast(ctx), Failing(ctx))
    ensures Complements(out, Available(ctx))
  {
    var limit := ctx.thresholds.failureSuspension;
    var tooMany := set ch: Channel |
      limit.Some? && (if ch in ctx.failures then ctx.failures[ch] else 0) as real >= limit.value;
    assert tooMany == Failing(ctx);
    BarredStep(barred, list, tooMany);
    FailureStep(ctx, tooMany);
    open, out, hits := Gate(list, barred, tooMany);
  }

  predicate NotLive(r: Assessment) {
    r.candidates == [] && !r.liveDelivery && r.governance != Authorized
  }

  lemma ReachableIsContactable(ctx: Context)
    ensures Reachable(ctx) <= Contactable(ctx) - ctx.optOut
  {}

  lemma AvailableIsReachable(ctx: Context)
    ensures Available(ctx) <= Reachable(ctx)
  {}

  /** How urgently a run past Rule 2 escalates when it has no channel to offer. */
  function Urgent(ctx: Context): Option<Urgency> {
    if Contactable(ctx) == {} then None
    else if Contactable(ctx) <= ctx.optOut then Some(Medium)
    else Some(High)
  }

  /** The channels Rule 7 takes out, and then, unless Rule 9 blocks, those Rule 10 does. */
  function Suspended(ctx: Context, blocked: bool): seq<Channel> {
    Among(ALL_CHANNELS, (Contactable(ctx) - ctx.optOut) * Closed(ctx))
    + if blocked then [] else Among(DegradedLast(ctx), Failing(ctx))
  }

  lemma NothingReachable(ctx: Context)
    requires Reachable(ctx) == {}
    ensures DegradedLast(ctx) == [] && Among(DegradedLast(ctx), Failing(ctx)) == []
  {
    NoneAmong(ALL_CHANNELS);
    assert Reachable(ctx) - Degraded(ctx) == {} && Reachable(ctx) * Degraded(ctx) == {};
  }

  /** The scope of a run past Rule 2 that has no channel to offer. */
  function NoChannelScope(ctx: Context, produced: bool): Scope {
    if !produced then Nothing
    else if (ctx.executionType == "replay" || ctx.executionType == "regeneration") && Reachable(ctx) != {}
    then ReplayCandidate
    else Exhausted
  }

  /** Rules 4 to 7: either a finished assessment without candidates, or the reachable channels, degraded ones last. */
  method RunReachGates(ctx: Context) returns (r: Assessment, eligible: seq<Channel>)
    requires Proceeds(ctx)
    ensures NotLive(r) && !r.blocked
    ensures r.prohibited == ContactBarred(ctx) + r.optOutExclusions + r.suspendedChannels
    ensures r.optOutExclusions == Among(ALL_CHANNELS, Contactable(ctx) * ctx.optOut)
    ensures r.suspendedChannels == Among(ALL_CHANNELS, (Contactable(ctx) - ctx.optOut) * Closed(ctx))
    ensures r.produced <==> Contactable(ctx) != {}
    ensures eligible == [] ==> Reachable(ctx) == {} && Complements(r.prohibited, {})
    ensures eligible == [] ==> r.escalation == Urgent(ctx) && r.scope == if r.produced then Exhausted else Nothing
    ensures eligible == [] ==> (r.governance == ReplayOnly <==> IsReplay(ctx))
    ensures eligible != [] ==>
              && eligible == DegradedLast(ctx) && Parts(eligible, Reachable(ctx), r.prohibited) && Reachable(ctx) != {}
              && r.escalation.None? && r.scope == Nothing
  {
    hide Among, DegradedLast, Reachable, Contactable, ContactBarred, Parts, Complements;
    ReachableIsContactable(ctx);
    NoneAmong(ALL_CHANNELS);
    r := BLANK;
    var prohibited := [];                                                        // Rule 4
    if !ctx.hasPhone { prohibited := prohibited + [Call, Sms]; }
    if !ctx.hasEmail { prohibited := prohibited + [Email]; }
    eligible := Among(ALL_CHANNELS, set ch | ch in ALL_CHANNELS && ch !in prohibited);
    ContactGate(ctx, prohibited);
    EmptyParts(eligible, Contactable(ctx), prohibited);
    if eligible == [] {
      assert Contactable(ctx) * ctx.optOut == (Contactable(ctx) - ctx.optOut) * Closed(ctx) == {};
      r := Emit(ctx, r.(prohibited := prohibited));
      return;
    }

    var optOuts, suspended;                                                      // Rule 6
    eligible, prohibited, optOuts := OptOutStage(ctx, eligible, prohibited);
    EmptyParts(eligible, Contactable(ctx) - ctx.optOut, prohibited);
    NothingLeft(Contactable(ctx), ctx.optOut);
    r := r.(optOutExclusions := optOuts, produced := true);
    if eligible == [] {
      assert (Contactable(ctx) - ctx.optOut) * Closed(ctx) == {};
      r := Emit(ctx, r.(scope := Exhausted, prohibited := prohibited, escalation := Some(Medium)));
      return;
    }

    eligible, prohibited, suspended := ProviderStage(ctx, eligible, prohibited); // Rule 7
    EmptyParts(eligible, Reachable(ctx), prohibited);
    r := r.(suspendedChannels := suspended, prohibited := prohibited);
    if eligible == [] {
      r := Emit(ctx, r.(scope := Exhausted, escalation := Some(High)));
    }
  }

  /** Rules 4 to 10: either a finished assessment without candidates, or the open channels in health order. */
  method RunGates(ctx: Context) returns (r: Assessment, eligible: seq<Channel>)
    requires Proceeds(ctx)
    ensures NotLive(r)
    ensures r.prohibited == ContactBarred(ctx) + r.optOutExclusions + r.suspendedChannels
    ensures r.blocked <==> Reachable(ctx) != {} && ReplayBlocked(ctx)
    ensures !r.blocked ==> eligible == HealthOrder(ctx) && Complements(r.prohibited, Available(ctx))
    ensures r.blocked ==> Complements(r.prohibited, Reachable(ctx))
    ensures r.suspendedChannels == Suspended(ctx, r.blocked)
    ensures r.blocked ==> eligible == []
    ensures r.optOutExclusions == Among(ALL_CHANNELS, Contactable(ctx) * ctx.optOut)
    ensures r.produced <==> Contactable(ctx) != {} && !r.blocked
    ensures r.escalation == if eligible == [] && !r.blocked then Urgent(ctx) else None
    ensures eligible == [] ==> r.scope == NoChannelScope(ctx, r.produced)
    ensures eligible == [] ==> (r.governance == ReplayOnly <==> IsReplay(ctx))
  {
    hide Reachable, Available, HealthOrder, DegradedLast;
    AvailableIsReachable(ctx);
    r, eligible := RunReachGates(ctx);
    NoElements(HealthOrder(ctx));
    if eligible == [] {
      NothingReachable(ctx);
      return;
    }
    assert Urgent(ctx) == Some(High) by { ReachableIsContactable(ctx); }

    // Rule 8: the exhaustion exit asks for an empty list, which Rule 7 has just ruled out.
    if ctx.exhaustion == "EXHAUSTED" && eligible == [] {
      assert false;
    }

    // Rule 9
    if IsReplay(ctx) && (ctx.mode == "LIVE" || !ctx.hasSourceArtifact || !ctx.hasFingerprint) {
      r := Emit(ctx, r.(blocked := true, produced := false));
      eligible := [];
      return;
    }

    // Rule 10
    var prohibited, failing;
    eligible, prohibited, failing := FailureStage(ctx, eligible, r.prohibited);
    r := r.(suspendedChannels := r.suspendedChannels + failing, prohibited := prohibited);
    if eligible == [] {
      r := Emit(ctx, r.(scope := if IsReplay(ctx) then ReplayCandidate else Exhausted, escalation := Some(High)));
    }
  }

  /** Rules 11 and 12. */
  method RankChannels(ctx: Context, eligible: seq<Channel>, prohibited: seq<Channel>)
    returns (candidates: seq<Channel>, hasPreference: bool)
    requires eligible == HealthOrder(ctx) && Complements(prohibited, Available(ctx))
    ensures candidates == Ranked(ctx)
    ensures hasPreference <==>
            EngagementPick(Available(ctx), ctx.engagement, ctx.thresholds).Some? || AiPick(ctx).Some?
  {
    candidates, hasPreference := PrioritizeChannels(eligible, ctx.engagement, ctx.thresholds);
    var tier, preference := AiTier(ctx.ai, ctx.thresholds.aiTtlHours), ctx.ai.preference;
    FrontedPermutes(eligible, RulePick(Available(ctx), ctx.engagement, ctx.thresholds));
    assert preference.Some? ==> (preference.value in candidates <==> preference.value in Elements(candidates));
    assert preference.Some? ==> (preference.value in prohibited <==> preference.value in Elements(prohibited));
    if !IsReplay(ctx) && (tier.Confident? || tier.Advisory?) {
      if preference.Some? && preference.value !in prohibited && preference.value in candidates {
        if tier.Confident? || !hasPreference {
          candidates := ToFront(candidates, preference.value);
          hasPreference := true;
        }
      }
    }
  }

  /** Who comes first: the AI's pick, else the rules' pick, else a healthy channel if one is available. */
  lemma FirstChannel(ctx: Context)
    requires Available(ctx) != {}
    ensures Ranked(ctx) != []
    ensures AiPick(ctx).Some? ==> Ranked(ctx)[0] == AiPick(ctx).value
    ensures var pick := RulePick(Available(ctx), ctx.engagement, ctx.thresholds);
            AiPick(ctx).None? && pick.Some? ==> Ranked(ctx)[0] == pick.value
    ensures AiPick(ctx).None? && RulePick(Available(ctx), ctx.engagement, ctx.thresholds).None? ==>
              (Ranked(ctx)[0] !in Degraded(ctx) <==> Available(ctx) - Degraded(ctx) != {})
  {
    var healthy := Among(ALL_CHANNELS, Available(ctx) - Degraded(ctx));
    var rest := Among(ALL_CHANNELS, Available(ctx) * Degraded(ctx));
    EveryChannel();
    AmongMembers(ALL_CHANNELS, Available(ctx) - Degraded(ctx));
    AmongMembers(ALL_CHANNELS, Available(ctx) * Degraded(ctx));
    NoElements(Ranked(ctx));
    NoElements(HealthOrder(ctx));
    NoElements(healthy);
    assert healthy != [] ==> healthy[0] in Elements(healthy);
    assert rest != [] ==> rest[0] in Elements(rest);
    assert HealthOrder(ctx) == healthy + rest;
  }

  method AssessChannelAdvisory(ctx: Context) returns (r: Assessment)
    // The gates in sequence are one filter and one stable reordering.
    ensures Proceeds(ctx) && !r.blocked ==> r.candidates == Ranked(ctx) && Complements(r.prohibited, Available(ctx))
    ensures Proceeds(ctx) ==> r.prohibited == ContactBarred(ctx) + r.optOutExclusions + r.suspendedChannels
    ensures Proceeds(ctx) ==> (r.blocked <==> Reachable(ctx) != {} && ReplayBlocked(ctx))
    ensures !Proceeds(ctx) || r.blocked ==> r.candidates == []
    ensures !Preconditions(ctx) ==> r.blocked && !r.produced && r.prohibited == []
    ensures Preconditions(ctx) && ctx.closed ==> !r.blocked && !r.produced && r.prohibited == []
    ensures Preconditions(ctx) && !ctx.closed && ctx.complianceHold ==>
              !r.blocked && r.produced && r.prohibited == ALL_CHANNELS
    // Live delivery, for every input.
    ensures r.liveDelivery <==> r.candidates != [] && ctx.mode == "LIVE" && ctx.executionType == "original"
    ensures r.liveDelivery <==> r.governance == Authorized
    ensures r.governance == ReplayOnly <==>
            Preconditions(ctx) && (ctx.executionType == "replay" || ctx.executionType == "regeneration")
    // Escalation is advised exactly when an assessment is produced that has no channel to offer.
    ensures r.escalation.Some? <==> r.produced && r.candidates == []
    ensures r.escalation == Some(Critical) <==> Preconditions(ctx) && !ctx.closed && ctx.complianceHold
    ensures Proceeds(ctx) && r.produced && r.candidates == [] ==> r.escalation == Urgent(ctx)
    ensures Proceeds(ctx) ==> (r.produced <==> Contactable(ctx) != {} && !r.blocked)
    ensures Proceeds(ctx) ==> r.optOutExclusions == Among(ALL_CHANNELS, Contactable(ctx) * ctx.optOut)
    ensures Proceeds(ctx) ==> r.suspendedChannels == Suspended(ctx, r.blocked)
    ensures !Proceeds(ctx) ==> r.optOutExclusions == r.suspendedChannels == []
    ensures Proceeds(ctx) && r.blocked ==> Complements(r.prohibited, Reachable(ctx))
    ensures r.candidates == [] ==> r.scope == if Proceeds(ctx) then NoChannelScope(ctx, r.produced) else Nothing
    // The AI's channel leads exactly when it may speak.
    ensures Proceeds(ctx) && !r.blocked && AiLeads(ctx) ==>
              r.candidates != [] && r.candidates[0] == ctx.ai.preference.value && r.scope == Preferred(r.candidates[0])
    ensures Proceeds(ctx) && !r.blocked && !AiLeads(ctx) ==> r.candidates == ByRule(ctx)
    ensures r.candidates != [] ==>
              r.scope == if IsReplay(ctx) then ReplayCandidate
                         else if |r.candidates| == 1 || AiPick(ctx).Some?
                                 || EngagementPick(Available(ctx), ctx.engagement, ctx.thresholds).Some?
                              then Preferred(r.candidates[0]) else MultiChannel
  {
    r := BLANK;
    var codes := GovernanceGate(ctx);                                            // Rule 0
    if codes != [] { return r.(blocked := true); }
    if ctx.closed { return Emit(ctx, r); }                                       // Rule 1
    if ctx.complianceHold {                                                      // Rule 2
      return Emit(ctx, r.(produced := true, prohibited := ALL_CHANNELS, escalation := Some(Critical)));
    }
    var eligible;
    AiPickIff(ctx);
    if Available(ctx) != {} { FirstChannel(ctx); }
    r, eligible := RunGates(ctx);
    NoElements(HealthOrder(ctx));
    NoElements(Ranked(ctx));
    if eligible == [] { return r; }
    var candidates, hasPreference := RankChannels(ctx, eligible, r.prohibited);
    // Rule 13
    var scope :=
      if IsReplay(ctx) then ReplayCandidate
      else if |candidates| == 1 || hasPreference then Preferred(candidates[0])
      else MultiChannel;
    r := Emit(ctx, r.(scope := scope, candidates := candidates));
  }

  // ---- What the order means ----

  lemma FrontedLeaves(s: seq<Channel>, pick: Option<Channel>, left: set<Channel>)
    requires Distinct(s) && (pick.Some? ==> pick.value in s && pick.value !in left)
    ensures Among(Fronted(s, pick), left) == Among(s, left)
  {
    if pick.Some? {
      var x := pick.value;
      ToFrontPermutes(s, x);
      var rest := Among(s, Elements(s) - {x});
      AmongConcat([x], rest, left);
      AmongSnoc([], x, left);
      AmongAmong(s, Elements(s) - {x}, left);
      AmongAgrees(s, (Elements(s) - {x}) * left, left);
    }
  }

  /** However the picks fall, the channels they leave alone keep their health order. */
  lemma PicksKeepTheRestInOrder(ctx: Context, left: set<Channel>)
    requires RulePick(Available(ctx), ctx.engagement, ctx.thresholds).Some? ==>
               RulePick(Available(ctx), ctx.engagement, ctx.thresholds).value !in left
    requires AiPick(ctx).Some? ==> AiPick(ctx).value !in left
    ensures Among(Ranked(ctx), left) == Among(HealthOrder(ctx), left)
  {
    var order, pick := HealthOrder(ctx), RulePick(Available(ctx), ctx.engagement, ctx.thresholds);
    FrontedPermutes(order, pick);
    FrontedLeaves(order, pick, left);
    FrontedLeaves(Fronted(order, pick), AiPick(ctx), left);
  }

  /** The candidates channel by channel, in the raw inputs. */
  lemma CandidateIff(ctx: Context, ch: Channel)
    ensures ch in Ranked(ctx) <==>
            && (if ch == Email then ctx.hasEmail else ctx.hasPhone)
            && ch !in ctx.optOut && ch !in ctx.suspended
            && !(ch in ctx.health && ctx.health[ch] == "UNAVAILABLE")
            && !(ctx.thresholds.failureSuspension.Some?
                 && (if ch in ctx.failures then ctx.failures[ch]
                     else 0) as real >= ctx.thresholds.failureSuspension.value)
  {
    assert ch in Ranked(ctx) <==> ch in Elements(Ranked(ctx));
    hide Ranked;
  }
}
