/** Shadow campaigns: two ways of counting violations, the certification outcome, and campaign volumes. */
module Campaign {

  datatype Scope =
    | ShadowOnly | ReplayOnly | Unavailable | Maintenance | Blocked | DuplicateSuppressed | Authorized | OtherScope

  const SUPPRESSED_SCOPES: set<Scope> :=
    {ShadowOnly, ReplayOnly, Unavailable, Maintenance, Blocked, DuplicateSuppressed}

  datatype ExecutionType = Original | Replay | Regeneration | OtherType

  // ---- Records ----

  /** The two families of flags a record carries: the invariants INV-1 to INV-7 and the duties FAD-1 to FAD-6. */
  datatype Family = InvFlags | FadFlags

  function FlagCount(f: Family): nat {
    match f case InvFlags => 7 case FadFlags => 6
  }

  const INV_KEPT := [true, true, true, true, true, true, true]
  const FAD_KEPT := [true, true, true, true, true, true]

  /** `inv[k]` and `fad[k]` say that INV-(k+1) and FAD-(k+1) were kept. */
  datatype RecordFields = Record(
    scope: Scope, executionType: ExecutionType, suppressed: bool,
    liveEffects: int, dispatches: int,
    hasCorrelation: bool, hasCausation: bool, startsAtRule0: bool, hasHistoricalConfig: bool,
    isReplay: bool, isFinalized: bool, isMutable: bool, degraded: bool,
    inv: seq<bool>, fad: seq<bool>)

  type CampaignRecord = r: RecordFields | |r.inv| == FlagCount(InvFlags) && |r.fad| == FlagCount(FadFlags)
    witness Record(ShadowOnly, Original, true, 0, 0, true, true, true, false, false, false, true, false,
                   INV_KEPT, FAD_KEPT)

  function Flags(f: Family, r: CampaignRecord): (flags: seq<bool>)
    ensures |flags| == FlagCount(f)
  {
    match f case InvFlags => r.inv case FadFlags => r.fad
  }

  // ---- Measures of a record, and their totals over a campaign ----

  datatype Measure =
    | Flag(family: Family, k: nat) | Violations(family: Family)
    | LiveEffects | Dispatches | AuthorizedScopes | ReplayLeaks | AttributionGaps | MutableFinalized
    | Suppressed | Replays | Degradations
    | ReplayTypeLive | ShadowDispatch | NotFromRule0 | NoCorrelation | ReplayWithoutHistory

  function One(b: bool): nat { if b then 1 else 0 }

  predicate IsReplayType(t: ExecutionType) { t.Replay? || t.Regeneration? }

  function CountFalse(flags: seq<bool>): nat {
    if flags == [] then 0 else CountFalse(flags[..|flags| - 1]) + One(!flags[|flags| - 1])
  }

  function Of(m: Measure, r: CampaignRecord): int {
    match m
    case Flag(f, k) => One(k < FlagCount(f) && !Flags(f, r)[k])
    case Violations(f) => CountFalse(Flags(f, r))
    case LiveEffects => r.liveEffects
    case Dispatches => r.dispatches
    case AuthorizedScopes => One(r.scope.Authorized?)
    case ReplayLeaks => One(r.scope.ReplayOnly? && r.liveEffects > 0)
    case AttributionGaps => One(!r.hasCorrelation || !r.hasCausation)
    case MutableFinalized => One(r.isFinalized && r.isMutable)
    case Suppressed => One(r.suppressed)
    case Replays => One(r.isReplay)
    case Degradations => One(r.degraded)
    case ReplayTypeLive => One(IsReplayType(r.executionType) && r.liveEffects > 0)
    case ShadowDispatch => One(r.scope.ShadowOnly? && r.dispatches > 0)
    case NotFromRule0 => One(!r.startsAtRule0)
    case NoCorrelation => One(!r.hasCorrelation)
    case ReplayWithoutHistory => One(IsReplayType(r.executionType) && !r.hasHistoricalConfig)
  }

  function Total(m: Measure, rs: seq<CampaignRecord>): int {
    if rs == [] then 0 else Total(m, rs[..|rs| - 1]) + Of(m, rs[|rs| - 1])
  }

  lemma TotalNext(m: Measure, rs: seq<CampaignRecord>, i: nat)
    requires i < |rs|
    ensures Total(m, rs[..i + 1]) == Total(m, rs[..i]) + Of(m, rs[i])
  {
    assert rs[..i + 1][..i] == rs[..i];
  }

  // ---- Row by row against column by column ----

  /** The columns of the first n flags of a family, added up. */
  function Columns(f: Family, n: nat, rs: seq<CampaignRecord>): int {
    if n == 0 then 0 else Columns(f, n - 1, rs) + Total(Flag(f, n - 1), rs)
  }

  lemma {:induction false} ColumnsOfNone(f: Family, n: nat)
    ensures Columns(f, n, []) == 0
  {
    if n > 0 { ColumnsOfNone(f, n - 1); }
  }

  lemma {:induction false} ColumnsNext(f: Family, n: nat, rs: seq<CampaignRecord>)
    requires n <= FlagCount(f) && rs != []
    ensures Columns(f, n, rs) == Columns(f, n, rs[..|rs| - 1]) + CountFalse(Flags(f, rs[|rs| - 1])[..n])
  {
    if n > 0 {
      ColumnsNext(f, n - 1, rs);
      var flags := Flags(f, rs[|rs| - 1]);
      assert flags[..n][..n - 1] == flags[..n - 1];
    }
  }

  /** Counting violations record by record and flag by flag gives the same totals. */
  lemma {:induction false} RowsAreColumns(f: Family, rs: seq<CampaignRecord>)
    ensures Total(Violations(f), rs) == Columns(f, FlagCount(f), rs)
  {
    if rs == [] {
      ColumnsOfNone(f, FlagCount(f));
    } else {
      RowsAreColumns(f, rs[..|rs| - 1]);
      ColumnsNext(f, FlagCount(f), rs);
      var flags := Flags(f, rs[|rs| - 1]);
      assert flags[..FlagCount(f)] == flags;
    }
  }

  // ---- Metrics, certification, audit ----

  datatype Metrics = Metrics(
    orchestrations: int, suppressions: int, replays: int, degradations: int,
    liveEffects: int, dispatches: int, authorized: int, invViolations: int, fadViolations: int, replayLeaks: int,
    degradedStatus: bool)

  predicate MetricsOf(m: Metrics, rs: seq<CampaignRecord>) {
    && m.orchestrations == |rs|
    && m.suppressions == Total(Suppressed, rs) && m.replays == Total(Replays, rs) &&
      m.degradations == Total(Degradations, rs)
    && m.liveEffects == Total(LiveEffects, rs) && m.dispatches == Total(Dispatches, rs)
    && m.authorized == Total(AuthorizedScopes, rs) && m.replayLeaks == Total(ReplayLeaks, rs)
    && m.invViolations == Total(Violations(InvFlags), rs) && m.fadViolations == Total(Violations(FadFlags), rs)
  }

  method CountFlags(flags: seq<bool>) returns (n: nat)
    ensures n == CountFalse(flags)
  {
    n := 0;
    for k := 0 to |flags|
      invariant n == CountFalse(flags[..k])
    {
      assert flags[..k + 1][..k] == flags[..k];
      if !flags[k] { n := n + 1; }
    }
    assert flags[..|flags|] == flags;
  }

  method CountRecord(before: Metrics, r: CampaignRecord) returns (m: Metrics)
    ensures m.orchestrations == before.orchestrations + 1
    ensures m.suppressions == before.suppressions + Of(Suppressed, r)
    ensures m.replays == before.replays + Of(Replays, r)
    ensures m.degradations == before.degradations + Of(Degradations, r)
    ensures m.liveEffects == before.liveEffects + Of(LiveEffects, r)
    ensures m.dispatches == before.dispatches + Of(Dispatches, r)
    ensures m.authorized == before.authorized + Of(AuthorizedScopes, r)
    ensures m.invViolations == before.invViolations + Of(Violations(InvFlags), r)
    ensures m.fadViolations == before.fadViolations + Of(Violations(FadFlags), r)
    ensures m.replayLeaks == before.replayLeaks + Of(ReplayLeaks, r)
  {
    hide CountFalse;
    var inv := CountFlags(r.inv);
    var fad := CountFlags(r.fad);
    var suppressions, replays, degradations := before.suppressions, before.replays, before.degradations;
    var authorized, leaks := before.authorized, before.replayLeaks;
    if r.suppressed { suppressions := suppressions + 1; }
    if r.isReplay { replays := replays + 1; }
    if r.degraded { degradations := degradations + 1; }
    if r.scope.Authorized? { authorized := authorized + 1; }
    if r.scope.ReplayOnly? && r.liveEffects > 0 { leaks := leaks + 1; }
    m := Metrics(before.orchestrations + 1, suppressions, replays, degradations,
                 before.liveEffects + r.liveEffects, before.dispatches + r.dispatches, authorized,
                 before.invViolations + inv, before.fadViolations + fad, leaks, before.degradedStatus);
  }

  method ComputeMetrics(rs: seq<CampaignRecord>) returns (m: Metrics)
    ensures MetricsOf(m, rs)
    ensures m.degradedStatus <==> m.degradations > 0
  {
    hide Of;
    m := Metrics(0, 0, 0, 0, 0, 0, 0, 0, 0, 0, false);
    for i := 0 to |rs|
      invariant MetricsOf(m, rs[..i])
    {
      TotalNext(Suppressed, rs, i);
      TotalNext(Replays, rs, i);
      TotalNext(Degradations, rs, i);
      TotalNext(LiveEffects, rs, i);
      TotalNext(Dispatches, rs, i);
      TotalNext(AuthorizedScopes, rs, i);
      TotalNext(Violations(InvFlags), rs, i);
      TotalNext(Violations(FadFlags), rs, i);
      TotalNext(ReplayLeaks, rs, i);
      m := CountRecord(m, rs[i]);
    }
    assert rs[..|rs|] == rs;
    m := m.(degradedStatus := m.degradations > 0);
  }

  /** One counter per flag, and the totals the certificate reports. */
  datatype Certificate = Certificate(inv: seq<int>, fad: seq<int>, totalInv: int, totalFad: int, passed: bool)

  function Sum(s: seq<int>): int {
    if s == [] then 0 else Sum(s[..|s| - 1]) + s[|s| - 1]
  }

  /** One counter for each flag of the family, each the total of its column. */
  predicate Counters(counts: seq<int>, f: Family, rs: seq<CampaignRecord>) {
    && |counts| == FlagCount(f)
    && forall k :: 0 <= k < |counts| ==> counts[k] == Total(Flag(f, k), rs)
  }

  lemma {:induction false} SumOfColumns(f: Family, counts: seq<int>, rs: seq<CampaignRecord>)
    requires forall k :: 0 <= k < |counts| ==> counts[k] == Total(Flag(f, k), rs)
    ensures Sum(counts) == Columns(f, |counts|, rs)
  {
    if counts != [] { SumOfColumns(f, counts[..|counts| - 1], rs); }
  }

  /** The counter of every violated flag goes up by one. */
  method CountViolated(f: Family, before: seq<int>, ghost rs: seq<CampaignRecord>, ghost i: nat, r: CampaignRecord)
    returns (counts: seq<int>)
    requires i < |rs| && r == rs[i] && Counters(before, f, rs[..i])
    ensures Counters(counts, f, rs[..i + 1])
  {
    counts := before;
    for k := 0 to FlagCount(f)
      invariant |counts| == FlagCount(f)
      invariant forall j :: 0 <= j < |counts| ==> counts[j] == before[j] + if j < k then Of(Flag(f, j), r) else 0
    {
      if !Flags(f, r)[k] { counts := counts[k := counts[k] + 1]; }
    }
    forall j | 0 <= j < |counts| ensures counts[j] == Total(Flag(f, j), rs[..i + 1]) { TotalNext(Flag(f, j), rs, i); }
  }

  method CertifyGovernance(rs: seq<CampaignRecord>) returns (c: Certificate)
    ensures Counters(c.inv, InvFlags, rs) && Counters(c.fad, FadFlags, rs)
    ensures c.totalInv == Columns(InvFlags, FlagCount(InvFlags), rs)
    ensures c.totalFad == Columns(FadFlags, FlagCount(FadFlags), rs)
    ensures c.passed <==> c.totalInv == 0 && c.totalFad == 0
  {
    var inv, fad := [0, 0, 0, 0, 0, 0, 0], [0, 0, 0, 0, 0, 0];
    for i := 0 to |rs|
      invariant Counters(inv, InvFlags, rs[..i]) && Counters(fad, FadFlags, rs[..i])
    {
      inv := CountViolated(InvFlags, inv, rs, i, rs[i]);
      fad := CountViolated(FadFlags, fad, rs, i, rs[i]);
    }
    assert rs[..|rs|] == rs;
    SumOfColumns(InvFlags, inv, rs);
    SumOfColumns(FadFlags, fad, rs);
    c := Certificate(inv, fad, Sum(inv), Sum(fad), Sum(inv) == 0 && Sum(fad) == 0);
  }

  /** The seven counters of the final audit; all must be zero. */
  predicate AuditPasses(rs: seq<CampaignRecord>) {
    && Total(Dispatches, rs) == 0 && Total(LiveEffects, rs) == 0
    && Total(AttributionGaps, rs) == 0 && Total(MutableFinalized, rs) == 0 && Total(ReplayLeaks, rs) == 0
    && Columns(InvFlags, FlagCount(InvFlags), rs) + Columns(FadFlags, FlagCount(FadFlags), rs) == 0
    && Total(AuthorizedScopes, rs) == 0
  }

  /** A comprehension sum of the source. */
  method SumOver(m: Measure, rs: seq<CampaignRecord>) returns (n: int)
    ensures n == Total(m, rs)
  {
    n := 0;
    for i := 0 to |rs|
      invariant n == Total(m, rs[..i])
    {
      TotalNext(m, rs, i);
      n := n + Of(m, rs[i]);
    }
    assert rs[..|rs|] == rs;
  }

  method AuditCampaignRecords(rs: seq<CampaignRecord>) returns (passed: bool)
    ensures passed <==> AuditPasses(rs)
  {
    var dispatches := SumOver(Dispatches, rs);
    var effects := SumOver(LiveEffects, rs);
    var gaps := SumOver(AttributionGaps, rs);
    var mutable := SumOver(MutableFinalized, rs);
    var leaks := SumOver(ReplayLeaks, rs);
    var certificate := CertifyGovernance(rs);
    var authorized := SumOver(AuthorizedScopes, rs);
    passed := dispatches == 0 && effects == 0 && gaps == 0 && mutable == 0 && leaks == 0
              && certificate.totalInv + certificate.totalFad == 0 && authorized == 0;
  }

  // ---- The operator report ----

  datatype Outcome = Passed | Failed | DegradedOutcome

  function CertificationPassed(m: Metrics, auditPassed: bool): bool {
    auditPassed && m.invViolations + m.fadViolations == 0 && m.liveEffects == 0 && m.dispatches == 0 &&
      m.authorized == 0
  }

  function ReportOutcome(m: Metrics, auditPassed: bool): Outcome {
    if CertificationPassed(m, auditPassed) then Passed else if !auditPassed then Failed else DegradedOutcome
  }

  lemma {:induction false} TotalsAreCounts(m: Measure, rs: seq<CampaignRecord>)
    requires m != LiveEffects && m != Dispatches
    ensures Total(m, rs) >= 0
  {
    if rs != [] { TotalsAreCounts(m, rs[..|rs| - 1]); }
  }

  /**
   * Metrics and audit of the same records never disagree: the report passes exactly when the audit does, and is never
   * degraded.
   */
  lemma ReportFollowsAudit(m: Metrics, rs: seq<CampaignRecord>)
    requires MetricsOf(m, rs)
    ensures CertificationPassed(m, AuditPasses(rs)) <==> AuditPasses(rs)
    ensures ReportOutcome(m, AuditPasses(rs)) == if AuditPasses(rs) then Passed else Failed
  {
    RowsAreColumns(InvFlags, rs);
    RowsAreColumns(FadFlags, rs);
    TotalsAreCounts(Violations(InvFlags), rs);
    TotalsAreCounts(Violations(FadFlags), rs);
  }

  // ---- The governance certifier ----

  function Max(a: int, b: int): (m: int)
    ensures a <= m && b <= m && (m == a || m == b)
  {
    if a >= b then a else b
  }

  /** Neither a flag nor any of the six explicit checks finds a violation. */
  predicate CertificationPasses(rs: seq<CampaignRecord>) {
    && Total(Violations(InvFlags), rs) == 0 && Total(Violations(FadFlags), rs) == 0
    && Total(ReplayTypeLive, rs) == 0 && Total(ShadowDispatch, rs) == 0 && Total(NotFromRule0, rs) == 0
    && Total(NoCorrelation, rs) == 0 && Total(MutableFinalized, rs) == 0 && Total(ReplayWithoutHistory, rs) == 0
  }

  predicate AreCounts(counts: seq<int>) { forall k :: 0 <= k < |counts| ==> 0 <= counts[k] }

  lemma CountersAreCounts(f: Family, counts: seq<int>, rs: seq<CampaignRecord>)
    requires Counters(counts, f, rs)
    ensures AreCounts(counts) && Sum(counts) == Total(Violations(f), rs)
  {
    forall k | 0 <= k < |counts| ensures 0 <= counts[k] { TotalsAreCounts(Flag(f, k), rs); }
    SumOfColumns(f, counts, rs);
    RowsAreColumns(f, rs);
  }

  lemma {:induction false} SumsGrow(a: seq<int>, b: seq<int>)
    requires |a| == |b| && forall k :: 0 <= k < |a| ==> a[k] <= b[k]
    ensures Sum(a) <= Sum(b)
  {
    if a != [] { SumsGrow(a[..|a| - 1], b[..|b| - 1]); }
  }

  lemma {:induction false} SumIsZeroIff(s: seq<int>)
    requires forall k :: 0 <= k < |s| ==> 0 <= s[k]
    ensures Sum(s) >= 0 && (Sum(s) == 0 <==> forall k :: 0 <= k < |s| ==> s[k] == 0)
  {
    if s != [] {
      var init := s[..|s| - 1];
      SumIsZeroIff(init);
      assert forall k :: 0 <= k < |init| ==> init[k] == s[k];
    }
  }

  /** Raises one counter to an explicit check: the sum never falls, and is zero exactly when it was and the check is. */
  method Raise(counts: seq<int>, k: nat, check: Measure, rs: seq<CampaignRecord>) returns (raised: seq<int>)
    requires k < |counts| && AreCounts(counts) && !check.LiveEffects? && !check.Dispatches?
    ensures raised == counts[k := Max(counts[k], Total(check, rs))] && AreCounts(raised)
    ensures Sum(counts) <= Sum(raised)
    ensures Sum(raised) == 0 <==> Sum(counts) == 0 && Total(check, rs) == 0
  {
    var found := SumOver(check, rs);
    raised := counts[k := Max(counts[k], found)];
    TotalsAreCounts(check, rs);
    SumsGrow(counts, raised);
    SumIsZeroIff(counts);
    SumIsZeroIff(raised);
    assert Sum(raised) == 0 ==> raised[k] == 0;
  }

  /** The certifier's explicit checks only tighten the flags: it passes exactly when both find nothing. */
  method RunGovernanceCertification(rs: seq<CampaignRecord>) returns (c: Certificate)
    ensures c.passed <==> CertificationPasses(rs)
    ensures c.totalInv >= Total(Violations(InvFlags), rs) && c.totalFad >= Total(Violations(FadFlags), rs)
    // Every counter is the larger of its flag's count and its check's, where it has a check.
    ensures |c.inv| == 7 && |c.fad| == 6 && c.totalInv == Sum(c.inv) && c.totalFad == Sum(c.fad)
    ensures forall k :: k == 0 || k == 1 || k == 6 ==> c.inv[k] == Total(Flag(InvFlags, k), rs)
    ensures forall k :: k == 1 || k == 2 || k == 3 || k == 5 ==> c.fad[k] == Total(Flag(FadFlags, k), rs)
    ensures c.inv[2] == Max(Total(Flag(InvFlags, 2), rs), Total(ReplayTypeLive, rs))
    ensures c.inv[3] == Max(Total(Flag(InvFlags, 3), rs), Total(ShadowDispatch, rs))
    ensures c.inv[4] == Max(Total(Flag(InvFlags, 4), rs), Total(NotFromRule0, rs))
    ensures c.inv[5] == Max(Total(Flag(InvFlags, 5), rs), Total(NoCorrelation, rs))
    ensures c.fad[0] == Max(Total(Flag(FadFlags, 0), rs), Total(MutableFinalized, rs))
    ensures c.fad[4] == Max(Total(Flag(FadFlags, 4), rs), Total(ReplayWithoutHistory, rs))
  {
    hide Sum;
    c := CertifyGovernance(rs);
    CountersAreCounts(InvFlags, c.inv, rs);
    CountersAreCounts(FadFlags, c.fad, rs);
    var inv := Raise(c.inv, 2, ReplayTypeLive, rs);
    inv := Raise(inv, 3, ShadowDispatch, rs);
    inv := Raise(inv, 4, NotFromRule0, rs);
    inv := Raise(inv, 5, NoCorrelation, rs);
    var fad := Raise(c.fad, 0, MutableFinalized, rs);
    fad := Raise(fad, 4, ReplayWithoutHistory, rs);
    SumIsZeroIff(inv);
    SumIsZeroIff(fad);
    c := Certificate(inv, fad, Sum(inv), Sum(fad), Sum(inv) == 0 && Sum(fad) == 0);
  }

  // ---- Audit and certification, record by record ----

  lemma {:induction false} TotalIsZeroIff(m: Measure, rs: seq<CampaignRecord>)
    requires m != LiveEffects && m != Dispatches
    ensures Total(m, rs) == 0 <==> forall i :: 0 <= i < |rs| ==> Of(m, rs[i]) == 0
  {
    if rs != [] {
      TotalIsZeroIff(m, rs[..|rs| - 1]);
      TotalsAreCounts(m, rs[..|rs| - 1]);
      assert forall i :: 0 <= i < |rs| - 1 ==> rs[i] == rs[..|rs| - 1][i];
    }
  }

  lemma {:induction false} NoneFalseIff(flags: seq<bool>)
    ensures CountFalse(flags) == 0 <==> forall k :: 0 <= k < |flags| ==> flags[k]
  {
    if flags != [] {
      NoneFalseIff(flags[..|flags| - 1]);
      assert forall k :: 0 <= k < |flags| - 1 ==> flags[k] == flags[..|flags| - 1][k];
    }
  }

  predicate KeepsFlags(r: CampaignRecord) {
    (forall k :: 0 <= k < |r.inv| ==> r.inv[k]) && (forall k :: 0 <= k < |r.fad| ==> r.fad[k])
  }

  lemma ViolationsAreZeroIff(rs: seq<CampaignRecord>)
    ensures Total(Violations(InvFlags), rs) == 0 && Total(Violations(FadFlags), rs) == 0 <==>
            forall i :: 0 <= i < |rs| ==> KeepsFlags(rs[i])
  {
    TotalIsZeroIff(Violations(InvFlags), rs);
    TotalIsZeroIff(Violations(FadFlags), rs);
    forall i | 0 <= i < |rs|
      ensures Of(Violations(InvFlags), rs[i]) == 0 && Of(Violations(FadFlags), rs[i]) == 0 <==> KeepsFlags(rs[i]) {
      NoneFalseIff(rs[i].inv);
      NoneFalseIff(rs[i].fad);
    }
  }

  predicate AuditedClean(r: CampaignRecord) {
    && KeepsFlags(r) && r.hasCorrelation && r.hasCausation && r.scope != Authorized
    && (r.isFinalized ==> !r.isMutable) && (r.scope == ReplayOnly ==> r.liveEffects <= 0)
  }

  /** The audit passes exactly when no effect and no dispatch add up, and every single record is clean. */
  lemma AuditPassesIff(rs: seq<CampaignRecord>)
    ensures AuditPasses(rs) <==>
            && Total(Dispatches, rs) == 0 && Total(LiveEffects, rs) == 0
            && forall i :: 0 <= i < |rs| ==> AuditedClean(rs[i])
  {
    hide Total, CountFalse;
    RowsAreColumns(InvFlags, rs);
    RowsAreColumns(FadFlags, rs);
    TotalsAreCounts(Violations(InvFlags), rs);
    TotalsAreCounts(Violations(FadFlags), rs);
    ViolationsAreZeroIff(rs);
    TotalIsZeroIff(AttributionGaps, rs);
    TotalIsZeroIff(MutableFinalized, rs);
    TotalIsZeroIff(ReplayLeaks, rs);
    TotalIsZeroIff(AuthorizedScopes, rs);
  }

  predicate CertifiedClean(r: CampaignRecord) {
    && KeepsFlags(r) && r.hasCorrelation && r.startsAtRule0 && (r.isFinalized ==> !r.isMutable)
    && (r.executionType == Replay || r.executionType == Regeneration ==> r.liveEffects <= 0 && r.hasHistoricalConfig)
    && (r.scope == ShadowOnly ==> r.dispatches <= 0)
  }

  lemma CertificationPassesIff(rs: seq<CampaignRecord>)
    ensures CertificationPasses(rs) <==> forall i :: 0 <= i < |rs| ==> CertifiedClean(rs[i])
  {
    hide Total, CountFalse;
    ViolationsAreZeroIff(rs);
    TotalIsZeroIff(ReplayTypeLive, rs);
    TotalIsZeroIff(ShadowDispatch, rs);
    TotalIsZeroIff(NotFromRule0, rs);
    TotalIsZeroIff(NoCorrelation, rs);
    TotalIsZeroIff(MutableFinalized, rs);
    TotalIsZeroIff(ReplayWithoutHistory, rs);
  }

  /** For metrics and an audit of whatever records: when each outcome is reported. */
  lemma OutcomesAre(m: Metrics, auditPassed: bool)
    ensures ReportOutcome(m, auditPassed) == Failed <==> !auditPassed
    ensures ReportOutcome(m, auditPassed) == DegradedOutcome <==>
            && auditPassed
            && (m.invViolations + m.fadViolations != 0 || m.liveEffects != 0 || m.dispatches != 0 || m.authorized != 0)
  {}

  // ---- Campaign runs ----

  function DeriveScope(t: ExecutionType, configMissing: bool, maintenance: bool, duplicate: bool): (scope: Scope)
    ensures scope == Unavailable <==> configMissing
    ensures scope == ReplayOnly <==> !configMissing && (t == Replay || t == Regeneration)
    ensures scope == Maintenance <==> !configMissing && t != Replay && t != Regeneration && maintenance
    ensures scope == DuplicateSuppressed <==>
            !configMissing && t != Replay && t != Regeneration && !maintenance && duplicate
    ensures scope == ShadowOnly <==> !configMissing && t != Replay && t != Regeneration && !maintenance && !duplicate
  {
    if configMissing then Unavailable
    else if IsReplayType(t) then ReplayOnly
    else if maintenance then Maintenance
    else if duplicate then DuplicateSuppressed
    else ShadowOnly
  }

  /** A record made by the runner; the mode plays no part in any of these fields. */
  function MakeRecord(t: ExecutionType, configMissing: bool, maintenance: bool, duplicate: bool,
                      finalized: bool): CampaignRecord {
    var scope := DeriveScope(t, configMissing, maintenance, duplicate);
    Record(scope, t, scope in SUPPRESSED_SCOPES, 0, 0, true, true, true, IsReplayType(t),
           IsReplayType(t), finalized, !finalized, false, INV_KEPT, FAD_KEPT)
  }

  ghost predicate Made(r: CampaignRecord) {
    exists t, configMissing, maintenance, duplicate, finalized ::
      r == MakeRecord(t, configMissing, maintenance, duplicate, finalized)
  }

  ghost predicate AllMade(rs: seq<CampaignRecord>) { forall i :: 0 <= i < |rs| ==> Made(rs[i]) }

  lemma AllTrue(flags: seq<bool>)
    requires forall k :: 0 <= k < |flags| ==> flags[k]
    ensures CountFalse(flags) == 0
  {}

  /** Whatever the scope it derives, a made record is suppressed and shows on no measure but those of volume. */
  lemma MadeRecordIsClean(r: CampaignRecord, m: Measure)
    requires Made(r)
    ensures Of(Suppressed, r) == 1
    ensures !m.Suppressed? && !m.Replays? ==> Of(m, r) == 0
  {
    AllTrue(INV_KEPT);
    AllTrue(FAD_KEPT);
    if m.Flag? {
      assert Flags(m.family, r) == INV_KEPT || Flags(m.family, r) == FAD_KEPT;
    }
  }

  lemma {:induction false} MadeTotals(rs: seq<CampaignRecord>, m: Measure)
    requires AllMade(rs)
    ensures Total(Suppressed, rs) == |rs|
    ensures !m.Suppressed? && !m.Replays? ==> Total(m, rs) == 0
  {
    if rs != [] {
      MadeTotals(rs[..|rs| - 1], m);
      MadeRecordIsClean(rs[|rs| - 1], m);
    }
  }

  /** A campaign of made records is fully suppressed and without effect, and passes the audit and the certifier. */
  lemma MadeCampaignIsClean(rs: seq<CampaignRecord>)
    requires AllMade(rs)
    ensures Total(Suppressed, rs) == |rs|
    ensures forall m: Measure :: !m.Suppressed? && !m.Replays? ==> Total(m, rs) == 0
    ensures AuditPasses(rs) && CertificationPasses(rs)
  {
    hide Total, Columns;
    MadeTotals(rs, Suppressed);
    forall m: Measure | !m.Suppressed? && !m.Replays? ensures Total(m, rs) == 0 { MadeTotals(rs, m); }
    RowsAreColumns(InvFlags, rs);
    RowsAreColumns(FadFlags, rs);
  }

  /** The replay share of a volume; the division rounds down. */
  function ReplayShare(count: int): (share: int)
    ensures count < 20 ==> share == 1
    ensures count >= 10 ==> 10 * share <= count < 10 * (share + 1)
  {
    Max(1, count / 10)
  }

  /** An original record of a cycle, with the scope its configuration gives. */
  predicate IsOriginal(r: CampaignRecord, configMissing: bool, finalized: bool) {
    && r.executionType == Original && r.scope == (if configMissing then Unavailable else ShadowOnly)
    && r.suppressed && !r.isReplay && r.isFinalized == finalized && r.isMutable == !finalized
  }

  predicate IsReplayRecord(r: CampaignRecord) {
    && r.executionType == Replay && r.scope == ReplayOnly && r.suppressed && r.isReplay
    && r.hasHistoricalConfig && !r.isFinalized && r.isMutable
  }

  lemma RecordsAre(configMissing: bool, finalized: bool)
    ensures IsOriginal(MakeRecord(Original, configMissing, false, false, finalized), configMissing, finalized)
    ensures IsReplayRecord(MakeRecord(Replay, false, false, false, false))
  {}

  function Copies(r: CampaignRecord, n: nat): seq<CampaignRecord> { seq(n, i => r) }

  /** n times the same record; a generator of records, as the runners' loops are. */
  method AppendRecords(rs: seq<CampaignRecord>, n: int, t: ExecutionType, configMissing: bool, finalized: bool)
    returns (all: seq<CampaignRecord>)
    ensures all == rs + Copies(MakeRecord(t, configMissing, false, false, finalized), Max(0, n))
  {
    hide MakeRecord;
    all := rs;
    for i := 0 to Max(0, n)
      invariant all == rs + Copies(MakeRecord(t, configMissing, false, false, finalized), i)
    {
      all := all + [MakeRecord(t, configMissing, false, false, finalized)];
    }
  }

  lemma {:induction false} TotalConcat(m: Measure, a: seq<CampaignRecord>, b: seq<CampaignRecord>)
    ensures Total(m, a + b) == Total(m, a) + Total(m, b)
  {
    if b == [] {
      assert a + b == a;
    } else {
      TotalConcat(m, a, b[..|b| - 1]);
      assert (a + b)[..|a + b| - 1] == a + b[..|b| - 1];
    }
  }

  lemma {:induction false} CopiesAreMade(t: ExecutionType, configMissing: bool, finalized: bool, n: nat)
    ensures var copies := Copies(MakeRecord(t, configMissing, false, false, finalized), n);
            AllMade(copies) && Total(Replays, copies) == if IsReplayType(t) then n else 0
  {
    var r := MakeRecord(t, configMissing, false, false, finalized);
    assert Made(r);
    if n > 0 {
      CopiesAreMade(t, configMissing, finalized, n - 1);
      assert Copies(r, n)[..n - 1] == Copies(r, n - 1);
    }
  }

  /** First the originals, then the replays, then the finalized record. */
  function CycleOf(originals: nat, configMissing: bool, replays: nat, finalized: nat): seq<CampaignRecord> {
    Copies(MakeRecord(Original, configMissing, false, false, false), originals)
    + Copies(MakeRecord(Replay, false, false, false, false), replays)
    + Copies(MakeRecord(Original, false, false, false, true), finalized)
  }

  lemma CycleIsMade(originals: nat, configMissing: bool, replays: nat, finalized: nat)
    ensures AllMade(CycleOf(originals, configMissing, replays, finalized))
    ensures Total(Replays, CycleOf(originals, configMissing, replays, finalized)) == replays
  {
    hide MakeRecord, Made, Total;
    CopiesAreMade(Original, configMissing, false, originals);
    CopiesAreMade(Replay, false, false, replays);
    CopiesAreMade(Original, false, true, finalized);
    var a, b := Copies(MakeRecord(Original, configMissing, false, false, false), originals),
                Copies(MakeRecord(Replay, false, false, false, false), replays);
    TotalConcat(Replays, a, b);
    TotalConcat(Replays, a + b, Copies(MakeRecord(Original, false, false, false, true), finalized));
  }

  method RunCampaignCycle(count: int, includeReplay: bool, includeFinalized: bool, configMissing: bool)
    returns (rs: seq<CampaignRecord>)
    ensures var replays := if includeReplay then ReplayShare(count) else 0;
            && rs == CycleOf(Max(0, count), configMissing, replays, One(includeFinalized))
            && |rs| == Max(0, count) + replays + One(includeFinalized)
            && Total(Replays, rs) == replays
    ensures AllMade(rs)
  {
    hide MakeRecord, Total, Made;
    rs := AppendRecords([], count, Original, configMissing, false);
    if includeReplay { rs := AppendRecords(rs, ReplayShare(count), Replay, false, false); }
    if includeFinalized { rs := AppendRecords(rs, 1, Original, false, true); }
    CycleIsMade(Max(0, count), configMissing, if includeReplay then ReplayShare(count) else 0, One(includeFinalized));
  }

  /** How many of the cycles carry a replay share. */
  function Thirds(cycles: nat): (n: nat)
    ensures cycles <= 3 * n < cycles + 3
  {
    (cycles + 2) / 3
  }

  lemma NextCycle(i: nat, count: int, thirds: nat, one: nat, share: int)
    requires one <= 1
    ensures (i + 1) * count == i * count + count
    ensures (thirds + one) * share == thirds * share + if one == 1 then share else 0
  {}

  lemma NoReplays()
    ensures Total(Replays, []) == 0
  {}

  method CleanMetrics(rs: seq<CampaignRecord>) returns (m: Metrics)
    requires AllMade(rs)
    ensures MetricsOf(m, rs) && m.replays == Total(Replays, rs)
    ensures m.orchestrations == m.suppressions == |rs| && !m.degradedStatus
    ensures AuditPasses(rs) && CertificationPasses(rs)
  {
    hide Total, AuditPasses, CertificationPasses;
    MadeCampaignIsClean(rs);
    m := ComputeMetrics(rs);
  }

  /** Closed-form volumes: every third cycle, starting with the first, carries a replay share. */
  method RunFullCampaign(cycles: int, countPerCycle: int) returns (m: Metrics, all: seq<CampaignRecord>)
    ensures |all| == Max(0, cycles) * Max(0, countPerCycle) + Thirds(Max(0, cycles)) * ReplayShare(countPerCycle)
    ensures m.replays == Thirds(Max(0, cycles)) * ReplayShare(countPerCycle)
    ensures m.orchestrations == m.suppressions == |all| && !m.degradedStatus
    ensures AllMade(all) && MetricsOf(m, all) && AuditPasses(all) && CertificationPasses(all)
  {
    hide Made, Total, MetricsOf, AuditPasses, CertificationPasses;
    all := [];
    NoReplays();
    var share := ReplayShare(countPerCycle);
    for i := 0 to Max(0, cycles)
      invariant |all| == i * Max(0, countPerCycle) + Thirds(i) * share
      invariant Total(Replays, all) == Thirds(i) * share
      invariant AllMade(all)
    {
      var rs := RunCampaignCycle(countPerCycle, i % 3 == 0, false, false);
      assert forall k :: 0 <= k < |rs| ==> Made(rs[k]);
      TotalConcat(Replays, all, rs);
      assert Thirds(i + 1) == Thirds(i) + One(i % 3 == 0);
      NextCycle(i, Max(0, countPerCycle), Thirds(i), One(i % 3 == 0), share);
      all := all + rs;
    }
    m := CleanMetrics(all);
  }

  method RunLoadCampaign(volume: int) returns (m: Metrics, rs: seq<CampaignRecord>)
    ensures |rs| == Max(1, volume) && m.replays == ReplayShare(volume)
    ensures rs == CycleOf(|rs| - ReplayShare(volume), false, ReplayShare(volume), 0)
    ensures m.orchestrations == m.suppressions == |rs| && !m.degradedStatus
    ensures AllMade(rs) && MetricsOf(m, rs) && AuditPasses(rs) && CertificationPasses(rs)
  {
    hide MakeRecord, Total, Made, MetricsOf, AuditPasses, CertificationPasses;
    var replays := ReplayShare(volume);
    rs := AppendRecords([], volume - replays, Original, false, false);
    rs := AppendRecords(rs, replays, Replay, false, false);
    CycleIsMade(Max(0, volume - replays), false, replays, 0);
    assert rs == CycleOf(Max(0, volume - replays), false, replays, 0);
    m := CleanMetrics(rs);
  }
}
