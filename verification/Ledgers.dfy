/** The in-memory idempotency stores of the advisory services, over every sequence of calls. */
module Ledgers {
  import opened Wrappers

  /**
   * A call as its store sees it: whether every other condition on the way to the store holds, and whether it takes
   * its key.
   */
  datatype Call = Call(valid: bool, takes: bool, key: Option<string>)

  function KeyOf(c: Call): set<string> {
    if c.key.Some? && c.key.value != "" then {c.key.value} else {}
  }

  predicate Admits(keys: set<string>, c: Call) { c.valid && KeyOf(c) !! keys }

  function After(keys: set<string>, c: Call): set<string> {
    if Admits(keys, c) && c.takes then keys + KeyOf(c) else keys
  }

  function Store(keys: set<string>, calls: seq<Call>): set<string> {
    if calls == [] then keys
    else After(Store(keys, calls[..|calls| - 1]), calls[|calls| - 1])
  }

  /** Call i of the run is admitted. */
  predicate Admitted(keys: set<string>, calls: seq<Call>, i: nat)
    requires i < |calls|
  {
    Admits(Store(keys, calls[..i]), calls[i])
  }

  /** The store holds what it started with and the keys of the admitted taking calls, no more and no less. */
  lemma {:induction false} StoreIsKeysTaken(keys: set<string>, calls: seq<Call>, key: string)
    ensures key in Store(keys, calls) <==>
            || key in keys
            || exists i :: 0 <= i < |calls| && Admitted(keys, calls, i) && calls[i].takes && key in KeyOf(calls[i])
  {
    if calls != [] {
      var m := |calls| - 1;
      var init := calls[..m];
      StoreIsKeysTaken(keys, init, key);
      forall i | 0 <= i < m ensures calls[i] == init[i] && Admitted(keys, calls, i) == Admitted(keys, init, i) {
        assert calls[..i] == init[..i];
      }
      assert calls[..m] == init;
      if key in Store(keys, calls) && key !in Store(keys, init) {
        assert Admitted(keys, calls, m) && calls[m].takes && key in KeyOf(calls[m]);
      }
    }
  }

  /** A call is admitted exactly when it is valid and no earlier admitted call took its key. */
  lemma AdmittedIff(keys: set<string>, calls: seq<Call>, i: nat)
    requires i < |calls|
    ensures Admitted(keys, calls, i) <==>
            && calls[i].valid && KeyOf(calls[i]) !! keys
            && forall j :: 0 <= j < i && Admitted(keys, calls, j) && calls[j].takes ==>
              KeyOf(calls[j]) !! KeyOf(calls[i])
  {
    var before := calls[..i];
    forall j | 0 <= j < i ensures calls[j] == before[j] && Admitted(keys, calls, j) == Admitted(keys, before, j) {
      assert calls[..j] == before[..j];
    }
    forall key ensures key in Store(keys, before) <==>
              || key in keys
              || exists j :: 0 <= j < i && Admitted(keys, before, j) && before[j].takes && key in KeyOf(before[j]) {
      StoreIsKeysTaken(keys, before, key);
    }
  }

  /** Once an admitted call has taken a key, no later call with that key is admitted, whatever its kind. */
  lemma KeyIsTakenOnce(keys: set<string>, calls: seq<Call>, i: nat, j: nat)
    requires i < j < |calls| && Admitted(keys, calls, i) && calls[i].takes
    requires KeyOf(calls[i]) != {} && KeyOf(calls[j]) == KeyOf(calls[i])
    ensures !Admitted(keys, calls, j)
  {
    AdmittedIff(keys, calls, j);
  }

  // ---- Coordination and AI: original calls take their key ----

  datatype Context = Context(mode: string, executionType: string, identified: bool, key: Option<string>)

  const VALID_MODES := {"SHADOW", "LIVE"}
  const REPLAY_TYPES := {"replay", "regeneration"}

  function OriginalCall(ctx: Context, types: set<string>): Call {
    Call((ctx.mode == "SHADOW" || ctx.mode == "LIVE") && ctx.executionType in types && ctx.identified,
         ctx.executionType == "original", ctx.key)
  }

  datatype CoordinationKind = Blocked | Maintenance | Replayed | Coordinated

  class CoordinationService {
    var keys: set<string>

    constructor () ensures keys == {} { keys := {}; }

    /** The key is taken before the maintenance and replay exits, but only by original execution. */
    method Coordinate(ctx: Context, maintenance: bool) returns (kind: CoordinationKind)
      modifies this`keys
      ensures var call := OriginalCall(ctx, {"original", "replay", "regeneration", "recovery"});
              (kind != Blocked <==> Admits(old(keys), call)) && keys == After(old(keys), call)
      ensures kind == Maintenance <==> kind != Blocked && maintenance
      ensures kind == Replayed <==>
                && kind != Blocked && !maintenance
                && (ctx.executionType == "replay" || ctx.executionType == "regeneration")
    {
      var ok := true;
      if ctx.mode !in VALID_MODES { ok := false; }
      if ctx.executionType !in {"original", "replay", "regeneration", "recovery"} { ok := false; }
      if !ctx.identified { ok := false; }
      if ctx.key.Some? && ctx.key.value != "" && ctx.key.value in keys { ok := false; }
      if !ok { return Blocked; }
      if ctx.key.Some? && ctx.key.value != "" && ctx.executionType == "original" { keys := keys + {ctx.key.value}; }
      if maintenance { return Maintenance; }
      if ctx.executionType in REPLAY_TYPES { return Replayed; }
      kind := Coordinated;
    }
  }

  class AiService {
    var keys: set<string>

    constructor () ensures keys == {} { keys := {}; }

    /** RULE 0 and the key registration that follows it; the tier rules behind them do not touch the store. */
    method Admit(ctx: Context) returns (accepted: bool)
      modifies this`keys
      ensures var call := OriginalCall(ctx, {"original", "replay", "regeneration"});
              accepted == Admits(old(keys), call) && keys == After(old(keys), call)
    {
      accepted := true;
      if ctx.mode !in VALID_MODES { accepted := false; }
      if ctx.executionType !in {"original", "replay", "regeneration"} { accepted := false; }
      if !ctx.identified { accepted := false; }
      if ctx.key.Some? && ctx.key.value != "" && ctx.key.value in keys { accepted := false; }
      if accepted && ctx.key.Some? && ctx.key.value != "" && ctx.executionType == "original" {
        keys := keys + {ctx.key.value};
      }
    }
  }

  // ---- Alerts: every accepted call takes its key ----

  datatype AlertCode =
    | AttributionIncomplete | InvalidExecutionMode | InvalidExecutionType | ReplayLineageIncomplete | KeyDuplicate

  function AlertCall(ctx: Context, hasHistoricalConfig: bool): Call {
    var isReplay := ctx.executionType == "replay" || ctx.executionType == "regeneration";
    Call((ctx.mode == "SHADOW" || ctx.mode == "LIVE") && ctx.identified
         && (isReplay || ctx.executionType == "original" || ctx.executionType == "recovery")
         && (isReplay ==> hasHistoricalConfig), true, ctx.key)
  }

  class AlertService {
    var keys: set<string>

    constructor () ensures keys == {} { keys := {}; }

    method Gate(ctx: Context, hasHistoricalConfig: bool) returns (accepted: bool)
      modifies this`keys
      ensures var call := AlertCall(ctx, hasHistoricalConfig);
              accepted == Admits(old(keys), call) && keys == After(old(keys), call)
    {
      var codes: seq<AlertCode> := [];
      if !ctx.identified { codes := codes + [AttributionIncomplete]; }
      if ctx.mode !in VALID_MODES { codes := codes + [InvalidExecutionMode]; }
      if ctx.executionType !in {"original", "replay", "regeneration", "recovery"} {
        codes := codes + [InvalidExecutionType];
      }
      if ctx.executionType in REPLAY_TYPES && !hasHistoricalConfig { codes := codes + [ReplayLineageIncomplete]; }
      if ctx.key.Some? && ctx.key.value != "" && ctx.key.value in keys { codes := codes + [KeyDuplicate]; }
      if codes != [] { return false; }
      if ctx.key.Some? && ctx.key.value != "" { keys := keys + {ctx.key.value}; }
      accepted := true;
    }
  }

  // ---- GHL: only a call that reaches Rule 9 takes its key ----

  /** The configured retry budget: unset, not a number, or a number. */
  datatype Budget = Unset | Malformed | Limit(n: int)

  datatype ProviderContext = ProviderContext(
    base: Context, complianceHold: bool, breakerOpen: bool, retries: int, budget: Budget)

  datatype ProviderOutcome =
    | PreconditionFailed | ReplaySuppressed | HeldForCompliance | BreakerOpen | ShadowSuppressed
    | BudgetExhausted | DuplicateSuppressed | ShadowOnlyScope

  predicate Identified(ctx: Context) {
    && (ctx.mode == "SHADOW" || ctx.mode == "LIVE") && ctx.identified
    && (ctx.executionType == "original" || ctx.executionType == "replay" || ctx.executionType == "regeneration")
  }

  predicate ReachesDeduplication(p: ProviderContext) {
    && p.base.mode == "LIVE" && p.base.executionType == "original" && p.base.identified
    && !p.complianceHold && !p.breakerOpen
    && !(p.budget.Limit? && p.retries >= p.budget.n)
  }

  function ProviderCall(p: ProviderContext): Call { Call(ReachesDeduplication(p), true, p.base.key) }

  class ProviderService {
    var keys: set<string>

    constructor () ensures keys == {} { keys := {}; }

    /** Shadow, replayed, held, breaker-open and budget-exhausted calls leave the store alone. */
    method AssessProviderOrchestration(p: ProviderContext) returns (r: ProviderOutcome)
      modifies this`keys
      ensures r == ShadowOnlyScope <==> Admits(old(keys), ProviderCall(p))
      ensures r == DuplicateSuppressed <==> ReachesDeduplication(p) && !Admits(old(keys), ProviderCall(p))
      ensures keys == After(old(keys), ProviderCall(p))
      // The six exits ahead of Rule 9, in the order of the rules.
      ensures r == PreconditionFailed <==> !Identified(p.base)
      ensures r == ReplaySuppressed <==> Identified(p.base) && p.base.executionType != "original"
      ensures r == HeldForCompliance <==>
                Identified(p.base) && p.base.executionType == "original" && p.complianceHold
      ensures r == BreakerOpen <==>
                Identified(p.base) && p.base.executionType == "original" && !p.complianceHold && p.breakerOpen
      ensures r == ShadowSuppressed <==>
                && Identified(p.base) && p.base.executionType == "original" && !p.complianceHold && !p.breakerOpen
                && p.base.mode == "SHADOW"
      ensures r == BudgetExhausted <==>
                && Identified(p.base) && p.base.executionType == "original" && !p.complianceHold && !p.breakerOpen
                && p.base.mode == "LIVE" && p.budget.Limit? && p.retries >= p.budget.n
    {
      var ctx := p.base;
      if ctx.mode !in VALID_MODES || ctx.executionType !in {"original", "replay", "regeneration"} || !ctx.identified {
        return PreconditionFailed;
      }
      if ctx.executionType in REPLAY_TYPES { return ReplaySuppressed; }
      if p.complianceHold { return HeldForCompliance; }
      if p.breakerOpen { return BreakerOpen; }
      if ctx.mode == "SHADOW" { return ShadowSuppressed; }
      if p.budget.Limit? && p.retries >= p.budget.n { return BudgetExhausted; }
      if ctx.key.Some? && ctx.key.value != "" {
        if ctx.key.value in keys { return DuplicateSuppressed; }
        keys := keys + {ctx.key.value};
      }
      r := ShadowOnlyScope;
    }
  }
}
