/** RULE 0 of the repository layer: which writes the governance gate lets through. */
module Persistence {
  import opened Wrappers

  datatype Code =
    | CorrelationIdMissing
    | ExecutionModeMissing | InvalidExecutionMode
    | ExecutionTypeMissing | InvalidExecutionType
    | GovernanceScopeMissing
    | FinalizedMutationBlocked
    | ReplayLiveOverwriteBlocked
    | IdempotencyDuplicate

  const VALID_EXECUTION_MODES: set<string> :=
    {"LIVE", "SHADOW", "REPLAY", "REGENERATION", "DEGRADED", "MAINTENANCE"}
  const VALID_EXECUTION_TYPES: set<string> := {"original", "replay", "regeneration", "recovery"}
  const REPLAY_EXECUTION_TYPES: set<string> := {"replay", "regeneration"}

  /** The fields the gate and the persisted rows look at; an absent field is the empty string. */
  datatype Attribution = Attribution(
    correlationId: string,
    executionMode: string,
    executionType: string,
    governanceScope: string,
    isReplay: bool)

  predicate AttributionValid(a: Attribution) {
    && a.correlationId != ""
    && a.executionMode in VALID_EXECUTION_MODES
    && a.executionType in VALID_EXECUTION_TYPES
    && a.governanceScope != ""
  }

  /** A nonempty key of a non-replay write is held against the key store. */
  predicate HoldsKey(executionType: string, key: Option<string>) {
    key.Some? && key.value != "" && executionType !in REPLAY_EXECUTION_TYPES
  }

  predicate Duplicate(executionType: string, key: Option<string>, store: set<string>) {
    HoldsKey(executionType, key) && key.value in store
  }

  /** The fact a blocking code reports. */
  predicate Cause(c: Code, a: Attribution, key: Option<string>, store: set<string>, isFinalized: bool,
                  targetIsLive: bool) {
    match c
    case CorrelationIdMissing => a.correlationId == ""
    case ExecutionModeMissing => a.executionMode == ""
    case InvalidExecutionMode => a.executionMode != "" && a.executionMode !in VALID_EXECUTION_MODES
    case ExecutionTypeMissing => a.executionType == ""
    case InvalidExecutionType => a.executionType != "" && a.executionType !in VALID_EXECUTION_TYPES
    case GovernanceScopeMissing => a.governanceScope == ""
    case FinalizedMutationBlocked => isFinalized
    case ReplayLiveOverwriteBlocked => a.isReplay && targetIsLive
    case IdempotencyDuplicate => Duplicate(a.executionType, key, store)
  }

  /** Which attributions and which keys pass, word by word. */
  lemma GateWords(a: Attribution, key: Option<string>, store: set<string>)
    ensures AttributionValid(a) <==>
            && a.correlationId != "" && a.governanceScope != ""
            && (a.executionMode == "LIVE" || a.executionMode == "SHADOW" || a.executionMode == "REPLAY"
                || a.executionMode == "REGENERATION" || a.executionMode == "DEGRADED"
                || a.executionMode == "MAINTENANCE")
            && (a.executionType == "original" || a.executionType == "replay" || a.executionType == "regeneration"
                || a.executionType == "recovery")
    ensures Duplicate(a.executionType, key, store) <==>
            && key.Some? && key.value != "" && key.value in store
            && a.executionType != "replay" && a.executionType != "regeneration"
  {}

  method CheckAttributionFields(a: Attribution) returns (codes: seq<Code>)
    ensures codes == [] <==> AttributionValid(a)
    ensures forall c :: c in codes ==> Cause(c, a, None, {}, false, false)
    ensures forall c :: Cause(c, a, None, {}, false, false) ==> c in codes
  {
    codes := [];
    if a.correlationId == "" { codes := codes + [CorrelationIdMissing]; }
    if a.executionMode == "" {
      codes := codes + [ExecutionModeMissing];
    } else if a.executionMode !in VALID_EXECUTION_MODES {
      codes := codes + [InvalidExecutionMode];
    }
    if a.executionType == "" {
      codes := codes + [ExecutionTypeMissing];
    } else if a.executionType !in VALID_EXECUTION_TYPES {
      codes := codes + [InvalidExecutionType];
    }
    if a.governanceScope == "" { codes := codes + [GovernanceScopeMissing]; }
  }

  /** A write passes exactly when its attribution is valid and none of the three guards objects. */
  method GovernancePersistenceGate(
    a: Attribution, key: Option<string>, store: set<string>,
    isFinalized: bool := false, targetIsLive: bool := false)
    returns (codes: seq<Code>)
    ensures forall c :: c in codes <==> Cause(c, a, key, store, isFinalized, targetIsLive)
    ensures codes == [] <==>
            && AttributionValid(a) && !isFinalized && !(a.isReplay && targetIsLive)
            && !Duplicate(a.executionType, key, store)
  {
    codes := CheckAttributionFields(a);
    if isFinalized { codes := codes + [FinalizedMutationBlocked]; }
    if a.isReplay && targetIsLive { codes := codes + [ReplayLiveOverwriteBlocked]; }
    if Duplicate(a.executionType, key, store) { codes := codes + [IdempotencyDuplicate]; }
  }
}
