/** The outreach tables, the session that writes them, and the two handlers that move a tracking row. */
module OutreachStore {
  import opened Wrappers
  import opened StateMachine
  import opened Persistence

  // ---- Rows ----

  /** A webhook body. `wellTyped` says whether it parses as a webhook payload; `rest` is all other content. */
  datatype Payload = Payload(
    eventType: Option<string>,
    userId: Option<int>,
    outcome: Option<string>,
    transcript: Option<string>,
    rest: string,
    wellTyped: bool)

  /** The event hash, taken to identify the body it was computed from. */
  datatype Digest = Sha256(raw: Payload)

  datatype TrackingRow = TrackingRow(
    id: int, userId: int, checkpoint: string, state: State, attempt: int, updatedAt: int)

  datatype LogRow = LogRow(
    trackingId: int, userId: int, from: State, to: State, trigger: string, actor: string, attribution: Attribution)

  datatype HistoryRow = HistoryRow(
    trackingId: int, userId: int, checkpoint: string, attempt: int,
    channel: string, action: string, decision: string,
    payload: Option<Payload>, analysed: bool,
    before: State, after: State,
    attribution: Attribution, key: Option<string>)

  datatype Db = Db(
    tracking: seq<TrackingRow>,
    log: seq<LogRow>,
    history: seq<HistoryRow>,
    events: seq<Digest>)

  /** Where a request can be cut short by an exception. */
  datatype Fault = NoFault | EventFlush | Analysis | StateFlush | LogFlush | HistoryFlush | CommitFails

  datatype Persisted = Inserted | Rejected | Raised

  // ---- Queries ----

  datatype Lookup = NoRow | OneRow(index: nat) | ManyRows

  /** `scalar_one_or_none` over the rows of a user. */
  function RowOf(rows: seq<TrackingRow>, userId: int): (r: Lookup)
    ensures r.NoRow? <==> forall i :: 0 <= i < |rows| ==> rows[i].userId != userId
    ensures r.OneRow? ==> r.index < |rows| && rows[r.index].userId == userId
    ensures r.OneRow? ==> forall i :: 0 <= i < |rows| && i != r.index ==> rows[i].userId != userId
    ensures r.ManyRows? ==> exists i, j :: 0 <= i < j < |rows| && rows[i].userId == rows[j].userId == userId
  {
    if rows == [] then NoRow
    else
      var last := |rows| - 1;
      var r := RowOf(rows[..last], userId);
      if rows[last].userId != userId then r
      else if r.NoRow? then OneRow(last)
      else ManyRows
  }

  /** `order_by(updated_at.desc()).limit(1)` over the rows of a user. */
  function LatestRowOf(rows: seq<TrackingRow>, userId: int): (r: Option<nat>)
    ensures r.None? <==> forall i :: 0 <= i < |rows| ==> rows[i].userId != userId
    ensures r.Some? ==> r.value < |rows| && rows[r.value].userId == userId
    ensures r.Some? ==> forall i :: 0 <= i < |rows| && rows[i].userId == userId ==>
              rows[i].updatedAt <= rows[r.value].updatedAt
  {
    if rows == [] then None
    else
      var last := |rows| - 1;
      var r := LatestRowOf(rows[..last], userId);
      if rows[last].userId != userId then r
      else if r.None? || rows[r.value].updatedAt <= rows[last].updatedAt then Some(last)
      else r
  }

  // ---- Webhook deliveries ----

  type NonEmpty = s: string | s != "" witness "c"

  /**
   * One request: the settings' mode string, the extracted correlation ids, the clock, and where it fails, if it does.
   */
  datatype Delivery = Delivery(
    raw: Payload, mode: string, correlationId: NonEmpty, logCorrelationId: NonEmpty, now: int, fault: Fault)

  datatype Response = Deduplicated | InvalidEvent | MissingUserId | NotFound | Processed(newState: State) | Failed

  const ANSWER_EVENTS: set<string> := {"CALL_COMPLETED", "SMS_RESPONSE", "EMAIL_RESPONSE"}
  const VALID_GHL_EVENTS: set<string> := ANSWER_EVENTS + {"TRANSCRIPT_READY"}
  const POSITIVE_OUTCOMES: set<string> := {"connected", "responded", "replied", "yes"}

  /** No letter outside ASCII lowers to a letter that occurs in a positive outcome. */
  function Lower(s: string): (r: string)
    ensures |r| == |s|
    ensures forall i :: 0 <= i < |s| ==>
              if 'A' <= s[i] <= 'Z' then 'a' <= r[i] <= 'z' && r[i] - 'a' == s[i] - 'A' else r[i] == s[i]
  {
    seq(|s|, i requires 0 <= i < |s| => if 'A' <= s[i] <= 'Z' then s[i] - 'A' + 'a' else s[i])
  }

  predicate Present(s: Option<string>) { s.Some? && s.value != "" }

  /** The state a delivery of a valid event asks for. */
  function RequestedState(raw: Payload): State {
    if raw.eventType.Some? && raw.eventType.value in ANSWER_EVENTS then
      if raw.outcome.Some? && Lower(raw.outcome.value) in POSITIVE_OUTCOMES then Responded else NoResponse
    else
      Analyzed
  }

  predicate Moves(state: State, raw: Payload) {
    RequestedState(raw) != state && CanTransition(state, RequestedState(raw))
  }

  function RequestAttribution(d: Delivery): Attribution {
    var scope := if d.mode == "SHADOW" then "SHADOW_ONLY" else "LIVE_AUTHORIZED";
    Attribution(d.correlationId, d.mode, "original", scope, false)
  }

  function HandlerAttribution(correlationId: string, mode: string): Attribution {
    Attribution(correlationId, mode, "original", if mode == "REPLAY" then "REPLAY_ONLY" else "SHADOW_ONLY", false)
  }

  /** A delivery that gets as far as changing anything does so unless one of its steps raises. */
  predicate FaultFires(state: State, d: Delivery) {
    match d.fault
    case NoFault => false
    case StateFlush => false
    case Analysis => Present(d.raw.transcript)
    case LogFlush => Moves(state, d.raw)
    case _ => true
  }

  predicate KnownEvent(raw: Payload) {
    raw.eventType.Some? && raw.eventType.value in VALID_GHL_EVENTS
  }

  /** The delivery gets past the event store. */
  predicate Fresh(db: Db, d: Delivery) {
    d.mode in VALID_EXECUTION_MODES && Sha256(d.raw) !in db.events && d.fault != EventFlush
  }

  /** Everything that must hold for a delivery to leave a trace. */
  predicate Accepted(db: Db, d: Delivery) {
    && Fresh(db, d)
    && KnownEvent(d.raw)
    && d.raw.wellTyped
    && d.raw.userId.Some?
    && var r := RowOf(db.tracking, d.raw.userId.value);
       r.OneRow? && !FaultFires(db.tracking[r.index].state, d)
  }

  function WebhookLogRow(row: TrackingRow, d: Delivery): LogRow
    requires d.raw.eventType.Some?
  {
    LogRow(row.id, row.userId, row.state, RequestedState(d.raw), "webhook:" + d.raw.eventType.value, "webhook",
           HandlerAttribution(d.logCorrelationId, d.mode))
  }

  function WebhookHistoryRow(row: TrackingRow, after: State, d: Delivery): HistoryRow
    requires d.raw.eventType.Some?
  {
    HistoryRow(row.id, row.userId, row.checkpoint, row.attempt,
               "GHL_WEBHOOK", "WEBHOOK_" + d.raw.eventType.value, "WEBHOOK_PROCESSED:" + d.raw.eventType.value,
               Some(d.raw), Present(d.raw.transcript), row.state, after, RequestAttribution(d), None)
  }

  /** The whole effect of an accepted delivery, on all four tables at once. */
  function AfterDelivery(db: Db, d: Delivery): Db
    requires Accepted(db, d)
  {
    var i := RowOf(db.tracking, d.raw.userId.value).index;
    var row := db.tracking[i];
    var moves := Moves(row.state, d.raw);
    var after := if moves then RequestedState(d.raw) else row.state;
    Db(if moves then db.tracking[i := row.(state := after, updatedAt := d.now)] else db.tracking,
       if moves then db.log + [WebhookLogRow(row, d)] else db.log,
       db.history + [WebhookHistoryRow(row, after, d)],
       db.events + [Sha256(d.raw)])
  }

  // ---- Manual actions ----

  datatype Manual = Manual(userId: int, action: string, mode: string, correlationId: NonEmpty, now: int, fault: Fault)

  datatype ManualResponse = Done(from: State, to: State) | InvalidAction | NoTracking | InvalidTransition | ManualFailed

  const ACTION_TO_STATE: map<string, State> := map[
    "CLOSE_CASE" := Closed,
    "FORCE_RETRY" := Retry,
    "ESCALATE" := InterventionRequired,
    "BOOK_MEETING" := Resolved
  ]

  predicate ManualFaultFires(m: Manual) {
    match m.fault
    case StateFlush => true
    case CommitFails => true
    case LogFlush => m.mode in VALID_EXECUTION_MODES
    case _ => false
  }

  /** The user has a latest row, and the table allows its move to the action's state. */
  predicate Movable(db: Db, m: Manual)
    requires m.action in ACTION_TO_STATE
  {
    var r := LatestRowOf(db.tracking, m.userId);
    r.Some? && CanTransition(db.tracking[r.value].state, ACTION_TO_STATE[m.action])
  }

  predicate ManualApplies(db: Db, m: Manual) {
    m.action in ACTION_TO_STATE && !ManualFaultFires(m) && Movable(db, m)
  }

  function ManualLogRow(row: TrackingRow, m: Manual): LogRow
    requires m.action in ACTION_TO_STATE
  {
    LogRow(row.id, m.userId, row.state, ACTION_TO_STATE[m.action], m.action, "operator",
           HandlerAttribution(m.correlationId, m.mode))
  }

  /** The state always moves; the log row is written only under a mode the gate knows. */
  function AfterManual(db: Db, m: Manual): Db
    requires ManualApplies(db, m)
  {
    var i := LatestRowOf(db.tracking, m.userId).value;
    var row := db.tracking[i];
    db.(tracking := db.tracking[i := row.(state := ACTION_TO_STATE[m.action], updatedAt := m.now)],
        log := if m.mode in VALID_EXECUTION_MODES then db.log + [ManualLogRow(row, m)] else db.log)
  }

  // ---- The keyed history ledger ----

  /** What the history key store is about: committed rows, rows of the open transaction, keys held in memory. */
  datatype Ledger = Ledger(committed: seq<HistoryRow>, staged: seq<HistoryRow>, keys: set<string>)

  predicate Admits(l: Ledger, row: HistoryRow) {
    AttributionValid(row.attribution) && !Duplicate(row.attribution.executionType, row.key, l.keys)
  }

  predicate IsLive(row: HistoryRow) { HoldsKey(row.attribution.executionType, row.key) }

  function HeldKeys(row: HistoryRow): set<string> {
    if IsLive(row) then {row.key.value} else {}
  }

  /** A failed flush loses the transaction but not the key it took. */
  function AfterAppend(l: Ledger, row: HistoryRow, flushFails: bool): Ledger {
    if !Admits(l, row) then l
    else Ledger(l.committed, if flushFails then l.committed else l.staged + [row], l.keys + HeldKeys(row))
  }

  // ---- The session ----

  class Store {
    var committed: Db
    var staged: Db
    var historyKeys: set<string>

    constructor (db: Db)
      ensures committed == staged == db && historyKeys == {}
    {
      committed, staged, historyKeys := db, db, {};
    }

    function HistoryLedger(): Ledger
      reads this
    {
      Ledger(committed.history, staged.history, historyKeys)
    }

    method Commit()
      modifies this`committed
      ensures committed == staged
    {
      committed := staged;
    }

    /**
     * A new session, a session closed without commit, and a transaction rolled back all start from the committed
     * state.
     */
    method Rollback()
      modifies this`staged
      ensures staged == committed
    {
      staged := committed;
    }

    /**
     * A new hash is staged once; a hash on record, or a write the gate rejects, is refused alike.
     * The gate's duplicate code is filtered out by the source, so the gate is asked without a key.
     */
    method RecordProcessedEvent(raw: Payload, a: Attribution, flushFails: bool) returns (r: Persisted)
      modifies this`staged
      ensures r.Rejected? <==> !AttributionValid(a) || Sha256(raw) in old(staged).events
      ensures r.Inserted? <==> !r.Rejected? && !flushFails
      ensures staged == match r
                        case Inserted => old(staged).(events := old(staged).events + [Sha256(raw)])
                        case Rejected => old(staged)
                        case Raised => committed
    {
      var codes := GovernancePersistenceGate(a, None, {});
      if codes != [] { return Rejected; }
      if Sha256(raw) in staged.events { return Rejected; }
      if flushFails { Rollback(); return Raised; }
      staged := staged.(events := staged.events + [Sha256(raw)]);
      r := Inserted;
    }

    /** The log only grows, and grows exactly when the attribution passes the gate. */
    method AppendStateTransition(row: LogRow, flushFails: bool) returns (r: Persisted)
      modifies this`staged
      ensures r.Rejected? <==> !AttributionValid(row.attribution)
      ensures r.Inserted? <==> !r.Rejected? && !flushFails
      ensures staged == match r
                        case Inserted => old(staged).(log := old(staged).log + [row])
                        case Rejected => old(staged)
                        case Raised => committed
    {
      var codes := GovernancePersistenceGate(row.attribution, None, {});
      if codes != [] { return Rejected; }
      if flushFails { Rollback(); return Raised; }
      staged := staged.(log := staged.log + [row]);
      r := Inserted;
    }

    method AppendOutreachHistory(row: HistoryRow, flushFails: bool) returns (r: Persisted)
      modifies this`staged, this`historyKeys
      ensures r.Rejected? <==> !Admits(old(HistoryLedger()), row)
      ensures r.Inserted? <==> !r.Rejected? && !flushFails
      ensures HistoryLedger() == AfterAppend(old(HistoryLedger()), row, flushFails)
      ensures staged == match r
                        case Inserted => old(staged).(history := old(staged).history + [row])
                        case Rejected => old(staged)
                        case Raised => committed
    {
      var codes := GovernancePersistenceGate(row.attribution, row.key, historyKeys);
      if codes != [] { return Rejected; }
      if row.key.Some? && row.key.value != "" && row.attribution.executionType !in REPLAY_EXECUTION_TYPES {
        historyKeys := historyKeys + {row.key.value};
      }
      if flushFails { Rollback(); return Raised; }
      staged := staged.(history := staged.history + [row]);
      r := Inserted;
    }

    /** Each delivery is all or nothing: the whole effect of an accepted one, no trace of any other. */
    method GhlWebhook(d: Delivery) returns (r: Response)
      modifies this`committed, this`staged, this`historyKeys
      ensures committed == if Accepted(old(committed), d) then AfterDelivery(old(committed), d) else old(committed)
      ensures r.Processed? <==> Accepted(old(committed), d)
      ensures r.Processed? ==> r.newState == committed.history[|committed.history| - 1].after
      ensures r.Deduplicated? <==> d.mode !in VALID_EXECUTION_MODES || Sha256(d.raw) in old(committed).events
      ensures r.InvalidEvent? <==> Fresh(old(committed), d) && !KnownEvent(d.raw)
      ensures r.MissingUserId? <==>
                Fresh(old(committed), d) && KnownEvent(d.raw) && d.raw.wellTyped && d.raw.userId.None?
      ensures r.NotFound? <==>
              && Fresh(old(committed), d) && KnownEvent(d.raw) && d.raw.wellTyped && d.raw.userId.Some?
              && RowOf(old(committed).tracking, d.raw.userId.value).NoRow?
      ensures staged == committed && historyKeys == old(historyKeys)
    {
      hide RowOf, AfterDelivery, FaultFires;
      Rollback();
      var a := RequestAttribution(d);
      var event := RecordProcessedEvent(d.raw, a, d.fault == EventFlush);
      if event.Raised? { return Failed; }
      if event.Rejected? { return Deduplicated; }
      if !KnownEvent(d.raw) { Rollback(); return InvalidEvent; }
      if !d.raw.wellTyped { Rollback(); return Failed; }
      if d.raw.userId.None? { Rollback(); return MissingUserId; }
      var found := RowOf(staged.tracking, d.raw.userId.value);
      if found.ManyRows? { Rollback(); return Failed; }
      if found.NoRow? { Rollback(); return NotFound; }

      r := ProcessEvent(d, found.index);
    }

    /** The handler from the tracking row on, with the event already staged: everything commits, or nothing does. */
    method ProcessEvent(d: Delivery, index: nat) returns (r: Response)
      requires Fresh(committed, d) && KnownEvent(d.raw) && d.raw.wellTyped && d.raw.userId.Some?
      requires RowOf(committed.tracking, d.raw.userId.value) == OneRow(index)
      requires staged == committed.(events := committed.events + [Sha256(d.raw)])
      modifies this`committed, this`staged, this`historyKeys
      ensures committed == if Accepted(old(committed), d) then AfterDelivery(old(committed), d) else old(committed)
      ensures r == if Accepted(old(committed), d)
              then Processed(committed.history[|committed.history| - 1].after) else Failed
      ensures staged == committed && historyKeys == old(historyKeys)
    {
      hide RowOf, Lower, RequestedState, CanTransition;
      var row := staged.tracking[index];
      if Present(d.raw.transcript) && d.fault == Analysis { Rollback(); return Failed; }
      var after, raised := StageMove(d, index);
      if raised { return Failed; }
      var appended := AppendOutreachHistory(WebhookHistoryRow(row, after, d), d.fault == HistoryFlush);
      if appended.Raised? { return Failed; }
      if d.fault == CommitFails { Rollback(); return Failed; }
      Commit();
      r := Processed(after);
    }

    /** A legal move to another state is staged on the row together with its log row. */
    method StageMove(d: Delivery, index: nat) returns (after: State, raised: bool)
      requires index < |staged.tracking| && d.mode in VALID_EXECUTION_MODES && d.raw.eventType.Some?
      modifies this`staged
      ensures var row := old(staged).tracking[index];
              && raised == (Moves(row.state, d.raw) && d.fault == LogFlush)
              && after == (if Moves(row.state, d.raw) then RequestedState(d.raw) else row.state)
              && staged == (if raised then committed
                            else if Moves(row.state, d.raw)
                            then var moved := row.(state := after, updatedAt := d.now);
                                 old(staged).(tracking := old(staged).tracking[index := moved],
                                              log := old(staged).log + [WebhookLogRow(row, d)])
                            else old(staged))
    {
      var row, to := staged.tracking[index], Analyzed;
      var event := d.raw.eventType.value;
      if event == "CALL_COMPLETED" || event == "SMS_RESPONSE" || event == "EMAIL_RESPONSE" {
        to := NoResponse;
        if d.raw.outcome.Some? {
          var outcome := Lower(d.raw.outcome.value);
          if outcome == "connected" || outcome == "responded" || outcome == "replied" || outcome == "yes" {
            to := Responded;
          }
        }
      }
      assert to == RequestedState(d.raw);
      after, raised := row.state, false;
      if to != row.state && CanTransition(row.state, to) {
        staged := staged.(tracking := staged.tracking[index := row.(state := to, updatedAt := d.now)]);
        after := to;
        var logged := AppendStateTransition(WebhookLogRow(row, d), d.fault == LogFlush);
        raised := logged.Raised?;
      }
    }

    /** The result of the log append is not looked at: the state is committed even when its log row was refused. */
    method ExecuteManualAction(m: Manual) returns (r: ManualResponse)
      modifies this`committed, this`staged
      ensures committed == if ManualApplies(old(committed), m) then AfterManual(old(committed), m) else old(committed)
      ensures r.Done? <==> ManualApplies(old(committed), m)
      ensures r.Done? ==>
        var row := old(committed).tracking[LatestRowOf(old(committed).tracking, m.userId).value];
        r == Done(row.state, ACTION_TO_STATE[m.action])
      ensures r.InvalidAction? <==> m.action !in ACTION_TO_STATE
      ensures r.NoTracking? <==> m.action in ACTION_TO_STATE && LatestRowOf(old(committed).tracking, m.userId).None?
      ensures r.InvalidTransition? <==>
              && m.action in ACTION_TO_STATE && LatestRowOf(old(committed).tracking, m.userId).Some?
              && !Movable(old(committed), m)
      ensures r.ManualFailed? <==> m.action in ACTION_TO_STATE && ManualFaultFires(m) && Movable(old(committed), m)
      ensures staged == committed
    {
      Rollback();
      if m.action !in ACTION_TO_STATE { return InvalidAction; }
      var target := ACTION_TO_STATE[m.action];
      var found := LatestRowOf(staged.tracking, m.userId);
      if found.None? { return NoTracking; }
      var row := staged.tracking[found.value];
      if !CanTransition(row.state, target) { return InvalidTransition; }
      if m.fault == StateFlush { return ManualFailed; }
      staged := staged.(tracking := staged.tracking[found.value := row.(state := target, updatedAt := m.now)]);
      var logged := AppendStateTransition(ManualLogRow(row, m), m.fault == LogFlush);
      if logged.Raised? { return ManualFailed; }
      if m.fault == CommitFails { Rollback(); return ManualFailed; }
      Commit();
      r := Done(row.state, target);
    }
  }
}
