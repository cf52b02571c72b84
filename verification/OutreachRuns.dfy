/** What holds over every serial run of webhook deliveries and manual actions. */
module OutreachRuns {
  import Lists
  import opened Wrappers
  import opened StateMachine
  import Persistence
  import opened OutreachStore

  datatype Step = Webhook(d: Delivery) | Operator(m: Manual)

  /** One handler call, by the contracts of `Store.GhlWebhook` and `Store.ExecuteManualAction`. */
  function Exec(db: Db, step: Step): Db {
    match step
    case Webhook(d) => if Accepted(db, d) then AfterDelivery(db, d) else db
    case Operator(m) => if ManualApplies(db, m) then AfterManual(db, m) else db
  }

  function Run(db: Db, steps: seq<Step>): Db {
    if steps == [] then db
    else Exec(Run(db, steps[..|steps| - 1]), steps[|steps| - 1])
  }

  // ---- Append-only tables, exactly-once events ----

  /** Nothing recorded is changed or dropped, and no tracking row appears, vanishes or changes hands. */
  predicate Extends(db: Db, later: Db) {
    && db.log <= later.log && db.history <= later.history && db.events <= later.events
    && |db.tracking| == |later.tracking|
    && forall i :: 0 <= i < |db.tracking| ==>
         later.tracking[i].id == db.tracking[i].id && later.tracking[i].userId == db.tracking[i].userId
  }

  lemma {:induction false} RunExtends(db: Db, steps: seq<Step>)
    ensures Extends(db, Run(db, steps))
  {
    if steps != [] {
      RunExtends(db, steps[..|steps| - 1]);
    }
  }

  /** The events and the history rows written since `db` are the same deliveries in the same order. */
  predicate Lockstep(db: Db, later: Db)
    requires Extends(db, later)
  {
    var events, history := later.events[|db.events|..], later.history[|db.history|..];
    && |events| == |history|
    && forall k :: 0 <= k < |events| ==> history[k].payload.Some? && events[k] == Sha256(history[k].payload.value)
  }

  /** The body a handler call records, if it records one. */
  function Recorded(db: Db, step: Step): Option<Payload> {
    if step.Webhook? && Accepted(db, step.d) then Some(step.d.raw) else None
  }

  /** A call adds no row to either table, or one to both, for a body not on record. */
  lemma RecordsTogether(db: Db, step: Step)
    ensures var after, raw := Exec(db, step), Recorded(db, step);
            && (raw.None? ==> after.events == db.events && after.history == db.history)
            && (raw.Some? ==>
                  && Sha256(raw.value) !in db.events && after.events == db.events + [Sha256(raw.value)]
                  && |after.history| == |db.history| + 1 && after.history[|db.history|].payload == raw
                  && after.history == db.history + [after.history[|db.history|]])
  {
    hide RowOf, RequestedState, CanTransition, FaultFires;
  }

  lemma LockstepGrows(db: Db, before: Db, after: Db, raw: Payload)
    requires Extends(db, before) && Extends(db, after) && Lockstep(db, before) && Lists.Distinct(before.events)
    requires Sha256(raw) !in before.events && after.events == before.events + [Sha256(raw)]
    requires |after.history| == |before.history| + 1 && after.history[|before.history|].payload == Some(raw)
    requires before.history == after.history[..|before.history|]
    ensures Lockstep(db, after) && Lists.Distinct(after.events)
  {
    var e, h := |db.events|, |db.history|;
    assert after.events[e..] == before.events[e..] + [Sha256(raw)];
    assert after.history[h..] == before.history[h..] + [after.history[|before.history|]];
  }

  /** An event is on record exactly when its history row is, and no event is recorded twice. */
  lemma {:induction false} EventsAndHistoryInLockstep(db: Db, steps: seq<Step>)
    requires Lists.Distinct(db.events)
    ensures Extends(db, Run(db, steps)) && Lockstep(db, Run(db, steps)) && Lists.Distinct(Run(db, steps).events)
  {
    RunExtends(db, steps);
    if steps != [] {
      var before, after := Run(db, steps[..|steps| - 1]), Run(db, steps);
      EventsAndHistoryInLockstep(db, steps[..|steps| - 1]);
      RecordsTogether(before, steps[|steps| - 1]);
      var raw := Recorded(before, steps[|steps| - 1]);
      if raw.Some? {
        hide Exec, Run, Recorded, Extends;
        LockstepGrows(db, before, after, raw.value);
      }
    }
  }

  /** The event that row i of the history records. */
  lemma RowCarriesEvent(db: Db, later: Db, i: nat)
    requires Extends(db, later) && Lockstep(db, later) && |db.history| <= i < |later.history|
    ensures |later.events| - |db.events| == |later.history| - |db.history|
    ensures later.history[i].payload.Some?
    ensures Sha256(later.history[i].payload.value) == later.events[|db.events| + i - |db.history|]
  {
    var h, e := |db.history|, |db.events|;
    assert later.history[h..][i - h] == later.history[i];
    assert later.events[e..][i - h] == later.events[e + i - h];
  }

  /** Hence at most one history row per delivered body, over any run. */
  lemma OneHistoryRowPerEvent(db: Db, steps: seq<Step>, i: nat, j: nat)
    requires Lists.Distinct(db.events)
    requires |db.history| <= i < j < |Run(db, steps).history|
    ensures Run(db, steps).history[i].payload != Run(db, steps).history[j].payload
    ensures Run(db, steps).history[i].payload.Some?
    ensures Sha256(Run(db, steps).history[i].payload.value) !in db.events
  {
    EventsAndHistoryInLockstep(db, steps);
    var later := Run(db, steps);
    RowCarriesEvent(db, later, i);
    RowCarriesEvent(db, later, j);
    hide Run, Lockstep;
    forall k | 0 <= k < |db.events| ensures db.events[k] != later.events[|db.events| + i - |db.history|] {
      assert db.events[k] == later.events[k];
    }
  }

  /** Redelivering a recorded event changes nothing, however much happened in between. */
  lemma RedeliveryIsInert(db: Db, steps: seq<Step>, d: Delivery)
    requires Sha256(d.raw) in db.events
    ensures Exec(Run(db, steps), Webhook(d)) == Run(db, steps)
  {
    RunExtends(db, steps);
  }

  // ---- Users with several tracking rows ----

  lemma {:induction false} SameOwnersSameLookup(rows: seq<TrackingRow>, later: seq<TrackingRow>, userId: int)
    requires |rows| == |later| && forall i :: 0 <= i < |rows| ==> rows[i].userId == later[i].userId
    ensures RowOf(rows, userId) == RowOf(later, userId)
  {
    if rows != [] {
      SameOwnersSameLookup(rows[..|rows| - 1], later[..|rows| - 1], userId);
    }
  }

  function Longest(events: seq<Digest>): nat {
    if events == [] then 0
    else
      var before := Longest(events[..|events| - 1]);
      if |events[|events| - 1].raw.rest| > before then |events[|events| - 1].raw.rest| else before
  }

  /** Some body was never delivered: one longer than all that were. */
  lemma {:induction false} LongerIsNew(events: seq<Digest>, raw: Payload)
    requires |raw.rest| > Longest(events)
    ensures Sha256(raw) !in events
  {
    if events != [] {
      LongerIsNew(events[..|events| - 1], raw);
      assert events == events[..|events| - 1] + [events[|events| - 1]];
    }
  }

  predicate IsFor(d: Delivery, userId: int) { d.raw.userId == Some(userId) }

  /**
   * At any point of any run, the webhook can still process an event of a user exactly when one tracking row is
   * theirs.
   */
  lemma UserIsServedIff(db: Db, steps: seq<Step>, userId: int)
    ensures (exists d :: IsFor(d, userId) && Accepted(Run(db, steps), d)) <==> RowOf(db.tracking, userId).OneRow?
  {
    RunExtends(db, steps);
    var now := Run(db, steps);
    SameOwnersSameLookup(db.tracking, now.tracking, userId);
    if RowOf(db.tracking, userId).OneRow? {
      var rest := seq(Longest(now.events) + 1, i => 'x');
      var raw := Payload(Some("TRANSCRIPT_READY"), Some(userId), None, None, rest, true);
      LongerIsNew(now.events, raw);
      var d := Delivery(raw, "SHADOW", "c", "c", 0, NoFault);
      assert IsFor(d, userId) && Accepted(now, d);
    }
  }

  /** Two tracking rows of one user, at two checkpoints: no delivery for that user ever changes anything. */
  lemma TwoRowsShutTheWebhook(steps: seq<Step>, d: Delivery)
    requires d.raw.userId == Some(7)
    ensures var rows := [TrackingRow(1, 7, "CP1", Contacted, 1, 0), TrackingRow(2, 7, "CP2", Eligible, 1, 0)];
            var now := Run(Db(rows, [], [], []), steps);
            RowOf(rows, 7).ManyRows? && Exec(now, Webhook(d)) == now
  {
    var rows := [TrackingRow(1, 7, "CP1", Contacted, 1, 0), TrackingRow(2, 7, "CP2", Eligible, 1, 0)];
    assert rows[0].userId == 7 && rows[1].userId == 7;
    UserIsServedIff(Db(rows, [], [], []), steps, 7);
    assert IsFor(d, 7);
  }

  // ---- One state change per event ----

  datatype Move = Move(trackingId: int, from: State, to: State)

  function WebhookMoves(log: seq<LogRow>): seq<Move> {
    if log == [] then []
    else
      var row := log[|log| - 1];
      WebhookMoves(log[..|log| - 1]) + if row.actor == "webhook" then [Move(row.trackingId, row.from, row.to)] else []
  }

  function HistoryMoves(history: seq<HistoryRow>): seq<Move> {
    if history == [] then []
    else
      var row := history[|history| - 1];
      HistoryMoves(history[..|history| - 1]) +
      if row.before != row.after then [Move(row.trackingId, row.before, row.after)] else []
  }

  lemma StepMoves(db: Db, step: Step)
    ensures Extends(db, Exec(db, step))
    ensures var logged, recorded := Exec(db, step).log[|db.log|..], Exec(db, step).history[|db.history|..];
            |logged| <= 1 && |recorded| <= 1 && WebhookMoves(logged) == HistoryMoves(recorded)
  {
    hide RowOf, LatestRowOf, CanTransition, RequestedState, FaultFires;
    match step {
      case Operator(m) =>
      case Webhook(d) =>
        if Accepted(db, d) {
          var row := db.tracking[RowOf(db.tracking, d.raw.userId.value).index];
          var after := AfterDelivery(db, d);
          var last := after.history[|db.history|];
          assert after.history[|db.history|..] == [last];
          if Moves(row.state, d.raw) {
            assert after.log[|db.log|..] == [WebhookLogRow(row, d)];
          } else {
            assert after.log[|db.log|..] == [];
          }
        }
    }
  }

  lemma MovesAppend(log: seq<LogRow>, logged: seq<LogRow>, history: seq<HistoryRow>, recorded: seq<HistoryRow>)
    requires |logged| <= 1 && |recorded| <= 1
    ensures WebhookMoves(log + logged) == WebhookMoves(log) + WebhookMoves(logged)
    ensures HistoryMoves(history + recorded) == HistoryMoves(history) + HistoryMoves(recorded)
  {
    assert logged == [] ==> log + logged == log;
    assert logged != [] ==> (log + logged)[..|log|] == log;
    assert recorded == [] ==> history + recorded == history;
    assert recorded != [] ==> (history + recorded)[..|history|] == history;
  }

  lemma SuffixGrows<T>(start: seq<T>, s: seq<T>, t: seq<T>)
    requires start <= s <= t && |t| <= |s| + 1
    ensures t[|start|..] == s[|start|..] + t[|s|..]
    ensures s == t || t[|start|..][..|t| - |start| - 1] == s[|start|..]
  {
    if |t| == |s| {
      assert s == t;
    }
  }

  /** The state changes the webhook logged are, in order, those its history rows report: at most one per event. */
  lemma {:induction false} WebhookMovesAreHistoryMoves(db: Db, steps: seq<Step>)
    ensures Extends(db, Run(db, steps))
    ensures WebhookMoves(Run(db, steps).log[|db.log|..]) == HistoryMoves(Run(db, steps).history[|db.history|..])
  {
    RunExtends(db, steps);
    if steps != [] {
      var prefix := steps[..|steps| - 1];
      var before, after := Run(db, prefix), Run(db, steps);
      WebhookMovesAreHistoryMoves(db, prefix);
      StepMoves(before, steps[|steps| - 1]);
      SuffixGrows(db.log, before.log, after.log);
      SuffixGrows(db.history, before.history, after.history);
      MovesAppend(before.log[|db.log|..], after.log[|before.log|..],
                  before.history[|db.history|..], after.history[|before.history|..]);
    }
  }

  // ---- The log against the tracking rows ----

  /** Ids are the primary key. */
  predicate KeyedById(db: Db) {
    forall i, j :: 0 <= i < j < |db.tracking| ==> db.tracking[i].id != db.tracking[j].id
  }

  /** Replaying a tracking row's share of the log: None once a row does not continue a path of table edges. */
  function Follow(start: State, log: seq<LogRow>, id: int): Option<State> {
    if log == [] then Some(start)
    else
      var row, s := log[|log| - 1], Follow(start, log[..|log| - 1], id);
      if row.trackingId != id || s.None? then s
      else if row.from == s.value && CanTransition(row.from, row.to) then Some(row.to)
      else None
  }

  /** Every tracking row's log is a contiguous path of table edges from its state in `db` to its state now. */
  predicate LogAgrees(db: Db, later: Db)
    requires Extends(db, later)
  {
    forall i :: 0 <= i < |db.tracking| ==>
      Follow(db.tracking[i].state, later.log[|db.log|..], db.tracking[i].id) == Some(later.tracking[i].state)
  }

  /** No operator action took effect under a mode string the persistence gate rejects. */
  predicate EveryMoveLogged(db: Db, steps: seq<Step>) {
    steps == [] ||
    var prefix, last := steps[..|steps| - 1], steps[|steps| - 1];
    && EveryMoveLogged(db, prefix)
    && (last.Operator? && ManualApplies(Run(db, prefix), last.m) ==> last.m.mode in Persistence.VALID_EXECUTION_MODES)
  }

  /** A replay that has lost a move: stuck, or still above the row's real state. */
  predicate Lost(replay: Option<State>, state: State) {
    replay.None? || HandlerRank(replay.value) > HandlerRank(state)
  }

  predicate SomeRowLost(db: Db, later: Db)
    requires Extends(db, later)
  {
    exists i :: 0 <= i < |db.tracking| &&
      Lost(Follow(db.tracking[i].state, later.log[|db.log|..], db.tracking[i].id), later.tracking[i].state)
  }

  predicate Unlogged(db: Db, step: Step) {
    step.Operator? && ManualApplies(db, step.m) && step.m.mode !in Persistence.VALID_EXECUTION_MODES
  }

  /** The tracking row a handler call works on, if it takes effect. */
  function Touched(db: Db, step: Step): Option<nat> {
    match step
    case Webhook(d) => if Accepted(db, d) then Some(RowOf(db.tracking, d.raw.userId.value).index) else None
    case Operator(m) => if ManualApplies(db, m) then LatestRowOf(db.tracking, m.userId) else None
  }

  /** One handler call: the touched row takes at most one handler edge, which is logged unless the call is Unlogged. */
  lemma StepOnLog(db: Db, step: Step)
    ensures Extends(db, Exec(db, step))
    ensures var after, touched := Exec(db, step), Touched(db, step);
            var logged := after.log[|db.log|..];
            && (forall i :: 0 <= i < |db.tracking| && touched != Some(i) ==> after.tracking[i] == db.tracking[i])
            && (touched.None? ==> logged == [])
            && (touched.Some? ==>
                  var s, t := db.tracking[touched.value].state, after.tracking[touched.value].state;
                  && (s == t ==> logged == [])
                  && (s != t ==> CanTransition(s, t) && HandlerRank(t) < HandlerRank(s))
                  && (s != t && Unlogged(db, step) ==> logged == [])
                  && (s != t && !Unlogged(db, step) ==>
                        |logged| == 1 && logged[0].trackingId == db.tracking[touched.value].id &&
                          logged[0].from == s && logged[0].to == t)
                  && (step.Operator? ==> s != t))
  {
    var touched := Touched(db, step);
    if touched.Some? {
      var row := db.tracking[touched.value];
      match step {
        case Webhook(d) =>
          if Moves(row.state, d.raw) {
            HandlerEdgeDescends(row.state, RequestedState(d.raw));
          }
        case Operator(m) =>
          HandlerEdgeDescends(row.state, ACTION_TO_STATE[m.action]);
          assert row.state != ACTION_TO_STATE[m.action];
      }
    }
  }

  lemma FollowStep(start: State, log: seq<LogRow>, logged: seq<LogRow>, id: int)
    requires |logged| <= 1
    ensures logged == [] ==> Follow(start, log + logged, id) == Follow(start, log, id)
    ensures logged != [] ==>
              var x, row := Follow(start, log, id), logged[0];
              Follow(start, log + logged, id) ==
                if row.trackingId != id || x.None? then x
                else if row.from == x.value && CanTransition(row.from, row.to) then Some(row.to)
                else None
  {
    if logged == [] {
      assert log + logged == log;
    } else {
      assert (log + logged)[..|log|] == log;
    }
  }

  /** A faithful replay stays faithful until a move goes unlogged; a lost replay never recovers. */
  lemma ReplayStep(db: Db, before: Db, step: Step, i: nat)
    requires Extends(db, before) && KeyedById(before) && i < |db.tracking|
    ensures Extends(before, Exec(before, step)) && Extends(db, Exec(before, step))
    ensures var n, start, id := |db.log|, db.tracking[i].state, db.tracking[i].id;
            var x, y := Follow(start, before.log[n..], id), Follow(start, Exec(before, step).log[n..], id);
            var s, t := before.tracking[i].state, Exec(before, step).tracking[i].state;
            && (x == Some(s) && !Unlogged(before, step) ==> y == Some(t))
            && (Lost(x, s) ==> Lost(y, t))
            && (x == Some(s) && Unlogged(before, step) && s != t ==> Lost(y, t))
  {
    StepOnLog(before, step);
    SuffixGrows(db.log, before.log, Exec(before, step).log);
    FollowStep(db.tracking[i].state, before.log[|db.log|..], Exec(before, step).log[|before.log|..], db.tracking[i].id);
  }

  lemma {:induction false} LogDichotomy(db: Db, steps: seq<Step>)
    requires KeyedById(db)
    ensures Extends(db, Run(db, steps)) && KeyedById(Run(db, steps))
    ensures EveryMoveLogged(db, steps) ==> LogAgrees(db, Run(db, steps))
    ensures !EveryMoveLogged(db, steps) ==> SomeRowLost(db, Run(db, steps))
  {
    RunExtends(db, steps);
    if steps != [] {
      var prefix, last := steps[..|steps| - 1], steps[|steps| - 1];
      var before, after := Run(db, prefix), Run(db, steps);
      LogDichotomy(db, prefix);
      forall i | 0 <= i < |db.tracking| {
        ReplayStep(db, before, last, i);
      }
      if EveryMoveLogged(db, prefix) && Unlogged(before, last) {
        var i := LatestRowOf(before.tracking, last.m.userId).value;
        StepOnLog(before, last);
        assert Lost(Follow(db.tracking[i].state, after.log[|db.log|..], db.tracking[i].id), after.tracking[i].state);
      }
    }
  }

  /** The log reconstructs every tracking row exactly when no operator action ran under a mode the gate rejects. */
  lemma LogAgreesIff(db: Db, steps: seq<Step>)
    requires KeyedById(db)
    ensures Extends(db, Run(db, steps))
    ensures LogAgrees(db, Run(db, steps)) <==> EveryMoveLogged(db, steps)
  {
    LogDichotomy(db, steps);
  }

  // ---- What each event and each action does, state by state ----

  /** The row of an accepted delivery's user before and after it. */
  function Before(db: Db, d: Delivery): TrackingRow
    requires Accepted(db, d)
  {
    db.tracking[RowOf(db.tracking, d.raw.userId.value).index]
  }

  function After(db: Db, d: Delivery): TrackingRow
    requires Accepted(db, d)
  {
    Exec(db, Webhook(d)).tracking[RowOf(db.tracking, d.raw.userId.value).index]
  }

  /** Only the four event types are accepted. */
  lemma AcceptedEvents(db: Db, d: Delivery)
    requires Accepted(db, d)
    ensures d.raw.eventType == Some("CALL_COMPLETED") || d.raw.eventType == Some("SMS_RESPONSE")
            || d.raw.eventType == Some("EMAIL_RESPONSE") || d.raw.eventType == Some("TRANSCRIPT_READY")
  {}

  lemma KnownEvents(raw: Payload)
    ensures KnownEvent(raw) <==>
            || raw.eventType == Some("CALL_COMPLETED") || raw.eventType == Some("SMS_RESPONSE")
            || raw.eventType == Some("EMAIL_RESPONSE") || raw.eventType == Some("TRANSCRIPT_READY")
  {}

  /** An answer takes a contacted row to RESPONDED or to NO_RESPONSE, by its outcome, and no other row anywhere. */
  lemma AnswerMovesContacted(db: Db, d: Delivery)
    requires Accepted(db, d)
    requires d.raw.eventType == Some("CALL_COMPLETED") || d.raw.eventType == Some("SMS_RESPONSE")
             || d.raw.eventType == Some("EMAIL_RESPONSE")
    ensures var positive := d.raw.outcome.Some? &&
                              var word := Lower(d.raw.outcome.value);
                              word == "connected" || word == "responded" || word == "replied" || word == "yes";
            After(db, d).state ==
              if Before(db, d).state != Contacted then Before(db, d).state
              else if positive then Responded else NoResponse
  {
    EntriesAre(Before(db, d).state);
    hide CanTransition, RowOf, Lower;
  }

  /** A transcript takes a responded row to ANALYZED, and no other row anywhere. */
  lemma TranscriptMovesResponded(db: Db, d: Delivery)
    requires Accepted(db, d) && d.raw.eventType == Some("TRANSCRIPT_READY")
    ensures After(db, d).state == if Before(db, d).state == Responded then Analyzed else Before(db, d).state
  {
    EntriesAre(Before(db, d).state);
    hide CanTransition, RowOf, Lower;
  }

  /** Case does not matter: a "Yes" to a call answers for a contacted student. */
  lemma YesIsAnAnswer()
    ensures RequestedState(Payload(Some("CALL_COMPLETED"), Some(7), Some("Yes"), None, "", true)) == Responded
    ensures RequestedState(Payload(Some("CALL_COMPLETED"), Some(7), Some("no"), None, "", true)) == NoResponse
    ensures RequestedState(Payload(Some("CALL_COMPLETED"), Some(7), None, None, "", true)) == NoResponse
  {
    assert Lower("Yes") == "yes" && Lower("no") == "no";
  }

  /** What an accepted delivery writes into its history row. */
  lemma DeliveryWrites(db: Db, d: Delivery)
    requires Accepted(db, d)
    ensures var row, h := Before(db, d), Exec(db, Webhook(d)).history;
            && |h| == |db.history| + 1
            && h[|db.history|].trackingId == row.id && h[|db.history|].userId == row.userId
            && h[|db.history|].checkpoint == row.checkpoint && h[|db.history|].attempt == row.attempt
            && h[|db.history|].channel == "GHL_WEBHOOK"
            && h[|db.history|].action == "WEBHOOK_" + d.raw.eventType.value
            && h[|db.history|].decision == "WEBHOOK_PROCESSED:" + d.raw.eventType.value
            && h[|db.history|].payload == Some(d.raw)
            && (h[|db.history|].analysed <==> d.raw.transcript.Some? && d.raw.transcript.value != "")
            && h[|db.history|].before == row.state && h[|db.history|].after == After(db, d).state
            && h[|db.history|].key == None
    ensures var a := Exec(db, Webhook(d)).history[|db.history|].attribution;
            && a.correlationId == d.correlationId && a.executionMode == d.mode && a.executionType == "original"
            && a.governanceScope == (if d.mode == "SHADOW" then "SHADOW_ONLY" else "LIVE_AUTHORIZED") && !a.isReplay
  {
    hide RowOf, CanTransition, RequestedState;
  }

  /** The log row of a move: by which trigger and actor, under which attribution. */
  lemma MoveWrites(db: Db, step: Step)
    requires |Exec(db, step).log| > |db.log|
    ensures var row := Exec(db, step).log[|db.log|];
            match step
            case Webhook(d) =>
              && d.raw.userId == Some(row.userId) && d.raw.eventType.Some? &&
                row.trigger == "webhook:" + d.raw.eventType.value && row.actor == "webhook"
              && row.attribution.correlationId == d.logCorrelationId && row.attribution.executionMode == d.mode
              && row.attribution.executionType == "original" && !row.attribution.isReplay
              && row.attribution.governanceScope == if d.mode == "REPLAY" then "REPLAY_ONLY" else "SHADOW_ONLY"
            case Operator(m) =>
              && row.trigger == m.action && row.actor == "operator" && row.userId == m.userId
              && row.attribution.correlationId == m.correlationId && row.attribution.executionMode == m.mode
              && row.attribution.executionType == "original" && !row.attribution.isReplay
              && row.attribution.governanceScope == if m.mode == "REPLAY" then "REPLAY_ONLY" else "SHADOW_ONLY"
  {
    hide RowOf, LatestRowOf, CanTransition, RequestedState;
  }

  lemma ActionWords(action: string)
    ensures action in ACTION_TO_STATE <==>
            action == "BOOK_MEETING" || action == "FORCE_RETRY" || action == "ESCALATE" || action == "CLOSE_CASE"
  {}

  /** Where each action applies: the states of the user's latest row that it takes to its own. */
  lemma ActionsApplyIff(db: Db, m: Manual)
    requires m.action in ACTION_TO_STATE
    ensures LatestRowOf(db.tracking, m.userId).None? ==> !Movable(db, m)
    ensures LatestRowOf(db.tracking, m.userId).Some? ==>
              var s := db.tracking[LatestRowOf(db.tracking, m.userId).value].state;
              Movable(db, m) <==>
              match m.action
              case "BOOK_MEETING" => s == Responded || s == Analyzed || s == InterventionRequired
              case "FORCE_RETRY" => s == NoResponse
              case "ESCALATE" => s == Contacted || s == NoResponse || s == Retry || s == Responded || s == Analyzed
              case _ => !s.Closed? && !s.Unlisted?
  {
    hide LatestRowOf;
  }

  /** Where each action leads. */
  lemma ActionsLeadTo(db: Db, m: Manual)
    requires ManualApplies(db, m)
    ensures Exec(db, Operator(m)).tracking[LatestRowOf(db.tracking, m.userId).value].state ==
            match m.action
            case "BOOK_MEETING" => Resolved
            case "FORCE_RETRY" => Retry
            case "ESCALATE" => InterventionRequired
            case _ => Closed
  {
    hide LatestRowOf, CanTransition;
  }

  // ---- Bounded change, absorption ----

  function LoggedFor(log: seq<LogRow>, id: int): nat {
    if log == [] then 0
    else LoggedFor(log[..|log| - 1], id) + if log[|log| - 1].trackingId == id then 1 else 0
  }

  /** How often the run changes the state of tracking row i. */
  function Changes(db: Db, steps: seq<Step>, i: nat): nat
    requires i < |db.tracking|
  {
    if steps == [] then 0
    else
      var prefix := steps[..|steps| - 1];
      RunExtends(db, prefix);
      RunExtends(db, steps);
      Changes(db, prefix, i) + if Run(db, prefix).tracking[i].state != Run(db, steps).tracking[i].state then 1 else 0
  }

  /** One handler call lowers the rank of every row it changes, and logs no other row. */
  lemma StepOnRow(db: Db, step: Step, i: nat)
    requires KeyedById(db) && i < |db.tracking|
    ensures Extends(db, Exec(db, step))
    ensures var logged := Exec(db, step).log[|db.log|..];
            var s, t := db.tracking[i].state, Exec(db, step).tracking[i].state;
            && |logged| <= 1
            && (s != t ==> HandlerRank(t) < HandlerRank(s))
            && LoggedFor(logged, db.tracking[i].id) <= if s != t then 1 else 0
  {
    StepOnLog(db, step);
  }

  lemma LoggedForAppend(log: seq<LogRow>, logged: seq<LogRow>, id: int)
    requires |logged| <= 1
    ensures LoggedFor(log + logged, id) == LoggedFor(log, id) + LoggedFor(logged, id)
  {
    assert logged == [] ==> log + logged == log;
    assert logged != [] ==> (log + logged)[..|log|] == log;
  }

  /**
   * Each row changes state at most five times, once per rank it loses, and every log row it gets is one of those
   * changes.
   */
  lemma {:induction false} ChangesAreBounded(db: Db, steps: seq<Step>, i: nat)
    requires KeyedById(db) && i < |db.tracking|
    ensures Extends(db, Run(db, steps)) && KeyedById(Run(db, steps))
    ensures LoggedFor(Run(db, steps).log[|db.log|..], db.tracking[i].id) <= Changes(db, steps, i)
    ensures Changes(db, steps, i) <= HandlerRank(db.tracking[i].state) - HandlerRank(Run(db, steps).tracking[i].state)
    ensures HandlerRank(db.tracking[i].state) <= 5
  {
    RunExtends(db, steps);
    if steps != [] {
      var prefix, last := steps[..|steps| - 1], steps[|steps| - 1];
      var before, after := Run(db, prefix), Run(db, steps);
      ChangesAreBounded(db, prefix, i);
      StepOnRow(before, last, i);
      SuffixGrows(db.log, before.log, after.log);
      LoggedForAppend(before.log[|db.log|..], after.log[|before.log|..], db.tracking[i].id);
    }
  }

  lemma ActionStep(db: Db, action: string) returns (step: Step)
    requires |db.tracking| == 1 && action in ACTION_TO_STATE
    requires CanTransition(db.tracking[0].state, ACTION_TO_STATE[action])
    ensures |Exec(db, step).tracking| == 1 && Exec(db, step).tracking[0].state == ACTION_TO_STATE[action]
  {
    step := Operator(Manual(db.tracking[0].userId, action, "SHADOW", "c", 0, NoFault));
  }

  lemma AnswerStep(db: Db, eventType: string, outcome: Option<string>) returns (step: Step)
    requires |db.tracking| == 1 && eventType in VALID_GHL_EVENTS
    requires var raw := Payload(Some(eventType), None, outcome, None, "", true);
             Moves(db.tracking[0].state, raw)
    ensures |Exec(db, step).tracking| == 1
    ensures Exec(db, step).tracking[0].state == RequestedState(Payload(Some(eventType), None, outcome, None, "", true))
  {
    var rest := seq(Longest(db.events) + 1, i => 'x');
    var raw := Payload(Some(eventType), Some(db.tracking[0].userId), outcome, None, rest, true);
    LongerIsNew(db.events, raw);
    assert RowOf(db.tracking, db.tracking[0].userId).OneRow?;
    step := Webhook(Delivery(raw, "SHADOW", "c", "c", 0, NoFault));
  }

  /** From every state with handler edges left, some delivery or action takes one that costs a single rank. */
  lemma NextStep(db: Db) returns (step: Step)
    requires |db.tracking| == 1 && HandlerRank(db.tracking[0].state) > 0
    ensures |Exec(db, step).tracking| == 1
    ensures HandlerRank(Exec(db, step).tracking[0].state) == HandlerRank(db.tracking[0].state) - 1
  {
    hide Exec, RowOf;
    var row := db.tracking[0];
    match row.state {
      case Contacted => step := AnswerStep(db, "CALL_COMPLETED", Some("yes"));
      case Responded => step := AnswerStep(db, "TRANSCRIPT_READY", None);
      case NoResponse => step := ActionStep(db, "FORCE_RETRY");
      case Retry => step := ActionStep(db, "ESCALATE");
      case Analyzed => step := ActionStep(db, "ESCALATE");
      case InterventionRequired => step := ActionStep(db, "BOOK_MEETING");
      case _ => step := ActionStep(db, "CLOSE_CASE");
    }
  }

  /** A run can be continued until the row's whole rank is used up, one change for each. */
  lemma {:induction false} RankIsUsedUp(db: Db, steps: seq<Step>) returns (all: seq<Step>)
    requires |db.tracking| == 1 && |Run(db, steps).tracking| == 1
    ensures Changes(db, all, 0) == Changes(db, steps, 0) + HandlerRank(Run(db, steps).tracking[0].state)
    decreases HandlerRank(Run(db, steps).tracking[0].state)
  {
    all := steps;
    var now := Run(db, steps);
    if HandlerRank(now.tracking[0].state) > 0 {
      var step := NextStep(now);
      assert (steps + [step])[..|steps|] == steps;
      all := RankIsUsedUp(db, steps + [step]);
    }
  }

  /** The bound is exact for runs: from every state some run makes as many changes as the rank, five from CONTACTED. */
  lemma ChangesAttained(db: Db) returns (steps: seq<Step>)
    requires |db.tracking| == 1
    ensures Changes(db, steps, 0) == HandlerRank(db.tracking[0].state)
    ensures db.tracking[0].state == Contacted ==> Changes(db, steps, 0) == 5
  {
    assert Run(db, []) == db;
    steps := RankIsUsedUp(db, []);
  }

  lemma {:induction false} NoChangeNoMove(db: Db, steps: seq<Step>, i: nat)
    requires i < |db.tracking| && Changes(db, steps, i) == 0
    ensures Extends(db, Run(db, steps))
    ensures Run(db, steps).tracking[i].state == db.tracking[i].state
  {
    RunExtends(db, steps);
    if steps != [] {
      NoChangeNoMove(db, steps[..|steps| - 1], i);
    }
  }

  /** A closed row stays closed and gets no further log row. */
  lemma ClosedIsAbsorbing(db: Db, steps: seq<Step>, i: nat)
    requires KeyedById(db) && i < |db.tracking| && db.tracking[i].state == Closed
    ensures Extends(db, Run(db, steps))
    ensures Run(db, steps).tracking[i].state == Closed
    ensures LoggedFor(Run(db, steps).log[|db.log|..], db.tracking[i].id) == 0
  {
    ChangesAreBounded(db, steps, i);
    NoChangeNoMove(db, steps, i);
  }

  // ---- The mode string the settings actually produce ----

  datatype ExecutionMode = SHADOW | LIVE

  /** `str()` of a member of a string-valued enumeration names the class as well. */
  function StrOf(mode: ExecutionMode): string {
    match mode
    case SHADOW => "ExecutionMode.SHADOW"
    case LIVE => "ExecutionMode.LIVE"
  }

  predicate UnderSettings(step: Step, mode: ExecutionMode) {
    match step
    case Webhook(d) => d.mode == StrOf(mode)
    case Operator(m) => m.mode == StrOf(mode)
  }

  /**
   * With the settings' own mode string no event, history row or log row is ever written,
   * and the log is right exactly as long as no operator action succeeds.
   */
  lemma {:induction false} SettingsModeLosesEveryRecord(db: Db, steps: seq<Step>, mode: ExecutionMode)
    requires KeyedById(db)
    requires forall k :: 0 <= k < |steps| ==> UnderSettings(steps[k], mode)
    ensures var later := Run(db, steps);
            && later.events == db.events && later.history == db.history && later.log == db.log
            && (EveryMoveLogged(db, steps) <==> later == db)
  {
    if steps != [] {
      var prefix, last := steps[..|steps| - 1], steps[|steps| - 1];
      SettingsModeLosesEveryRecord(db, prefix, mode);
      RunExtends(db, steps);
      LogDichotomy(db, steps);
      assert UnderSettings(last, mode) && StrOf(mode) !in Persistence.VALID_EXECUTION_MODES;
    }
  }

  /** One operator closing a case under the shipped settings: the row moves, the log does not. */
  lemma UnloggedCloseExample()
    ensures var row := TrackingRow(1, 7, "CP", Contacted, 1, 0);
            var db := Db([row], [], [], []);
            var m := Manual(7, "CLOSE_CASE", StrOf(SHADOW), "c", 1, NoFault);
            var later := Run(db, [Operator(m)]);
            later.tracking == [row.(state := Closed, updatedAt := 1)] && later.log == []
  {
    var row := TrackingRow(1, 7, "CP", Contacted, 1, 0);
    var db := Db([row], [], [], []);
    var m := Manual(7, "CLOSE_CASE", StrOf(SHADOW), "c", 1, NoFault);
    assert [Operator(m)][..0] == [];
    assert Run(db, []) == db;
    assert m.mode !in Persistence.VALID_EXECUTION_MODES;
    assert LatestRowOf([row], 7) == Some(0);
    assert ManualApplies(db, m);
  }
}
