/** Monthly narratives: generation that never finalizes twice, and the backfill of snapshot columns. */
module Narratives {
  import opened Wrappers

  datatype NarrativeType =
    | RiskSummary | ProgressSummary | MonthlyNarrative | InterventionRecommendation | SentimentAnalysis

  const NARRATIVE_TYPES: seq<NarrativeType> :=
    [RiskSummary, ProgressSummary, MonthlyNarrative, InterventionRecommendation, SentimentAnalysis]

  /** A row of the insights table; rows are kept in creation order. */
  datatype Insight = Insight(userId: int, kind: NarrativeType, text: string, finalized: bool)

  /** The model call: it may fail, and a reply need not cover every type. */
  datatype Reply = Fails | Replies(texts: map<NarrativeType, string>)

  /** A snapshot's narrative row: the student, and the columns that are not NULL, by the narrative type they take. */
  datatype Snapshot = Snapshot(studentId: int, columns: map<NarrativeType, string>)

  // ---- The finalized row of a student and type ----

  predicate IsFinalFor(row: Insight, userId: int, kind: NarrativeType) {
    row.finalized && row.userId == userId && row.kind == kind
  }

  /** Row i is the last finalized one of the student and type. */
  predicate IsNewestFor(rows: seq<Insight>, i: int, userId: int, kind: NarrativeType) {
    && 0 <= i < |rows| && IsFinalFor(rows[i], userId, kind)
    && forall j :: i < j < |rows| ==> !IsFinalFor(rows[j], userId, kind)
  }

  lemma NewestOfPrefix(rows: seq<Insight>, userId: int, kind: NarrativeType)
    requires rows != [] && !IsFinalFor(rows[|rows| - 1], userId, kind)
    ensures forall i :: IsNewestFor(rows[..|rows| - 1], i, userId, kind) ==> IsNewestFor(rows, i, userId, kind)
  {
    var init := rows[..|rows| - 1];
    forall i | IsNewestFor(init, i, userId, kind) ensures IsNewestFor(rows, i, userId, kind) {
      assert forall j :: i < j < |init| ==> !IsFinalFor(init[j], userId, kind);
    }
  }

  /** The newest finalized text, as the backfill's subquery selects it. */
  function FinalText(rows: seq<Insight>, userId: int, kind: NarrativeType): (text: Option<string>)
    ensures text.None? <==> forall i :: 0 <= i < |rows| ==> !IsFinalFor(rows[i], userId, kind)
    ensures text.Some? ==> exists i :: IsNewestFor(rows, i, userId, kind) && text.value == rows[i].text
  {
    if rows == [] then None
    else if IsFinalFor(rows[|rows| - 1], userId, kind) then
      assert IsNewestFor(rows, |rows| - 1, userId, kind);
      Some(rows[|rows| - 1].text)
    else
      NewestOfPrefix(rows, userId, kind);
      FinalText(rows[..|rows| - 1], userId, kind)
  }

  predicate FinalOnce(rows: seq<Insight>) {
    forall i, j :: 0 <= i < j < |rows| && rows[i].finalized && rows[j].finalized ==>
      rows[i].userId != rows[j].userId || rows[i].kind != rows[j].kind
  }

  predicate Supplies(reply: Reply, kind: NarrativeType) {
    reply.Replies? && kind in reply.texts && reply.texts[kind] != ""
  }

  /**
   * What a generation for this student adds: the reply's nonempty texts of the types not final yet, in the fixed
   * order.
   */
  function Generated(rows: seq<Insight>, userId: int, reply: Reply, kinds: seq<NarrativeType>): seq<Insight> {
    if reply.Fails? || kinds == [] then []
    else
      var kind := kinds[|kinds| - 1];
      var before := Generated(rows, userId, reply, kinds[..|kinds| - 1]);
      if FinalText(rows, userId, kind).None? && Supplies(reply, kind)
      then before + [Insight(userId, kind, reply.texts[kind], true)] else before
  }

  function AfterGeneration(rows: seq<Insight>, userId: int, reply: Reply): seq<Insight> {
    rows + Generated(rows, userId, reply, NARRATIVE_TYPES)
  }

  /** COALESCE: what the column holds, else the newest finalized text. */
  function Coalesced(rows: seq<Insight>, s: Snapshot, kind: NarrativeType): Option<string> {
    if kind in s.columns then Some(s.columns[kind]) else FinalText(rows, s.studentId, kind)
  }

  function Backfilled(rows: seq<Insight>, s: Snapshot): Snapshot {
    s.(columns := map kind: NarrativeType | Coalesced(rows, s, kind).Some? :: Coalesced(rows, s, kind).value)
  }

  function AfterBackfill(rows: seq<Insight>, snapshots: seq<Snapshot>): seq<Snapshot> {
    seq(|snapshots|, i requires 0 <= i < |snapshots| => Backfilled(rows, snapshots[i]))
  }

  datatype Summary = Summary(total: nat, generated: nat, skipped: nat, failed: nat, errors: seq<int>)

  lemma EveryType()
    ensures forall kind: NarrativeType :: kind in NARRATIVE_TYPES
  {
    forall kind: NarrativeType ensures kind in NARRATIVE_TYPES {
      assert NARRATIVE_TYPES[0] == RiskSummary && NARRATIVE_TYPES[1] == ProgressSummary;
      assert NARRATIVE_TYPES[2] == MonthlyNarrative && NARRATIVE_TYPES[3] == InterventionRecommendation;
      assert NARRATIVE_TYPES[4] == SentimentAnalysis;
      match kind
      case RiskSummary => case ProgressSummary => case MonthlyNarrative =>
      case InterventionRecommendation => case SentimentAnalysis =>
    }
  }

  /** One row of the update: for each of the five columns, COALESCE of what it holds and the newest finalized text. */
  method CoalesceColumns(rows: seq<Insight>, s: Snapshot) returns (r: Snapshot)
    ensures r == Backfilled(rows, s)
  {
    hide FinalText;
    EveryType();
    var columns := s.columns;
    for k := 0 to |NARRATIVE_TYPES|
      invariant forall kind :: kind in columns <==>
                  kind in s.columns || (kind in NARRATIVE_TYPES[..k] && Coalesced(rows, s, kind).Some?)
      invariant forall kind :: kind in columns ==> Coalesced(rows, s, kind) == Some(columns[kind])
    {
      var kind := NARRATIVE_TYPES[k];
      assert NARRATIVE_TYPES[..k + 1] == NARRATIVE_TYPES[..k] + [kind];
      var text := Coalesced(rows, s, kind);
      if text.Some? { columns := columns[kind := text.value]; }
    }
    assert NARRATIVE_TYPES[..|NARRATIVE_TYPES|] == NARRATIVE_TYPES;
    r := s.(columns := columns);
  }

  lemma NewestIsUnique(rows: seq<Insight>, j: int, userId: int, kind: NarrativeType)
    requires IsNewestFor(rows, j, userId, kind)
    ensures FinalText(rows, userId, kind) == Some(rows[j].text)
  {
    assert IsFinalFor(rows[j], userId, kind);
    var text := FinalText(rows, userId, kind);
    var i :| IsNewestFor(rows, i, userId, kind) && text.value == rows[i].text;
    assert IsFinalFor(rows[i], userId, kind);
    assert i == j;
  }

  /** The newest finalized row gives the text of a NULL column. */
  lemma BackfilledColumns(rows: seq<Insight>, snapshots: seq<Snapshot>)
    ensures forall i, kind, j ::
              0 <= i < |snapshots| && kind !in snapshots[i].columns
              && IsNewestFor(rows, j, snapshots[i].studentId, kind) ==>
              kind in Backfilled(rows, snapshots[i]).columns &&
                Backfilled(rows, snapshots[i]).columns[kind] == rows[j].text
  {
    forall i, kind, j | 0 <= i < |snapshots| && kind !in snapshots[i].columns &&
                        IsNewestFor(rows, j, snapshots[i].studentId, kind)
      ensures FinalText(rows, snapshots[i].studentId, kind) == Some(rows[j].text) {
      NewestIsUnique(rows, j, snapshots[i].studentId, kind);
    }
  }

  predicate AllFinal(rows: seq<Insight>, userId: int) {
    forall kind :: kind in NARRATIVE_TYPES ==> FinalText(rows, userId, kind).Some?
  }

  /** What a batch leaves: the insights, the students it wrote a row for, and those whose model call failed. */
  datatype Outcome = Outcome(insights: seq<Insight>, wrote: seq<int>, failed: seq<int>) {
    /** The call is only made, and so can only fail, while a type is missing. */
    function Then(userId: int, reply: Reply): Outcome {
      var after := AfterGeneration(insights, userId, reply);
      Outcome(after,
              if after != insights then wrote + [userId] else wrote,
              if reply.Fails? && !AllFinal(insights, userId) then failed + [userId] else failed)
    }
  }

  function Batch(rows: seq<Insight>, users: seq<int>, replies: seq<Reply>): Outcome
    requires |users| == |replies|
  {
    if users == [] then Outcome(rows, [], [])
    else Batch(rows, users[..|users| - 1], replies[..|users| - 1]).Then(users[|users| - 1], replies[|users| - 1])
  }

  lemma BatchStep(rows: seq<Insight>, users: seq<int>, replies: seq<Reply>, i: nat)
    requires |users| == |replies| && i < |users|
    ensures Batch(rows, users[..i + 1], replies[..i + 1]) ==
            Batch(rows, users[..i], replies[..i]).Then(users[i], replies[i])
  {
    assert users[..i + 1][..i] == users[..i] && replies[..i + 1][..i] == replies[..i];
  }

  /** The `needed` list of the generator. */
  function MissingAmong(rows: seq<Insight>, userId: int, kinds: seq<NarrativeType>): (r: seq<NarrativeType>)
    ensures forall kind :: kind in r <==> kind in kinds && FinalText(rows, userId, kind).None?
  {
    if kinds == [] then []
    else
      var before := MissingAmong(rows, userId, kinds[..|kinds| - 1]);
      if FinalText(rows, userId, kinds[|kinds| - 1]).None? then before + [kinds[|kinds| - 1]] else before
  }

  function Missing(rows: seq<Insight>, userId: int): seq<NarrativeType> { MissingAmong(rows, userId, NARRATIVE_TYPES) }

  /** The rows the generator's loop adds for the types it walks over. */
  function AddedFor(userId: int, reply: Reply, kinds: seq<NarrativeType>): seq<Insight>
    requires reply.Replies?
  {
    if kinds == [] then []
    else
      var kind := kinds[|kinds| - 1];
      var before := AddedFor(userId, reply, kinds[..|kinds| - 1]);
      if Supplies(reply, kind) then before + [Insight(userId, kind, reply.texts[kind], true)] else before
  }

  lemma {:induction false} MissingGenerates(rows: seq<Insight>, userId: int, reply: Reply, kinds: seq<NarrativeType>)
    requires reply.Replies?
    ensures AddedFor(userId, reply, MissingAmong(rows, userId, kinds)) == Generated(rows, userId, reply, kinds)
  {
    if kinds != [] {
      var init, kind := kinds[..|kinds| - 1], kinds[|kinds| - 1];
      MissingGenerates(rows, userId, reply, init);
      var missing := MissingAmong(rows, userId, init);
      assert (missing + [kind])[..|missing|] == missing;
    }
  }

  lemma NothingMissing(rows: seq<Insight>, userId: int, reply: Reply)
    ensures reply.Fails? || Missing(rows, userId) == [] ==> AfterGeneration(rows, userId, reply) == rows
  {
    if reply.Replies? {
      MissingGenerates(rows, userId, reply, NARRATIVE_TYPES);
    }
  }

  class NarrativeStore {
    var insights: seq<Insight>
    var snapshots: seq<Snapshot>

    /** Only types without a finalized row are written, and only when the reply has a text for them. */
    method GenerateStudentNarratives(userId: int, reply: Reply) returns (generated: seq<NarrativeType>, error: bool)
      modifies this`insights
      ensures insights == AfterGeneration(old(insights), userId, reply)
      ensures |generated| == |insights| - |old(insights)|
      ensures forall k :: 0 <= k < |generated| ==> insights[|old(insights)| + k].kind == generated[k]
      ensures generated == [] <==> insights == old(insights)
      ensures error ==> generated == []
      ensures error <==> reply.Fails? && !AllFinal(old(insights), userId)
    {
      generated := [];
      var needed := Missing(insights, userId);
      NothingMissing(insights, userId, reply);
      if needed == [] { return [], false; }
      if reply.Fails? {
        assert needed[0] in NARRATIVE_TYPES;
        return [], true;
      }
      var added: seq<Insight> := [];
      for i := 0 to |needed|
        invariant |added| == |generated| && forall k :: 0 <= k < |added| ==> added[k].kind == generated[k]
        invariant added == AddedFor(userId, reply, needed[..i])
      {
        assert needed[..i + 1][..i] == needed[..i];
        var kind := needed[i];
        if kind in reply.texts && reply.texts[kind] != "" {
          added := added + [Insight(userId, kind, reply.texts[kind], true)];
          generated := generated + [kind];
        }
      }
      assert needed[..|needed|] == needed;
      MissingGenerates(insights, userId, reply, NARRATIVE_TYPES);
      insights := insights + added;
      error := false;
    }

    /** Every student is counted once; at most ten errors are kept. */
    method GenerateAllMonthlyNarratives(users: seq<int>, replies: seq<Reply>) returns (s: Summary)
      requires |users| == |replies|
      modifies this`insights
      ensures var o := Batch(old(insights), users, replies);
              && insights == o.insights && s.generated == |o.wrote| && s.failed == |o.failed|
              && s.errors == o.failed[..if s.failed < 10 then s.failed else 10]
      ensures s.generated + s.skipped + s.failed == s.total == |users|
    {
      hide AfterGeneration;
      var newCount, skipped, failed, errors := 0, 0, 0, [];
      ghost var o := Batch(insights, [], []);
      for i := 0 to |users|
        invariant o == Batch(old(insights), users[..i], replies[..i])
        invariant insights == o.insights && newCount == |o.wrote| && failed == |o.failed|
        invariant newCount + skipped + failed == i
        invariant errors == o.failed[..if failed < 10 then failed else 10]
      {
        BatchStep(old(insights), users, replies, i);
        var generated, error := GenerateStudentNarratives(users[i], replies[i]);
        o := o.Then(users[i], replies[i]);
        if error {
          failed := failed + 1;
          if |errors| < 10 { errors := errors + [users[i]]; }
        } else if generated != [] {
          newCount := newCount + 1;
        } else {
          skipped := skipped + 1;
        }
      }
      assert users[..|users|] == users && replies[..|replies|] == replies;
      s := Summary(|users|, newCount, skipped, failed, errors);
    }

    /** Every snapshot in turn is updated in place, and no row appears, vanishes or changes hands. */
    method BackfillNarratives()
      modifies this`snapshots
      ensures |snapshots| == |old(snapshots)|
      ensures forall i :: 0 <= i < |snapshots| ==> snapshots[i].studentId == old(snapshots)[i].studentId
      // A text that was there stays.
      ensures forall i, kind :: 0 <= i < |snapshots| && kind in old(snapshots)[i].columns ==>
                kind in snapshots[i].columns && snapshots[i].columns[kind] == old(snapshots)[i].columns[kind]
      // A NULL column stays NULL exactly when the student has no finalized row of the type, and else takes the newest.
      ensures forall i, kind :: 0 <= i < |snapshots| && kind !in old(snapshots)[i].columns ==>
                (kind !in snapshots[i].columns <==>
                 forall j :: 0 <= j < |insights| ==> !IsFinalFor(insights[j], snapshots[i].studentId, kind))
      ensures forall i, kind, j ::
                0 <= i < |snapshots| && kind !in old(snapshots)[i].columns
                && IsNewestFor(insights, j, snapshots[i].studentId, kind) ==>
                kind in snapshots[i].columns && snapshots[i].columns[kind] == insights[j].text
      ensures snapshots == AfterBackfill(insights, old(snapshots))
    {
      for i := 0 to |snapshots|
        invariant |snapshots| == |old(snapshots)|
        invariant forall k :: 0 <= k < i ==> snapshots[k] == Backfilled(insights, old(snapshots)[k])
        invariant forall k :: i <= k < |snapshots| ==> snapshots[k] == old(snapshots)[k]
      {
        var filled := CoalesceColumns(insights, snapshots[i]);
        snapshots := snapshots[i := filled];
      }
      BackfilledColumns(insights, old(snapshots));
    }
  }

  // ---- Any interleaving of batches and backfills ----

  datatype State = State(insights: seq<Insight>, snapshots: seq<Snapshot>)

  datatype Step = Generate(userId: int, reply: Reply) | Backfill

  function Exec(s: State, step: Step): State {
    match step
    case Generate(userId, reply) => s.(insights := AfterGeneration(s.insights, userId, reply))
    case Backfill => s.(snapshots := AfterBackfill(s.insights, s.snapshots))
  }

  function Run(s: State, steps: seq<Step>): State {
    if steps == [] then s else Exec(Run(s, steps[..|steps| - 1]), steps[|steps| - 1])
  }

  /** A batch is a run of single generations, so what every run keeps, every batch keeps. */
  lemma {:induction false} BatchIsARun(s: State, users: seq<int>, replies: seq<Reply>)
    requires |users| == |replies|
    ensures Run(s, seq(|users|, i requires 0 <= i < |users| => Generate(users[i], replies[i]))) ==
            s.(insights := Batch(s.insights, users, replies).insights)
  {
    if users != [] {
      var m := |users| - 1;
      BatchIsARun(s, users[..m], replies[..m]);
      var steps := seq(|users|, i requires 0 <= i < |users| => Generate(users[i], replies[i]));
      assert steps[..m] == seq(m, i requires 0 <= i < m => Generate(users[..m][i], replies[..m][i]));
    }
  }

  predicate Once(kinds: seq<NarrativeType>) { forall i, j :: 0 <= i < j < |kinds| ==> kinds[i] != kinds[j] }

  lemma FinalTextOfSnoc(rows: seq<Insight>, row: Insight, userId: int, kind: NarrativeType)
    ensures FinalText(rows + [row], userId, kind) ==
            if IsFinalFor(row, userId, kind) then Some(row.text) else FinalText(rows, userId, kind)
  {
    assert (rows + [row])[..|rows|] == rows;
  }

  predicate RowsFor(rows: seq<Insight>, userId: int, kinds: seq<NarrativeType>, g: seq<Insight>) {
    && (forall i :: 0 <= i < |g| ==> g[i].finalized && g[i].userId == userId && g[i].kind in kinds)
    && (forall i :: 0 <= i < |g| ==> FinalText(rows, userId, g[i].kind).None?)
    && (forall i, j :: 0 <= i < j < |g| ==> g[i].kind != g[j].kind)
  }

  /** The added rows: finalized, of this student, one for each type that was not final and has a text in the reply. */
  lemma {:induction false} GeneratedRows(rows: seq<Insight>, userId: int, reply: Reply, kinds: seq<NarrativeType>)
    requires Once(kinds)
    ensures RowsFor(rows, userId, kinds, Generated(rows, userId, reply, kinds))
  {
    if kinds != [] && reply.Replies? {
      GeneratedRows(rows, userId, reply, kinds[..|kinds| - 1]);
    }
  }

  /** What one reply changes: exactly the texts that were missing and that it supplies, for its student only. */
  lemma {:induction false} GenerationFills(rows: seq<Insight>, userId: int, reply: Reply, kinds: seq<NarrativeType>,
                                           other: int, kind: NarrativeType)
    requires Once(kinds)
    ensures FinalText(rows + Generated(rows, userId, reply, kinds), other, kind) ==
            if other == userId && kind in kinds && FinalText(rows, userId, kind).None? && Supplies(reply, kind)
            then Some(reply.texts[kind]) else FinalText(rows, other, kind)
  {
    var g := Generated(rows, userId, reply, kinds);
    if kinds == [] || reply.Fails? {
      assert rows + g == rows;
    } else {
      var init := kinds[..|kinds| - 1];
      var before := Generated(rows, userId, reply, init);
      GenerationFills(rows, userId, reply, init, other, kind);
      if FinalText(rows, userId, kinds[|kinds| - 1]).None? && Supplies(reply, kinds[|kinds| - 1]) {
        var row := Insight(userId, kinds[|kinds| - 1], reply.texts[kinds[|kinds| - 1]], true);
        assert rows + g == (rows + before) + [row];
        FinalTextOfSnoc(rows + before, row, other, kind);
      }
    }
  }

  lemma GenerationKeepsFinalOnce(rows: seq<Insight>, userId: int, reply: Reply)
    requires FinalOnce(rows)
    ensures FinalOnce(AfterGeneration(rows, userId, reply))
  {
    GeneratedRows(rows, userId, reply, NARRATIVE_TYPES);
    var g := Generated(rows, userId, reply, NARRATIVE_TYPES);
    var all := rows + g;
    forall i, j | 0 <= i < j < |all| && all[i].finalized && all[j].finalized
      ensures all[i].userId != all[j].userId || all[i].kind != all[j].kind {
      if i < |rows| <= j {
        assert all[j] == g[j - |rows|];
        assert !IsFinalFor(rows[i], userId, g[j - |rows|].kind);
      } else if |rows| <= i {
        assert all[i] == g[i - |rows|] && all[j] == g[j - |rows|];
      }
    }
  }

  /** At most one finalized row per student and type, and rows once written stay as they are. */
  lemma {:induction false} FinalizedOnceAndForAll(s: State, steps: seq<Step>)
    requires FinalOnce(s.insights)
    ensures FinalOnce(Run(s, steps).insights) && s.insights <= Run(s, steps).insights
  {
    if steps != [] {
      FinalizedOnceAndForAll(s, steps[..|steps| - 1]);
      if steps[|steps| - 1].Generate? {
        GenerationKeepsFinalOnce(Run(s, steps[..|steps| - 1]).insights, steps[|steps| - 1].userId,
                                 steps[|steps| - 1].reply);
      }
    }
  }

  /** A finalized text, once there, is the one every later reader finds. */
  lemma {:induction false} FinalTextNeverChanges(rows: seq<Insight>, later: seq<Insight>, userId: int,
                                                 kind: NarrativeType)
    requires rows <= later && FinalOnce(later) && FinalText(rows, userId, kind).Some?
    ensures FinalText(later, userId, kind) == FinalText(rows, userId, kind)
  {
    if |rows| == |later| {
      assert rows == later;
    } else {
      FinalTextNeverChanges(rows, later[..|later| - 1], userId, kind);
      var i :| 0 <= i < |rows| && IsFinalFor(rows[i], userId, kind);
      assert later[i] == rows[i];
    }
  }

  /** Once every type is final for a student, no later call for that student writes a row, whatever ran in between. */
  lemma {:induction false} CompleteStudentIsSkipped(s: State, steps: seq<Step>, userId: int, reply: Reply)
    requires FinalOnce(s.insights) && AllFinal(s.insights, userId)
    ensures Exec(Run(s, steps), Generate(userId, reply)) == Run(s, steps)
  {
    FinalizedOnceAndForAll(s, steps);
    var now := Run(s, steps).insights;
    forall kind | kind in NARRATIVE_TYPES ensures FinalText(now, userId, kind).Some? {
      FinalTextNeverChanges(s.insights, now, userId, kind);
    }
    GeneratedRows(now, userId, reply, NARRATIVE_TYPES);
    var g := Generated(now, userId, reply, NARRATIVE_TYPES);
    assert g == [] || g[0].kind in NARRATIVE_TYPES;
  }

  /** Every column keeps its text, or is NULL, or holds the student's one finalized text. */
  predicate Filled(before: Snapshot, now: Snapshot, rows: seq<Insight>) {
    && now.studentId == before.studentId
    && (forall kind :: kind in before.columns ==> kind in now.columns && now.columns[kind] == before.columns[kind])
    && (forall kind :: kind in now.columns && kind !in before.columns ==>
          FinalText(rows, before.studentId, kind) == Some(now.columns[kind]))
  }

  lemma {:induction false} ColumnsOnlyFill(s: State, steps: seq<Step>, i: nat)
    requires FinalOnce(s.insights) && i < |s.snapshots|
    ensures |Run(s, steps).snapshots| == |s.snapshots|
    ensures Filled(s.snapshots[i], Run(s, steps).snapshots[i], Run(s, steps).insights)
  {
    if steps != [] {
      var prefix, last := steps[..|steps| - 1], steps[|steps| - 1];
      var before, after := Run(s, prefix), Run(s, steps);
      ColumnsOnlyFill(s, prefix, i);
      FinalizedOnceAndForAll(s, prefix);
      FinalizedOnceAndForAll(s, steps);
      forall kind | kind in before.snapshots[i].columns && kind !in s.snapshots[i].columns
        ensures FinalText(after.insights, s.snapshots[i].studentId, kind) == Some(before.snapshots[i].columns[kind]) {
        FinalTextNeverChanges(before.insights, after.insights, s.snapshots[i].studentId, kind);
      }
    }
  }

  /** A column that was filled in between is the text a backfill from the start would put there. */
  lemma FilledIsBackfilled(rows: seq<Insight>, start: Snapshot, now: Snapshot)
    requires Filled(start, now, rows)
    ensures Backfilled(rows, now) == Backfilled(rows, start)
  {
    forall kind: NarrativeType ensures Coalesced(rows, now, kind) == Coalesced(rows, start, kind) {
      hide FinalText;
    }
    hide Coalesced, Filled;
    assert Backfilled(rows, now).columns == Backfilled(rows, start).columns;
  }

  /**
   * After a final backfill the columns depend only on what they held at first and on the insights now there:
   * earlier backfills, however many and whenever run, leave no trace.
   */
  lemma EarlierBackfillsLeaveNoTrace(s: State, steps: seq<Step>, i: nat)
    requires FinalOnce(s.insights) && i < |s.snapshots|
    ensures |Run(s, steps + [Backfill]).snapshots| == |s.snapshots|
    ensures Run(s, steps + [Backfill]).snapshots[i] == Backfilled(Run(s, steps).insights, s.snapshots[i])
  {
    hide FinalText, Backfilled;
    assert (steps + [Backfill])[..|steps|] == steps;
    ColumnsOnlyFill(s, steps, i);
    var start, now, rows := s.snapshots[i], Run(s, steps).snapshots[i], Run(s, steps).insights;
    FilledIsBackfilled(rows, start, now);
  }
}
