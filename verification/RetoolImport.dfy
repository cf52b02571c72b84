/** The historical outreach import: one activity and one import key for each new row, or neither. */
module RetoolImport {
  import opened Wrappers

  /** A creation date: a date and time, in a zone or without one, or any other value. */
  datatype CreateDate = Moment(at: string, zone: Option<string>) | NoMoment(text: string)

  /** A fetched row: its user, its creation date and its other columns. */
  datatype Row = Row(userId: Option<int>, createDate: CreateDate, columns: map<string, string>)

  /** The import key, taken to identify the three values it is hashed from. */
  datatype Key = Sha256(table: string, userId: Option<int>, createDate: CreateDate)

  datatype Spec = Spec(channel: string, activityType: string, labelColumn: string, subjectColumn: Option<string>,
                       bodyColumn: string)

  datatype Activity = Activity(
    userId: int, activityDate: Option<CreateDate>, activityType: string, channel: string,
    heading: Option<string>, subject: Option<string>, body: Option<string>)

  /** Where the statements of one row may raise. */
  datatype Failure = NoFailure | ActivityInsert | KeyInsert | CommitFails

  datatype Tables = Tables(activities: seq<Activity>, keys: set<Key>)

  datatype Counts = Counts(fetched: nat, inserted: nat, skipped: nat, errors: nat)

  const TABLE_SPECS: map<string, Spec> := map[
    "RETOOLCALLENGAGEMENT" := Spec("CALL", "call", "CallType", None, "Notes"),
    "RetoolEmailEngagement" := Spec("EMAIL", "email", "EmailOutcome", Some("Subject"), "EmailBody"),
    "RetoolNoteEngagement" := Spec("NOTE", "note", "NoteType", None, "NoteText")]

  function KeyOf(table: string, row: Row): Key { Sha256(table, row.userId, row.createDate) }

  /** `if not uid`: a missing user, or user zero, is no user. */
  predicate HasUser(row: Row) { row.userId.Some? && row.userId.value != 0 }

  function Column(row: Row, name: string): Option<string> {
    if name in row.columns then Some(row.columns[name]) else None
  }

  /** A moment without a zone is taken for UTC; what is no moment gives no date. */
  function ActivityDate(date: CreateDate): Option<CreateDate> {
    if date.NoMoment? then None
    else Some(if date.zone.None? then date.(zone := Some("UTC")) else date)
  }

  function ActivityOf(spec: Spec, row: Row): Activity
    requires HasUser(row)
  {
    Activity(row.userId.value, ActivityDate(row.createDate), spec.activityType, spec.channel,
             Column(row, spec.labelColumn),
             if spec.subjectColumn.Some? then Column(row, spec.subjectColumn.value) else None,
             Column(row, spec.bodyColumn))
  }

  /** The parameters of the activity insert. */
  method BuildActivity(spec: Spec, row: Row) returns (a: Activity)
    requires HasUser(row)
    ensures a == ActivityOf(spec, row)
  {
    var date, subject := None, None;
    if row.createDate.Moment? {
      date := Some(Moment(row.createDate.at, if row.createDate.zone.None? then Some("UTC") else row.createDate.zone));
    }
    if spec.subjectColumn.Some? && spec.subjectColumn.value in row.columns {
      subject := Some(row.columns[spec.subjectColumn.value]);
    }
    var heading := if spec.labelColumn in row.columns then Some(row.columns[spec.labelColumn]) else None;
    var body := if spec.bodyColumn in row.columns then Some(row.columns[spec.bodyColumn]) else None;
    a := Activity(row.userId.value, date, spec.activityType, spec.channel, heading, subject, body);
  }

  /** A key stands for one table, one user and one date: two dates of a user have two keys. */
  lemma KeysAreRows(table: string, row: Row, otherTable: string, other: Row)
    ensures KeyOf(table, row) == KeyOf(otherTable, other) <==>
            table == otherTable && row.userId == other.userId && row.createDate == other.createDate
  {}

  /** Which columns of which table an activity takes its channel, type and texts from. */
  lemma ActivitiesAre(table: string, row: Row)
    requires table in TABLE_SPECS && HasUser(row)
    ensures var a := ActivityOf(TABLE_SPECS[table], row);
            && a.userId == row.userId.value
            && (a.activityDate == None <==> row.createDate.NoMoment?)
            && (a.channel == "CALL" || a.channel == "EMAIL" || a.channel == "NOTE")
            && (a.channel == "CALL" <==> table == "RETOOLCALLENGAGEMENT")
            && (a.channel == "EMAIL" <==> table == "RetoolEmailEngagement")
            && (a.channel == "NOTE" <==> table == "RetoolNoteEngagement")
            && (a.channel == "CALL" ==>
                  a.activityType == "call" && a.heading == Column(row, "CallType")
                  && a.subject == None && a.body == Column(row, "Notes"))
            && (a.channel == "EMAIL" ==>
                  a.activityType == "email" && a.heading == Column(row, "EmailOutcome")
                  && a.subject == Column(row, "Subject") && a.body == Column(row, "EmailBody"))
            && (a.channel == "NOTE" ==>
                  a.activityType == "note" && a.heading == Column(row, "NoteType")
                  && a.subject == None && a.body == Column(row, "NoteText"))
  {}

  /** Which statement of the i-th row raises; the environment decides. */
  function FailureAt(failures: seq<Failure>, i: nat): Failure {
    if i < |failures| then failures[i] else NoFailure
  }

  // ---- What an import leaves ----

  datatype Progress = Progress(tables: Tables, inserted: nat, skipped: nat, errors: nat)

  function AfterRow(p: Progress, table: string, spec: Spec, row: Row, failure: Failure, dryRun: bool): Progress {
    var key := KeyOf(table, row);
    if key in p.tables.keys then p.(skipped := p.skipped + 1)
    else if dryRun then p.(inserted := p.inserted + 1)
    else if !HasUser(row) then p.(skipped := p.skipped + 1)
    else if failure != NoFailure then p.(errors := p.errors + 1)
    else p.(tables := Tables(p.tables.activities + [ActivityOf(spec, row)], p.tables.keys + {key}),
            inserted := p.inserted + 1)
  }

  function Imported(t: Tables, table: string, spec: Spec, rows: seq<Row>, failures: seq<Failure>,
                    dryRun: bool): Progress {
    if rows == [] then Progress(t, 0, 0, 0)
    else
      var m := |rows| - 1;
      AfterRow(Imported(t, table, spec, rows[..m], failures, dryRun), table, spec, rows[m],
               FailureAt(failures, m), dryRun)
  }

  /** The i-th row can be written: it has a user and none of its statements raises. */
  predicate Writable(rows: seq<Row>, failures: seq<Failure>, i: nat)
    requires i < |rows|
  {
    HasUser(rows[i]) && FailureAt(failures, i) == NoFailure
  }

  function WritableKeys(table: string, rows: seq<Row>, failures: seq<Failure>): set<Key> {
    set i | 0 <= i < |rows| && Writable(rows, failures, i) :: KeyOf(table, rows[i])
  }

  lemma WritableKeysSnoc(table: string, rows: seq<Row>, failures: seq<Failure>)
    requires rows != []
    ensures WritableKeys(table, rows, failures) ==
            WritableKeys(table, rows[..|rows| - 1], failures) +
            if Writable(rows, failures, |rows| - 1) then {KeyOf(table, rows[|rows| - 1])} else {}
  {
    var m := |rows| - 1;
    var init := rows[..m];
    forall key | key in WritableKeys(table, rows, failures)
      ensures key in WritableKeys(table, init, failures) ||
              (Writable(rows, failures, m) && key == KeyOf(table, rows[m])) {
      var i :| 0 <= i < |rows| && Writable(rows, failures, i) && key == KeyOf(table, rows[i]);
      if i < m { assert Writable(init, failures, i) && init[i] == rows[i]; }
    }
    forall key | key in WritableKeys(table, init, failures) ensures key in WritableKeys(table, rows, failures) {
      var i :| 0 <= i < m && Writable(init, failures, i) && key == KeyOf(table, init[i]);
      assert Writable(rows, failures, i);
    }
  }

  /**
   * Lockstep: whatever fails, the keys afterwards are the old ones and those of the writable rows, each new key
   * came with one new activity behind the old ones, and `inserted` counts both.
   */
  lemma {:induction false} ImportLockstep(t: Tables, table: string, spec: Spec, rows: seq<Row>, failures: seq<Failure>)
    ensures var p := Imported(t, table, spec, rows, failures, false);
            && p.tables.keys == t.keys + WritableKeys(table, rows, failures)
            && t.activities <= p.tables.activities
            && p.inserted == |p.tables.keys| - |t.keys| == |p.tables.activities| - |t.activities|
  {
    if rows == [] {
      assert WritableKeys(table, rows, failures) == {};
    } else {
      ImportLockstep(t, table, spec, rows[..|rows| - 1], failures);
      WritableKeysSnoc(table, rows, failures);
    }
  }

  /** The i-th row is the first writable one of a key that was not stored. */
  predicate IsFirst(t: Tables, table: string, rows: seq<Row>, failures: seq<Failure>, i: nat)
    requires i < |rows|
  {
    && Writable(rows, failures, i) && KeyOf(table, rows[i]) !in t.keys
    && forall j :: 0 <= j < i && Writable(rows, failures, j) ==> KeyOf(table, rows[j]) != KeyOf(table, rows[i])
  }

  predicate FromFirstRow(t: Tables, table: string, spec: Spec, rows: seq<Row>, failures: seq<Failure>, a: Activity) {
    exists i :: 0 <= i < |rows| && IsFirst(t, table, rows, failures, i) && a == ActivityOf(spec, rows[i])
  }

  /**
   * The newest row is first just when it is writable and nothing has stored its key; older rows keep their standing.
   */
  lemma LastIsFirst(t: Tables, table: string, rows: seq<Row>, failures: seq<Failure>)
    requires rows != []
    ensures var m := |rows| - 1;
            && (forall i :: 0 <= i < m ==>
                IsFirst(t, table, rows, failures, i) == IsFirst(t, table, rows[..m], failures, i))
            && (IsFirst(t, table, rows, failures, m) <==>
                Writable(rows, failures, m) &&
                  KeyOf(table, rows[m]) !in t.keys + WritableKeys(table, rows[..m], failures))
  {
    var m := |rows| - 1;
    var init := rows[..m];
    assert forall i :: 0 <= i < m ==> init[i] == rows[i] && Writable(rows, failures, i) == Writable(init, failures, i);
  }

  lemma FirstStep(t: Tables, table: string, spec: Spec, rows: seq<Row>, failures: seq<Failure>, a: Activity)
    requires rows != []
    ensures var m := |rows| - 1;
            FromFirstRow(t, table, spec, rows, failures, a) <==>
            FromFirstRow(t, table, spec, rows[..m], failures, a) ||
            (Writable(rows, failures, m) &&
             KeyOf(table, rows[m]) !in t.keys + WritableKeys(table, rows[..m], failures) &&
             a == ActivityOf(spec, rows[m]))
  {
    var m := |rows| - 1;
    var init := rows[..m];
    LastIsFirst(t, table, rows, failures);
    assert forall i :: 0 <= i < m && IsFirst(t, table, rows, failures, i) ==> HasUser(init[i]) && init[i] == rows[i];
    hide IsFirst, WritableKeys, Writable, ActivityOf, KeyOf;
    if i :| 0 <= i < m && IsFirst(t, table, init, failures, i) && a == ActivityOf(spec, init[i]) {
      assert IsFirst(t, table, rows, failures, i);
    }
  }

  lemma ActivitiesStep(t: Tables, table: string, spec: Spec, rows: seq<Row>, failures: seq<Failure>)
    requires rows != []
    ensures var m := |rows| - 1;
            Imported(t, table, spec, rows, failures, false).tables.activities ==
            Imported(t, table, spec, rows[..m], failures, false).tables.activities +
            if && Writable(rows, failures, m)
               && KeyOf(table, rows[m]) !in t.keys + WritableKeys(table, rows[..m], failures)
            then [ActivityOf(spec, rows[m])] else []
  {
    hide WritableKeys;
    ImportLockstep(t, table, spec, rows[..|rows| - 1], failures);
  }

  /** The new activities are those of the first writable row of each new key; a later row of that key is dropped. */
  lemma {:induction false} FirstRowsAreWritten(t: Tables, table: string, spec: Spec, rows: seq<Row>,
                                               failures: seq<Failure>, a: Activity)
    ensures t.activities <= Imported(t, table, spec, rows, failures, false).tables.activities
    ensures a in Imported(t, table, spec, rows, failures, false).tables.activities[|t.activities|..] <==>
            FromFirstRow(t, table, spec, rows, failures, a)
  {
    ImportLockstep(t, table, spec, rows, failures);
    if rows != [] {
      hide FromFirstRow, WritableKeys, Writable, KeyOf, ActivityOf;
      var init := rows[..|rows| - 1];
      FirstRowsAreWritten(t, table, spec, init, failures, a);
      ImportLockstep(t, table, spec, init, failures);
      FirstStep(t, table, spec, rows, failures, a);
      ActivitiesStep(t, table, spec, rows, failures);
      hide Imported;
      var before, after := Imported(t, table, spec, init, failures, false).tables.activities,
                           Imported(t, table, spec, rows, failures, false).tables.activities;
      var n := |t.activities|;
      assert after[n..] == before[n..] + after[|before|..];
    }
  }

  lemma {:induction false} EveryRowIsCountedOnce(t: Tables, table: string, spec: Spec, rows: seq<Row>,
                                                 failures: seq<Failure>, dryRun: bool)
    ensures var p := Imported(t, table, spec, rows, failures, dryRun);
            p.inserted + p.skipped + p.errors == |rows| && (dryRun ==> p.errors == 0 && p.tables == t)
  {
    if rows != [] {
      EveryRowIsCountedOnce(t, table, spec, rows[..|rows| - 1], failures, dryRun);
    }
  }

  /** A run without errors stores the key of every row that has a user. */
  lemma {:induction false} ErrorFreeStoresEveryUser(t: Tables, table: string, spec: Spec, rows: seq<Row>,
                                                    failures: seq<Failure>, i: nat)
    requires i < |rows| && HasUser(rows[i]) && Imported(t, table, spec, rows, failures, false).errors == 0
    ensures KeyOf(table, rows[i]) in Imported(t, table, spec, rows, failures, false).tables.keys
  {
    var m := |rows| - 1;
    if i < m {
      ErrorFreeStoresEveryUser(t, table, spec, rows[..m], failures, i);
    }
  }

  lemma SubsetIsSmaller(small: set<Key>, large: set<Key>, key: Key)
    requires small <= large && key in large && key !in small
    ensures |small| < |large|
  {
    assert large == (large - small) + small;
    assert key in large - small;
  }

  /** Importing the same rows again inserts nothing, whatever fails, exactly when every row with a user is stored. */
  lemma RerunInsertsNothingIff(t: Tables, table: string, spec: Spec, rows: seq<Row>)
    ensures (forall failures :: Imported(t, table, spec, rows, failures, false).inserted == 0) <==>
            (forall i :: 0 <= i < |rows| && HasUser(rows[i]) ==> KeyOf(table, rows[i]) in t.keys)
  {
    if forall i :: 0 <= i < |rows| && HasUser(rows[i]) ==> KeyOf(table, rows[i]) in t.keys {
      forall failures ensures Imported(t, table, spec, rows, failures, false).inserted == 0 {
        ImportLockstep(t, table, spec, rows, failures);
        assert WritableKeys(table, rows, failures) <= t.keys;
        assert t.keys + WritableKeys(table, rows, failures) == t.keys;
      }
    } else {
      var i :| 0 <= i < |rows| && HasUser(rows[i]) && KeyOf(table, rows[i]) !in t.keys;
      ImportLockstep(t, table, spec, rows, []);
      assert Writable(rows, [], i);
      var keys := Imported(t, table, spec, rows, [], false).tables.keys;
      assert KeyOf(table, rows[i]) in WritableKeys(table, rows, []);
      SubsetIsSmaller(t.keys, keys, KeyOf(table, rows[i]));
      assert Imported(t, table, spec, rows, [], false).inserted != 0;
    }
  }

  lemma {:induction false} StoredRowsAreSkipped(t: Tables, table: string, spec: Spec, rows: seq<Row>,
                                                failures: seq<Failure>)
    requires forall i :: 0 <= i < |rows| && HasUser(rows[i]) ==> KeyOf(table, rows[i]) in t.keys
    ensures Imported(t, table, spec, rows, failures, false) == Progress(t, 0, |rows|, 0)
  {
    if rows != [] {
      StoredRowsAreSkipped(t, table, spec, rows[..|rows| - 1], failures);
    }
  }

  /** The re-run: an error-free import makes every later import of its rows a no-op on both tables. */
  lemma ErrorFreeRerunIsInert(t: Tables, table: string, spec: Spec, rows: seq<Row>, first: seq<Failure>,
                              second: seq<Failure>)
    requires Imported(t, table, spec, rows, first, false).errors == 0
    ensures var after := Imported(t, table, spec, rows, first, false).tables;
            var rerun := Imported(after, table, spec, rows, second, false);
            rerun.tables == after && rerun.inserted == rerun.errors == 0
  {
    var after := Imported(t, table, spec, rows, first, false).tables;
    forall i | 0 <= i < |rows| && HasUser(rows[i]) ensures KeyOf(table, rows[i]) in after.keys {
      ErrorFreeStoresEveryUser(t, table, spec, rows, first, i);
    }
    StoredRowsAreSkipped(after, table, spec, rows, second);
  }

  /** Every row whose key is new has a user, does not fail, and shares its key with no earlier row. */
  predicate PreviewIsExact(t: Tables, table: string, rows: seq<Row>, failures: seq<Failure>) {
    forall i :: 0 <= i < |rows| && KeyOf(table, rows[i]) !in t.keys ==>
      Writable(rows, failures, i) && forall j :: 0 <= j < i ==> KeyOf(table, rows[j]) != KeyOf(table, rows[i])
  }

  /** One more row keeps the preview exact when it is already stored, or is writable and its key is not written yet. */
  lemma PreviewStep(t: Tables, table: string, rows: seq<Row>, failures: seq<Failure>)
    requires rows != []
    ensures var m := |rows| - 1;
            PreviewIsExact(t, table, rows, failures) <==>
            PreviewIsExact(t, table, rows[..m], failures) &&
            (KeyOf(table, rows[m]) in t.keys ||
             (Writable(rows, failures, m) && KeyOf(table, rows[m]) !in WritableKeys(table, rows[..m], failures)))
  {
    var m := |rows| - 1;
    var init, key := rows[..m], KeyOf(table, rows[m]);
    assert forall i :: 0 <= i < m ==> init[i] == rows[i] && Writable(rows, failures, i) == Writable(init, failures, i);
    if PreviewIsExact(t, table, init, failures) && key !in t.keys {
      assert key in WritableKeys(table, init, failures) <==> exists j :: 0 <= j < m && KeyOf(table, init[j]) == key;
    }
  }

  /** The dry run never promises less than the import inserts, and says the exact number just in the case above. */
  lemma {:induction false} DryRunBounds(t: Tables, table: string, spec: Spec, rows: seq<Row>, failures: seq<Failure>)
    ensures var preview := Imported(t, table, spec, rows, failures, true).inserted;
            var actual := Imported(t, table, spec, rows, failures, false).inserted;
            preview >= actual && (preview == actual <==> PreviewIsExact(t, table, rows, failures))
  {
    if rows != [] {
      hide PreviewIsExact, WritableKeys;
      var init := rows[..|rows| - 1];
      DryRunBounds(t, table, spec, init, failures);
      EveryRowIsCountedOnce(t, table, spec, init, failures, true);
      ImportLockstep(t, table, spec, init, failures);
      PreviewStep(t, table, rows, failures);
    } else {
      assert PreviewIsExact(t, table, rows, failures);
    }
  }

  lemma OneMoreRow(t: Tables, table: string, spec: Spec, rows: seq<Row>, row: Row, failures: seq<Failure>, dryRun: bool)
    ensures Imported(t, table, spec, rows + [row], failures, dryRun) ==
            AfterRow(Imported(t, table, spec, rows, failures, dryRun), table, spec, row,
                     FailureAt(failures, |rows|), dryRun)
  {
    assert (rows + [row])[..|rows|] == rows;
  }

  /** A row without a user and a repeated key: the dry run promises three insertions, the import makes one. */
  lemma DryRunOvercounts(table: string, date: CreateDate)
    requires table in TABLE_SPECS
    ensures var none, one := Tables([], {}), Row(Some(1), date, map[]);
            var rows := [Row(None, date, map[]), one, one.(columns := map["Notes" := "n"])];
            && Imported(none, table, TABLE_SPECS[table], rows, [], true).inserted == 3
            && Imported(none, table, TABLE_SPECS[table], rows, [], false).inserted == 1
  {
    var none, spec := Tables([], {}), TABLE_SPECS[table];
    var nobody, one := Row(None, date, map[]), Row(Some(1), date, map[]);
    var other := one.(columns := map["Notes" := "n"]);
    forall dryRun: bool
      ensures Imported(none, table, spec, [nobody, one, other], [], dryRun).inserted == if dryRun then 3 else 1 {
      OneMoreRow(none, table, spec, [], nobody, [], dryRun);
      OneMoreRow(none, table, spec, [nobody], one, [], dryRun);
      OneMoreRow(none, table, spec, [nobody, one], other, [], dryRun);
      assert [] + [nobody] == [nobody] && [nobody] + [one] == [nobody, one];
      assert [nobody, one] + [other] == [nobody, one, other];
    }
  }

  // ---- The import of one table, and of several ----

  /** A table to import, what the fetch returned (`None`: it failed), and which rows fail. */
  datatype Job = Job(table: string, fetched: Option<seq<Row>>, failures: seq<Failure>)

  datatype Totals = Totals(tables: Tables, counts: Counts)

  function AfterJob(t: Totals, job: Job, dryRun: bool): Totals {
    if job.table !in TABLE_SPECS then t
    else if job.fetched.None? then t.(counts := t.counts.(errors := t.counts.errors + 1))
    else
      var p := Imported(t.tables, job.table, TABLE_SPECS[job.table], job.fetched.value, job.failures, dryRun);
      Totals(p.tables,
             Counts(t.counts.fetched + |job.fetched.value|, t.counts.inserted + p.inserted,
                    t.counts.skipped + p.skipped, t.counts.errors + p.errors))
  }

  function AfterJobs(t: Tables, jobs: seq<Job>, dryRun: bool): Totals {
    if jobs == [] then Totals(t, Counts(0, 0, 0, 0))
    else AfterJob(AfterJobs(t, jobs[..|jobs| - 1], dryRun), jobs[|jobs| - 1], dryRun)
  }

  /** The committed tables, and what the open transaction has added to them. */
  class Importer {
    var tables: Tables
    var pending: Tables

    ghost predicate Valid() reads this { pending == tables }

    method Commit()
      modifies this`tables
      ensures tables == pending
    {
      tables := pending;
    }

    method Rollback()
      modifies this`pending
      ensures pending == tables
    {
      pending := tables;
    }

    method ImportTable(job: Job, spec: Spec, dryRun: bool) returns (r: Counts)
      requires Valid()
      modifies this
      ensures Valid()
      ensures job.fetched.None? ==> tables == old(tables) && r == Counts(0, 0, 0, 1)
      ensures job.fetched.Some? ==>
        var p := Imported(old(tables), job.table, spec, job.fetched.value, job.failures, dryRun);
        tables == p.tables && r == Counts(|job.fetched.value|, p.inserted, p.skipped, p.errors)
    {
      if job.fetched.None? { return Counts(0, 0, 0, 1); }
      var rows := job.fetched.value;
      var inserted, skipped, errors := 0, 0, 0;
      for i := 0 to |rows|
        invariant Valid()
        invariant Imported(old(tables), job.table, spec, rows[..i], job.failures, dryRun) ==
                  Progress(tables, inserted, skipped, errors)
      {
        assert rows[..i + 1][..i] == rows[..i];
        var row, key := rows[i], Sha256(job.table, rows[i].userId, rows[i].createDate);
        if key in pending.keys {
          skipped := skipped + 1;
          continue;
        }
        if dryRun {
          inserted := inserted + 1;
          continue;
        }
        if row.userId.None? || row.userId.value == 0 {
          skipped := skipped + 1;
          continue;
        }
        var failed := true;
        if FailureAt(job.failures, i) != ActivityInsert {
          var activity := BuildActivity(spec, row);
          pending := pending.(activities := pending.activities + [activity]);
          if FailureAt(job.failures, i) != KeyInsert {
            pending := pending.(keys := pending.keys + {key});
            failed := FailureAt(job.failures, i) == CommitFails;
          }
        }
        if failed {
          Rollback();
          errors := errors + 1;
        } else {
          Commit();
          inserted := inserted + 1;
        }
      }
      assert rows[..|rows|] == rows;
      r := Counts(|rows|, inserted, skipped, errors);
    }

    /** An unknown table is passed over; every other one adds its counts to the totals. */
    method RunImport(jobs: seq<Job>, dryRun: bool) returns (totals: Counts)
      requires Valid()
      modifies this
      ensures Valid()
      ensures tables == AfterJobs(old(tables), jobs, dryRun).tables
      ensures totals == AfterJobs(old(tables), jobs, dryRun).counts
    {
      totals := Counts(0, 0, 0, 0);
      for i := 0 to |jobs|
        invariant Valid()
        invariant AfterJobs(old(tables), jobs[..i], dryRun) == Totals(tables, totals)
      {
        assert jobs[..i + 1][..i] == jobs[..i];
        if jobs[i].table in TABLE_SPECS {
          var r := ImportTable(jobs[i], TABLE_SPECS[jobs[i].table], dryRun);
          totals := Counts(totals.fetched + r.fetched, totals.inserted + r.inserted,
                           totals.skipped + r.skipped, totals.errors + r.errors);
        }
      }
      assert jobs[..|jobs|] == jobs;
    }
  }

  /** The jobs of known tables whose fetch failed. */
  function FailedFetches(jobs: seq<Job>): nat {
    if jobs == [] then 0
    else
      var last := jobs[|jobs| - 1];
      FailedFetches(jobs[..|jobs| - 1]) + if last.table in TABLE_SPECS && last.fetched.None? then 1 else 0
  }

  /** Every fetched row is counted once; beyond that, the errors count the fetches that failed. */
  lemma {:induction false} TotalsAddUp(t: Tables, jobs: seq<Job>, dryRun: bool)
    ensures var c := AfterJobs(t, jobs, dryRun).counts;
            c.inserted + c.skipped + c.errors == c.fetched + FailedFetches(jobs)
  {
    if jobs != [] {
      var m := |jobs| - 1;
      TotalsAddUp(t, jobs[..m], dryRun);
      if jobs[m].table in TABLE_SPECS && jobs[m].fetched.Some? {
        EveryRowIsCountedOnce(AfterJobs(t, jobs[..m], dryRun).tables, jobs[m].table, TABLE_SPECS[jobs[m].table],
                              jobs[m].fetched.value, jobs[m].failures, dryRun);
      }
    }
  }

  predicate Writes(job: Job, key: Key) {
    job.table in TABLE_SPECS && job.fetched.Some? && key in WritableKeys(job.table, job.fetched.value, job.failures)
  }

  predicate SomeJobWrites(jobs: seq<Job>, key: Key) {
    exists i :: 0 <= i < |jobs| && Writes(jobs[i], key)
  }

  lemma OneMoreWriter(jobs: seq<Job>, key: Key)
    requires jobs != []
    ensures SomeJobWrites(jobs, key) <==> SomeJobWrites(jobs[..|jobs| - 1], key) || Writes(jobs[|jobs| - 1], key)
  {
    var m := |jobs| - 1;
    if i :| 0 <= i < m && Writes(jobs[..m][i], key) { assert Writes(jobs[i], key); }
    if i :| 0 <= i < m && Writes(jobs[i], key) { assert Writes(jobs[..m][i], key); }
  }

  /** One job stores exactly the keys it can write, one new activity for each. */
  lemma JobStores(t: Totals, job: Job)
    ensures var r := AfterJob(t, job, false);
            && (forall key :: key in r.tables.keys <==> key in t.tables.keys || Writes(job, key))
            && t.tables.keys <= r.tables.keys && t.tables.activities <= r.tables.activities
            && r.counts.inserted - t.counts.inserted == |r.tables.keys| - |t.tables.keys|
            && r.counts.inserted - t.counts.inserted == |r.tables.activities| - |t.tables.activities|
  {
    if job.table in TABLE_SPECS && job.fetched.Some? {
      ImportLockstep(t.tables, job.table, TABLE_SPECS[job.table], job.fetched.value, job.failures);
    }
  }

  /** What a whole import stores: the old keys and those its jobs can write, one new activity for each. */
  lemma {:induction false} ImportStores(t: Tables, jobs: seq<Job>)
    ensures var r := AfterJobs(t, jobs, false);
            && (forall key :: key in r.tables.keys <==> key in t.keys || SomeJobWrites(jobs, key))
            && t.keys <= r.tables.keys && t.activities <= r.tables.activities
            && r.counts.inserted == |r.tables.keys| - |t.keys| == |r.tables.activities| - |t.activities|
  {
    if jobs != [] {
      hide AfterJob, SomeJobWrites, Writes;
      var init, last := jobs[..|jobs| - 1], jobs[|jobs| - 1];
      ImportStores(t, init);
      JobStores(AfterJobs(t, init, false), last);
      forall key { OneMoreWriter(jobs, key); }
    }
  }

  /** The order of the tables, and naming one twice, change neither the keys nor the number inserted. */
  lemma TableOrderDoesNotMatter(t: Tables, jobs: seq<Job>, others: seq<Job>)
    requires forall job :: job in jobs <==> job in others
    ensures AfterJobs(t, jobs, false).tables.keys == AfterJobs(t, others, false).tables.keys
    ensures AfterJobs(t, jobs, false).counts.inserted == AfterJobs(t, others, false).counts.inserted
  {
    ImportStores(t, jobs);
    ImportStores(t, others);
    forall key ensures SomeJobWrites(jobs, key) <==> SomeJobWrites(others, key) {
      if i :| 0 <= i < |jobs| && Writes(jobs[i], key) {
        assert jobs[i] in others;
      }
      if i :| 0 <= i < |others| && Writes(others[i], key) {
        assert others[i] in jobs;
      }
    }
  }
}
