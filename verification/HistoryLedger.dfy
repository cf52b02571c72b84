/** The keyed history ledger over every sequence of appends, commits, rollbacks and process restarts. */
module HistoryLedger {
  import opened Wrappers
  import StateMachine
  import Persistence
  import opened OutreachStore

  /** `Append` by the contract of `Store.AppendOutreachHistory`; a restart keeps the table and forgets the memory. */
  datatype Op = Append(row: HistoryRow, flushFails: bool) | CommitOp | RollbackOp | Restart

  function Apply(l: Ledger, op: Op): Ledger {
    match op
    case Append(row, flushFails) => AfterAppend(l, row, flushFails)
    case CommitOp => l.(committed := l.staged)
    case RollbackOp => l.(staged := l.committed)
    case Restart => Ledger(l.committed, l.committed, {})
  }

  function ApplyAll(l: Ledger, ops: seq<Op>): Ledger
    decreases |ops|
  {
    if ops == [] then l else ApplyAll(Apply(l, ops[0]), ops[1..])
  }

  /** How many rows of a table carry this key as a non-replay write. */
  function Deliveries(rows: seq<HistoryRow>, key: string): nat {
    if rows == [] then 0
    else Deliveries(rows[..|rows| - 1], key) + if key in HeldKeys(rows[|rows| - 1]) then 1 else 0
  }

  ghost predicate AtMostOnce(rows: seq<HistoryRow>) {
    forall key :: Deliveries(rows, key) <= 1
  }

  predicate Remembered(rows: seq<HistoryRow>, keys: set<string>) {
    forall row :: row in rows ==> HeldKeys(row) <= keys
  }

  ghost predicate Sound(l: Ledger) {
    l.committed <= l.staged && AtMostOnce(l.staged) && Remembered(l.staged, l.keys)
  }

  lemma {:induction false} DeliveredKeyIsHeld(rows: seq<HistoryRow>, key: string)
    ensures Deliveries(rows, key) > 0 <==> exists row :: row in rows && key in HeldKeys(row)
  {
    if rows != [] {
      var init, last := rows[..|rows| - 1], rows[|rows| - 1];
      DeliveredKeyIsHeld(init, key);
      assert rows == init + [last];
      if key in HeldKeys(last) {
        assert last in rows;
      }
    }
  }

  lemma {:induction false} PrefixDelivers(rows: seq<HistoryRow>, more: seq<HistoryRow>, key: string)
    requires rows <= more
    ensures Deliveries(rows, key) <= Deliveries(more, key)
  {
    if |rows| < |more| {
      PrefixDelivers(rows, more[..|more| - 1], key);
    } else {
      assert rows == more;
    }
  }

  lemma PrefixAtMostOnce(rows: seq<HistoryRow>, more: seq<HistoryRow>)
    requires rows <= more && AtMostOnce(more)
    ensures AtMostOnce(rows)
  {
    forall key ensures Deliveries(rows, key) <= 1 {
      PrefixDelivers(rows, more, key);
    }
  }

  /** One more row keeps at-most-once delivery exactly when it is not a repeat of a held key. */
  lemma AppendKeepsAtMostOnceIff(rows: seq<HistoryRow>, row: HistoryRow)
    requires AtMostOnce(rows)
    ensures AtMostOnce(rows + [row]) <==> forall r :: r in rows ==> HeldKeys(r) !! HeldKeys(row)
  {
    assert (rows + [row])[..|rows|] == rows;
    forall key {
      DeliveredKeyIsHeld(rows, key);
    }
    if forall r :: r in rows ==> HeldKeys(r) !! HeldKeys(row) {
      forall key ensures Deliveries(rows + [row], key) <= 1 {
        assert Deliveries(rows + [row], key) == Deliveries(rows, key) + if key in HeldKeys(row) then 1 else 0;
      }
    } else {
      var r :| r in rows && !(HeldKeys(r) !! HeldKeys(row));
      var key :| key in HeldKeys(r) && key in HeldKeys(row);
      assert Deliveries(rows + [row], key) == Deliveries(rows, key) + 1;
    }
  }

  lemma OpKeepsSound(l: Ledger, op: Op)
    requires Sound(l) && !op.Restart?
    ensures Sound(Apply(l, op)) && l.committed <= Apply(l, op).committed && l.keys <= Apply(l, op).keys
  {
    PrefixAtMostOnce(l.committed, l.staged);
    assert forall row :: row in l.committed ==> row in l.staged;
    if op.Append? && Admits(l, op.row) {
      AppendKeepsAtMostOnceIff(l.staged, op.row);
    }
  }

  /** Committed rows are never lost, and no key of theirs is delivered twice, whatever fails on the way. */
  lemma {:induction false} AtMostOnceUntilRestart(l: Ledger, ops: seq<Op>)
    requires Sound(l) && Restart !in ops
    ensures Sound(ApplyAll(l, ops)) && AtMostOnce(ApplyAll(l, ops).committed)
    ensures l.committed <= ApplyAll(l, ops).committed && l.keys <= ApplyAll(l, ops).keys
    decreases |ops|
  {
    if ops == [] {
      PrefixAtMostOnce(l.committed, l.staged);
    } else {
      OpKeepsSound(l, ops[0]);
      AtMostOnceUntilRestart(Apply(l, ops[0]), ops[1..]);
    }
  }

  /** Replay rows are exempt: they are admitted on their attribution alone and take no key. */
  lemma ReplayTakesNoKey(l: Ledger, row: HistoryRow, flushFails: bool)
    requires row.attribution.executionType in Persistence.REPLAY_EXECUTION_TYPES
    ensures Admits(l, row) <==> Persistence.AttributionValid(row.attribution)
    ensures AfterAppend(l, row, flushFails).keys == l.keys
    ensures forall key :: Deliveries(l.staged + [row], key) == Deliveries(l.staged, key)
  {
    assert (l.staged + [row])[..|l.staged|] == l.staged;
  }

  // ---- Past a restart ----

  /** No append of the run holds a key outside `keys`. */
  predicate HoldsWithin(ops: seq<Op>, keys: set<string>) {
    forall op :: op in ops && op.Append? ==> HeldKeys(op.row) <= keys
  }

  /** The ledger of a later process: the table it found, and behind it rows whose keys it remembers. */
  ghost predicate Resumed(found: seq<HistoryRow>, l: Ledger, keys: set<string>) {
    && found <= l.committed <= l.staged && AtMostOnce(l.staged)
    && Remembered(l.staged[|found|..], l.keys) && l.keys <= keys
  }

  lemma OpKeepsResumed(found: seq<HistoryRow>, l: Ledger, op: Op, keys: set<string>)
    requires Resumed(found, l, keys) && !op.Restart? && HoldsWithin([op], keys)
    requires forall r :: r in found ==> HeldKeys(r) !! keys
    ensures Resumed(found, Apply(l, op), keys)
  {
    PrefixAtMostOnce(l.committed, l.staged);
    var n := |found|;
    assert l.staged == found + l.staged[n..];
    assert forall r :: r in l.committed[n..] ==> r in l.staged[n..];
    if op.Append? && Admits(l, op.row) {
      assert op in [op];
      assert (l.staged + [op.row])[n..] == l.staged[n..] + [op.row];
      AppendKeepsAtMostOnceIff(l.staged, op.row);
    }
  }

  lemma {:induction false} ResumedRun(found: seq<HistoryRow>, l: Ledger, ops: seq<Op>, keys: set<string>)
    requires Resumed(found, l, keys) && Restart !in ops && HoldsWithin(ops, keys)
    requires forall r :: r in found ==> HeldKeys(r) !! keys
    ensures Resumed(found, ApplyAll(l, ops), keys) && AtMostOnce(ApplyAll(l, ops).committed)
    decreases |ops|
  {
    if ops == [] {
      PrefixAtMostOnce(l.committed, l.staged);
    } else {
      assert ops[0] in ops;
      OpKeepsResumed(found, l, ops[0], keys);
      ResumedRun(found, Apply(l, ops[0]), ops[1..], keys);
    }
  }

  const ORIGINAL := Persistence.Attribution("c", "SHADOW", "original", "SHADOW_ONLY", false)

  /** A restarted process admits any valid row, so one append and commit put it behind the table. */
  lemma WriteAfterRestart(l: Ledger, row: HistoryRow)
    requires Persistence.AttributionValid(row.attribution)
    ensures ApplyAll(Apply(l, Restart), [Append(row, false), CommitOp]).committed == l.committed + [row]
  {
    var ops := [Append(row, false), CommitOp];
    assert ops[1..] == [CommitOp] && ops[1..][1..] == [];
    var restarted := Apply(l, Restart);
    assert ApplyAll(restarted, ops) == ApplyAll(Apply(restarted, ops[0]), ops[1..]);
    assert ApplyAll(Apply(restarted, ops[0]), ops[1..]) == Apply(Apply(restarted, ops[0]), CommitOp);
  }

  /** A row of the table whose key the run may hold is the witness: writing it again breaks the guarantee. */
  lemma RepeatAfterRestart(l: Ledger, r: HistoryRow, keys: set<string>)
    requires AtMostOnce(l.committed) && r in l.committed && !(HeldKeys(r) !! keys)
    ensures var ops := [Append(r.(attribution := ORIGINAL), false), CommitOp];
            HoldsWithin(ops, keys) && !AtMostOnce(ApplyAll(Apply(l, Restart), ops).committed)
  {
    hide AtMostOnce, ApplyAll;
    WriteAfterRestart(l, r.(attribution := ORIGINAL));
    AppendKeepsAtMostOnceIff(l.committed, r.(attribution := ORIGINAL));
  }

  /**
   * The guarantee ends with the process: after a restart every run that holds keys of a set keeps at-most-once
   * delivery, whatever fails on the way, exactly when no row of the table holds one of these keys.
   */
  lemma AfterRestartIff(l: Ledger, keys: set<string>)
    requires Sound(l)
    ensures (forall ops :: Restart !in ops && HoldsWithin(ops, keys) ==>
               AtMostOnce(ApplyAll(Apply(l, Restart), ops).committed)) <==>
            (forall r :: r in l.committed ==> HeldKeys(r) !! keys)
  {
    PrefixAtMostOnce(l.committed, l.staged);
    hide AtMostOnce, ApplyAll;
    var restarted := Apply(l, Restart);
    if forall r :: r in l.committed ==> HeldKeys(r) !! keys {
      forall ops | Restart !in ops && HoldsWithin(ops, keys) ensures AtMostOnce(ApplyAll(restarted, ops).committed) {
        assert restarted.staged[|l.committed|..] == [];
        ResumedRun(l.committed, restarted, ops, keys);
      }
    } else {
      var r :| r in l.committed && !(HeldKeys(r) !! keys);
      RepeatAfterRestart(l, r, keys);
    }
  }

  const CONTACTED := StateMachine.Contacted

  /** One key written before and after a restart: two rows of it are committed. */
  lemma TwiceAcrossRestart()
    ensures var row := HistoryRow(1, 7, "CP", 1, "", "", "", None, false, CONTACTED, CONTACTED, ORIGINAL, Some("k"));
            var once := ApplyAll(Ledger([], [], {}), [Append(row, false), CommitOp]);
            Sound(once) && ApplyAll(Apply(once, Restart), [Append(row, false), CommitOp]).committed == [row, row]
  {
    var row := HistoryRow(1, 7, "CP", 1, "", "", "", None, false, CONTACTED, CONTACTED, ORIGINAL, Some("k"));
    var empty := Ledger([], [], {});
    var ops := [Append(row, false), CommitOp];
    assert Apply(empty, Restart) == empty && Restart !in ops;
    AtMostOnceUntilRestart(empty, ops);
    WriteAfterRestart(empty, row);
    WriteAfterRestart(ApplyAll(empty, ops), row);
  }

  function Restarts(ops: seq<Op>): nat {
    if ops == [] then 0 else (if ops[0].Restart? then 1 else 0) + Restarts(ops[1..])
  }

  /** Each process delivers a key at most once more: `n` of them have, and this one has if it remembers the key. */
  ghost predicate Bounded(l: Ledger, n: nat) {
    && l.committed <= l.staged
    && forall key :: Deliveries(l.staged, key) <= n + if key in l.keys then 1 else 0
  }

  /** Over any run at all, a key is committed at most once for each process that ran. */
  lemma {:induction false} OncePerProcess(l: Ledger, ops: seq<Op>, n: nat, key: string)
    requires Bounded(l, n)
    ensures Deliveries(ApplyAll(l, ops).committed, key) <= n + 1 + Restarts(ops)
    decreases |ops|
  {
    forall k ensures Deliveries(l.committed, k) <= Deliveries(l.staged, k) { PrefixDelivers(l.committed, l.staged, k); }
    if ops != [] {
      if ops[0].Append? {
        assert (l.staged + [ops[0].row])[..|l.staged|] == l.staged;
      }
      OncePerProcess(Apply(l, ops[0]), ops[1..], if ops[0].Restart? then n + 1 else n, key);
    }
  }

  /** And that often it can be: for every number of restarts, a run commits its key once before and once after each. */
  lemma {:induction false} OncePerProcessReached(l: Ledger, row: HistoryRow, n: nat) returns (ops: seq<Op>)
    requires Admits(l, row) && IsLive(row) && l.staged == l.committed
    ensures Restarts(ops) == n
    ensures Deliveries(ApplyAll(l, ops).committed, row.key.value) == Deliveries(l.committed, row.key.value) + n + 1
    decreases n
  {
    var once := l.(committed := l.committed + [row], staged := l.committed + [row], keys := l.keys + HeldKeys(row));
    assert (l.committed + [row])[..|l.committed|] == l.committed;
    assert Apply(Apply(l, Append(row, false)), CommitOp) == once;
    var rest := [];
    if n > 0 {
      var later := OncePerProcessReached(Apply(once, Restart), row, n - 1);
      rest := [Restart] + later;
      assert rest[1..] == later;
    }
    ops := [Append(row, false)] + ([CommitOp] + rest);
    assert ops[1..] == [CommitOp] + rest && ops[1..][1..] == rest;
    assert ApplyAll(l, ops) == ApplyAll(once, rest);
    assert Restarts(ops) == Restarts(ops[1..]) == Restarts(rest);
  }
}
