/** The payment-plan sync: two dictionaries built from the plan view, and the pass that joins them to the students. */
module PlanJoin {
  import opened Wrappers

  /** `strip().lower()`: all that the join needs of it is that doing it twice changes nothing. */
  type Normalizer = string -> string

  ghost predicate Idempotent(norm: Normalizer) { forall s :: norm(norm(s)) == norm(s) }

  /** A plan row. A text the row does not have is the empty one. */
  datatype PlanRow = PlanRow(email: string, firstName: string, lastName: string, planName: string,
                             downPayment: Option<real>)

  /** A student row; `userId` is `None` when it is missing, zero or not a number. */
  datatype Student = Student(userId: Option<int>, email: string, firstName: string, lastName: string)

  datatype Plan = Plan(name: Option<string>, downPayment: real)

  /** What the view offers to join on. */
  datatype JoinColumns = JoinColumns(email: bool, name: bool)

  datatype Fetch<T> = FetchFailed | Fetched(rows: seq<T>)

  datatype Report =
    | FailedFetch
    | NoPlanRows
    | NoJoinKey
    | Synced(planRows: nat, students: nat, updated: nat, skipped: nat)

  /** What a plan row puts into the mirror: no name for an empty one, and zero for a missing amount. */
  function PlanOf(row: PlanRow): (p: Plan)
    ensures p.name == None <==> row.planName == ""
    ensures row.planName != "" ==> p.name == Some(row.planName)
    ensures forall amount :: row.downPayment == Some(amount) ==> p.downPayment == amount
    ensures row.downPayment == None ==> p.downPayment == 0.0
  {
    Plan(if row.planName != "" then Some(row.planName) else None,
         if row.downPayment.Some? then row.downPayment.value else 0.0)
  }

  function NameKey(first: string, last: string): string { first + "|" + last }

  // ---- The reference: a scan for the last row that matches ----

  datatype Criterion = SameEmail(email: string) | SameNameKey(key: string) | SameNames(first: string, last: string)

  predicate Matches(norm: Normalizer, row: PlanRow, c: Criterion) {
    match c
    case SameEmail(email) => row.email != "" && norm(row.email) == email
    case SameNameKey(key) => norm(row.firstName) != "" && norm(row.lastName) != "" &&
                             NameKey(norm(row.firstName), norm(row.lastName)) == key
    case SameNames(first, last) => norm(row.firstName) != "" && norm(row.lastName) != "" &&
                                   norm(row.firstName) == first && norm(row.lastName) == last
  }

  function LastMatch(norm: Normalizer, rows: seq<PlanRow>, c: Criterion): (r: Option<PlanRow>)
    ensures r.None? ==> forall i :: 0 <= i < |rows| ==> !Matches(norm, rows[i], c)
    ensures r.Some? ==> exists i :: 0 <= i < |rows| && r.value == rows[i] && Matches(norm, rows[i], c) &&
                                    forall j :: i < j < |rows| ==> !Matches(norm, rows[j], c)
  {
    if rows == [] then None
    else if Matches(norm, rows[|rows| - 1], c) then Some(rows[|rows| - 1])
    else LastMatch(norm, rows[..|rows| - 1], c)
  }

  predicate HasNames(norm: Normalizer, s: Student) { norm(s.firstName) != "" && norm(s.lastName) != "" }

  /** The documented join: the last row with the student's email, otherwise the last with the student's two names. */
  function Scan(norm: Normalizer, columns: JoinColumns, rows: seq<PlanRow>, s: Student): Option<PlanRow> {
    var byEmail := if columns.email && s.email != "" then LastMatch(norm, rows, SameEmail(norm(s.email))) else None;
    if byEmail.Some? || !columns.name || !HasNames(norm, s) then byEmail
    else LastMatch(norm, rows, SameNames(norm(s.firstName), norm(s.lastName)))
  }

  /** The join the dictionaries give: the names are compared through one joined key. */
  function Joined(norm: Normalizer, columns: JoinColumns, rows: seq<PlanRow>, s: Student): Option<PlanRow> {
    var byEmail := if columns.email && s.email != "" then LastMatch(norm, rows, SameEmail(norm(s.email))) else None;
    if byEmail.Some? || !columns.name || !HasNames(norm, s) then byEmail
    else LastMatch(norm, rows, SameNameKey(NameKey(norm(s.firstName), norm(s.lastName))))
  }

  // ---- The joined name key ----

  /** Some other bar of the joined key also splits it into two normalised nonempty names. */
  predicate SplitsElsewhere(norm: Normalizer, first: string, last: string) {
    var key := NameKey(first, last);
    exists p :: 0 < p < |key| - 1 && p != |first| && key[p] == '|' && norm(key[..p]) == key[..p] &&
      norm(key[p + 1..]) == key[p + 1..]
  }

  /** Two pairs of normalised names share a key just when they are the same pair, unless the key splits elsewhere. */
  lemma NameKeyDecides(norm: Normalizer, first: string, last: string, otherFirst: string, otherLast: string)
    requires otherFirst != "" && otherLast != "" && norm(otherFirst) == otherFirst && norm(otherLast) == otherLast
    requires !SplitsElsewhere(norm, first, last)
    ensures NameKey(first, last) == NameKey(otherFirst, otherLast) <==> first == otherFirst && last == otherLast
  {
    var key := NameKey(first, last);
    if key == NameKey(otherFirst, otherLast) {
      var p := |otherFirst|;
      assert key[p] == '|' && key[..p] == otherFirst && key[p + 1..] == otherLast;
      assert p == |first|;
      assert key[..p] == first && key[p + 1..] == last;
    }
  }

  lemma {:induction false} KeyLookupIsNameScan(norm: Normalizer, rows: seq<PlanRow>, first: string, last: string)
    requires Idempotent(norm) && !SplitsElsewhere(norm, first, last)
    ensures LastMatch(norm, rows, SameNameKey(NameKey(first, last))) == LastMatch(norm, rows, SameNames(first, last))
  {
    if rows != [] {
      var row := rows[|rows| - 1];
      KeyLookupIsNameScan(norm, rows[..|rows| - 1], first, last);
      if norm(row.firstName) != "" && norm(row.lastName) != "" {
        NameKeyDecides(norm, first, last, norm(row.firstName), norm(row.lastName));
      }
    }
  }

  lemma LastMatchOfOne(norm: Normalizer, row: PlanRow, c: Criterion)
    ensures LastMatch(norm, [row], c) == if Matches(norm, row, c) then Some(row) else None
  {
    assert [row][..0] == [];
  }

  /** A row of other names whose key is the student's is picked by the dictionary and not by the scan. */
  lemma SharedKeyMisjoins(norm: Normalizer, s: Student, row: PlanRow)
    requires HasNames(norm, s) && row.email == "" && norm(row.firstName) != "" && norm(row.lastName) != ""
    requires NameKey(norm(row.firstName), norm(row.lastName)) == NameKey(norm(s.firstName), norm(s.lastName))
    requires norm(row.firstName) != norm(s.firstName)
    ensures Joined(norm, JoinColumns(false, true), [row], s) == Some(row)
    ensures Scan(norm, JoinColumns(false, true), [row], s) == None
  {
    hide LastMatch, NameKey;
    LastMatchOfOne(norm, row, SameNameKey(NameKey(norm(s.firstName), norm(s.lastName))));
    LastMatchOfOne(norm, row, SameNames(norm(s.firstName), norm(s.lastName)));
  }

  lemma KeySplits(key: string, p: nat)
    requires p < |key| && key[p] == '|'
    ensures NameKey(key[..p], key[p + 1..]) == key
  {}

  /** The other two names a key splits into. */
  lemma OtherNames(norm: Normalizer, first: string, last: string) returns (otherFirst: string, otherLast: string)
    requires SplitsElsewhere(norm, first, last)
    ensures NameKey(otherFirst, otherLast) == NameKey(first, last) && otherFirst != first
    ensures otherFirst != "" && otherLast != "" && norm(otherFirst) == otherFirst && norm(otherLast) == otherLast
  {
    hide NameKey;
    var key := NameKey(first, last);
    var p :| 0 < p < |key| - 1 && p != |first| && key[p] == '|' &&
             norm(key[..p]) == key[..p] && norm(key[p + 1..]) == key[p + 1..];
    otherFirst, otherLast := key[..p], key[p + 1..];
    KeySplits(key, p);
    assert |otherFirst| == p;
  }

  /** A student whose key splits elsewhere takes the plan of somebody with other names. */
  lemma SplitKeyMisjoins(norm: Normalizer, s: Student) returns (row: PlanRow)
    requires HasNames(norm, s) && SplitsElsewhere(norm, norm(s.firstName), norm(s.lastName))
    ensures Joined(norm, JoinColumns(false, true), [row], s) == Some(row)
    ensures Scan(norm, JoinColumns(false, true), [row], s) == None
  {
    hide Joined, Scan, HasNames, SplitsElsewhere, NameKey;
    var first, last := OtherNames(norm, norm(s.firstName), norm(s.lastName));
    row := PlanRow("", first, last, "", None);
    SharedKeyMisjoins(norm, s, row);
  }

  /**
   * The dictionaries pick the row of the linear scan, for every view, exactly when the student's name key splits one
   * way.
   */
  lemma JoinIsScanIff(norm: Normalizer, s: Student)
    requires Idempotent(norm)
    ensures (forall columns, rows :: Joined(norm, columns, rows, s) == Scan(norm, columns, rows, s)) <==>
            !(HasNames(norm, s) && SplitsElsewhere(norm, norm(s.firstName), norm(s.lastName)))
  {
    if HasNames(norm, s) && SplitsElsewhere(norm, norm(s.firstName), norm(s.lastName)) {
      var row := SplitKeyMisjoins(norm, s);
    } else {
      forall columns, rows ensures Joined(norm, columns, rows, s) == Scan(norm, columns, rows, s) {
        if HasNames(norm, s) {
          KeyLookupIsNameScan(norm, rows, norm(s.firstName), norm(s.lastName));
        }
      }
    }
  }

  /** Names without a bar never collide. */
  lemma PlainNamesJoinAsDocumented(norm: Normalizer, columns: JoinColumns, rows: seq<PlanRow>, s: Student)
    requires Idempotent(norm) && '|' !in norm(s.firstName) && '|' !in norm(s.lastName)
    ensures Joined(norm, columns, rows, s) == Scan(norm, columns, rows, s)
  {
    var first, last := norm(s.firstName), norm(s.lastName);
    var key := NameKey(first, last);
    forall p | 0 <= p < |key| && p != |first| ensures key[p] != '|' {
      assert key[p] == if p < |first| then first[p] else last[p - |first| - 1];
    }
    assert !SplitsElsewhere(norm, first, last);
    JoinIsScanIff(norm, s);
  }

  /** The collision: the student "a|b", "c" takes the plan of "a", "b|c". */
  lemma CollidingNames(norm: Normalizer)
    requires norm("a|b") == "a|b" && norm("c") == "c" && norm("a") == "a" && norm("b|c") == "b|c"
    ensures var s := Student(Some(1), "", "a|b", "c");
            var row := PlanRow("", "a", "b|c", "GOLD", None);
            var columns := JoinColumns(false, true);
            Joined(norm, columns, [row], s) == Some(row) && Scan(norm, columns, [row], s) == None
  {
    assert NameKey("a", "b|c") == "a|b|c" == NameKey("a|b", "c");
    SharedKeyMisjoins(norm, Student(Some(1), "", "a|b", "c"), PlanRow("", "a", "b|c", "GOLD", None));
  }

  // ---- The pass over the students ----

  /** The mirror rows by user, and what the pass has counted. */
  datatype Pass = Pass(mirror: map<int, Plan>, updated: nat, skipped: nat)

  function AfterStudent(p: Pass, norm: Normalizer, columns: JoinColumns, rows: seq<PlanRow>, s: Student): Pass {
    if s.userId.None? || Joined(norm, columns, rows, s).None? || s.userId.value !in p.mirror
    then p.(skipped := p.skipped + 1)
    else p.(mirror := p.mirror[s.userId.value := PlanOf(Joined(norm, columns, rows, s).value)],
            updated := p.updated + 1)
  }

  function AfterStudents(mirror: map<int, Plan>, norm: Normalizer, columns: JoinColumns, rows: seq<PlanRow>,
                         students: seq<Student>): Pass {
    if students == [] then Pass(mirror, 0, 0)
    else AfterStudent(AfterStudents(mirror, norm, columns, rows, students[..|students| - 1]), norm, columns, rows,
                      students[|students| - 1])
  }

  /** The plan of the last student row of this user that joins. */
  function LastPlan(norm: Normalizer, columns: JoinColumns, rows: seq<PlanRow>, students: seq<Student>,
                    userId: int): Option<Plan> {
    if students == [] then None
    else
      var s := students[|students| - 1];
      var plan := Joined(norm, columns, rows, s);
      if s.userId == Some(userId) && plan.Some? then Some(PlanOf(plan.value))
      else LastPlan(norm, columns, rows, students[..|students| - 1], userId)
  }

  /**
   * What the pass leaves: no user appears or disappears, and each holds the plan of its last joining row, or what it
   * held.
   */
  lemma {:induction false} PassOutcome(mirror: map<int, Plan>, norm: Normalizer, columns: JoinColumns,
                                       rows: seq<PlanRow>, students: seq<Student>)
    ensures var p := AfterStudents(mirror, norm, columns, rows, students);
            && p.updated + p.skipped == |students|
            && p.mirror.Keys == mirror.Keys
            && forall user :: user in mirror ==>
                 p.mirror[user] == if LastPlan(norm, columns, rows, students, user).Some?
                                   then LastPlan(norm, columns, rows, students, user).value else mirror[user]
  {
    if students != [] {
      PassOutcome(mirror, norm, columns, rows, students[..|students| - 1]);
    }
  }

  lemma SyncIsIdempotent(mirror: map<int, Plan>, norm: Normalizer, columns: JoinColumns, rows: seq<PlanRow>,
                         students: seq<Student>)
    ensures var once := AfterStudents(mirror, norm, columns, rows, students).mirror;
            AfterStudents(once, norm, columns, rows, students).mirror == once
  {
    PassOutcome(mirror, norm, columns, rows, students);
    var once := AfterStudents(mirror, norm, columns, rows, students).mirror;
    PassOutcome(once, norm, columns, rows, students);
    var twice := AfterStudents(once, norm, columns, rows, students).mirror;
    assert twice.Keys == once.Keys;
    assert forall user :: user in once ==> twice[user] == once[user];
  }

  function Get(index: map<string, PlanRow>, key: string): Option<PlanRow> {
    if key in index then Some(index[key]) else None
  }

  /** A lookup by email finds the last row of that email, if the view has emails. */
  ghost predicate EmailIndex(byEmail: map<string, PlanRow>, norm: Normalizer, columns: JoinColumns,
                             rows: seq<PlanRow>) {
    forall key :: Get(byEmail, key) == if columns.email then LastMatch(norm, rows, SameEmail(key)) else None
  }

  ghost predicate NameIndex(byName: map<string, PlanRow>, norm: Normalizer, columns: JoinColumns, rows: seq<PlanRow>) {
    forall key :: Get(byName, key) == if columns.name then LastMatch(norm, rows, SameNameKey(key)) else None
  }

  /** By email first, and by the joined name key only when that finds nothing. */
  method PickPlan(norm: Normalizer, columns: JoinColumns, ghost rows: seq<PlanRow>,
                  byEmail: map<string, PlanRow>, byName: map<string, PlanRow>, s: Student)
    returns (plan: Option<PlanRow>)
    requires EmailIndex(byEmail, norm, columns, rows) && NameIndex(byName, norm, columns, rows)
    ensures plan == Joined(norm, columns, rows, s)
  {
    hide LastMatch;
    plan := None;
    if columns.email && s.email != "" {
      plan := Get(byEmail, norm(s.email));
    }
    if plan.None? && columns.name {
      var first, last := norm(s.firstName), norm(s.lastName);
      if first != "" && last != "" {
        plan := Get(byName, first + "|" + last);
      }
    }
  }

  lemma EmptyIndexes(norm: Normalizer, columns: JoinColumns)
    ensures EmailIndex(map[], norm, columns, []) && NameIndex(map[], norm, columns, [])
  {}

  lemma LastMatchNext(norm: Normalizer, rows: seq<PlanRow>, i: nat)
    requires i < |rows|
    ensures forall c :: LastMatch(norm, rows[..i + 1], c) ==
              if Matches(norm, rows[i], c) then Some(rows[i]) else LastMatch(norm, rows[..i], c)
  {
    assert rows[..i + 1][..i] == rows[..i];
  }

  lemma EmailIndexNext(byEmail: map<string, PlanRow>, norm: Normalizer, columns: JoinColumns,
                       rows: seq<PlanRow>, i: nat)
    requires i < |rows| && EmailIndex(byEmail, norm, columns, rows[..i])
    ensures var used := columns.email && rows[i].email != "";
            EmailIndex(if used then byEmail[norm(rows[i].email) := rows[i]] else byEmail, norm, columns, rows[..i + 1])
  {
    hide LastMatch;
    LastMatchNext(norm, rows, i);
  }

  lemma NameIndexNext(byName: map<string, PlanRow>, norm: Normalizer, columns: JoinColumns,
                      rows: seq<PlanRow>, i: nat)
    requires i < |rows| && NameIndex(byName, norm, columns, rows[..i])
    ensures var first, last := norm(rows[i].firstName), norm(rows[i].lastName);
            var used := columns.name && first != "" && last != "";
            NameIndex(if used then byName[NameKey(first, last) := rows[i]] else byName, norm, columns, rows[..i + 1])
  {
    hide LastMatch, NameKey;
    LastMatchNext(norm, rows, i);
  }

  /** A later row of the same key replaces an earlier one, so a lookup finds what a scan for the last match finds. */
  method IndexPlans(norm: Normalizer, columns: JoinColumns, rows: seq<PlanRow>)
    returns (byEmail: map<string, PlanRow>, byName: map<string, PlanRow>)
    ensures EmailIndex(byEmail, norm, columns, rows) && NameIndex(byName, norm, columns, rows)
  {
    hide LastMatch, EmailIndex, NameIndex;
    EmptyIndexes(norm, columns);
    byEmail, byName := map[], map[];
    for i := 0 to |rows|
      invariant EmailIndex(byEmail, norm, columns, rows[..i])
      invariant NameIndex(byName, norm, columns, rows[..i])
    {
      var row := rows[i];
      EmailIndexNext(byEmail, norm, columns, rows, i);
      NameIndexNext(byName, norm, columns, rows, i);
      if columns.email && row.email != "" {
        byEmail := byEmail[norm(row.email) := row];
      }
      if columns.name {
        var first, last := norm(row.firstName), norm(row.lastName);
        if first != "" && last != "" {
          byName := byName[first + "|" + last := row];
        }
      }
    }
    assert rows[..|rows|] == rows;
  }

  class PlanSync {
    var mirror: map<int, Plan>

    /** Indexes the view, then updates the mirror row of every student that joins a plan. */
    method SyncPlans(norm: Normalizer, columns: JoinColumns, plans: Fetch<PlanRow>, students: Fetch<Student>)
      returns (r: Report)
      modifies this
      ensures r.FailedFetch? <==> plans.FetchFailed? || students.FetchFailed?
      ensures r.NoPlanRows? <==> plans.Fetched? && students.Fetched? && plans.rows == []
      ensures r.NoJoinKey? <==>
        plans.Fetched? && students.Fetched? && plans.rows != [] && !columns.email && !columns.name
      ensures !r.Synced? ==> mirror == old(mirror)
      ensures r.Synced? ==>
        var p := AfterStudents(old(mirror), norm, columns, plans.rows, students.rows);
        mirror == p.mirror && r == Synced(|plans.rows|, |students.rows|, p.updated, p.skipped)
    {
      hide LastMatch, Joined;
      if plans.FetchFailed? || students.FetchFailed? { return FailedFetch; }
      var rows := plans.rows;
      if rows == [] { return NoPlanRows; }
      var byEmail, byName := IndexPlans(norm, columns, rows);
      if !columns.email && !columns.name { return NoJoinKey; }
      var updated, skipped := 0, 0;
      for i := 0 to |students.rows|
        invariant AfterStudents(old(mirror), norm, columns, rows, students.rows[..i]) == Pass(mirror, updated, skipped)
      {
        assert students.rows[..i + 1][..i] == students.rows[..i];
        var s := students.rows[i];
        if s.userId.None? {
          skipped := skipped + 1;
          continue;
        }
        var plan := PickPlan(norm, columns, rows, byEmail, byName, s);
        if plan.Some? && s.userId.value in mirror {
          var name := if plan.value.planName == "" then None else Some(plan.value.planName);
          var amount := if plan.value.downPayment.None? then 0.0 else plan.value.downPayment.value;
          mirror := mirror[s.userId.value := Plan(name, amount)];
          updated := updated + 1;
        } else {
          skipped := skipped + 1;
        }
      }
      assert students.rows[..|students.rows|] == students.rows;
      r := Synced(|rows|, |students.rows|, updated, skipped);
    }
  }
}
