/** The outreach lifecycle table and what holds of every path through it. */
module StateMachine {

  /** The ten listed states, and any other string a tracking row may hold. */
  datatype State =
    | Eligible | Queued | Contacted | NoResponse | Retry
    | Responded | Analyzed | InterventionRequired | Resolved | Closed
    | Unlisted(name: string)

  const TRANSITIONS: map<State, set<State>> := map[
    Eligible := {Queued, Closed},
    Queued := {Contacted, Closed},
    Contacted := {NoResponse, Responded, Closed, InterventionRequired},
    NoResponse := {State.Retry, Closed, InterventionRequired},
    Retry := {Contacted, Closed, InterventionRequired},
    Responded := {Analyzed, Resolved, Closed, InterventionRequired},
    Analyzed := {InterventionRequired, Resolved, Closed},
    InterventionRequired := {Resolved, Closed},
    Resolved := {Closed},
    Closed := {}
  ]

  /** A state missing from the table allows nothing. */
  predicate CanTransition(from: State, to: State) {
    from in TRANSITIONS && to in TRANSITIONS[from]
  }

  /** The table read the other way: from which states each state can be entered. */
  lemma EntriesAre(from: State)
    ensures !CanTransition(from, Eligible)
    ensures CanTransition(from, Queued) <==> from == Eligible
    ensures CanTransition(from, Contacted) <==> from == Queued || from == Retry
    ensures CanTransition(from, NoResponse) <==> from == Contacted
    ensures CanTransition(from, Retry) <==> from == NoResponse
    ensures CanTransition(from, Responded) <==> from == Contacted
    ensures CanTransition(from, Analyzed) <==> from == Responded
    ensures CanTransition(from, InterventionRequired) <==>
            from == Contacted || from == NoResponse || from == Retry || from == Responded || from == Analyzed
    ensures CanTransition(from, Resolved) <==> from == Responded || from == Analyzed || from == InterventionRequired
    ensures CanTransition(from, Closed) <==> !from.Closed? && !from.Unlisted?
    ensures forall name :: !CanTransition(from, Unlisted(name))
  {}

  predicate IsPath(p: seq<State>) {
    && p != []
    && forall i :: 0 <= i < |p| - 1 ==> CanTransition(p[i], p[i + 1])
  }

  /** How often a path takes the one edge that goes back. */
  function RetryEdges(p: seq<State>): nat {
    if |p| <= 1 then 0
    else (if p[0] == Retry && p[1] == Contacted then 1 else 0) + RetryEdges(p[1..])
  }

  lemma PathTail(p: seq<State>)
    requires IsPath(p) && |p| > 1
    ensures IsPath(p[1..])
  {
    forall i | 0 <= i < |p[1..]| - 1 ensures CanTransition(p[1..][i], p[1..][i + 1]) {
      assert CanTransition(p[i + 1], p[i + 2]);
    }
  }

  // ---- Length of paths through the cyclic table ----

  /** Every edge lowers this potential, except Retry -> Contacted, which raises it by two. */
  function Potential(s: State): nat {
    match s
    case Eligible => 7
    case Queued => 6
    case Contacted => 5
    case NoResponse => 4
    case Responded => 4
    case Retry => 3
    case Analyzed => 3
    case InterventionRequired => 2
    case Resolved => 1
    case Closed => 0
    case Unlisted(_) => 0
  }

  lemma {:induction false} PathPotential(p: seq<State>)
    requires IsPath(p)
    ensures |p| - 1 + Potential(p[|p| - 1]) <= Potential(p[0]) + 3 * RetryEdges(p)
  {
    if |p| > 1 {
      assert CanTransition(p[0], p[1]);
      PathTail(p);
      PathPotential(p[1..]);
    }
  }

  /** A path that retries r times has at most 7 + 3r edges. */
  lemma PathBound(p: seq<State>)
    requires IsPath(p)
    ensures |p| - 1 <= 7 + 3 * RetryEdges(p)
  {
    PathPotential(p);
  }

  const LAST_LEG: seq<State> := [Responded, Analyzed, InterventionRequired, Resolved, Closed]

  function RetryLoop(r: nat): seq<State> {
    if r == 0 then [Contacted] + LAST_LEG
    else [Contacted] + ([NoResponse] + ([Retry] + RetryLoop(r - 1)))
  }

  lemma NoRetryNoEdges(p: seq<State>)
    requires Retry !in p
    ensures RetryEdges(p) == 0
  {}

  /** One more state in front: a path still, with one more retry if it is the retried state before contact. */
  lemma PathCons(s: State, p: seq<State>)
    requires IsPath(p) && CanTransition(s, p[0])
    ensures IsPath([s] + p)
    ensures RetryEdges([s] + p) == RetryEdges(p) + if s == Retry && p[0] == Contacted then 1 else 0
  {
    var q := [s] + p;
    assert q[1..] == p;
    forall i | 0 <= i < |q| - 1 ensures CanTransition(q[i], q[i + 1]) {
      if i > 0 { assert q[i] == p[i - 1] && q[i + 1] == p[i - 1 + 1]; }
    }
  }

  lemma LoopEdges()
    ensures CanTransition(Contacted, NoResponse) && CanTransition(NoResponse, Retry) && CanTransition(Retry, Contacted)
  {}

  lemma LastLeg()
    ensures IsPath([Contacted] + LAST_LEG) && RetryEdges([Contacted] + LAST_LEG) == 0
  {
    NoRetryNoEdges([Contacted] + LAST_LEG);
  }

  lemma {:induction false} RetryLoopIsPath(r: nat)
    ensures IsPath(RetryLoop(r)) && RetryLoop(r)[0] == Contacted
    ensures |RetryLoop(r)| == 6 + 3 * r && RetryEdges(RetryLoop(r)) == r
  {
    hide RetryEdges, IsPath, CanTransition;
    LoopEdges();
    LastLeg();
    if r > 0 {
      var q := RetryLoop(r - 1);
      RetryLoopIsPath(r - 1);
      PathCons(Retry, q);
      PathCons(NoResponse, [Retry] + q);
      PathCons(Contacted, [NoResponse] + ([Retry] + q));
    }
  }

  /** The bound is attained for every number of retries. */
  lemma PathBoundTight(r: nat) returns (p: seq<State>)
    ensures IsPath(p) && RetryEdges(p) == r && |p| - 1 == 7 + 3 * r
  {
    var q := RetryLoop(r);
    RetryLoopIsPath(r);
    PathCons(Queued, q);
    PathCons(Eligible, [Queued] + q);
    p := [Eligible] + ([Queued] + q);
  }

  // ---- What a path can come back to ----

  const BEFORE_RESPONSE: set<State> := {Eligible, Queued, Contacted, NoResponse, Retry}

  lemma {:induction false} StaysPastResponse(p: seq<State>)
    requires IsPath(p) && p[0] !in BEFORE_RESPONSE
    ensures forall i :: 0 <= i < |p| ==> p[i] !in BEFORE_RESPONSE
  {
    if |p| > 1 {
      assert CanTransition(p[0], p[1]);
      PathTail(p);
      StaysPastResponse(p[1..]);
      assert forall i :: 1 <= i < |p| ==> p[i] == p[1..][i - 1];
    }
  }

  /** Contact can (again) follow a state exactly when no response has been recorded yet. */
  lemma ContactReachableIff(s: State)
    ensures (exists p :: IsPath(p) && |p| > 1 && p[0] == s && p[|p| - 1] == Contacted) <==> s in BEFORE_RESPONSE
  {
    if s in BEFORE_RESPONSE {
      var p := match s
        case Eligible => [Eligible, Queued, Contacted]
        case Contacted => [Contacted, NoResponse, Retry, Contacted]
        case NoResponse => [NoResponse, Retry, Contacted]
        case _ => [s, Contacted];
      assert IsPath(p) && |p| > 1 && p[0] == s && p[|p| - 1] == Contacted;
    } else {
      forall p | IsPath(p) && p[0] == s ensures p[|p| - 1] != Contacted {
        StaysPastResponse(p);
      }
    }
  }

  // ---- Paths driven only by the webhook and by manual actions ----

  const WEBHOOK_TARGETS: set<State> := {Responded, NoResponse, Analyzed}
  const MANUAL_TARGETS: set<State> := {Closed, Retry, InterventionRequired, Resolved}

  /** The longest stretch of handler edges from a state. */
  function HandlerRank(s: State): nat {
    match s
    case Eligible => 1
    case Queued => 1
    case Contacted => 5
    case NoResponse => 4
    case Responded => 4
    case Retry => 3
    case Analyzed => 3
    case InterventionRequired => 2
    case Resolved => 1
    case Closed => 0
    case Unlisted(_) => 0
  }

  lemma HandlerEdgeDescends(from: State, to: State)
    requires CanTransition(from, to) && to in WEBHOOK_TARGETS + MANUAL_TARGETS
    ensures HandlerRank(to) < HandlerRank(from)
  {}

  predicate IsHandlerPath(p: seq<State>) {
    && IsPath(p)
    && forall i :: 1 <= i < |p| ==> p[i] in WEBHOOK_TARGETS + MANUAL_TARGETS
  }

  lemma {:induction false} HandlerPathBound(p: seq<State>)
    requires IsHandlerPath(p)
    ensures |p| - 1 <= HandlerRank(p[0]) - HandlerRank(p[|p| - 1]) <= 5
  {
    if |p| > 1 {
      HandlerEdgeDescends(p[0], p[1]);
      PathTail(p);
      HandlerPathBound(p[1..]);
    }
  }

  /** The rank is exact: some handler path from every state uses it up. */
  lemma {:induction false} HandlerRankAttained(s: State) returns (p: seq<State>)
    ensures IsHandlerPath(p) && p[0] == s && |p| - 1 == HandlerRank(s)
    decreases HandlerRank(s)
  {
    p := [s];
    if HandlerRank(s) > 0 {
      var next := match s
        case Contacted => Responded
        case NoResponse => State.Retry
        case Responded => Analyzed
        case Retry => InterventionRequired
        case Analyzed => InterventionRequired
        case InterventionRequired => Resolved
        case _ => Closed;
      var rest := HandlerRankAttained(next);
      PathCons(s, rest);
      p := [s] + rest;
    }
  }
}
