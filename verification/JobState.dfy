/** The states of a migration job and the moves between them. */
module JobState {

  import opened Options

  /** A stored job names its state by a string: the empty one is NoState, as in
      a job that has not failed and a retry that names no state, and the strings
      that name no state are told apart by a number. */
  datatype State =
    | Queued
    | Exporting
    | Validating
    | Importing
    | Verifying
    | Done
    | Failed
    | NoState
    | Unknown(name: nat)

  const PIPELINE: seq<State> := [Queued, Exporting, Validating, Importing, Verifying, Done]

  const ALL_STATES: set<State> := {Queued, Exporting, Validating, Importing, Verifying, Done}

  /** trace followed by the states of the pipeline from place i up to place k that are in steps. */
  function Trace(trace: seq<State>, i: nat, k: nat, steps: set<State>): seq<State>
    requires k <= |PIPELINE|
  {
    if k <= i then trace
    else if PIPELINE[k - 1] in steps then Trace(trace, i, k - 1, steps) + [PIPELINE[k - 1]]
    else Trace(trace, i, k - 1, steps)
  }

  lemma {:induction false} TraceOfAllIsSlice(trace: seq<State>, i: nat, k: nat)
    requires i <= k <= |PIPELINE|
    ensures Trace(trace, i, k, ALL_STATES) == trace + PIPELINE[i..k]
  {
    if i < k {
      TraceOfAllIsSlice(trace, i, k - 1);
      assert PIPELINE[k - 1] in ALL_STATES;
      assert PIPELINE[i..k] == PIPELINE[i..k - 1] + [PIPELINE[k - 1]];
    }
  }

  lemma TraceThenDone(trace: seq<State>, i: nat)
    requires i <= Index(Done)
    ensures Trace(trace, i, Index(Done), ALL_STATES) + [Done] == trace + PIPELINE[i..]
  {
    TraceOfAllIsSlice(trace, i, |PIPELINE|);
    assert PIPELINE[i..|PIPELINE|] == PIPELINE[i..];
  }

  /** What it adds is the states between, in their order. */
  lemma {:induction false} TraceIsInOrder(trace: seq<State>, i: nat, k: nat, steps: set<State>)
    requires k <= |PIPELINE|
    ensures trace <= Trace(trace, i, k, steps)
    ensures forall s :: s in Trace(trace, i, k, steps)[|trace|..] <==> s in steps && i <= Index(s) < k
    ensures forall x, y :: |trace| <= x < y < |Trace(trace, i, k, steps)| ==> Index(Trace(trace, i, k, steps)[x]) < Index(Trace(trace, i, k, steps)[y])
  {
    if k > i {
      TraceIsInOrder(trace, i, k - 1, steps);
      var before, last := Trace(trace, i, k - 1, steps), PIPELINE[k - 1];
      IndexPositions(last);
      if last in steps {
        assert Trace(trace, i, k, steps)[|trace|..] == before[|trace|..] + [last];
        forall x | |trace| <= x < |before|
          ensures Index(before[x]) < k - 1
        {
          assert before[x] == before[|trace|..][x - |trace|];
        }
        OnlyPlace(last);
      } else {
        OnlyPlace(last);
      }
    }
  }

  lemma OnlyPlace(s: State)
    requires Index(s) >= 0
    ensures forall t :: Index(t) == Index(s) ==> t == s
  {
  }

  predicate Terminal(s: State) {
    s == Done || s == Failed
  }

  function Index(s: State): int {
    match s
    case Queued => 0
    case Exporting => 1
    case Validating => 2
    case Importing => 3
    case Verifying => 4
    case Done => 5
    case _ => -1
  }

  /** index's loop finds the state's only place in the pipeline, or none. */
  method FindIndex(s: State) returns (at: int)
    ensures at == Index(s)
    ensures at == -1 <==> s !in PIPELINE
    ensures at != -1 ==> 0 <= at < |PIPELINE| && PIPELINE[at] == s
  {
    for i := 0 to |PIPELINE|
      invariant s !in PIPELINE[..i]
    {
      if PIPELINE[i] == s {
        return i;
      }
    }
    assert PIPELINE == PIPELINE[..|PIPELINE|];
    IndexPositions(s);
    return -1;
  }

  predicate Valid(s: State) {
    s == Failed || Index(s) >= 0
  }

  function Next(s: State): Option<State> {
    var i := Index(s);
    if i < 0 || i >= |PIPELINE| - 1 then None else Some(PIPELINE[i + 1])
  }

  predicate CanTransition(from: State, to: State) {
    if Terminal(from) then false
    else if to == Failed then Valid(from)
    else Next(from) == Some(to)
  }

  /** index is the position in the pipeline, and -1 for a state outside it. */
  lemma IndexPositions(s: State)
    ensures Index(s) == -1 <==> s !in PIPELINE
    ensures Index(s) >= 0 ==> Index(s) < |PIPELINE| && PIPELINE[Index(s)] == s
    ensures forall k :: 0 <= k < |PIPELINE| ==> Index(PIPELINE[k]) == k
  {
    assert Index(s) >= 0 ==> PIPELINE[Index(s)] == s;
  }

  /** A move is one place forward in the pipeline, or a failure of a working state; nothing leaves a terminal one. */
  lemma CanTransitionIsOneForwardOrFailure(from: State, to: State)
    ensures CanTransition(from, to) <==>
            from in PIPELINE && from != Done && (to == Failed || (to in PIPELINE && Index(to) == Index(from) + 1))
  {
    IndexPositions(from);
    IndexPositions(to);
  }

  predicate Path(path: seq<State>) {
    forall i :: 0 <= i < |path| - 1 ==> CanTransition(path[i], path[i + 1])
  }

  /** Moves never cycle: a path visits each place of the pipeline at most once, in order, and fails at most at its end. */
  lemma {:induction false} PathsEnd(path: seq<State>)
    requires |path| > 0 && Path(path)
    ensures |path| <= |PIPELINE| + 1
    ensures |path| > 1 ==> |path| - 2 <= Index(path[|path| - 2]) < |PIPELINE| - 1
    ensures forall i :: 0 <= i < |path| - 1 ==> !Terminal(path[i])
    decreases |path|
  {
    var n := |path|;
    if n > 1 {
      CanTransitionIsOneForwardOrFailure(path[n - 2], path[n - 1]);
      IndexPositions(path[n - 2]);
      PathsEnd(path[..n - 1]);
      if n > 2 {
        assert path[..n - 1][n - 3] == path[n - 3];
        assert CanTransition(path[n - 3], path[n - 2]);
        CanTransitionIsOneForwardOrFailure(path[n - 3], path[n - 2]);
      }
      forall i | 0 <= i < n - 1
        ensures !Terminal(path[i])
      {
        assert CanTransition(path[i], path[i + 1]);
      }
    }
  }
}
