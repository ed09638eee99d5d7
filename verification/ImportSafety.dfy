/** What every interleaving of the import keeps: slots, the first error, and
    that no job starts in a slot a failed job freed. */
module ImportSafety {

  import opened ImportProtocol
  import opened Options
  import opened Reports

  /** A worker whose slot is taken. */
  predicate Runs(s: State, k: nat) {
    At(s, k) && !PlaceOf(s, k).Left?
  }

  function Running(s: State): set<nat> {
    set k: nat | k < |s.results| && Runs(s, k)
  }

  /** The slot the submitter has taken and not yet given to a worker. */
  function Held(s: State): Option<nat> {
    match s.submitter
    case Holding(slot, _) => Some(slot)
    case Cleared(slot, _) => Some(slot)
    case _ => None
  }

  function SlotOf(s: State, k: nat): nat
    requires At(s, k)
  {
    s.results[k].worker.slot
  }

  /** Every slot is free, held by the submitter, or taken by one worker. */
  ghost predicate SlotInv(s: State) {
    && |s.results| <= |s.input|
    && (s.submitter.Selecting? || s.submitter.Holding? || s.submitter.Cleared? ==> |s.results| < |s.input|)
    && s.free <= SLOTS
    && (Held(s).Some? ==> Held(s).value in SLOTS - s.free)
    && (forall k: nat :: Runs(s, k) ==> SlotOf(s, k) in SLOTS - s.free && Held(s) != Some(SlotOf(s, k)))
    && (forall k: nat, l: nat :: Runs(s, k) && Runs(s, l) && SlotOf(s, k) == SlotOf(s, l) ==> k == l)
    && |Running(s)| + (if Held(s).Some? then 1 else 0) + |s.free| == |SLOTS|
  }

  predicate Errs(s: State, k: nat) {
    At(s, k) && (PlaceOf(s, k) == Leaving(false) || PlaceOf(s, k) == Left(false))
  }

  /** The first error is set before failed is closed, and every worker that
      freed its slot after an error did so after that. */
  ghost predicate ErrorInv(s: State) {
    && (s.once.Unused? <==> s.err.None?)
    && (s.once.Busy? ==> At(s, s.once.chunk) && PlaceOf(s, s.once.chunk).Closing? && s.err == Some(s.once.chunk))
    && (forall k: nat :: At(s, k) && PlaceOf(s, k).Closing? ==> s.once == Busy(k))
    && (s.failed <==> s.once.Used?)
    && (s.failed ==> Errs(s, s.err.value))
    && (forall k: nat :: Errs(s, k) ==> s.failed)
  }

  /** A slot freed by a failed job only exists once failed is closed, and no worker was started in one. */
  ghost predicate TaintInv(s: State) {
    && (s.tainted != {} ==> s.failed)
    && (s.submitter.Cleared? ==> s.submitter.slot !in s.tainted)
    && (forall k: nat :: At(s, k) ==> s.results[k].worker.cleanSlot)
  }

  ghost predicate Safe(s: State) {
    SlotInv(s) && ErrorInv(s) && TaintInv(s)
  }

  /** The slots don't care where a worker is, as long as it runs. */
  lemma SteadySlots(s: State, n: State)
    requires SlotInv(s)
    requires n.free == s.free && Held(n) == Held(s) && |n.results| <= |n.input| && n.input == s.input
    requires n.submitter.Selecting? ==> |n.results| < |n.input|
    requires (n.submitter.Holding? || n.submitter.Cleared?) ==> |n.results| == |s.results|
    requires forall k: nat :: Runs(n, k) <==> Runs(s, k)
    requires forall k: nat :: Runs(n, k) ==> SlotOf(n, k) == SlotOf(s, k)
    ensures SlotInv(n)
  {
    assert Running(n) == Running(s);
  }

  lemma AcquireKeepsSlots(s: State, slot: nat)
    requires SlotInv(s) && Enabled(s, Acquire(slot))
    ensures SlotInv(Apply(s, Acquire(slot)))
  {
    var n := Apply(s, Acquire(slot));
    assert forall k: nat :: Runs(n, k) <==> Runs(s, k);
    assert Running(n) == Running(s);
  }

  lemma RecheckKeepsSlots(s: State)
    requires SlotInv(s) && Enabled(s, Recheck)
    ensures SlotInv(Apply(s, Recheck))
  {
    var n := Apply(s, Recheck);
    if s.failed {
      HeldSlotIsFreed(s, n);
    } else {
      SteadySlots(s, n);
    }
  }

  lemma HeldSlotIsFreed(s: State, n: State)
    requires SlotInv(s) && s.submitter.Holding? && n == s.(free := s.free + {s.submitter.slot}, submitter := Stopped)
    ensures SlotInv(n)
  {
    assert forall k: nat :: Runs(n, k) <==> Runs(s, k);
    assert Running(n) == Running(s);
  }

  /** A worker's step short of freeing its slot. */
  predicate MovesWorker(a: Action) {
    PlainStep(a) || OnceStep(a)
  }

  /** How many steps a worker has left at most. */
  function Rank(p: Place): nat {
    match p
    case Post => 7
    case Created(_) => 6
    case Poll(_) => 5
    case Ended(_) => 4
    case Raised => 3
    case Closing => 2
    case Leaving(_) => 1
    case Left(_) => 0
  }

  /** A worker's step before the Once. */
  predicate PlainStep(a: Action) {
    a.PostOK? || a.PostLost? || a.PostError? || a.KeepID? || a.PollEnd? || a.PollError? || a.Record?
  }

  predicate OnceStep(a: Action) {
    a.EnterOnce? || a.SkipOnce? || a.Close?
  }

  /** n is s with chunk k's worker moved; its slot is what it was. */
  predicate Moved(s: State, n: State, k: nat) {
    && At(s, k) && At(n, k) && n.results == s.results[k := n.results[k]]
    && SlotOf(n, k) == SlotOf(s, k) && n.results[k].worker.cleanSlot == s.results[k].worker.cleanSlot
    && !PlaceOf(s, k).Left? && !PlaceOf(n, k).Left?
    && n.input == s.input && n.submitter == s.submitter && n.free == s.free && n.tainted == s.tainted
    && n.cancelled == s.cancelled
  }

  /** The error and its signal are as they were, and the worker has not to do with them. */
  predicate Steady(s: State, n: State, k: nat)
    requires At(s, k) && At(n, k)
  {
    && n.once == s.once && n.err == s.err && n.failed == s.failed
    && !PlaceOf(s, k).Closing? && !PlaceOf(s, k).Leaving?
    && !PlaceOf(n, k).Closing? && PlaceOf(n, k) != Leaving(false)
  }

  lemma PostingMoves(s: State, a: Action)
    requires Enabled(s, a) && (a.PostOK? || a.PostLost? || a.PostError?)
    ensures Moved(s, Apply(s, a), a.k) && Steady(s, Apply(s, a), a.k)
    ensures Rank(PlaceOf(Apply(s, a), a.k)) < Rank(PlaceOf(s, a.k))
  {
  }

  lemma PollingMoves(s: State, a: Action)
    requires Enabled(s, a) && (a.PollEnd? || a.PollError?)
    ensures Moved(s, Apply(s, a), a.k) && Steady(s, Apply(s, a), a.k)
    ensures Rank(PlaceOf(Apply(s, a), a.k)) < Rank(PlaceOf(s, a.k))
  {
  }

  lemma KeepingMoves(s: State, a: Action)
    requires Enabled(s, a) && a.KeepID?
    ensures Moved(s, Apply(s, a), a.k) && Steady(s, Apply(s, a), a.k)
    ensures Rank(PlaceOf(Apply(s, a), a.k)) < Rank(PlaceOf(s, a.k))
  {
  }

  lemma RecordingMoves(s: State, a: Action)
    requires Enabled(s, a) && a.Record?
    ensures Moved(s, Apply(s, a), a.k) && Steady(s, Apply(s, a), a.k)
    ensures Rank(PlaceOf(Apply(s, a), a.k)) < Rank(PlaceOf(s, a.k))
  {
  }

  lemma PlainStepMoves(s: State, a: Action)
    requires Enabled(s, a) && PlainStep(a)
    ensures Moved(s, Apply(s, a), a.k) && Steady(s, Apply(s, a), a.k)
    ensures Rank(PlaceOf(Apply(s, a), a.k)) < Rank(PlaceOf(s, a.k))
  {
    if a.KeepID? {
      KeepingMoves(s, a);
    } else if a.Record? {
      RecordingMoves(s, a);
    } else if a.PollEnd? || a.PollError? {
      PollingMoves(s, a);
    } else {
      PostingMoves(s, a);
    }
  }

  lemma OnceStepMoves(s: State, a: Action)
    requires Enabled(s, a) && OnceStep(a)
    ensures Moved(s, Apply(s, a), a.k)
    ensures Rank(PlaceOf(Apply(s, a), a.k)) < Rank(PlaceOf(s, a.k))
  {
  }

  lemma MovedKeepsSlots(s: State, n: State, k: nat)
    requires SlotInv(s) && Moved(s, n, k)
    ensures SlotInv(n)
  {
    SteadySlots(s, n);
  }

  lemma WorkersKeepSlots(s: State, a: Action)
    requires SlotInv(s) && Enabled(s, a) && MovesWorker(a)
    ensures SlotInv(Apply(s, a))
  {
    if PlainStep(a) {
      PlainStepMoves(s, a);
    } else {
      OnceStepMoves(s, a);
    }
    MovedKeepsSlots(s, Apply(s, a), a.k);
  }

  lemma StartCounts(s: State)
    requires SlotInv(s) && Enabled(s, Start)
    ensures |Running(Apply(s, Start))| == |Running(s)| + 1
  {
    var n := Apply(s, Start);
    forall k: nat
      ensures Runs(n, k) <==> Runs(s, k) || k == |s.results|
    {
    }
    assert Running(n) == Running(s) + {|s.results|};
  }

  lemma StartKeepsSlots(s: State)
    requires SlotInv(s) && Enabled(s, Start)
    ensures SlotInv(Apply(s, Start))
  {
    StartCounts(s);
    var n := Apply(s, Start);
    forall k: nat
      ensures Runs(n, k) <==> Runs(s, k) || k == |s.results|
      ensures Runs(s, k) ==> SlotOf(n, k) == SlotOf(s, k)
    {
    }
  }

  lemma FreeCounts(s: State, i: nat)
    requires SlotInv(s) && Enabled(s, Free(i))
    ensures var n := Apply(s, Free(i));
            |Running(n)| == |Running(s)| - 1 && |n.free| == |s.free| + 1
  {
    OneLessRuns(s, i);
    assert i in Running(s);
    assert Running(Apply(s, Free(i))) == Running(s) - {i};
  }

  lemma OneLessRuns(s: State, i: nat)
    requires Enabled(s, Free(i))
    ensures Runs(s, i) && forall k: nat :: Runs(Apply(s, Free(i)), k) <==> Runs(s, k) && k != i
  {
  }

  lemma FreeKeepsSlots(s: State, i: nat)
    requires SlotInv(s) && Enabled(s, Free(i))
    ensures SlotInv(Apply(s, Free(i)))
  {
    FreeCounts(s, i);
    assert Runs(s, i);
    var n := Apply(s, Free(i));
    forall k: nat
      ensures Runs(n, k) <==> Runs(s, k) && k != i
      ensures Runs(n, k) ==> SlotOf(n, k) == SlotOf(s, k)
    {
    }
  }

  lemma StepKeepsSlots(s: State, a: Action)
    requires SlotInv(s) && Enabled(s, a)
    ensures SlotInv(Apply(s, a))
  {
    if MovesWorker(a) {
      WorkersKeepSlots(s, a);
    } else if a.Start? {
      StartKeepsSlots(s);
    } else if a.Free? {
      FreeKeepsSlots(s, a.k);
    } else if a.Acquire? {
      AcquireKeepsSlots(s, a.slot);
    } else if a.Recheck? {
      RecheckKeepsSlots(s);
    } else if a.Restart? {
      assert Running(Apply(s, a)) == {};
    } else {
      SteadySlots(s, Apply(s, a));
    }
  }

  lemma EnteringKeepsErrors(s: State, k: nat)
    requires ErrorInv(s) && Enabled(s, EnterOnce(k))
    ensures ErrorInv(Apply(s, EnterOnce(k)))
  {
    assert forall l: nat :: Errs(Apply(s, EnterOnce(k)), l) ==> Errs(s, l);
  }

  lemma LeavingKeepsErrors(s: State, a: Action)
    requires ErrorInv(s) && Enabled(s, a) && (a.SkipOnce? || a.Close?)
    ensures ErrorInv(Apply(s, a))
  {
    var n := Apply(s, a);
    assert Errs(n, a.k);
    assert forall l: nat :: Errs(s, l) ==> Errs(n, l);
  }

  lemma FreeKeepsErrors(s: State, k: nat)
    requires ErrorInv(s) && Enabled(s, Free(k))
    ensures ErrorInv(Apply(s, Free(k)))
  {
    var n := Apply(s, Free(k));
    assert forall l: nat :: Errs(s, l) <==> Errs(n, l);
  }

  lemma SubmitterKeepsErrors(s: State, a: Action)
    requires ErrorInv(s) && Enabled(s, a) && !MovesWorker(a) && !a.Free?
    ensures ErrorInv(Apply(s, a))
  {
    var n := Apply(s, a);
    forall k: nat | Errs(n, k)
      ensures n.failed
    {
      assert Errs(s, k);
    }
  }

  lemma SteadyKeepsErrors(s: State, n: State, k: nat)
    requires ErrorInv(s) && Moved(s, n, k) && Steady(s, n, k)
    ensures ErrorInv(n)
  {
    forall l: nat | Errs(n, l)
      ensures n.failed
    {
      assert Errs(s, l);
    }
    if s.failed {
      assert Errs(n, s.err.value);
    }
  }

  lemma StepKeepsErrors(s: State, a: Action)
    requires ErrorInv(s) && Enabled(s, a)
    ensures ErrorInv(Apply(s, a))
  {
    if PlainStep(a) {
      PlainStepMoves(s, a);
      SteadyKeepsErrors(s, Apply(s, a), a.k);
    } else if a.EnterOnce? {
      EnteringKeepsErrors(s, a.k);
    } else if OnceStep(a) {
      LeavingKeepsErrors(s, a);
    } else if a.Free? {
      FreeKeepsErrors(s, a.k);
    } else {
      SubmitterKeepsErrors(s, a);
    }
  }

  lemma FreeKeepsTaint(s: State, k: nat)
    requires TaintInv(s) && Enabled(s, Free(k))
    requires !PlaceOf(s, k).ok ==> s.failed
    requires Held(s) != Some(SlotOf(s, k))
    ensures TaintInv(Apply(s, Free(k)))
  {
  }

  lemma MovedKeepsTaint(s: State, n: State, k: nat)
    requires TaintInv(s) && Moved(s, n, k) && (s.failed ==> n.failed)
    ensures TaintInv(n)
  {
  }

  lemma SubmitterKeepsTaint(s: State, a: Action)
    requires TaintInv(s) && Enabled(s, a) && !MovesWorker(a) && !a.Free?
    ensures TaintInv(Apply(s, a))
  {
  }

  lemma StepKeepsTaint(s: State, a: Action)
    requires Safe(s) && Enabled(s, a)
    ensures TaintInv(Apply(s, a))
  {
    if a.Free? {
      assert Runs(s, a.k) && (!PlaceOf(s, a.k).ok ==> Errs(s, a.k));
      FreeKeepsTaint(s, a.k);
    } else if MovesWorker(a) {
      if PlainStep(a) {
        PlainStepMoves(s, a);
      } else {
        OnceStepMoves(s, a);
      }
      SignalStays(s, a);
      MovedKeepsTaint(s, Apply(s, a), a.k);
    } else {
      SubmitterKeepsTaint(s, a);
    }
  }

  lemma {:induction false} EveryStateIsSafe(ss: seq<State>, acts: seq<Action>, i: nat)
    requires Behaviour(ss, acts) && i < |ss|
    ensures Safe(ss[i])
  {
    if i == 0 {
      assert Running(ss[0]) == {};
    } else {
      EveryStateIsSafe(ss, acts, i - 1);
      StepKeepsSlots(ss[i - 1], acts[i - 1]);
      StepKeepsErrors(ss[i - 1], acts[i - 1]);
      StepKeepsTaint(ss[i - 1], acts[i - 1]);
    }
  }

  /** In every interleaving, the occupied slots are the running workers and
      the one the submitter holds, at most two. */
  lemma AtMostTwoJobs(ss: seq<State>, acts: seq<Action>, i: nat)
    requires Behaviour(ss, acts) && i < |ss|
    ensures |SLOTS - ss[i].free| == |Running(ss[i])| + (if Held(ss[i]).Some? then 1 else 0) <= 2
  {
    EveryStateIsSafe(ss, acts, i);
    assert SLOTS == ss[i].free + (SLOTS - ss[i].free);
  }

  /** submit never starts a job in a slot that a failed job has freed. */
  lemma NoJobStartsAfterAFailure(ss: seq<State>, acts: seq<Action>, i: nat)
    requires Behaviour(ss, acts) && i < |acts| && acts[i].Start?
    ensures ss[i].submitter.slot !in ss[i].tainted
  {
    EveryStateIsSafe(ss, acts, i);
  }

  lemma ErrorStays(s: State, a: Action)
    requires ErrorInv(s) && Enabled(s, a) && !a.Restart?
    ensures s.err.Some? ==> Apply(s, a).err == s.err
  {
  }

  lemma SignalStays(s: State, a: Action)
    requires Enabled(s, a) && !a.Restart?
    ensures s.failed ==> Apply(s, a).failed
  {
  }

  /** The error a run returns is set once, by the job that failed first, before the others can see the signal. */
  lemma FirstErrorStays(ss: seq<State>, acts: seq<Action>, i: nat)
    requires Behaviour(ss, acts) && i < |acts| && !acts[i].Restart?
    ensures ss[i].err.Some? ==> ss[i + 1].err == ss[i].err
    ensures ss[i].failed ==> ss[i + 1].failed
    ensures ss[i + 1].failed ==> ss[i + 1].err.Some? && Errs(ss[i + 1], ss[i + 1].err.value)
  {
    EveryStateIsSafe(ss, acts, i);
    EveryStateIsSafe(ss, acts, i + 1);
    ErrorStays(ss[i], acts[i]);
    SignalStays(ss[i], acts[i]);
  }

  /** When wait returns, it reports an error exactly when a job ended in one. */
  lemma WaitReportsErrors(ss: seq<State>, acts: seq<Action>, i: nat)
    requires Behaviour(ss, acts) && i < |ss| && ss[i].submitter.Stopped? && Enabled(ss[i], Finish)
    ensures ss[i].failed <==> exists k :: Errs(ss[i], k)
    ensures Running(ss[i]) == {} && ss[i].free == SLOTS
  {
    EveryStateIsSafe(ss, acts, i);
    var s := ss[i];
    if s.failed {
      assert Errs(s, s.err.value);
    }
    assert Running(s) == {};
    assert |SLOTS - s.free| == |SLOTS| - |s.free|;
    assert SLOTS - s.free == {};
  }

  // Progress.

  /** How many steps all workers have left at most. */
  function StepsLeft(results: seq<Result>): nat {
    if results == [] then 0
    else
      var last := results[|results| - 1];
      StepsLeft(results[..|results| - 1]) + (if last.Live? then Rank(last.worker.place) else 0)
  }

  lemma {:induction false} StepsLeftUpdate(results: seq<Result>, k: nat, w: Worker)
    requires k < |results| && results[k].Live?
    ensures StepsLeft(results[k := Live(w)]) + Rank(results[k].worker.place) == StepsLeft(results) + Rank(w.place)
  {
    var n := |results| - 1;
    var more := results[k := Live(w)];
    if k < n {
      StepsLeftUpdate(results[..n], k, w);
      assert more[..n] == results[..n][k := Live(w)];
    } else {
      assert more[..n] == results[..n];
    }
  }

  /** A step of a worker, its slot's release included. */
  predicate WorkerStep(a: Action) {
    MovesWorker(a) || a.Free?
  }

  lemma FreeMoves(s: State, k: nat)
    requires Enabled(s, Free(k))
    ensures var n := Apply(s, Free(k));
            && At(n, k) && n.results == s.results[k := n.results[k]] && n.submitter == s.submitter
            && Rank(PlaceOf(n, k)) < Rank(PlaceOf(s, k))
  {
  }

  /** Every step of a worker leaves fewer to come: the workers never run on for ever. */
  lemma WorkerStepsRunOut(s: State, a: Action)
    requires Enabled(s, a) && WorkerStep(a)
    ensures StepsLeft(Apply(s, a).results) < StepsLeft(s.results) && Apply(s, a).submitter == s.submitter
  {
    if PlainStep(a) {
      PlainStepMoves(s, a);
    } else if OnceStep(a) {
      OnceStepMoves(s, a);
    } else {
      FreeMoves(s, a.k);
    }
    var n := Apply(s, a);
    StepsLeftUpdate(s.results, a.k, n.results[a.k].worker);
  }

  /** A stretch of worker steps is as long as they had steps left at most. */
  lemma {:induction false} StretchesRunOut(ss: seq<State>, acts: seq<Action>, i: nat, j: nat)
    requires Behaviour(ss, acts) && i <= j < |ss| && forall x :: i <= x < j ==> WorkerStep(acts[x])
    ensures j - i + StepsLeft(ss[j].results) <= StepsLeft(ss[i].results)
    ensures ss[j].submitter == ss[i].submitter
    decreases j - i
  {
    if i < j {
      StretchesRunOut(ss, acts, i, j - 1);
      WorkerStepsRunOut(ss[j - 1], acts[j - 1]);
    }
  }

  function SubmitterRank(p: Submitter): nat {
    match p
    case Reading => 5
    case Selecting(_) => 4
    case Holding(_, _) => 3
    case Cleared(_, _) => 2
    case Stopped => 1
    case Waited => 0
  }

  /** How many steps a run takes at most before it returns. */
  function StepsToCome(s: State): nat
    requires |s.results| <= |s.input|
  {
    StepsLeft(s.results) + 11 * (|s.input| - |s.results|) + SubmitterRank(s.submitter)
  }

  /** A step of the run: not a crash, nor one of the job's other saves or the context's. */
  predicate RunStep(a: Action) {
    !a.Restart? && !a.Persist? && !a.Cancel?
  }

  lemma {:induction false} StartingOneMore(results: seq<Result>, r: Result)
    ensures StepsLeft(results + [r]) == StepsLeft(results) + (if r.Live? then Rank(r.worker.place) else 0)
  {
    assert (results + [r])[..|results|] == results;
  }

  lemma {:induction false} ResultsRunOut(s: State, a: Action)
    requires SlotInv(s) && Enabled(s, a) && (a.Start? || a.Replay?)
    ensures |Apply(s, a).results| <= |Apply(s, a).input| && StepsToCome(Apply(s, a)) < StepsToCome(s)
  {
    StartingOneMore(s.results, Apply(s, a).results[|s.results|]);
  }

  lemma {:induction false} SubmitterStepsRunOut(s: State, a: Action)
    requires |s.results| <= |s.input| && Enabled(s, a) && RunStep(a) && !WorkerStep(a) && !a.Start? && !a.Replay?
    ensures |Apply(s, a).results| <= |Apply(s, a).input| && StepsToCome(Apply(s, a)) < StepsToCome(s)
  {
  }

  /** Every step of a run leaves fewer to come, and nothing else leaves more, but a crash. */
  lemma {:induction false} StepsRunOut(s: State, a: Action)
    requires SlotInv(s) && Enabled(s, a) && !a.Restart?
    ensures |Apply(s, a).results| <= |Apply(s, a).input|
    ensures StepsToCome(Apply(s, a)) + (if RunStep(a) then 1 else 0) <= StepsToCome(s)
  {
    if WorkerStep(a) {
      WorkerStepsRunOut(s, a);
      WorkersKeepResults(s, a);
    } else if a.Start? || a.Replay? {
      ResultsRunOut(s, a);
    } else if RunStep(a) {
      SubmitterStepsRunOut(s, a);
    }
  }

  lemma {:induction false} WorkersKeepResults(s: State, a: Action)
    requires Enabled(s, a) && WorkerStep(a)
    ensures |Apply(s, a).results| == |s.results| && Apply(s, a).input == s.input
  {
    if PlainStep(a) {
      PlainStepMoves(s, a);
    } else if OnceStep(a) {
      OnceStepMoves(s, a);
    }
  }

  function RunSteps(acts: seq<Action>): nat {
    if |acts| == 0 then 0 else RunSteps(acts[..|acts| - 1]) + (if RunStep(acts[|acts| - 1]) then 1 else 0)
  }

  ghost predicate Falls(s: State, n: State, a: Action) {
    && |s.results| <= |s.input| && |n.results| <= |n.input|
    && StepsToCome(n) + (if RunStep(a) then 1 else 0) <= StepsToCome(s)
  }

  ghost predicate FallsAt(ss: seq<State>, acts: seq<Action>, x: nat) {
    x < |acts| && x + 1 < |ss| && Falls(ss[x], ss[x + 1], acts[x])
  }

  lemma {:induction false} StepAtRunsOut(ss: seq<State>, acts: seq<Action>, x: nat)
    requires Behaviour(ss, acts) && x < |acts| && !acts[x].Restart?
    ensures FallsAt(ss, acts, x)
  {
    EveryStateIsSafe(ss, acts, x);
    StepsRunOut(ss[x], acts[x]);
  }

  lemma {:induction false} ResultsFit(ss: seq<State>, acts: seq<Action>, i: nat)
    requires Behaviour(ss, acts) && i < |ss|
    ensures |ss[i].results| <= |ss[i].input|
    ensures i == 0 || acts[i - 1].Restart? ==> StepsToCome(ss[i]) == 11 * |ss[i].input| + 5
  {
    EveryStateIsSafe(ss, acts, i);
    if i > 0 && acts[i - 1].Restart? {
      assert ss[i] == Apply(ss[i - 1], acts[i - 1]);
    }
  }

  lemma {:induction false} RunStepsOneMore(acts: seq<Action>, i: nat, j: nat)
    requires i < j <= |acts|
    ensures RunSteps(acts[i..j]) == RunSteps(acts[i..j - 1]) + (if RunStep(acts[j - 1]) then 1 else 0)
  {
    assert acts[i..j][..j - 1 - i] == acts[i..j - 1];
  }

  lemma {:induction false} StretchRunsOut(ss: seq<State>, acts: seq<Action>, i: nat, j: nat)
    requires i <= j <= |acts| && j < |ss| && |ss[i].results| <= |ss[i].input|
    requires forall x: nat :: i <= x < j ==> FallsAt(ss, acts, x)
    ensures |ss[j].results| <= |ss[j].input|
    ensures RunSteps(acts[i..j]) + StepsToCome(ss[j]) <= StepsToCome(ss[i])
    decreases j - i
  {
    if i < j {
      StretchRunsOut(ss, acts, i, j - 1);
      assert FallsAt(ss, acts, j - 1);
      RunStepsOneMore(acts, i, j);
    }
  }

  /** A run ends: between two crashes, however its goroutines interleave, it takes
      no more steps than were to come, eleven a chunk and five at its beginning. */
  lemma {:induction false} RunsEnd(ss: seq<State>, acts: seq<Action>, i: nat, j: nat)
    requires Behaviour(ss, acts) && i <= j < |ss| && forall x :: i <= x < j ==> !acts[x].Restart?
    requires i == 0 || acts[i - 1].Restart?
    ensures RunSteps(acts[i..j]) <= 11 * |ss[i].input| + 5
  {
    ResultsFit(ss, acts, i);
    forall x: nat | i <= x < j
      ensures FallsAt(ss, acts, x)
    {
      StepAtRunsOut(ss, acts, x);
    }
    StretchRunsOut(ss, acts, i, j);
  }

  /** The next step of a running worker, when its requests are answered and its
      saves succeed; one waiting in the Once waits for the one inside. */
  function NextStep(s: State, k: nat): Action
    requires Runs(s, k)
  {
    match PlaceOf(s, k)
    case Post => PostOK(k, false, EMPTY_REPORT)
    case Created(_) => KeepID(k, true)
    case Poll(_) => PollEnd(k)
    case Ended(_) => Record(k, true, true)
    case Raised =>
      (match s.once
       case Unused => EnterOnce(k)
       case Busy(l) => Close(l)
       case Used => SkipOnce(k))
    case Closing => Close(k)
    case _ => Free(k)
  }

  /** A worker that holds a slot can always take a step, or waits for one that can. */
  lemma RunningWorkersGoOn(s: State, k: nat)
    requires ErrorInv(s) && Runs(s, k)
    requires PlaceOf(s, k).Ended? ==> PlaceOf(s, k).job < |s.jobs|
    ensures Enabled(s, NextStep(s, k)) && WorkerStep(NextStep(s, k))
  {
  }

  /** What a run can do next by itself: not be killed or cancelled, have its
      reader fail, or save without cause. */
  predicate OwnStep(a: Action) {
    !a.Restart? && !a.Persist? && !a.Cancel? && !a.ReadFails?
  }

  ghost predicate CanGoOn(s: State) {
    exists a :: Enabled(s, a) && OwnStep(a)
  }

  /** With no worker running, the slots are free but for the submitter's. */
  lemma IdleSlotsAreFree(s: State)
    requires SlotInv(s) && Running(s) == {}
    ensures Held(s).None? ==> s.free == SLOTS
  {
    if Held(s).None? {
      assert |SLOTS - s.free| == |SLOTS| - |s.free|;
      assert SLOTS - s.free == {};
    }
  }

  lemma TakenSlotsHaveWorkers(s: State)
    requires SlotInv(s) && Held(s).None? && s.free == {}
    ensures Running(s) != {}
  {
    assert |Running(s)| == |SLOTS|;
  }

  lemma SubmitterGoesOn(s: State)
    requires SlotInv(s) && Running(s) == {} && !s.submitter.Waited?
    ensures CanGoOn(s)
  {
    match s.submitter
    case Reading =>
      var k := |s.results|;
      if k == |s.input| {
        assert Enabled(s, EndInput);
      } else if k in s.mem && s.mem[k].fingerprint != s.input[k] {
        assert Enabled(s, Mismatch);
      } else if k in s.mem && s.mem[k].done {
        assert Enabled(s, Replay(true));
      } else {
        assert Enabled(s, Offer);
      }
    case Selecting(_) =>
      IdleSlotsAreFree(s);
      assert Enabled(s, Acquire(0));
    case Holding(_, _) => assert Enabled(s, Recheck);
    case Cleared(_, _) => assert Enabled(s, Start);
    case Stopped =>
      assert forall i :: 0 <= i < |s.results| && s.results[i].Live? ==> i !in Running(s);
      assert Enabled(s, Finish);
  }

  /** No deadlock: whatever the interleaving, a run that has not returned has
      a step of its own to take, even with both slots taken and errors raised at once. */
  lemma NoDeadlock(s: State)
    requires SlotInv(s) && ErrorInv(s) && !s.submitter.Waited?
    requires forall k :: At(s, k) && PlaceOf(s, k).Ended? ==> PlaceOf(s, k).job < |s.jobs|
    ensures CanGoOn(s)
  {
    if k :| k in Running(s) {
      RunningWorkersGoOn(s, k);
    } else {
      SubmitterGoesOn(s);
    }
  }
}
