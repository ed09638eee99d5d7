/** Where every job of the target is accounted for, across any number of runs,
    and what the import reports when a run gets to its end. */
module ImportJobs {

  import opened ImportProtocol
  import opened ImportSafety
  import opened Options
  import opened Reports

  function Lookup(cps: Checkpoints, k: nat): Option<Saved> {
    if k in cps then Some(cps[k]) else None
  }

  /** A checkpoint's job is a job of its chunk and content, and a done one has that job's report. */
  predicate SavedOK(jobs: seq<RemoteJob>, k: nat, c: Saved) {
    && (c.job.Some? ==> c.job.value < |jobs| && jobs[c.job.value].chunk == k && jobs[c.job.value].fingerprint == c.fingerprint)
    && (c.done ==> c.job.Some? && !jobs[c.job.value].fails && c.report == jobs[c.job.value].report)
  }

  predicate CheckpointOK(jobs: seq<RemoteJob>, cps: Checkpoints, k: nat) {
    k in cps ==> SavedOK(jobs, k, cps[k])
  }

  ghost predicate CheckpointsOK(s: State) {
    forall k: nat :: CheckpointOK(s.jobs, s.mem, k) && CheckpointOK(s.jobs, s.disk, k)
  }

  /** The chunk's checkpoint is on disk as it is in memory. */
  predicate Untouched(s: State, k: nat) {
    Lookup(s.mem, k) == Lookup(s.disk, k)
  }

  predicate IsJobOf(s: State, k: nat, id: nat)
    requires k < |s.input|
  {
    id < |s.jobs| && s.jobs[id].chunk == k && s.jobs[id].fingerprint == s.input[k]
  }

  /** The report of the chunk's job id, which its checkpoint on disk has if it is
      done, and which failed otherwise. */
  predicate ReportOK(s: State, k: nat, r: ImportReport, id: nat)
    requires k < |s.input|
  {
    && k in s.mem && Untouched(s, k) && s.mem[k].fingerprint == s.input[k]
    && IsJobOf(s, k, id) && r == s.jobs[id].report
    && (if s.mem[k].done then s.mem[k].job == Some(id) && !s.jobs[id].fails else s.jobs[id].fails)
  }

  predicate WorkerOK(s: State, k: nat)
    requires At(s, k) && k < |s.input|
  {
    var w := s.results[k].worker;
    && w.fingerprint == s.input[k]
    && match w.place
       case Post => Untouched(s, k) && JobOf(s.mem, k) == None
       case Created(id) => Untouched(s, k) && JobOf(s.mem, k) == None && IsJobOf(s, k, id)
       case Poll(id) => Holds(s.mem, k, id) && Holds(s.disk, k, id) && IsJobOf(s, k, id)
       case Ended(id) => Holds(s.mem, k, id) && Holds(s.disk, k, id) && IsJobOf(s, k, id)
       case Leaving(ok) => ok ==> ReportOK(s, k, w.report, w.ended)
       case Left(ok) => ok ==> ReportOK(s, k, w.report, w.ended)
       case _ => true
  }

  predicate ResultOK(s: State, k: nat)
    requires k < |s.results| <= |s.input|
  {
    match s.results[k]
    case Replayed(r) => k in s.mem && s.mem[k].done && s.mem[k].job.Some? && ReportOK(s, k, r, s.mem[k].job.value)
    case Live(_) => WorkerOK(s, k)
  }

  ghost predicate ResultsOK(s: State) {
    && |s.results| <= |s.input|
    && (forall k: nat :: k < |s.results| ==> ResultOK(s, k))
    && (forall k: nat :: |s.results| <= k ==> Untouched(s, k))
  }

  /** The checkpoint submit read for the chunk it is about to start is still the chunk's. */
  predicate SubmitterOK(s: State) {
    s.submitter.Selecting? || s.submitter.Holding? || s.submitter.Cleared? ==>
      && |s.results| < |s.input|
      && s.submitter.job == JobOf(s.mem, |s.results|)
      && (|s.results| in s.mem ==> s.mem[|s.results|].fingerprint == s.input[|s.results|])
  }

  /** A job is on its worker's way to the checkpoint, in memory, on disk, forgotten, or lost. */
  predicate Accounted(s: State, id: nat)
    requires id < |s.jobs|
  {
    Flying(s, id) || Unsaved(s, id) || Stored(s, id) || id in s.forgotten || id in s.lost
  }

  predicate AccountOK(s: State, id: nat)
    requires id < |s.jobs|
  {
    && Accounted(s, id)
    && (id in s.forgotten ==> s.jobs[id].fails && id !in s.lost)
    && (id in s.forgotten || id in s.lost ==> !Flying(s, id) && !Holds(s.mem, s.jobs[id].chunk, id) && !Stored(s, id))
    && (Stored(s, id) && !Holds(s.mem, s.jobs[id].chunk, id) ==> s.jobs[id].fails && JobOf(s.mem, s.jobs[id].chunk) == None)
  }

  ghost predicate AccountsOK(s: State) {
    && (forall id: nat :: id < |s.jobs| ==> AccountOK(s, id))
    && (forall id: nat :: id in s.forgotten || id in s.lost ==> id < |s.jobs|)
  }

  ghost predicate Sound(s: State) {
    CheckpointsOK(s) && ResultsOK(s) && SubmitterOK(s) && AccountsOK(s)
  }

  /** n is s after a step of chunk k's worker that saved nothing to disk. */
  ghost predicate StepsAt(s: State, n: State, k: nat) {
    && At(s, k) && At(n, k) && n.results == s.results[k := n.results[k]]
    && n.input == s.input && n.disk == s.disk && n.submitter == s.submitter && n.forgotten == s.forgotten
    && |s.jobs| <= |n.jobs| && (forall id :: 0 <= id < |s.jobs| ==> n.jobs[id] == s.jobs[id])
    && (forall id :: |s.jobs| <= id < |n.jobs| ==> n.jobs[id].chunk == k)
    && (forall i: nat :: i != k ==> Lookup(n.mem, i) == Lookup(s.mem, i))
    && s.lost <= n.lost && (forall id: nat :: id in n.lost && id !in s.lost ==> |s.jobs| <= id < |n.jobs|)
  }

  lemma OtherResultStaysOK(s: State, n: State, k: nat, i: nat)
    requires ResultsOK(s) && StepsAt(s, n, k) && i < |s.results| && i != k
    ensures ResultOK(n, i)
  {
    assert ResultOK(s, i);
    assert n.results[i] == s.results[i];
    assert Lookup(n.mem, i) == Lookup(s.mem, i);
  }

  lemma StepKeepsResults(s: State, n: State, k: nat)
    requires ResultsOK(s) && StepsAt(s, n, k) && WorkerOK(n, k)
    ensures ResultsOK(n)
  {
    forall i: nat | i < |n.results|
      ensures ResultOK(n, i)
    {
      if i != k {
        OtherResultStaysOK(s, n, k, i);
      }
    }
    forall i: nat | |n.results| <= i
      ensures Untouched(n, i)
    {
      assert Untouched(s, i);
    }
  }

  lemma StepKeepsCheckpoints(s: State, n: State, k: nat)
    requires CheckpointsOK(s) && StepsAt(s, n, k)
    requires CheckpointOK(n.jobs, n.mem, k)
    ensures CheckpointsOK(n)
  {
    forall i: nat
      ensures CheckpointOK(n.jobs, n.mem, i) && CheckpointOK(n.jobs, n.disk, i)
    {
      assert CheckpointOK(s.jobs, s.mem, i) && CheckpointOK(s.jobs, s.disk, i);
      assert i != k ==> Lookup(n.mem, i) == Lookup(s.mem, i);
    }
  }

  lemma StepKeepsAccounts(s: State, n: State, k: nat)
    requires AccountsOK(s) && StepsAt(s, n, k)
    requires forall id: nat :: id < |n.jobs| && n.jobs[id].chunk == k ==> AccountOK(n, id)
    ensures AccountsOK(n)
  {
    forall id: nat | id < |n.jobs| && n.jobs[id].chunk != k
      ensures AccountOK(n, id)
    {
      var c := n.jobs[id].chunk;
      assert AccountOK(s, id);
      assert Lookup(n.mem, c) == Lookup(s.mem, c);
      assert Flying(n, id) <==> Flying(s, id);
    }
  }

  lemma StepKeepsSound(s: State, n: State, k: nat)
    requires Sound(s) && StepsAt(s, n, k) && WorkerOK(n, k)
    requires CheckpointOK(n.jobs, n.mem, k)
    requires forall id: nat :: id < |n.jobs| && n.jobs[id].chunk == k ==> AccountOK(n, id)
    ensures Sound(n)
  {
    StepKeepsResults(s, n, k);
    StepKeepsCheckpoints(s, n, k);
    StepKeepsAccounts(s, n, k);
    assert Lookup(n.mem, |n.results|) == Lookup(s.mem, |s.results|);
  }

  lemma SameAccounts(s: State, n: State, k: nat)
    requires AccountsOK(s) && StepsAt(s, n, k) && n.mem == s.mem && n.jobs == s.jobs && n.lost == s.lost
    requires PlaceOf(s, k).Created? ==> PlaceOf(n, k) == PlaceOf(s, k)
    requires PlaceOf(n, k).Created? ==> PlaceOf(n, k) == PlaceOf(s, k)
    ensures forall id: nat :: id < |n.jobs| && n.jobs[id].chunk == k ==> AccountOK(n, id)
  {
    forall id: nat | id < |n.jobs| && n.jobs[id].chunk == k
      ensures AccountOK(n, id)
    {
      assert AccountOK(s, id);
    }
  }

  /** A worker's step that creates no job and saves nothing. */
  lemma MoveKeepsSound(s: State, a: Action)
    requires Sound(s) && Enabled(s, a)
    requires a.PostError? || a.PollEnd? || a.PollError?
    ensures Sound(Apply(s, a))
  {
    assert ResultOK(s, a.k);
    assert CheckpointOK(s.jobs, s.mem, a.k);
    var n := Apply(s, a);
    SameAccounts(s, n, a.k);
    StepKeepsSound(s, n, a.k);
  }

  lemma FailingKeepsSound(s: State, a: Action)
    requires Sound(s) && Enabled(s, a)
    requires a.EnterOnce? || a.SkipOnce? || a.Close?
    ensures Sound(Apply(s, a))
  {
    assert ResultOK(s, a.k);
    assert CheckpointOK(s.jobs, s.mem, a.k);
    var n := Apply(s, a);
    SameAccounts(s, n, a.k);
    StepKeepsSound(s, n, a.k);
  }

  lemma FreeKeepsSound(s: State, k: nat)
    requires Sound(s) && Enabled(s, Free(k))
    ensures Sound(Apply(s, Free(k)))
  {
    assert ResultOK(s, k);
    assert CheckpointOK(s.jobs, s.mem, k);
    var n := Apply(s, Free(k));
    SameAccounts(s, n, k);
    StepKeepsSound(s, n, k);
  }

  lemma PostKeepsSound(s: State, k: nat, a: Action)
    requires Sound(s) && Enabled(s, a) && (a.PostOK? || a.PostLost?) && k == a.k
    ensures Sound(Apply(s, a))
  {
    assert ResultOK(s, k);
    assert CheckpointOK(s.jobs, s.mem, k);
    var n := Apply(s, a);
    PostKeepsAccounts(s, n, k);
    StepKeepsSound(s, n, k);
  }

  lemma PostKeepsAccounts(s: State, n: State, k: nat)
    requires AccountsOK(s) && StepsAt(s, n, k) && n.mem == s.mem && Untouched(s, k) && JobOf(s.mem, k) == None
    requires PlaceOf(s, k).Post? && |n.jobs| == |s.jobs| + 1
    requires (PlaceOf(n, k) == Created(|s.jobs|) && n.lost == s.lost) || (PlaceOf(n, k) == Raised && n.lost == s.lost + {|s.jobs|})
    ensures forall id: nat :: id < |n.jobs| && n.jobs[id].chunk == k ==> AccountOK(n, id)
  {
    forall id: nat | id < |n.jobs| && n.jobs[id].chunk == k
      ensures AccountOK(n, id)
    {
      assert id < |s.jobs| ==> AccountOK(s, id);
    }
  }

  lemma SaveKeepsResult(s: State, k: nat)
    requires ResultsOK(s) && k < |s.results|
    ensures ResultOK(SaveAll(s), k)
  {
    var n := SaveAll(s);
    assert ResultOK(s, k);
  }

  lemma SaveKeepsAccount(s: State, id: nat)
    requires ResultsOK(s) && id < |s.jobs| && AccountOK(s, id)
    ensures AccountOK(SaveAll(s), id)
  {
    var n := SaveAll(s);
    assert Flying(n, id) <==> Flying(s, id);
    if Flying(s, id) {
      assert ResultOK(s, s.jobs[id].chunk);
    }
    assert id in n.forgotten <==> id in s.forgotten || (Stored(s, id) && !Holds(s.mem, s.jobs[id].chunk, id));
  }

  lemma SaveKeepsSound(s: State)
    requires Sound(s)
    ensures Sound(SaveAll(s))
  {
    var n := SaveAll(s);
    forall k: nat | k < |n.results|
      ensures ResultOK(n, k)
    {
      SaveKeepsResult(s, k);
    }
    forall k: nat
      ensures CheckpointOK(n.jobs, n.mem, k) && CheckpointOK(n.jobs, n.disk, k)
    {
      assert CheckpointOK(s.jobs, s.mem, k);
    }
    forall id: nat | id < |n.jobs|
      ensures AccountOK(n, id)
    {
      SaveKeepsAccount(s, id);
    }
  }

  /** After its save, a worker moves on: to polling the saved job, or out with the chunk's report. */
  lemma SavedWorkerGoesOn(s: State, k: nat, p: Place)
    requires Sound(s) && At(s, k) && PlaceOf(s, k).Raised?
    requires p.Poll? || p == Leaving(true)
    requires p.Poll? ==> Holds(s.mem, k, p.job) && Holds(s.disk, k, p.job) && k < |s.input| && IsJobOf(s, k, p.job)
    requires p.Leaving? ==> k < |s.input| && ReportOK(s, k, s.results[k].worker.report, s.results[k].worker.ended)
    ensures Sound(Move(s, k, p))
  {
    var n := Move(s, k, p);
    assert ResultOK(s, k);
    assert CheckpointOK(s.jobs, s.mem, k);
    forall id: nat | id < |n.jobs| && n.jobs[id].chunk == k
      ensures AccountOK(n, id)
    {
      assert AccountOK(s, id);
    }
    StepKeepsSound(s, n, k);
  }

  /** What a save forgets does not depend on the workers. */
  lemma SameForgotten(m: State, n: State)
    requires m.mem == n.mem && m.disk == n.disk && m.jobs == n.jobs
    ensures ToForget(m) == ToForget(n)
  {
  }

  /** A successful save is the failed one, then the save, then the worker going on. */
  lemma KeepingAfterwards(s: State, k: nat)
    requires Enabled(s, KeepID(k, true))
    ensures Apply(s, KeepID(k, true)) == Move(SaveAll(Apply(s, KeepID(k, false))), k, Poll(PlaceOf(s, k).job))
  {
    var m, n := Apply(s, KeepID(k, false)), Apply(s, KeepID(k, true));
    assert n.results == Move(SaveAll(m), k, Poll(PlaceOf(s, k).job)).results;
    SameForgotten(m, s.(mem := m.mem));
  }

  lemma RecordingAfterwards(s: State, k: nat, eventOK: bool)
    requires Enabled(s, Record(k, true, eventOK))
    ensures Apply(s, Record(k, true, eventOK))
            == Move(SaveAll(Apply(s, Record(k, false, eventOK))), k, if eventOK then Leaving(true) else Raised)
  {
    var m, n := Apply(s, Record(k, false, eventOK)), Apply(s, Record(k, true, eventOK));
    assert n.results == Move(SaveAll(m), k, if eventOK then Leaving(true) else Raised).results;
    SameForgotten(m, s.(mem := m.mem));
  }

  lemma KeepIDUnsavedKeepsSound(s: State, k: nat)
    requires Sound(s) && Enabled(s, KeepID(k, false))
    ensures Sound(Apply(s, KeepID(k, false)))
  {
    assert ResultOK(s, k);
    assert CheckpointOK(s.jobs, s.mem, k);
    var m := Apply(s, KeepID(k, false));
    forall i: nat | i < |m.jobs| && m.jobs[i].chunk == k
      ensures AccountOK(m, i)
    {
      assert AccountOK(s, i);
    }
    StepKeepsSound(s, m, k);
  }

  /** Handing a new job's ID to SaveChunk, whether or not the save succeeds. */
  lemma KeepIDKeepsSound(s: State, k: nat, saved: bool)
    requires Sound(s) && Enabled(s, KeepID(k, saved))
    ensures Sound(Apply(s, KeepID(k, saved)))
  {
    KeepIDUnsavedKeepsSound(s, k);
    if saved {
      assert ResultOK(s, k);
      SaveKeepsSound(Apply(s, KeepID(k, false)));
      SavedWorkerGoesOn(SaveAll(Apply(s, KeepID(k, false))), k, Poll(PlaceOf(s, k).job));
      KeepingAfterwards(s, k);
    }
  }

  lemma RecordUnsavedKeepsSound(s: State, k: nat, eventOK: bool)
    requires Sound(s) && Enabled(s, Record(k, false, eventOK))
    ensures Sound(Apply(s, Record(k, false, eventOK)))
    ensures var m := Apply(s, Record(k, false, eventOK));
            k < |m.input| && ReportOK(SaveAll(m), k, m.results[k].worker.report, m.results[k].worker.ended)
  {
    assert ResultOK(s, k);
    assert CheckpointOK(s.jobs, s.mem, k);
    var m := Apply(s, Record(k, false, eventOK));
    forall i: nat | i < |m.jobs| && m.jobs[i].chunk == k
      ensures AccountOK(m, i)
    {
      assert AccountOK(s, i);
    }
    StepKeepsSound(s, m, k);
  }

  /** A finished job's checkpoint: done with the chunk's answer, or without the failed job. */
  lemma RecordKeepsSound(s: State, k: nat, saved: bool, eventOK: bool)
    requires Sound(s) && Enabled(s, Record(k, saved, eventOK))
    ensures Sound(Apply(s, Record(k, saved, eventOK)))
  {
    RecordUnsavedKeepsSound(s, k, eventOK);
    if saved {
      var m := SaveAll(Apply(s, Record(k, false, eventOK)));
      SaveKeepsSound(Apply(s, Record(k, false, eventOK)));
      RecordingAfterwards(s, k, eventOK);
      if eventOK {
        SavedWorkerGoesOn(m, k, Leaving(true));
      } else {
        assert Move(m, k, Raised) == m;
      }
    }
  }

  /** The submitter's steps leave the workers and the checkpoints alone. */
  ghost predicate Submits(s: State, n: State) {
    && n.(submitter := s.submitter, results := s.results, free := s.free, cancelled := s.cancelled) == s
    && s.results <= n.results && |n.results| <= |n.input|
    && (forall k: nat :: |s.results| <= k < |n.results| && At(n, k) ==> !PlaceOf(n, k).Created?)
  }

  lemma SubmitterKeepsAccounts(s: State, n: State)
    requires Sound(s) && Submits(s, n)
    ensures AccountsOK(n)
  {
    forall id: nat | id < |n.jobs|
      ensures AccountOK(n, id)
    {
      assert AccountOK(s, id);
      assert Flying(n, id) <==> Flying(s, id);
    }
  }

  lemma SubmitterKeepsSound(s: State, n: State)
    requires Sound(s) && Submits(s, n) && SubmitterOK(n)
    requires forall k: nat :: |s.results| <= k < |n.results| ==> ResultOK(n, k)
    ensures Sound(n)
  {
    SubmitterKeepsAccounts(s, n);
    forall k: nat | k < |s.results|
      ensures ResultOK(n, k)
    {
      assert ResultOK(s, k) && n.results[k] == s.results[k];
    }
    forall k: nat
      ensures CheckpointOK(n.jobs, n.mem, k) && CheckpointOK(n.jobs, n.disk, k)
    {
      assert CheckpointOK(s.jobs, s.mem, k) && CheckpointOK(s.jobs, s.disk, k);
    }
    forall k: nat | |n.results| <= k
      ensures Untouched(n, k)
    {
      assert Untouched(s, k);
    }
  }

  lemma SubmitKeepsSound(s: State, a: Action)
    requires Sound(s) && Enabled(s, a)
    requires a.Mismatch? || a.Offer? || a.Acquire? || a.Recheck? || a.Finish? || a.EndInput? || a.ReadFails? || a.GiveUp? || a.Cancel?
    ensures Sound(Apply(s, a))
  {
    SubmitterKeepsSound(s, Apply(s, a));
  }

  lemma ReplayKeepsSound(s: State, eventOK: bool)
    requires Sound(s) && Enabled(s, Replay(eventOK))
    ensures Sound(Apply(s, Replay(eventOK)))
  {
    assert CheckpointOK(s.jobs, s.mem, |s.results|);
    assert Untouched(s, |s.results|);
    SubmitterKeepsSound(s, Apply(s, Replay(eventOK)));
  }

  lemma StartKeepsSound(s: State)
    requires Sound(s) && Enabled(s, Start)
    ensures Sound(Apply(s, Start))
  {
    assert CheckpointOK(s.jobs, s.mem, |s.results|);
    assert Untouched(s, |s.results|);
    SubmitterKeepsSound(s, Apply(s, Start));
  }

  /** After a crash the checkpoints are those on disk, and the IDs that were not there are lost. */
  lemma RestartKeepsSound(s: State, input: seq<nat>)
    requires Sound(s)
    ensures Sound(Apply(s, Restart(input)))
  {
    var n := Apply(s, Restart(input));
    forall id: nat | id < |n.jobs|
      ensures AccountOK(n, id)
    {
      assert AccountOK(s, id);
      assert id in ToLose(s) <==> Flying(s, id) || Unsaved(s, id);
      assert Flying(s, id) ==> ResultOK(s, s.jobs[id].chunk);
    }
    forall k: nat
      ensures CheckpointOK(n.jobs, n.mem, k) && CheckpointOK(n.jobs, n.disk, k)
    {
      assert CheckpointOK(s.jobs, s.disk, k);
    }
  }

  lemma WorkerKeepsSound(s: State, a: Action)
    requires Sound(s) && Enabled(s, a) && MovesWorker(a)
    ensures Sound(Apply(s, a))
  {
    if a.PostOK? || a.PostLost? {
      PostKeepsSound(s, a.k, a);
    } else if a.KeepID? {
      KeepIDKeepsSound(s, a.k, a.saved);
    } else if a.Record? {
      RecordKeepsSound(s, a.k, a.saved, a.eventOK);
    } else if a.EnterOnce? || a.SkipOnce? || a.Close? {
      FailingKeepsSound(s, a);
    } else {
      MoveKeepsSound(s, a);
    }
  }

  lemma StepKeepsSoundness(s: State, a: Action)
    requires Sound(s) && Enabled(s, a)
    ensures Sound(Apply(s, a))
  {
    if MovesWorker(a) {
      WorkerKeepsSound(s, a);
    } else if a.Free? {
      FreeKeepsSound(s, a.k);
    } else if a.Persist? {
      SaveKeepsSound(s);
    } else if a.Restart? {
      RestartKeepsSound(s, a.input);
    } else if a.Replay? {
      ReplayKeepsSound(s, a.eventOK);
    } else if a.Start? {
      StartKeepsSound(s);
    } else {
      SubmitKeepsSound(s, a);
    }
  }

  lemma {:induction false} EveryStateIsSound(ss: seq<State>, acts: seq<Action>, i: nat)
    requires Behaviour(ss, acts) && i < |ss|
    ensures Sound(ss[i])
  {
    if i > 0 {
      EveryStateIsSound(ss, acts, i - 1);
      StepKeepsSoundness(ss[i - 1], acts[i - 1]);
    }
  }

  function Count(b: bool): nat {
    if b then 1 else 0
  }

  /** Over any runs, crashes and resumes, each job created is in exactly one
      place: with its worker, in memory, on disk, forgotten after it failed, or lost. */
  lemma EveryJobIsInOnePlace(ss: seq<State>, acts: seq<Action>, i: nat, id: nat)
    requires Behaviour(ss, acts) && i < |ss| && id < |ss[i].jobs|
    ensures var s := ss[i];
            Count(Flying(s, id)) + Count(Unsaved(s, id)) + Count(Stored(s, id)) + Count(id in s.forgotten) + Count(id in s.lost) == 1
    ensures id in ss[i].forgotten ==> ss[i].jobs[id].fails
  {
    EveryStateIsSound(ss, acts, i);
    assert AccountOK(ss[i], id);
    if Flying(ss[i], id) {
      assert ResultOK(ss[i], ss[i].jobs[id].chunk);
    }
  }

  /** Of a chunk's jobs, all but one at most failed and were forgotten, or were lost;
      none is left when no checkpoint and no worker of the chunk has a job. */
  lemma OneLiveJobAChunk(ss: seq<State>, acts: seq<Action>, i: nat, id: nat, other: nat)
    requires Behaviour(ss, acts) && i < |ss| && id < |ss[i].jobs| && other < |ss[i].jobs|
    requires id != other && ss[i].jobs[id].chunk == ss[i].jobs[other].chunk
    ensures id in ss[i].forgotten || id in ss[i].lost || other in ss[i].forgotten || other in ss[i].lost
  {
    EveryStateIsSound(ss, acts, i);
    assert AccountOK(ss[i], id) && AccountOK(ss[i], other);
    if Flying(ss[i], id) || Flying(ss[i], other) {
      assert ResultOK(ss[i], ss[i].jobs[id].chunk);
    }
  }

  /** A chunk with a job on its worker's way, in memory or on disk is not posted. */
  lemma NoLiveJobIsPostedOver(ss: seq<State>, acts: seq<Action>, i: nat, id: nat)
    requires Behaviour(ss, acts) && i < |acts| && (acts[i].PostOK? || acts[i].PostLost?)
    requires id < |ss[i].jobs| && ss[i].jobs[id].chunk == acts[i].k
    ensures id in ss[i].lost || (id in ss[i].forgotten && ss[i].jobs[id].fails)
  {
    EveryStateIsSound(ss, acts, i);
    assert ResultOK(ss[i], acts[i].k) && AccountOK(ss[i], id);
  }

  /** The report of each result a run has, for those without an error. */
  function ReportsOf(results: seq<Result>): (reports: seq<Option<ImportReport>>)
    ensures |reports| == |results|
  {
    seq(|results|, i requires 0 <= i < |results| =>
      match results[i]
      case Replayed(r) => Some(r)
      case Live(w) => if w.place == Left(true) then Some(w.report) else None)
  }

  /** What a chunk's report is, however it came about: replayed from a
      checkpoint, of a job waited for after a crash, or of one just posted. It is
      that of one of the chunk's own jobs: the stored one, or one that failed. */
  lemma ReportsFollowCheckpoints(ss: seq<State>, acts: seq<Action>, i: nat, k: nat) returns (id: nat)
    requires Behaviour(ss, acts) && i < |ss| && k < |ss[i].results| && ReportsOf(ss[i].results)[k].Some?
    ensures var s := ss[i];
            && k < |s.input| && k in s.disk && s.disk[k].fingerprint == s.input[k]
            && IsJobOf(s, k, id) && ReportsOf(s.results)[k] == Some(s.jobs[id].report)
            && (if s.disk[k].done then s.disk[k].job == Some(id) && !s.jobs[id].fails else s.jobs[id].fails)
  {
    EveryStateIsSound(ss, acts, i);
    assert ResultOK(ss[i], k);
    id := match ss[i].results[k] case Replayed(_) => ss[i].mem[k].job.value case Live(w) => w.ended;
  }

  /** The reports of the jobs the stored checkpoints have, of the chunks of the input. */
  function StoredReports(s: State): (reports: seq<Option<ImportReport>>)
    ensures |reports| == |s.input|
  {
    seq(|s.input|, k requires 0 <= k < |s.input| =>
      match JobOf(s.disk, k) case None => None case Some(id) => if id < |s.jobs| then Some(s.jobs[id].report) else None)
  }

  /** A run that gets to its end without an error, however often the import
      was interrupted and in whatever order its workers finished, reports what
      the chunks' stored jobs do if it leaves each chunk's checkpoint done. */
  lemma DoneRunsReportTheirJobs(ss: seq<State>, acts: seq<Action>, i: nat)
    requires Behaviour(ss, acts) && i < |ss|
    requires ss[i].submitter.Stopped? && Enabled(ss[i], Finish) && !ss[i].failed && |ss[i].results| == |ss[i].input|
    requires forall k: nat :: k < |ss[i].input| && k in ss[i].disk ==> ss[i].disk[k].done
    ensures ReportsOf(ss[i].results) == StoredReports(ss[i])
    ensures forall k :: 0 <= k < |ss[i].input| ==> StoredReports(ss[i])[k].Some?
  {
    EveryStateIsSafe(ss, acts, i);
    var s := ss[i];
    forall k: nat | k < |s.results|
      ensures ReportsOf(s.results)[k] == StoredReports(s)[k] && StoredReports(s)[k].Some?
    {
      assert !Errs(s, k);
      var id := ReportsFollowCheckpoints(ss, acts, i, k);
    }
  }

  lemma WorkersCanGoOn(ss: seq<State>, acts: seq<Action>, i: nat, k: nat)
    requires Behaviour(ss, acts) && i < |ss| && Runs(ss[i], k)
    ensures Enabled(ss[i], NextStep(ss[i], k)) && WorkerStep(NextStep(ss[i], k))
  {
    EveryStateIsSound(ss, acts, i);
    EveryStateIsSafe(ss, acts, i);
    assert ResultOK(ss[i], k);
    RunningWorkersGoOn(ss[i], k);
  }

  /** Whatever the interleaving, a run that has not returned has a step of its
      own to take, and every worker that holds a slot has one or waits for one that has. */
  lemma RunsNeverDeadlock(ss: seq<State>, acts: seq<Action>, i: nat)
    requires Behaviour(ss, acts) && i < |ss| && !ss[i].submitter.Waited?
    ensures CanGoOn(ss[i])
    ensures forall k: nat :: Runs(ss[i], k) ==> Enabled(ss[i], NextStep(ss[i], k)) && WorkerStep(NextStep(ss[i], k))
  {
    EveryStateIsSound(ss, acts, i);
    EveryStateIsSafe(ss, acts, i);
    forall k: nat | Runs(ss[i], k)
      ensures Enabled(ss[i], NextStep(ss[i], k)) && WorkerStep(NextStep(ss[i], k))
      ensures PlaceOf(ss[i], k).Ended? ==> PlaceOf(ss[i], k).job < |ss[i].jobs|
    {
      WorkersCanGoOn(ss, acts, i, k);
      assert ResultOK(ss[i], k);
    }
    NoDeadlock(ss[i]);
  }

  /** submit's select is never stuck: without a failure or a cancellation a
      slot is free, or a worker has a step to take, and the workers run out of
      steps after a number known when the select began. */
  lemma SelectsGetASlot(ss: seq<State>, acts: seq<Action>, i: nat, j: nat)
    requires Behaviour(ss, acts) && i <= j < |ss| && ss[i].submitter.Selecting?
    requires forall x :: i <= x < j ==> WorkerStep(acts[x])
    ensures ss[j].submitter.Selecting? && j - i <= StepsLeft(ss[i].results)
    ensures ss[j].free == {} ==> exists k: nat :: Runs(ss[j], k) && Enabled(ss[j], NextStep(ss[j], k)) && WorkerStep(NextStep(ss[j], k))
    ensures j - i == StepsLeft(ss[i].results) ==> ss[j].free == SLOTS
  {
    StretchesRunOut(ss, acts, i, j);
    EveryStateIsSafe(ss, acts, j);
    if k: nat :| k in Running(ss[j]) {
      WorkersCanGoOn(ss, acts, j, k);
      RunningHasStepsLeft(ss[j].results, k);
    } else {
      assert Running(ss[j]) == {};
      IdleSlotsAreFree(ss[j]);
    }
  }

  lemma {:induction false} RunningHasStepsLeft(results: seq<Result>, k: nat)
    requires k < |results| && results[k].Live? && !results[k].worker.place.Left?
    ensures StepsLeft(results) > 0
  {
    if k < |results| - 1 {
      RunningHasStepsLeft(results[..|results| - 1], k);
    }
  }
}
