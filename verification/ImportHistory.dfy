/** The import over time: what becomes of a job once its ID is on disk, and
    what a run comes to when no job fails. */
module ImportHistory {

  import opened ChunkOutcome
  import opened ImportJobs
  import opened ImportProtocol
  import opened ImportSafety
  import opened Options
  import opened Reports

  // Jobs over time.

  /** Jobs are only added, and forgotten ones stay forgotten. */
  lemma JobsStay(s: State, a: Action)
    requires Enabled(s, a)
    ensures var n := Apply(s, a); s.jobs <= n.jobs && s.forgotten <= n.forgotten
  {
  }

  /** The step saves the job's file. */
  predicate Saves(a: Action) {
    a.Persist? || ((a.KeepID? || a.Record?) && a.saved)
  }

  lemma PlainStepsLeaveTheDisk(s: State, a: Action)
    requires Enabled(s, a) && PlainStep(a) && !Saves(a)
    ensures Apply(s, a).disk == s.disk && Apply(s, a).forgotten == s.forgotten
  {
  }

  lemma LastStepsLeaveTheDisk(s: State, a: Action)
    requires Enabled(s, a) && (OnceStep(a) || a.Free?) && !Saves(a)
    ensures Apply(s, a).disk == s.disk && Apply(s, a).forgotten == s.forgotten
  {
  }

  lemma SubmitterLeavesTheDisk(s: State, a: Action)
    requires Enabled(s, a) && !WorkerStep(a) && !Saves(a)
    ensures Apply(s, a).disk == s.disk && Apply(s, a).forgotten == s.forgotten
  {
  }

  lemma NoSaveNoChange(s: State, a: Action)
    requires Enabled(s, a) && !Saves(a)
    ensures Apply(s, a).disk == s.disk && Apply(s, a).forgotten == s.forgotten
  {
    if PlainStep(a) {
      PlainStepsLeaveTheDisk(s, a);
    } else if WorkerStep(a) {
      LastStepsLeaveTheDisk(s, a);
    } else {
      SubmitterLeavesTheDisk(s, a);
    }
  }

  /** A save forgets what it clears from disk. */
  lemma SaveForgets(s: State, a: Action, id: nat)
    requires Enabled(s, a) && Saves(a) && id < |s.jobs| && Stored(s, id)
    ensures var n := Apply(s, a);
            id < |n.jobs| && (Stored(n, id) || id in n.forgotten)
  {
  }

  /** The job's ID is on disk, or was and has been forgotten. */
  predicate KnownToDisk(s: State, id: nat) {
    id < |s.jobs| && (Stored(s, id) || id in s.forgotten)
  }

  lemma StaysKnown(s: State, a: Action, n: State, id: nat)
    requires Enabled(s, a) && n == Apply(s, a) && KnownToDisk(s, id)
    ensures KnownToDisk(n, id)
  {
    JobsStay(s, a);
    if Stored(s, id) && Saves(a) {
      SaveForgets(s, a, id);
    } else if !Saves(a) {
      NoSaveNoChange(s, a);
    }
  }

  /** A job once on disk stays there until it is forgotten. */
  lemma {:induction false} StoredUntilForgotten(ss: seq<State>, acts: seq<Action>, i: nat, j: nat, id: nat)
    requires Behaviour(ss, acts) && i <= j < |ss| && KnownToDisk(ss[i], id)
    ensures KnownToDisk(ss[j], id)
    decreases j - i
  {
    if i < j {
      StoredUntilForgotten(ss, acts, i, j - 1, id);
      var s, a, n := ss[j - 1], acts[j - 1], ss[j];
      StaysKnown(s, a, n, id);
    }
  }

  /** A lost job's ID was on disk at no time before. */
  lemma LostJobsWereNeverStored(ss: seq<State>, acts: seq<Action>, i: nat, j: nat, id: nat)
    requires Behaviour(ss, acts) && i <= j < |ss| && id < |ss[i].jobs| && id in ss[j].lost
    ensures !Stored(ss[i], id)
  {
    if Stored(ss[i], id) {
      StoredUntilForgotten(ss, acts, i, j, id);
      EveryJobIsInOnePlace(ss, acts, j, id);
    }
  }

  /** A forgotten job's was, and the job failed. */
  lemma {:induction false} ForgottenJobsWereStored(ss: seq<State>, acts: seq<Action>, j: nat, id: nat) returns (i: nat)
    requires Behaviour(ss, acts) && j < |ss| && id in ss[j].forgotten
    ensures i < j && id < |ss[i].jobs| && Stored(ss[i], id)
  {
    assert j > 0;
    var s, a := ss[j - 1], acts[j - 1];
    assert Enabled(s, a) && ss[j] == Apply(s, a);
    if id in s.forgotten {
      i := ForgottenJobsWereStored(ss, acts, j - 1, id);
    } else {
      i := j - 1;
      NewlyForgotten(s, a, id);
    }
  }

  lemma NewlyForgotten(s: State, a: Action, id: nat)
    requires Enabled(s, a) && id !in s.forgotten && id in Apply(s, a).forgotten
    ensures id < |s.jobs| && Stored(s, id)
  {
    if !Saves(a) {
      NoSaveNoChange(s, a);
    }
  }

  /** A chunk is posted again only when every job it had failed and was
      forgotten, or has an ID that was on disk at no time. */
  lemma PostedAgainOnlyAfterFailureOrLoss(ss: seq<State>, acts: seq<Action>, i: nat, id: nat)
    requires Behaviour(ss, acts) && i < |acts| && (acts[i].PostOK? || acts[i].PostLost?)
    requires id < |ss[i].jobs| && ss[i].jobs[id].chunk == acts[i].k
    ensures || (id in ss[i].forgotten && ss[i].jobs[id].fails)
            || (id in ss[i].lost && forall j :: 0 <= j <= i && id < |ss[j].jobs| ==> !Stored(ss[j], id))
  {
    NoLiveJobIsPostedOver(ss, acts, i, id);
    if id in ss[i].lost {
      forall j | 0 <= j <= i && id < |ss[j].jobs|
        ensures !Stored(ss[j], id)
      {
        LostJobsWereNeverStored(ss, acts, j, i, id);
      }
    }
  }

  /** When a run begins, the jobs ever created for a chunk are the one its
      stored checkpoint has, if it has one, those that failed and were
      forgotten, and those whose ID was on disk at no time. */
  lemma JobsWhenARunBegins(ss: seq<State>, acts: seq<Action>, i: nat, id: nat)
    requires Behaviour(ss, acts) && 0 < i < |ss| && acts[i - 1].Restart? && id < |ss[i].jobs|
    ensures var s := ss[i];
            && (Stored(s, id) <==> id !in s.forgotten && id !in s.lost)
            && (id in s.forgotten ==> s.jobs[id].fails && id !in s.lost)
            && (id in s.lost ==> forall j :: 0 <= j <= i && id < |ss[j].jobs| ==> !Stored(ss[j], id))
            && s.mem == s.disk
  {
    EveryJobIsInOnePlace(ss, acts, i, id);
    if id in ss[i].lost {
      forall j | 0 <= j <= i && id < |ss[j].jobs|
        ensures !Stored(ss[j], id)
      {
        LostJobsWereNeverStored(ss, acts, j, i, id);
      }
    }
  }

  // When no job fails.

  /** No job of the chunk has failed. */
  ghost predicate Unfailed(s: State, k: nat) {
    forall id: nat :: id < |s.jobs| && s.jobs[id].chunk == k ==> !s.jobs[id].fails
  }

  /** The checkpoint kept its job. */
  predicate KeepsJob(cps: Checkpoints, k: nat) {
    k in cps ==> cps[k].job.Some?
  }

  predicate Reported(s: State, k: nat) {
    At(s, k) && (PlaceOf(s, k) == Leaving(true) || PlaceOf(s, k) == Left(true))
  }

  /** A chunk of which no job has failed has a job as soon as it has a
      checkpoint, and is done once its report is in. */
  ghost predicate Settled(s: State, k: nat) {
    Unfailed(s, k) ==>
      && KeepsJob(s.mem, k) && KeepsJob(s.disk, k)
      && (Reported(s, k) ==> k in s.mem && s.mem[k].done)
  }

  /** A step that saves nothing to disk, and changes chunk k's checkpoint at most. */
  ghost predicate Touches(s: State, n: State, k: nat) {
    && n.disk == s.disk && |s.jobs| <= |n.jobs|
    && (forall id: nat :: id < |s.jobs| ==> n.jobs[id] == s.jobs[id])
    && (forall i: nat :: i != k ==> Lookup(n.mem, i) == Lookup(s.mem, i) && (Reported(n, i) ==> Reported(s, i)))
  }

  lemma OthersStaySettled(s: State, n: State, k: nat, i: nat)
    requires Touches(s, n, k) && Settled(s, i) && i != k
    ensures Settled(n, i)
  {
    assert Lookup(n.mem, i) == Lookup(s.mem, i);
    if Unfailed(n, i) {
      forall id: nat | id < |s.jobs| && s.jobs[id].chunk == i
        ensures !s.jobs[id].fails
      {
        assert n.jobs[id] == s.jobs[id];
      }
    }
  }

  lemma SaveKeepsSettled(s: State, i: nat)
    requires Settled(s, i)
    ensures Settled(SaveAll(s), i)
  {
    assert Unfailed(SaveAll(s), i) <==> Unfailed(s, i);
  }

  lemma PostingKeepsSettled(s: State, a: Action, i: nat)
    requires Settled(s, i) && Enabled(s, a) && (a.PostOK? || a.PostLost? || a.PostError?)
    ensures Settled(Apply(s, a), i)
  {
    var n := Apply(s, a);
    if i != a.k {
      OthersStaySettled(s, n, a.k, i);
    } else if Unfailed(n, i) {
      forall id: nat | id < |s.jobs| && s.jobs[id].chunk == i
        ensures !s.jobs[id].fails
      {
        assert n.jobs[id] == s.jobs[id];
      }
    }
  }

  lemma PollingKeepsSettled(s: State, a: Action, i: nat)
    requires Settled(s, i) && Enabled(s, a) && (a.PollEnd? || a.PollError?)
    ensures Settled(Apply(s, a), i)
  {
    var n := Apply(s, a);
    if i != a.k {
      OthersStaySettled(s, n, a.k, i);
    } else {
      assert Unfailed(n, i) <==> Unfailed(s, i);
      assert Reported(n, i) ==> Reported(s, i);
    }
  }

  lemma FailingKeepsSettled(s: State, a: Action, i: nat)
    requires Settled(s, i) && Enabled(s, a) && OnceStep(a)
    ensures Settled(Apply(s, a), i)
  {
    var n := Apply(s, a);
    if i != a.k {
      OthersStaySettled(s, n, a.k, i);
    } else {
      assert Unfailed(n, i) <==> Unfailed(s, i);
      assert Reported(n, i) ==> Reported(s, i);
    }
  }

  lemma FreeingKeepsSettled(s: State, a: Action, i: nat)
    requires Settled(s, i) && Enabled(s, a) && a.Free?
    ensures Settled(Apply(s, a), i)
  {
    var n := Apply(s, a);
    if i != a.k {
      OthersStaySettled(s, n, a.k, i);
    } else {
      assert Unfailed(n, i) <==> Unfailed(s, i);
      assert Reported(n, i) ==> Reported(s, i);
    }
  }

  /** Handing over an ID, or a finished job's outcome, before it is saved. */
  lemma CheckpointKeepsSettled(s: State, a: Action, i: nat)
    requires Sound(s) && Settled(s, i) && Enabled(s, a)
    requires (a.KeepID? || a.Record?) && !a.saved
    ensures Settled(Apply(s, a), i)
  {
    var n := Apply(s, a);
    if i != a.k {
      OthersStaySettled(s, n, a.k, i);
    } else {
      assert Unfailed(n, i) <==> Unfailed(s, i);
      assert ResultOK(s, i);
    }
  }

  /** And the worker going on once it is. */
  lemma SavedKeepsSettled(s: State, k: nat, p: Place, i: nat)
    requires Settled(s, i) && At(s, k)
    requires p.Poll? || p.Raised? || (p == Leaving(true) && (Unfailed(s, k) ==> k in s.mem && s.mem[k].done))
    ensures Settled(Move(s, k, p), i)
  {
    var n := Move(s, k, p);
    assert Unfailed(n, i) <==> Unfailed(s, i);
    assert i != k ==> (Reported(n, i) <==> Reported(s, i));
  }

  lemma RecordLeavesDone(s: State, k: nat, eventOK: bool)
    requires Sound(s) && Enabled(s, Record(k, false, eventOK))
    ensures var m := SaveAll(Apply(s, Record(k, false, eventOK)));
            At(m, k) && (Unfailed(m, k) ==> k in m.mem && m.mem[k].done)
  {
    assert ResultOK(s, k);
    var m := SaveAll(Apply(s, Record(k, false, eventOK)));
    assert Unfailed(m, k) ==> !s.jobs[PlaceOf(s, k).job].fails;
  }

  lemma SavingKeepsSettled(s: State, a: Action, i: nat)
    requires Sound(s) && Settled(s, i) && Enabled(s, a) && (a.KeepID? || a.Record?) && a.saved
    ensures Settled(Apply(s, a), i)
  {
    if a.KeepID? {
      var m := Apply(s, KeepID(a.k, false));
      CheckpointKeepsSettled(s, KeepID(a.k, false), i);
      SaveKeepsSettled(m, i);
      SavedKeepsSettled(SaveAll(m), a.k, Poll(PlaceOf(s, a.k).job), i);
      KeepingAfterwards(s, a.k);
    } else {
      var m := Apply(s, Record(a.k, false, a.eventOK));
      CheckpointKeepsSettled(s, Record(a.k, false, a.eventOK), i);
      SaveKeepsSettled(m, i);
      RecordLeavesDone(s, a.k, a.eventOK);
      SavedKeepsSettled(SaveAll(m), a.k, if a.eventOK then Leaving(true) else Raised, i);
      RecordingAfterwards(s, a.k, a.eventOK);
    }
  }

  lemma SubmitterKeepsSettled(s: State, a: Action, i: nat)
    requires Settled(s, i) && Enabled(s, a) && !WorkerStep(a) && !a.Persist?
    ensures Settled(Apply(s, a), i)
  {
    var n := Apply(s, a);
    assert Unfailed(n, i) <==> Unfailed(s, i);
    assert Reported(n, i) ==> Reported(s, i);
  }

  lemma StepKeepsSettled(s: State, a: Action, i: nat)
    requires Sound(s) && Settled(s, i) && Enabled(s, a)
    ensures Settled(Apply(s, a), i)
  {
    if a.KeepID? || a.Record? {
      if a.saved {
        SavingKeepsSettled(s, a, i);
      } else {
        CheckpointKeepsSettled(s, a, i);
      }
    } else if a.PostOK? || a.PostLost? || a.PostError? {
      PostingKeepsSettled(s, a, i);
    } else if a.PollEnd? || a.PollError? {
      PollingKeepsSettled(s, a, i);
    } else if OnceStep(a) {
      FailingKeepsSettled(s, a, i);
    } else if a.Free? {
      FreeingKeepsSettled(s, a, i);
    } else if a.Persist? {
      SaveKeepsSettled(s, i);
    } else {
      SubmitterKeepsSettled(s, a, i);
    }
  }

  lemma {:induction false} EveryChunkIsSettled(ss: seq<State>, acts: seq<Action>, i: nat, k: nat)
    requires Behaviour(ss, acts) && i < |ss|
    ensures Settled(ss[i], k)
  {
    if i > 0 {
      EveryChunkIsSettled(ss, acts, i - 1, k);
      EveryStateIsSound(ss, acts, i - 1);
      StepKeepsSettled(ss[i - 1], acts[i - 1], k);
    }
  }

  /** The reports of an uninterrupted run, of a target whose jobs answer by content. */
  function Answers(answer: nat -> ImportReport, input: seq<nat>): (reports: seq<Option<ImportReport>>)
    ensures |reports| == |input|
  {
    seq(|input|, i requires 0 <= i < |input| => Some(answer(input[i])))
  }

  /** A run that gets to its end without an error, however often the import was
      interrupted, reports in chunk order what the chunks' one stored job each
      does, if no job of its chunks failed. */
  lemma ResumedRunsReportTheirJobs(ss: seq<State>, acts: seq<Action>, i: nat)
    requires Behaviour(ss, acts) && i < |ss|
    requires ss[i].submitter.Stopped? && Enabled(ss[i], Finish) && !ss[i].failed && |ss[i].results| == |ss[i].input|
    requires forall id: nat :: id < |ss[i].jobs| && ss[i].jobs[id].chunk < |ss[i].input| ==> !ss[i].jobs[id].fails
    ensures ReportsOf(ss[i].results) == StoredReports(ss[i])
    ensures forall k :: 0 <= k < |ss[i].input| ==> StoredReports(ss[i])[k].Some?
  {
    var s := ss[i];
    EveryStateIsSafe(ss, acts, i);
    EveryStateIsSound(ss, acts, i);
    forall k: nat | k < |s.input| && k in s.disk
      ensures s.disk[k].done
    {
      EveryChunkIsSettled(ss, acts, i, k);
      assert Unfailed(s, k);
      assert ResultOK(s, k) && !Errs(s, k);
      assert s.results[k].Live? ==> Reported(s, k);
      assert Lookup(s.mem, k) == Lookup(s.disk, k);
    }
    DoneRunsReportTheirJobs(ss, acts, i);
  }

  /** So where a chunk's jobs answer by its content, the report is an
      uninterrupted run's, whatever crashes came before. */
  lemma ResumeEquivalence(answer: nat -> ImportReport, ss: seq<State>, acts: seq<Action>, i: nat)
    requires Behaviour(ss, acts) && i < |ss|
    requires ss[i].submitter.Stopped? && Enabled(ss[i], Finish) && !ss[i].failed && |ss[i].results| == |ss[i].input|
    requires forall id: nat :: id < |ss[i].jobs| && ss[i].jobs[id].chunk < |ss[i].input| ==>
               !ss[i].jobs[id].fails && ss[i].jobs[id].report == answer(ss[i].jobs[id].fingerprint)
    ensures MergeAll(ReportsOf(ss[i].results)) == MergeAll(Answers(answer, ss[i].input))
  {
    var s := ss[i];
    ResumedRunsReportTheirJobs(ss, acts, i);
    forall k: nat | k < |s.input|
      ensures ReportsOf(s.results)[k] == Answers(answer, s.input)[k]
    {
      var id := ReportsFollowCheckpoints(ss, acts, i, k);
    }
    assert ReportsOf(s.results) == Answers(answer, s.input);
  }
}
