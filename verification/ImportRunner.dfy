/** The goroutines of an import as the code runs them: submit, a job's worker
    and wait, each a method whose every effect is a step of the protocol, with
    the steps of the others in between. */
module ImportRunner {

  import opened ChunkOutcome
  import opened ImportJobs
  import opened ImportProtocol
  import opened ImportSafety
  import opened Options
  import opened Reports

  /** A goroutine: the one that reads and submits, or the worker of a chunk. */
  datatype Who = TheSubmitter | TheWorker(chunk: nat)

  datatype SubmitError = InputChanged | EventFailed | JobFailed(chunk: Option<nat>) | Cancelled | ReadFailed

  datatype Posted = Accepted | AnswerLost | Refused

  /** What the outside answers a chunk's worker: its post, its polling, its two
      saves and its event, and what a job created for it will report. */
  datatype Outside = Outside(
    posted: Posted, fails: bool, report: ImportReport, idSaved: bool, polled: bool, outcomeSaved: bool, eventOK: bool)

  /** The step is another goroutine's, in the same process. */
  predicate Foreign(a: Action, me: Who) {
    match me
    case TheSubmitter => WorkerStep(a) || a.Persist? || a.Cancel?
    case TheWorker(k) => !a.Restart? && (WorkerStep(a) ==> a.k != k)
  }

  /** A goroutine's own steps. */
  function Own(acts: seq<Action>, me: Who): seq<Action> {
    if acts == [] then []
    else
      var a := acts[|acts| - 1];
      Own(acts[..|acts| - 1], me) + (if Foreign(a, me) then [] else [a])
  }

  /** The checkpoint of the next chunk is of other input. */
  predicate Changed(s: State)
    requires |s.results| < |s.input|
  {
    |s.results| in s.mem && s.mem[|s.results|].fingerprint != s.input[|s.results|]
  }

  /** The checkpoint of the next chunk holds its report. */
  predicate Finished(s: State)
    requires |s.results| < |s.input|
  {
    |s.results| in s.mem && s.mem[|s.results|].fingerprint == s.input[|s.results|] && s.mem[|s.results|].done
  }

  /** A worker at its start waits for the job its chunk's checkpoint has, and creates one otherwise. */
  predicate StartsWith(r: Result, fingerprint: nat, job: Option<nat>) {
    && r.Live? && r.worker.fingerprint == fingerprint
    && match job
       case Some(id) => r.worker.place == Poll(id)
       case None => r.worker.place == Post
  }

  function Posting(k: nat, o: Outside): Action {
    match o.posted
    case Refused => PostError(k)
    case AnswerLost => PostLost(k, o.fails, o.report)
    case Accepted => PostOK(k, o.fails, o.report)
  }

  function Creating(k: nat, o: Outside): seq<Action> {
    [Posting(k, o)] + (if o.posted.Accepted? then [KeepID(k, o.idSaved)] else [])
  }

  function Finishing(k: nat, o: Outside): seq<Action> {
    if o.polled then [PollEnd(k), Record(k, o.outcomeSaved, o.eventOK)] else [PollError(k)]
  }

  /** A worker's own steps: the job created unless the chunk had one, waited for,
      the error raised if there is one, and the slot released. */
  predicate Ran(before: seq<Action>, after: seq<Action>, k: nat, o: Outside, posts: bool, ok: bool) {
    var created := if posts then Creating(k, o) else [];
    var waited := if posts && !(o.posted.Accepted? && o.idSaved) then [] else Finishing(k, o);
    if ok then after == before + created + waited + [Free(k)]
    else after == before + created + waited + [EnterOnce(k), Close(k), Free(k)] || after == before + created + waited + [SkipOnce(k), Free(k)]
  }

  /** What a goroutine can rely on while the others run. */
  ghost predicate Kept(me: Who, s: State, n: State) {
    && s.input == n.input && (s.failed ==> n.failed) && (s.cancelled ==> n.cancelled)
    && match me
       case TheSubmitter =>
         && n.submitter == s.submitter && |n.results| == |s.results| && s.free <= n.free
         && StepsLeft(n.results) <= StepsLeft(s.results)
         && Lookup(n.mem, |s.results|) == Lookup(s.mem, |s.results|)
       case TheWorker(k) => At(s, k) ==> At(n, k) && n.results[k] == s.results[k]
  }

  lemma WorkersKeepSubmitter(s: State, a: Action)
    requires Enabled(s, a) && Foreign(a, TheSubmitter)
    ensures Kept(TheSubmitter, s, Apply(s, a))
  {
    if WorkerStep(a) {
      WorkerStepsRunOut(s, a);
    }
  }

  lemma WorkersKeepWorker(s: State, a: Action, k: nat)
    requires Enabled(s, a) && WorkerStep(a) && a.k != k
    ensures Kept(TheWorker(k), s, Apply(s, a))
  {
    if PlainStep(a) {
      PlainStepMoves(s, a);
    } else if OnceStep(a) {
      OnceStepMoves(s, a);
    } else {
      FreeMoves(s, a.k);
    }
  }

  lemma SubmitterKeepsWorker(s: State, a: Action, k: nat)
    requires Enabled(s, a) && !WorkerStep(a) && !a.Restart?
    ensures Kept(TheWorker(k), s, Apply(s, a))
  {
  }

  lemma ForeignKeeps(s: State, a: Action, me: Who)
    requires Enabled(s, a) && Foreign(a, me)
    ensures Kept(me, s, Apply(s, a))
  {
    match me
    case TheSubmitter => WorkersKeepSubmitter(s, a);
    case TheWorker(k) =>
      if WorkerStep(a) {
        WorkersKeepWorker(s, a, k);
      } else {
        SubmitterKeepsWorker(s, a, k);
      }
  }

  lemma NobodyRuns(s: State)
    requires s.submitter.Stopped? && Running(s) == {}
    ensures Enabled(s, Finish)
  {
    assert forall k :: 0 <= k < |s.results| && s.results[k].Live? ==> k !in Running(s);
  }

  lemma FinishKeepsErrors(s: State)
    requires Enabled(s, Finish)
    ensures (exists k :: Errs(s, k)) <==> exists k :: Errs(Apply(s, Finish), k)
  {
    assert forall k: nat :: Errs(s, k) <==> Errs(Apply(s, Finish), k);
  }

  class Import {
    var s: State
    ghost var states: seq<State>
    ghost var acts: seq<Action>
    ghost var own: Who -> seq<Action>

    /** Everything that happened is a behaviour of the protocol, and each
        goroutine's part of it is on record. */
    ghost predicate Valid()
      reads this
    {
      && Behaviour(states, acts) && s == states[|states| - 1]
      && forall me {:trigger Own(acts, me)} :: own(me) == Own(acts, me)
    }

    constructor (input: seq<nat>)
      ensures Valid() && Init(s) && s.input == input
    {
      s := State(input, map[], map[], [], {}, {}, Reading, [], SLOTS, {}, Unused, None, false, false);
      states := [State(input, map[], map[], [], {}, {}, Reading, [], SLOTS, {}, Unused, None, false, false)];
      acts := [];
      own := me => [];
    }

    /** One step, of the goroutine me or of another. */
    method Take(me: Who, a: Action)
      requires Valid() && Enabled(s, a)
      modifies this
      ensures Valid() && s == Apply(old(s), a)
      ensures states == old(states) + [s] && acts == old(acts) + [a]
      ensures own(me) == old(own(me)) + (if Foreign(a, me) then [] else [a])
    {
      ghost var was := own;
      s := Apply(s, a);
      states := states + [s];
      acts := acts + [a];
      own := who => was(who) + if Foreign(a, who) then [] else [a];
      assert acts[..|acts| - 1] == old(acts);
    }

    /** What the other goroutines do meanwhile, in any number of steps. */
    method Others(me: Who)
      requires Valid()
      modifies this
      ensures Valid() && Kept(me, old(s), s)
      ensures old(states) <= states && own(me) == old(own(me))
    {
      var left: nat := *;
      while left > 0
        invariant Valid() && Kept(me, old(s), s)
        invariant old(states) <= states && own(me) == old(own(me))
      {
        var a: Action := *;
        if Foreign(a, me) && Enabled(s, a) {
          ForeignKeeps(s, a, me);
          Take(me, a);
        }
        left := left - 1;
      }
    }

    /** Up to the slots: a chunk that changed is refused, a done one replayed,
        any other offered with the job its checkpoint has. */
    method Look(eventOK: bool) returns (offered: bool, err: Option<SubmitError>)
      requires Valid() && s.submitter.Reading? && |s.results| < |s.input|
      modifies this
      ensures Valid() && old(states) <= states && s.input == old(s.input)
      ensures offered <==> !old(Changed(s)) && !old(Finished(s))
      ensures old(Changed(s)) ==>
                && err == Some(InputChanged) && s.submitter.Stopped? && |s.results| == |old(s.results)| && Changed(s)
                && own(TheSubmitter) == old(own(TheSubmitter)) + [Mismatch]
      ensures old(Finished(s)) ==>
                && err == (if eventOK then None else Some(EventFailed)) && s.submitter == (if eventOK then Reading else Stopped)
                && |s.results| == |old(s.results)| + 1 && s.results[|old(s.results)|] == Replayed(old(s.mem[|s.results|].report))
                && own(TheSubmitter) == old(own(TheSubmitter)) + [Replay(eventOK)]
      ensures offered ==>
                && err.None? && |s.results| == |old(s.results)| && s.submitter == Selecting(old(JobOf(s.mem, |s.results|)))
                && own(TheSubmitter) == old(own(TheSubmitter)) + [Offer]
    {
      Others(TheSubmitter);
      offered, err := Decide(eventOK);
    }

    method Decide(eventOK: bool) returns (offered: bool, err: Option<SubmitError>)
      requires Valid() && s.submitter.Reading? && |s.results| < |s.input|
      modifies this
      ensures Valid() && old(states) <= states && s.input == old(s.input)
      ensures offered <==> !old(Changed(s)) && !old(Finished(s))
      ensures old(Changed(s)) ==>
                && err == Some(InputChanged) && s.submitter.Stopped? && |s.results| == |old(s.results)| && Changed(s)
                && own(TheSubmitter) == old(own(TheSubmitter)) + [Mismatch]
      ensures old(Finished(s)) ==>
                && err == (if eventOK then None else Some(EventFailed)) && s.submitter == (if eventOK then Reading else Stopped)
                && |s.results| == |old(s.results)| + 1 && s.results[|old(s.results)|] == Replayed(old(s.mem[|s.results|].report))
                && own(TheSubmitter) == old(own(TheSubmitter)) + [Replay(eventOK)]
      ensures offered ==>
                && err.None? && |s.results| == |old(s.results)| && s.submitter == Selecting(old(JobOf(s.mem, |s.results|)))
                && own(TheSubmitter) == old(own(TheSubmitter)) + [Offer]
    {
      var k := |s.results|;
      if k in s.mem {
        if s.mem[k].fingerprint != s.input[k] {
          Take(TheSubmitter, Mismatch);
          return false, Some(InputChanged);
        }
        if s.mem[k].done {
          Take(TheSubmitter, Replay(eventOK));
          return false, if eventOK then None else Some(EventFailed);
        }
      }
      Take(TheSubmitter, Offer);
      return true, None;
    }

    /** A select waits: as long as it can't go on, the workers do, and they run out of steps. */
    method AwaitSignal()
      requires Valid() && s.submitter.Selecting?
      modifies this
      ensures Valid() && old(states) <= states && Kept(TheSubmitter, old(s), s)
      ensures own(TheSubmitter) == old(own(TheSubmitter))
      ensures s.free != {} || s.failed || s.cancelled
    {
      Others(TheSubmitter);
      while s.free == {} && !s.failed && !s.cancelled
        invariant Valid() && old(states) <= states && Kept(TheSubmitter, old(s), s)
        invariant own(TheSubmitter) == old(own(TheSubmitter))
        decreases StepsLeft(s.results)
      {
        var k := SomeWorker();
        StepOf(k);
        Others(TheSubmitter);
      }
    }

    /** A worker that runs, one of which there is when no slot is free. */
    method SomeWorker() returns (k: nat)
      requires Valid() && Held(s).None? && s.free == {}
      ensures Runs(s, k)
    {
      EveryStateIsSafe(states, acts, |states| - 1);
      TakenSlotsHaveWorkers(s);
      k :| k in Running(s);
    }

    method StepOf(k: nat)
      requires Valid() && Runs(s, k)
      modifies this
      ensures Valid() && old(states) <= states && Kept(TheSubmitter, old(s), s)
      ensures own(TheSubmitter) == old(own(TheSubmitter))
      ensures StepsLeft(s.results) < StepsLeft(old(s.results))
    {
      WorkersCanGoOn(states, acts, |states| - 1, k);
      var a := NextStep(s, k);
      ForeignKeeps(s, a, TheSubmitter);
      WorkerStepsRunOut(s, a);
      Take(TheSubmitter, a);
    }

    /** The two selects: a free slot, unless a job has failed or the context is done. */
    method AwaitSlot() returns (slot: nat, err: Option<SubmitError>)
      requires Valid() && s.submitter.Selecting? && |s.results| < |s.input|
      modifies this
      ensures Valid() && old(states) <= states && s.input == old(s.input) && |s.results| == |old(s.results)|
      ensures err.None? ==>
                && s.submitter == Cleared(slot, old(s.submitter.job))
                && own(TheSubmitter) == old(own(TheSubmitter)) + [Acquire(slot), Recheck]
      ensures err.Some? ==>
                && s.submitter.Stopped? && Excused(err.value)
                && (own(TheSubmitter) == old(own(TheSubmitter)) + [GiveUp] || own(TheSubmitter) == old(own(TheSubmitter)) + [Acquire(slot), Recheck])
    {
      slot := 0;
      AwaitSignal();
      var leave: bool := *; // several cases may be ready, and one is picked at random
      if s.free == {} || (leave && (s.failed || s.cancelled)) {
        var failure: bool := *;
        err := Some(if s.failed && (failure || !s.cancelled) then JobFailed(s.err) else Cancelled);
        Take(TheSubmitter, GiveUp);
        return;
      }
      slot, err := HoldSlot();
    }

    /** submit gives up only for a job that failed or a context that is done. */
    predicate Excused(err: SubmitError)
      reads this
    {
      (s.cancelled && err == Cancelled) || (s.failed && err == JobFailed(s.err))
    }

    /** A slot is taken, and given back if a job has failed meanwhile. */
    method HoldSlot() returns (slot: nat, err: Option<SubmitError>)
      requires Valid() && s.submitter.Selecting? && |s.results| < |s.input| && s.free != {}
      modifies this
      ensures Valid() && old(states) <= states && s.input == old(s.input) && |s.results| == |old(s.results)|
      ensures err.None? ==> s.submitter == Cleared(slot, old(s.submitter.job))
      ensures err.Some? ==> s.submitter.Stopped? && s.failed && err == Some(JobFailed(s.err)) && slot in s.free
      ensures own(TheSubmitter) == old(own(TheSubmitter)) + [Acquire(slot), Recheck]
    {
      slot :| slot in s.free;
      Take(TheSubmitter, Acquire(slot));
      Others(TheSubmitter);
      err := if s.failed then Some(JobFailed(s.err)) else None;
      Take(TheSubmitter, Recheck);
    }

    /** submit: a chunk that changed is refused, a done one replayed, and any
        other started, unless a job has failed or the context is done. */
    method Submit(eventOK: bool) returns (err: Option<SubmitError>)
      requires Valid() && s.submitter.Reading? && |s.results| < |s.input|
      modifies this
      ensures Valid() && old(states) <= states && s.input == old(s.input)
      ensures err.None? ==> s.submitter.Reading?
      ensures err.Some? ==> s.submitter.Stopped?
      ensures err == Some(InputChanged) <==> old(Changed(s))
      ensures err == Some(InputChanged) ==>
                && |s.results| == |old(s.results)| && Changed(s)
                && own(TheSubmitter) == old(own(TheSubmitter)) + [Mismatch]
      ensures old(Finished(s)) ==>
                && err == (if eventOK then None else Some(EventFailed))
                && |s.results| == |old(s.results)| + 1 && s.results[|old(s.results)|] == Replayed(old(s.mem[|s.results|].report))
                && own(TheSubmitter) == old(own(TheSubmitter)) + [Replay(eventOK)]
      ensures !old(Changed(s)) && !old(Finished(s)) && err.None? ==>
                && |s.results| == |old(s.results)| + 1
                && StartsWith(s.results[|old(s.results)|], s.input[|old(s.results)|], old(JobOf(s.mem, |s.results|)))
                && own(TheSubmitter) == old(own(TheSubmitter))
                                              + [Offer, Acquire(s.results[|old(s.results)|].worker.slot), Recheck, Start]
      ensures !old(Changed(s)) && !old(Finished(s)) && err.Some? ==> |s.results| == |old(s.results)| && Excused(err.value)
    {
      var offered;
      offered, err := Look(eventOK);
      if offered {
        var slot;
        slot, err := AwaitSlot();
        if err.None? {
          Others(TheSubmitter);
          Take(TheSubmitter, Start);
        }
      }
    }

    /** The first half of submitAndPoll: the job is created if the chunk has
        none, and its ID saved before it is waited for. */
    method Create(k: nat, o: Outside) returns (ok: bool)
      requires Valid() && At(s, k) && PlaceOf(s, k).Post?
      modifies this
      ensures Valid() && old(states) <= states && At(s, k)
      ensures ok <==> o.posted.Accepted? && o.idSaved
      ensures if ok then PlaceOf(s, k).Poll? && Holds(s.disk, k, PlaceOf(s, k).job) else PlaceOf(s, k).Raised?
      ensures own(TheWorker(k)) == old(own(TheWorker(k))) + Creating(k, o)
    {
      ok := Post(k, o);
      if ok {
        ok := KeepItsID(k, o.idSaved);
      }
    }

    method Post(k: nat, o: Outside) returns (ok: bool)
      requires Valid() && At(s, k) && PlaceOf(s, k).Post?
      modifies this
      ensures Valid() && old(states) <= states && At(s, k)
      ensures ok <==> o.posted.Accepted?
      ensures if ok then PlaceOf(s, k).Created? else PlaceOf(s, k).Raised?
      ensures own(TheWorker(k)) == old(own(TheWorker(k))) + [Posting(k, o)]
    {
      Others(TheWorker(k));
      Take(TheWorker(k), Posting(k, o));
      return o.posted.Accepted?;
    }

    method KeepItsID(k: nat, saved: bool) returns (ok: bool)
      requires Valid() && At(s, k) && PlaceOf(s, k).Created?
      modifies this
      ensures Valid() && old(states) <= states && At(s, k)
      ensures ok == saved
      ensures if ok then PlaceOf(s, k).Poll? && Holds(s.disk, k, PlaceOf(s, k).job) else PlaceOf(s, k).Raised?
      ensures own(TheWorker(k)) == old(own(TheWorker(k))) + [KeepID(k, saved)]
    {
      Others(TheWorker(k));
      Take(TheWorker(k), KeepID(k, saved));
      return saved;
    }

    /** The second half: the job is polled to its end, and its outcome saved
        with the checkpoint before the chunk's event. */
    method Finish(k: nat, o: Outside) returns (ok: bool)
      requires Valid() && At(s, k) && PlaceOf(s, k).Poll?
      modifies this
      ensures Valid() && old(states) <= states && At(s, k)
      ensures ok <==> o.polled && o.outcomeSaved && o.eventOK
      ensures if ok then PlaceOf(s, k) == Leaving(true) else PlaceOf(s, k).Raised?
      ensures own(TheWorker(k)) == old(own(TheWorker(k))) + Finishing(k, o)
    {
      Others(TheWorker(k));
      if !o.polled {
        Take(TheWorker(k), PollError(k));
        return false;
      }
      Take(TheWorker(k), PollEnd(k));
      Others(TheWorker(k));
      ok := SaveOutcome(k, o.outcomeSaved, o.eventOK);
    }

    method SaveOutcome(k: nat, saved: bool, eventOK: bool) returns (ok: bool)
      requires Valid() && At(s, k) && PlaceOf(s, k).Ended?
      modifies this
      ensures Valid() && old(states) <= states && At(s, k)
      ensures ok <==> saved && eventOK
      ensures if ok then PlaceOf(s, k) == Leaving(true) else PlaceOf(s, k).Raised?
      ensures own(TheWorker(k)) == old(own(TheWorker(k))) + [Record(k, saved, eventOK)]
    {
      EveryStateIsSound(states, acts, |states| - 1);
      assert ResultOK(s, k);
      Take(TheWorker(k), Record(k, saved, eventOK));
      return saved && eventOK;
    }

    /** failOnce.Do: the first to get there sets the error and closes failed;
        the others go on once it has. */
    method Raise(k: nat)
      requires Valid() && At(s, k) && PlaceOf(s, k).Raised?
      modifies this
      ensures Valid() && old(states) <= states && At(s, k) && PlaceOf(s, k) == Leaving(false)
      ensures s.failed && s.err.Some?
      ensures own(TheWorker(k)) == old(own(TheWorker(k))) + [EnterOnce(k), Close(k)] || own(TheWorker(k)) == old(own(TheWorker(k))) + [SkipOnce(k)]
    {
      Others(TheWorker(k));
      if s.once.Unused? {
        RaiseFirst(k);
      } else {
        AwaitOnce(k);
        Take(TheWorker(k), SkipOnce(k));
      }
      EveryStateIsSafe(states, acts, |states| - 1);
      assert Errs(s, k);
    }

    method RaiseFirst(k: nat)
      requires Valid() && At(s, k) && PlaceOf(s, k).Raised? && s.once.Unused?
      modifies this
      ensures Valid() && old(states) <= states && At(s, k) && PlaceOf(s, k) == Leaving(false)
      ensures own(TheWorker(k)) == old(own(TheWorker(k))) + [EnterOnce(k), Close(k)]
    {
      Take(TheWorker(k), EnterOnce(k));
      Others(TheWorker(k));
      Take(TheWorker(k), Close(k));
    }

    /** Do returns to a latecomer when the one inside has closed failed. */
    method AwaitOnce(k: nat)
      requires Valid() && At(s, k) && PlaceOf(s, k).Raised? && !s.once.Unused?
      modifies this
      ensures Valid() && old(states) <= states && At(s, k) && s.results[k] == old(s.results[k]) && s.once.Used?
      ensures own(TheWorker(k)) == old(own(TheWorker(k)))
    {
      EveryStateIsSafe(states, acts, |states| - 1);
      if s.once.Busy? {
        assert s.once.chunk != k;
        Take(TheWorker(k), Close(s.once.chunk));
      }
    }

    /** The goroutine of a chunk's job, from its start to its slot's release:
        without an error exactly if all it asks for is done. */
    method RunJob(k: nat, o: Outside) returns (ok: bool)
      requires Valid() && At(s, k) && (PlaceOf(s, k).Post? || PlaceOf(s, k).Poll?)
      modifies this
      ensures Valid() && old(states) <= states && At(s, k) && PlaceOf(s, k) == Left(ok)
      ensures ok <==> (old(PlaceOf(s, k).Post?) ==> o.posted.Accepted? && o.idSaved) && o.polled && o.outcomeSaved && o.eventOK
      ensures !ok ==> s.failed && s.err.Some?
      ensures ok ==> ReportsOf(s.results)[k].Some?
      ensures Ran(old(own(TheWorker(k))), own(TheWorker(k)), k, o, old(PlaceOf(s, k).Post?), ok)
    {
      ok := true;
      if PlaceOf(s, k).Post? {
        ok := Create(k, o);
      }
      if ok {
        ok := Finish(k, o);
      }
      if !ok {
        Raise(k);
      }
      Release(k);
    }

    /** The deferred release of the slot. */
    method Release(k: nat)
      requires Valid() && At(s, k) && PlaceOf(s, k).Leaving?
      modifies this
      ensures Valid() && old(states) <= states && At(s, k) && PlaceOf(s, k) == Left(old(PlaceOf(s, k).ok))
      ensures !old(PlaceOf(s, k).ok) ==> s.failed && s.err.Some?
      ensures own(TheWorker(k)) == old(own(TheWorker(k))) + [Free(k)]
    {
      Others(TheWorker(k));
      Take(TheWorker(k), Free(k));
      EveryStateIsSafe(states, acts, |states| - 1);
      assert !PlaceOf(s, k).ok ==> Errs(s, k);
    }

    /** wg.Wait: the workers run out of steps, and then every one has released its slot. */
    method AwaitWorkers()
      requires Valid() && s.submitter.Stopped?
      modifies this
      ensures Valid() && old(states) <= states && Kept(TheSubmitter, old(s), s) && Running(s) == {}
      ensures own(TheSubmitter) == old(own(TheSubmitter))
    {
      Others(TheSubmitter);
      while Running(s) != {}
        invariant Valid() && old(states) <= states && Kept(TheSubmitter, old(s), s)
        invariant own(TheSubmitter) == old(own(TheSubmitter))
        decreases StepsLeft(s.results)
      {
        var k :| k in Running(s);
        StepOf(k);
        Others(TheSubmitter);
      }
    }

    /** wait: the reports of the jobs without an error, in chunk order, and the first error. */
    method Wait() returns (report: ImportReport, err: Option<nat>)
      requires Valid() && s.submitter.Stopped?
      modifies this
      ensures Valid() && old(states) <= states && s.submitter.Waited? && s.free == SLOTS
      ensures Kept(TheSubmitter, old(s), s.(submitter := Stopped))
      ensures report == MergeAll(ReportsOf(s.results))
      ensures err == if s.failed then s.err else None
      ensures err.Some? <==> exists k :: Errs(s, k)
      ensures own(TheSubmitter) == old(own(TheSubmitter)) + [ImportProtocol.Finish]
    {
      AwaitWorkers();
      NobodyRuns(s);
      WaitReportsErrors(states, acts, |states| - 1);
      EveryStateIsSafe(states, acts, |states| - 1);
      FinishKeepsErrors(s);
      Take(TheSubmitter, ImportProtocol.Finish);
      report := MergeResults(ReportsOf(s.results));
      err := if s.failed then s.err else None;
    }

    /** streamChunks: chunk by chunk to the end of the input, unless the
        context is done, the reader fails at a chunk or submit stops it. */
    method Stream(readable: nat -> bool, events: nat -> bool) returns (err: Option<SubmitError>)
      requires Valid() && s.submitter.Reading? && |s.results| <= |s.input|
      modifies this
      ensures Valid() && old(states) <= states && s.input == old(s.input) && s.submitter.Stopped? && |s.results| <= |s.input|
      ensures err.None? ==> |s.results| == |s.input|
      ensures err.Some? ==> StoppedFor(err.value, readable, events)
    {
      Others(TheSubmitter);
      while !s.cancelled && |s.results| < |s.input| && readable(|s.results|)
        invariant Valid() && old(states) <= states && s.input == old(s.input) && s.submitter.Reading? && |s.results| <= |s.input|
        decreases |s.input| - |s.results|
      {
        err := Submit(events(|s.results|));
        if err.Some? {
          return;
        }
        Others(TheSubmitter);
      }
      err := EndStream(readable);
    }

    method EndStream(readable: nat -> bool) returns (err: Option<SubmitError>)
      requires Valid() && s.submitter.Reading? && |s.results| <= |s.input|
      requires s.cancelled || |s.results| == |s.input| || !readable(|s.results|)
      modifies this
      ensures Valid() && old(states) <= states && s.submitter.Stopped? && s == old(s).(submitter := Stopped)
      ensures err == if s.cancelled then Some(Cancelled) else if !readable(|s.results|) then Some(ReadFailed) else None
      ensures err.None? ==> own(TheSubmitter) == old(own(TheSubmitter)) + [EndInput]
    {
      if s.cancelled {
        Take(TheSubmitter, GiveUp);
        return Some(Cancelled);
      } else if !readable(|s.results|) {
        Take(TheSubmitter, ReadFails);
        return Some(ReadFailed);
      }
      Take(TheSubmitter, EndInput);
      return None;
    }

    /** Each error has its cause. */
    predicate StoppedFor(err: SubmitError, readable: nat -> bool, events: nat -> bool)
      reads this
    {
      match err
      case ReadFailed => !readable(|s.results|)
      case InputChanged => |s.results| < |s.input| && Changed(s)
      case EventFailed => s.results != [] && !events(|s.results| - 1)
      case JobFailed(_) => s.failed
      case Cancelled => s.cancelled
    }

    /** runBulkImport: the chunks are streamed and the workers waited for. A
        run without an error got to its end with every chunk's report. */
    method Run(readable: nat -> bool, events: nat -> bool) returns (report: ImportReport, jobErr: Option<nat>, readErr: Option<SubmitError>)
      requires Valid() && s.submitter.Reading? && |s.results| <= |s.input|
      modifies this
      ensures Valid() && old(states) <= states && s.input == old(s.input) && s.submitter.Waited?
      ensures report == MergeAll(ReportsOf(s.results))
      ensures jobErr == if s.failed then s.err else None
      ensures jobErr.Some? <==> exists k :: Errs(s, k)
      ensures readErr.None? ==> |s.results| == |s.input|
      ensures readErr.Some? ==> StoppedFor(readErr.value, readable, events)
    {
      readErr := Stream(readable, events);
      report, jobErr := Wait();
    }
  }
}
