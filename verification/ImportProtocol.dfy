/** The resumable chunked import: one submitter, workers in two slots, the
    target's jobs, the checkpoints in memory and on disk, and crashes.

    A chunk is known by its fingerprint alone, which is taken to determine its
    content. A save writes every checkpoint at once, as the whole job is saved. */
module ImportProtocol {

  import opened Options
  import opened Reports

  const SLOTS: set<nat> := {0, 1}

  /** A job at the target; whether it will fail, and what its chunk's report will
      be, is settled when it is created. */
  datatype RemoteJob = RemoteJob(chunk: nat, fingerprint: nat, fails: bool, report: ImportReport)

  datatype Saved = Saved(fingerprint: nat, job: Option<nat>, done: bool, report: ImportReport)

  type Checkpoints = map<nat, Saved>

  datatype Place =
    | Post                 // about to create the job
    | Created(job: nat)    // the job exists, and only the worker knows its ID
    | Poll(job: nat)       // the ID was handed to SaveChunk, or came from there
    | Ended(job: nat)      // status and errors fetched
    | Raised               // the result's error is set
    | Closing              // inside the Once: the first error is set, failed is not closed
    | Leaving(ok: bool)    // the slot is still taken
    | Left(ok: bool)

  /** A chunk's worker; ended is the job whose end it recorded, with its report. */
  datatype Worker = Worker(fingerprint: nat, slot: nat, place: Place, report: ImportReport, ended: nat, cleanSlot: bool)

  datatype Result = Replayed(report: ImportReport) | Live(worker: Worker)

  datatype Submitter =
    | Reading
    | Selecting(job: Option<nat>)
    | Holding(slot: nat, job: Option<nat>)
    | Cleared(slot: nat, job: Option<nat>)
    | Stopped
    | Waited

  datatype Once = Unused | Busy(chunk: nat) | Used

  datatype State = State(
    input: seq<nat>,          // the fingerprints of this run's chunks
    mem: Checkpoints,
    disk: Checkpoints,
    jobs: seq<RemoteJob>,     // every job ever created, by ID
    forgotten: set<nat>,      // jobs whose ID was on disk and was cleared there
    lost: set<nat>,           // jobs whose ID never got to disk
    submitter: Submitter,
    results: seq<Result>,     // in chunk order
    free: set<nat>,
    tainted: set<nat>,        // slots a failed job freed in this run
    once: Once,
    err: Option<nat>,         // the chunk whose error came first
    failed: bool,             // the failed channel is closed
    cancelled: bool)          // the run's context is done

  datatype Action =
    | Mismatch | Replay(eventOK: bool) | Offer | Acquire(slot: nat) | Recheck | Start | Finish
    | EndInput               // the reader is at its end
    | ReadFails              // it fails, a user can't be encoded, or a payload can't be made final
    | GiveUp                 // a select is left for the failed channel or the context
    | Cancel                 // the context is cancelled from outside
    | PostOK(k: nat, fails: bool, report: ImportReport) | PostLost(k: nat, fails: bool, report: ImportReport) | PostError(k: nat)
    | KeepID(k: nat, saved: bool) | PollEnd(k: nat) | PollError(k: nat) | Record(k: nat, saved: bool, eventOK: bool)
    | EnterOnce(k: nat) | SkipOnce(k: nat) | Close(k: nat) | Free(k: nat)
    | Persist
    | Restart(input: seq<nat>)

  predicate At(s: State, k: nat) {
    k < |s.results| && s.results[k].Live?
  }

  function PlaceOf(s: State, k: nat): Place
    requires At(s, k)
  {
    s.results[k].worker.place
  }

  function JobOf(cps: Checkpoints, k: nat): Option<nat> {
    if k in cps then cps[k].job else None
  }

  predicate Holds(cps: Checkpoints, k: nat, id: nat) {
    JobOf(cps, k) == Some(id)
  }

  /** The job's ID is known to a running worker only. */
  predicate Flying(s: State, id: nat)
    requires id < |s.jobs|
  {
    At(s, s.jobs[id].chunk) && PlaceOf(s, s.jobs[id].chunk) == Created(id)
  }

  /** The job's ID is in memory but not on disk. */
  predicate Unsaved(s: State, id: nat)
    requires id < |s.jobs|
  {
    Holds(s.mem, s.jobs[id].chunk, id) && !Holds(s.disk, s.jobs[id].chunk, id)
  }

  predicate Stored(s: State, id: nat)
    requires id < |s.jobs|
  {
    Holds(s.disk, s.jobs[id].chunk, id)
  }

  function ToForget(s: State): set<nat> {
    set id | 0 <= id < |s.jobs| && Stored(s, id) && !Holds(s.mem, s.jobs[id].chunk, id)
  }

  function ToLose(s: State): set<nat> {
    set id | 0 <= id < |s.jobs| && (Flying(s, id) || Unsaved(s, id))
  }

  /** store.Save of the whole job. */
  function SaveAll(s: State): State {
    s.(disk := s.mem, forgotten := s.forgotten + ToForget(s))
  }

  function Move(s: State, k: nat, p: Place): State
    requires At(s, k)
  {
    s.(results := s.results[k := Live(s.results[k].worker.(place := p))])
  }

  /** SaveChunk: memory always takes the checkpoint, disk only if the save succeeds. */
  function SaveChunk(s: State, k: nat, cp: Saved, saved: bool): State {
    var t := s.(mem := s.mem[k := cp]);
    if saved then SaveAll(t) else t
  }

  predicate Enabled(s: State, a: Action) {
    var k := |s.results|;
    match a
    case Mismatch => s.submitter.Reading? && k < |s.input| && k in s.mem && s.mem[k].fingerprint != s.input[k]
    case Replay(_) => s.submitter.Reading? && k < |s.input| && k in s.mem && s.mem[k].fingerprint == s.input[k] && s.mem[k].done
    case Offer => s.submitter.Reading? && k < |s.input| && (k in s.mem ==> s.mem[k].fingerprint == s.input[k] && !s.mem[k].done)
    case Acquire(slot) => s.submitter.Selecting? && slot in s.free
    case EndInput => s.submitter.Reading? && k == |s.input|
    case ReadFails => s.submitter.Reading?
    case GiveUp => (s.submitter.Selecting? && (s.failed || s.cancelled)) || (s.submitter.Reading? && s.cancelled)
    case Cancel => true
    case Recheck => s.submitter.Holding?
    case Start => s.submitter.Cleared? && k < |s.input|
    case Finish => s.submitter.Stopped? && forall i :: 0 <= i < k && s.results[i].Live? ==> s.results[i].worker.place.Left?
    case PostOK(i, _, _) => At(s, i) && PlaceOf(s, i).Post?
    case PostLost(i, _, _) => At(s, i) && PlaceOf(s, i).Post?
    case PostError(i) => At(s, i) && PlaceOf(s, i).Post?
    case KeepID(i, _) => At(s, i) && PlaceOf(s, i).Created?
    case PollEnd(i) => At(s, i) && PlaceOf(s, i).Poll?
    case PollError(i) => At(s, i) && PlaceOf(s, i).Poll?
    case Record(i, _, _) => At(s, i) && PlaceOf(s, i).Ended? && PlaceOf(s, i).job < |s.jobs|
    case EnterOnce(i) => At(s, i) && PlaceOf(s, i).Raised? && s.once.Unused?
    case SkipOnce(i) => At(s, i) && PlaceOf(s, i).Raised? && s.once.Used?
    case Close(i) => At(s, i) && PlaceOf(s, i).Closing?
    case Free(i) => At(s, i) && PlaceOf(s, i).Leaving?
    case Persist => true
    case Restart(_) => true
  }

  function Apply(s: State, a: Action): State
    requires Enabled(s, a)
  {
    var k := |s.results|;
    match a
    case Mismatch => s.(submitter := Stopped)
    case Replay(eventOK) =>
      s.(results := s.results + [Replayed(s.mem[k].report)], submitter := if eventOK then Reading else Stopped)
    case Offer => s.(submitter := Selecting(JobOf(s.mem, k)))
    case Acquire(slot) => s.(free := s.free - {slot}, submitter := Holding(slot, s.submitter.job))
    case EndInput => s.(submitter := Stopped)
    case ReadFails => s.(submitter := Stopped)
    case GiveUp => s.(submitter := Stopped)
    case Cancel => s.(cancelled := true)
    case Recheck =>
      if s.failed then s.(free := s.free + {s.submitter.slot}, submitter := Stopped)
      else s.(submitter := Cleared(s.submitter.slot, s.submitter.job))
    case Start =>
      var place := if s.submitter.job.Some? then Poll(s.submitter.job.value) else Post;
      s.(results := s.results + [Live(Worker(s.input[k], s.submitter.slot, place, EMPTY_REPORT, 0, s.submitter.slot !in s.tainted))],
         submitter := Reading)
    case Finish => s.(submitter := Waited)
    case PostOK(i, fails, report) =>
      Move(s, i, Created(|s.jobs|)).(jobs := s.jobs + [RemoteJob(i, s.results[i].worker.fingerprint, fails, report)])
    case PostLost(i, fails, report) =>
      Move(s, i, Raised).(jobs := s.jobs + [RemoteJob(i, s.results[i].worker.fingerprint, fails, report)], lost := s.lost + {|s.jobs|})
    case PostError(i) => Move(s, i, Raised)
    case KeepID(i, saved) =>
      var id := PlaceOf(s, i).job;
      var cp := Saved(s.results[i].worker.fingerprint, Some(id), false, EMPTY_REPORT);
      SaveChunk(Move(s, i, if saved then Poll(id) else Raised), i, cp, saved)
    case PollEnd(i) => Move(s, i, Ended(PlaceOf(s, i).job))
    case PollError(i) => Move(s, i, Raised)
    case Record(i, saved, eventOK) =>
      var id, fp := PlaceOf(s, i).job, s.results[i].worker.fingerprint;
      var report := s.jobs[id].report;
      var cp := if s.jobs[id].fails then Saved(fp, None, false, EMPTY_REPORT) else Saved(fp, Some(id), true, report);
      var place := if saved && eventOK then Leaving(true) else Raised;
      var w := s.results[i].worker.(place := place, report := report, ended := id);
      SaveChunk(s.(results := s.results[i := Live(w)]), i, cp, saved)
    case EnterOnce(i) => Move(s, i, Closing).(err := Some(i), once := Busy(i))
    case SkipOnce(i) => Move(s, i, Leaving(false))
    case Close(i) => Move(s, i, Leaving(false)).(failed := true, once := Used)
    case Free(i) =>
      var w := s.results[i].worker;
      Move(s, i, Left(w.place.ok)).(free := s.free + {w.slot}, tainted := if w.place.ok then s.tainted else s.tainted + {w.slot})
    case Persist => SaveAll(s)
    case Restart(input) =>
      State(input, s.disk, s.disk, s.jobs, s.forgotten, s.lost + ToLose(s), Reading, [], SLOTS, {}, Unused, None, false, false)
  }

  predicate Init(s: State) {
    s == State(s.input, map[], map[], [], {}, {}, Reading, [], SLOTS, {}, Unused, None, false, false)
  }

  ghost predicate Behaviour(ss: seq<State>, acts: seq<Action>) {
    && |ss| == |acts| + 1
    && Init(ss[0])
    && forall i {:trigger acts[i]} :: 0 <= i < |acts| ==> Enabled(ss[i], acts[i]) && ss[i + 1] == Apply(ss[i], acts[i])
  }
}
