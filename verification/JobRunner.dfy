/** The runner that drives a job through its states, over a disk whose every
    durable change is recorded, so that a crash may cut a run at any of them. */
module JobRunner {

  import opened JobState
  import opened JobWorld
  import opened Options
  import opened Reports

  datatype Error =
    | ErrLocked
    | ErrLoad
    | ErrUnknownState(state: State)
    | ErrContext
    | ErrStore
    | ErrStep(message: string)
    | ErrNotFailed(state: State)
    | ErrTransition(from: State, to: State)

  /** How far the writing of a file gets. */
  datatype Writing = NotOpened | CutShort | Written

  datatype Validation = Validation(problems: seq<Problem>, warnings: seq<Problem>, fail: bool)

  /** What the outside answers a run: which hooks allow the job to go on, and
      what the export, the validation, the target's import and the verification come to. */
  datatype Outside = Outside(
    allows: (string, State) -> bool,
    exportReady: bool,        // a users path, a source connector and a mapping with its strategies
    raw: Writing,
    part: Writing,
    renames: bool,
    manifest: Manifest,
    validation: Option<Validation>,
    importReady: bool,        // a target, a mapping it can take, its options and files
    report: Option<ImportReport>,
    verification: Option<DiffReport>,
    verifyFails: bool)

  /** What stops an export, of a job with this manifest so far. */
  function StopsExport(o: Outside, hasSource: bool, twoPass: bool, manifest: Option<Manifest>): Option<Error> {
    if !hasSource || manifest.Some? then None
    else if o.exportReady && (twoPass ==> o.raw.Written?) && o.part.Written? && o.allows("export.after", Exporting) && o.renames
    then None
    else Some(ErrStep("export"))
  }

  function StopsValidation(o: Outside): Option<Error> {
    if o.validation.None? then Some(ErrStep("validate"))
    else if !o.allows("validate.after", Validating) then Some(ErrStep("validate.after"))
    else if o.validation.value.fail then Some(ErrStep("validate failed"))
    else None
  }

  /** What stops an import, of a job with this report so far. */
  function StopsImport(o: Outside, report: Option<ImportReport>): Option<Error> {
    if report.None? && !(o.importReady && o.allows("import.before", Importing)) then Some(ErrStep("import.before"))
    else if report.None? && o.report.None? then Some(ErrStep("import"))
    else if !o.allows("import.after", Importing) then Some(ErrStep("import.after"))
    else None
  }

  function StopsVerification(o: Outside): Option<Error> {
    if o.verification.None? then Some(ErrStep("verify"))
    else if !o.allows("verify.after", Verifying) then Some(ErrStep("verify.after"))
    else if o.verifyFails then Some(ErrStep("verify failed"))
    else None
  }

  /** A context, which may be cancelled at any time and then stays so. */
  class Context {
    var done: bool

    constructor () {
      done := false;
    }

    method Err() returns (cancelled: bool)
      modifies this
      ensures cancelled == done
      ensures old(done) ==> done
    {
      if * {
        done := true;
      }
      cancelled := done;
    }
  }

  /** h1 extends h0 by the durable steps of a run only. */
  ghost predicate Progress(h0: seq<World>, h1: seq<World>) {
    && 0 < |h0| <= |h1|
    && h0 <= h1
    && forall i :: |h0| - 1 <= i < |h1| - 1 ==> WorkStep(h1[i], h1[i + 1])
  }

  /** What a run promises of every world it leaves, and so at any crash: stored
      states make allowed moves, a stored report stays and stops imports, and a
      sound world stays sound. */
  ghost predicate Forwards(h0: seq<World>, h1: seq<World>) {
    && 0 < |h0| <= |h1|
    && (forall i :: |h0| - 1 <= i < |h1| - 1 ==> Forward(h1[i], h1[i + 1]))
    && (WorldOK(h0[|h0| - 1]) ==> forall i :: |h0| <= i < |h1| ==> WorldOK(h1[i]))
    && (h0[|h0| - 1].job.report.Some? ==>
          && h1[|h1| - 1].job.report == h0[|h0| - 1].job.report
          && h1[|h1| - 1].imports == h0[|h0| - 1].imports)
  }

  ghost predicate Goes(w: World, w': World) {
    Forward(w, w') && (WorldOK(w) ==> WorldOK(w'))
  }

  ghost predicate GoesAt(ws: seq<World>, i: nat)
    requires i + 1 < |ws|
  {
    Goes(ws[i], ws[i + 1])
  }

  lemma RewoundKeepsWorlds(w: World, from: State)
    requires RetryAccepts(w.job, from)
    ensures var w' := w.(job := Rewound(w.job, from)); RetryStep(w, w') && (WorldOK(w) ==> WorldOK(w'))
  {
    var w' := w.(job := Rewound(w.job, from));
    assert RetryStep(w, w');
    if WorldOK(w) {
      StepKeepsWorld(w, w');
    }
  }

  lemma WorkGoes(w: World, w': World)
    requires WorkStep(w, w')
    ensures Goes(w, w')
  {
    WorkStepsAreForward(w, w');
    if WorldOK(w) {
      StepKeepsWorld(w, w');
    }
  }

  /** The last clauses of Forwards, at i. */
  lemma {:induction false} GoingKeeps(ws: seq<World>, i0: nat, i: nat)
    requires i0 <= i < |ws| && forall k: nat :: i0 <= k < |ws| - 1 ==> GoesAt(ws, k)
    ensures WorldOK(ws[i0]) ==> WorldOK(ws[i])
    ensures ws[i0].job.report.Some? ==> ws[i].job.report == ws[i0].job.report && ws[i].imports == ws[i0].imports
  {
    if i > i0 {
      GoingKeeps(ws, i0, i - 1);
      assert GoesAt(ws, i - 1);
    }
  }

  /** Every progress goes forwards. */
  lemma ProgressIsForwards(h0: seq<World>, h1: seq<World>)
    requires Progress(h0, h1)
    ensures Forwards(h0, h1)
  {
    var i0 := |h0| - 1;
    forall k: nat | i0 <= k < |h1| - 1
      ensures GoesAt(h1, k)
    {
      WorkGoes(h1[k], h1[k + 1]);
    }
    StepsGoForwards(h0, h1);
  }

  lemma StepsGoForwards(h0: seq<World>, h1: seq<World>)
    requires 0 < |h0| <= |h1| && h0[|h0| - 1] == h1[|h0| - 1]
    requires forall k: nat :: |h0| - 1 <= k < |h1| - 1 ==> GoesAt(h1, k)
    ensures Forwards(h0, h1)
  {
    var i0 := |h0| - 1;
    forall i | i0 <= i < |h1| - 1
      ensures Forward(h1[i], h1[i + 1])
    {
      assert GoesAt(h1, i);
    }
    forall i | i0 < i < |h1|
      ensures WorldOK(h0[i0]) ==> WorldOK(h1[i])
    {
      GoingKeeps(h1, i0, i);
    }
    GoingKeeps(h1, i0, |h1| - 1);
  }

  /** The job's file and lock, and the users file with its temporary ones. */
  class Disk {
    var job: JobRecord
    var locked: bool
    var users: File
    var part: File
    var raw: File
    var imports: nat
    ghost var history: seq<World>
    ghost var refusals: nat    // how many saves have failed

    ghost function Now(): World
      reads this
    {
      World(job, users, part, raw, imports)
    }

    ghost predicate Valid()
      reads this
    {
      |history| > 0 && history[|history| - 1] == Now()
    }

    /** Create: a new queued job beside whatever users files are there. */
    constructor Create(users: File, part: File, raw: File)
      ensures Valid() && !locked && imports == 0
      ensures history == [World(NEW_JOB, users, part, raw, 0)] && WorldOK(Now())
    {
      job, locked, imports := NEW_JOB, false, 0;
      this.users, this.part, this.raw := users, part, raw;
      history := [World(NEW_JOB, users, part, raw, 0)];
      refusals := 0;
    }

    method Lock() returns (ok: bool)
      modifies this`locked
      ensures ok == !old(locked)
      ensures locked
    {
      ok := !locked;
      locked := true;
    }

    method Unlock()
      modifies this`locked
      ensures !locked
    {
      locked := false;
    }

    /** Atomic: the new version or, on failure, the previous one. */
    method Save(r: JobRecord) returns (ok: bool)
      requires Valid()
      requires SaveStep(Now(), Now().(job := r))
      modifies this`job, this`history, this`refusals
      ensures Valid()
      ensures RunSave(old(Now()), r) ==> Progress(old(history), history)
      ensures if ok then job == r && history == old(history) + [Now()] else job == old(job) && history == old(history)
      ensures refusals == old(refusals) + if ok then 0 else 1
    {
      ok := *;
      if ok {
        job := r;
        history := history + [Now()];
      } else {
        refusals := refusals + 1;
      }
    }

    /** writeUsers to the file written aside: truncated first, complete only at the end. */
    method WritePart(m: Manifest, writing: Writing) returns (ok: bool)
      requires Valid() && ExportOpen(Now())
      modifies this`part, this`history
      ensures Valid() && Progress(old(history), history)
      ensures ok == writing.Written?
      ensures part == match writing case NotOpened => old(part) case CutShort => Partial case Written => Complete(m)
    {
      if writing.NotOpened? {
        return false;
      }
      part := Partial;
      history := history + [Now()];
      ok := writing.Written?;
      if ok {
        part := Complete(m);
        history := history + [Now()];
      }
    }

    /** writeUsers to the raw file of a two-pass export. */
    method WriteRaw(m: Manifest, writing: Writing) returns (ok: bool)
      requires Valid() && ExportOpen(Now())
      modifies this`raw, this`history
      ensures Valid() && Progress(old(history), history)
      ensures ok == writing.Written?
      ensures raw == match writing case NotOpened => old(raw) case CutShort => Partial case Written => Complete(m)
    {
      if writing.NotOpened? {
        return false;
      }
      raw := Partial;
      history := history + [Now()];
      ok := writing.Written?;
      if ok {
        raw := Complete(m);
        history := history + [Now()];
      }
    }

    /** The rename that puts the file written aside in place. */
    method Rename(ok: bool)
      requires Valid() && ExportOpen(Now()) && part.Complete?
      modifies this`users, this`part, this`history
      ensures Valid() && Progress(old(history), history)
      ensures users == if ok then old(part) else old(users)
    {
      if ok {
        users, part := part, Absent;
        history := history + [Now()];
      }
    }

    /** The deferred removals of an export. */
    method RemoveAside()
      requires Valid() && ExportOpen(Now())
      modifies this`part, this`raw, this`history
      ensures Valid() && Progress(old(history), history)
    {
      part := Absent;
      history := history + [Now()];
      raw := Absent;
      history := history + [Now()];
    }

    method CallImport()
      requires Valid() && job.state == Importing && job.report.None?
      modifies this`imports, this`history
      ensures Valid() && Progress(old(history), history)
      ensures imports == old(imports) + 1
    {
      imports := imports + 1;
      history := history + [Now()];
    }
  }

  /** hooksBefore's loop. */
  method KeepHooksBefore(rs: seq<HookResult>, from: State) returns (kept: seq<HookResult>)
    ensures kept == HooksBefore(rs, from)
  {
    kept := [];
    for n := 0 to |rs|
      invariant kept == HooksBefore(rs[..n], from)
    {
      assert rs[..n + 1][..n] == rs[..n];
      var i := Index(rs[n].state);
      if 0 <= i < Index(from) {
        kept := kept + [rs[n]];
      }
    }
    assert rs[..|rs|] == rs;
  }

  /** A job in memory. */
  class Job {
    var state: State
    var failedIn: State
    var error: string
    var manifest: Option<Manifest>
    var problems: seq<Problem>
    var warnings: seq<Problem>
    var report: Option<ImportReport>
    var diff: Option<DiffReport>
    var hooks: seq<HookResult>
    var hooksFingerprint: string
    var chunks: map<nat, Checkpoint>

    constructor Load(r: JobRecord)
      ensures Snapshot() == r
    {
      state, failedIn, error := r.state, r.failedIn, r.error;
      manifest, problems, warnings := r.manifest, r.problems, r.warnings;
      report, diff, hooks := r.report, r.diff, r.hooks;
      hooksFingerprint, chunks := r.hooksFingerprint, r.chunks;
    }

    function Snapshot(): JobRecord
      reads this
    {
      JobRecord(state, failedIn, error, manifest, problems, warnings, report, diff, hooks, hooksFingerprint, chunks)
    }

    /** The job's state is the stored one, and memory is ahead of disk by work on that state at most. */
    ghost predicate InStep(d: Disk)
      reads this, d
    {
      d.Valid() && SameStanding(d.job, Snapshot()) && Worked(d.Now(), Snapshot())
    }

    /** A hook call recorded on the job, under the state it was made in. */
    method RecordHook(hook: string)
      modifies this`hooks
      ensures |hooks| == |old(hooks)| + 1 && old(hooks) <= hooks
      ensures hooks[|old(hooks)|].hook == hook && hooks[|old(hooks)|].state == state
    {
      var outcome: string := *;
      hooks := hooks + [HookResult(hook, state, outcome)];
    }

    /** An event, or a part of a step that asks handlers: whatever it comes to,
        it may leave results on the job. */
    method Event(hook: string, d: Disk)
      requires InStep(d)
      modifies this`hooks
      ensures InStep(d)
      ensures old(hooks) <= hooks
    {
      var left: nat := *;
      while left > 0
        invariant InStep(d) && old(hooks) <= hooks
      {
        RecordHook(hook);
        left := left - 1;
      }
    }

    /** Keeps the results of the states before to, and no others. */
    method DiscardResults(to: State)
      modifies this`manifest, this`problems, this`warnings, this`report, this`chunks, this`diff
      ensures manifest == if Index(to) <= Index(Exporting) then None else old(manifest)
      ensures problems == if Index(to) <= Index(Validating) then [] else old(problems)
      ensures warnings == if Index(to) <= Index(Validating) then [] else old(warnings)
      ensures report == if Index(to) <= Index(Importing) then None else old(report)
      ensures chunks == if Index(to) <= Index(Importing) then map[] else old(chunks)
      ensures diff == if Index(to) <= Index(Verifying) then None else old(diff)
    {
      if Index(to) <= Index(Exporting) {
        manifest := None;
      }
      if Index(to) <= Index(Validating) {
        problems, warnings := [], [];
      }
      if Index(to) <= Index(Importing) {
        report, chunks := None, map[];
      }
      if Index(to) <= Index(Verifying) {
        diff := None;
      }
    }

    /** What a retry does to a job in memory. */
    method Rewind(to: State)
      modifies this
      ensures Snapshot() == Rewound(old(Snapshot()), to)
    {
      if to != failedIn {
        DiscardResults(to);
        hooks := KeepHooksBefore(hooks, to);
      }
      state, failedIn, error := to, NoState, "";
    }

    method SaveChunk(cp: Checkpoint, d: Disk) returns (ok: bool)
      requires InStep(d) && state == Importing
      modifies this`chunks, d`job, d`history, d`refusals
      ensures InStep(d) && Progress(old(d.history), d.history) && old(d.refusals) <= d.refusals
      ensures chunks == old(chunks)[cp.index := cp]
      ensures ok ==> d.job == Snapshot()
      ensures !ok ==> d.job == old(d.job)
    {
      chunks := chunks[cp.index := cp];
      ok := d.Save(Snapshot());
    }
  }

  /** What an export writes aside: in one pass, or raw first and rewritten in
      a second one, which counts the users it leaves out. */
  method WriteExport(o: Outside, twoPass: bool, d: Disk) returns (ok: bool)
    requires d.Valid() && ExportOpen(d.Now())
    modifies d`part, d`raw, d`history
    ensures d.Valid() && Progress(old(d.history), d.history)
    ensures ok <==> (twoPass ==> o.raw.Written?) && o.part.Written?
    ensures ok ==> d.part == Complete(o.manifest)
  {
    if twoPass {
      var manifest: Manifest := *;
      ok := d.WriteRaw(manifest, o.raw);
      if !ok {
        return;
      }
    }
    ok := d.WritePart(o.manifest, o.part);
  }

  /** The export step, which does nothing for a job with a manifest. */
  method Export(o: Outside, hasSource: bool, twoPass: bool, j: Job, d: Disk) returns (err: Option<Error>)
    requires j.InStep(d) && j.state == Exporting
    modifies j`manifest, j`hooks, d`users, d`part, d`raw, d`history
    ensures j.InStep(d) && Progress(old(d.history), d.history)
    ensures err == StopsExport(o, hasSource, twoPass, old(j.manifest))
    ensures !hasSource || old(j.manifest).Some? ==> err.None? && d.history == old(d.history) && j.manifest == old(j.manifest)
    ensures hasSource && old(j.manifest).None? ==>
              (err.None? <==> o.exportReady && (twoPass ==> o.raw.Written?) && o.part.Written?
                              && o.allows("export.after", Exporting) && o.renames)
    ensures hasSource && old(j.manifest).None? && err.None? ==> j.manifest == Some(o.manifest) && d.users == Complete(o.manifest)
    ensures err.Some? ==> j.manifest == old(j.manifest) && d.users == old(d.users)
  {
    if !hasSource || j.manifest.Some? {
      return None;
    }
    j.Event("export", d); // strategies of the second pass may ask handlers
    if !o.exportReady {
      return Some(ErrStep("export"));
    }
    var ok := WriteExport(o, twoPass, d);
    // A veto here leaves users as it was.
    if ok {
      j.Event("export.after", d);
      ok := o.allows("export.after", Exporting);
    }
    if ok {
      d.Rename(o.renames);
      ok := o.renames;
    }
    d.RemoveAside();
    if !ok {
      return Some(ErrStep("export"));
    }
    j.manifest := Some(o.manifest);
    return None;
  }

  /** The validation step: its problems are on the job whether they fail it or not. */
  method Validate(o: Outside, j: Job, d: Disk) returns (err: Option<Error>)
    requires j.InStep(d) && j.state == Validating
    modifies j`problems, j`warnings, j`hooks
    ensures j.InStep(d)
    ensures err == StopsValidation(o)
    ensures err.None? <==> o.validation.Some? && o.allows("validate.after", Validating) && !o.validation.value.fail
    ensures if o.validation.Some? && o.allows("validate.after", Validating)
            then j.problems == o.validation.value.problems && j.warnings == o.validation.value.warnings
            else j.problems == old(j.problems) && j.warnings == old(j.warnings)
  {
    j.Event("validate", d);
    if o.validation.None? {
      return Some(ErrStep("validate"));
    }
    j.Event("validate.after", d);
    if !o.allows("validate.after", Validating) {
      return Some(ErrStep("validate.after"));
    }
    j.problems, j.warnings := o.validation.value.problems, o.validation.value.warnings;
    err := if o.validation.value.fail then Some(ErrStep("validate failed")) else None;
  }

  /** A checkpoint or a hook of one of the target's chunks. */
  method TargetChunk(j: Job, d: Disk)
    requires j.InStep(d) && j.state == Importing && j.report.None?
    modifies j`chunks, j`hooks, d`job, d`history, d`refusals
    ensures j.InStep(d) && Progress(old(d.history), d.history) && old(d.refusals) <= d.refusals
  {
    if * {
      var cp: Checkpoint := *;
      var _ := j.SaveChunk(cp, d);
    } else {
      j.RecordHook("import.chunk.after");
    }
  }

  /** The target's import: it checkpoints chunks and fires their hooks, in any number and order. */
  method TargetImport(j: Job, d: Disk)
    requires j.InStep(d) && j.state == Importing && j.report.None?
    modifies j`chunks, j`hooks, d`job, d`imports, d`history, d`refusals
    ensures j.InStep(d) && Progress(old(d.history), d.history) && old(d.refusals) <= d.refusals
    ensures d.imports == old(d.imports) + 1
  {
    d.CallImport();
    var left: nat := *;
    while left > 0
      invariant j.InStep(d) && j.state == Importing && j.report.None? && Progress(old(d.history), d.history) && old(d.refusals) <= d.refusals
      invariant d.imports == old(d.imports) + 1
    {
      TargetChunk(j, d);
      left := left - 1;
    }
  }

  /** The import step: the target is asked once per run at most, and not at all once a report is recorded. */
  method Import(o: Outside, j: Job, d: Disk) returns (err: Option<Error>)
    requires j.InStep(d) && j.state == Importing
    modifies j`report, j`chunks, j`hooks, d`job, d`imports, d`history, d`refusals
    ensures j.InStep(d) && Progress(old(d.history), d.history) && old(d.refusals) <= d.refusals
    ensures err == StopsImport(o, old(j.report))
    ensures err.None? <==> o.allows("import.after", Importing)
                           && (old(j.report).None? ==> o.importReady && o.allows("import.before", Importing) && o.report.Some?)
    ensures d.imports == old(d.imports)
                         + if old(j.report).None? && o.importReady && o.allows("import.before", Importing) then 1 else 0
    ensures j.report == if d.imports == old(d.imports) then old(j.report) else o.report
  {
    if j.report.None? {
      j.Event("import.before", d);
      if !o.importReady || !o.allows("import.before", Importing) {
        return Some(ErrStep("import.before"));
      }
      TargetImport(j, d);
      if o.report.None? {
        return Some(ErrStep("import"));
      }
      j.report := o.report;
    }
    j.Event("import.after", d);
    err := if o.allows("import.after", Importing) then None else Some(ErrStep("import.after"));
  }

  /** The verification step: its differences are on the job whether they fail it or not. */
  method Verify(o: Outside, j: Job, d: Disk) returns (err: Option<Error>)
    requires j.InStep(d) && j.state == Verifying
    modifies j`diff, j`hooks
    ensures j.InStep(d)
    ensures err == StopsVerification(o)
    ensures err.None? <==> o.verification.Some? && o.allows("verify.after", Verifying) && !o.verifyFails
    ensures j.diff == if o.verification.Some? then o.verification else old(j.diff)
  {
    j.Event("verify", d);
    if o.verification.None? {
      return Some(ErrStep("verify"));
    }
    j.diff := o.verification;
    j.Event("verify.after", d);
    if !o.allows("verify.after", Verifying) {
      return Some(ErrStep("verify.after"));
    }
    err := if o.verifyFails then Some(ErrStep("verify failed")) else None;
  }

  /** Where a run from place i that worked on the states up to place k, and got
      to the step of those up to place m, left the job. */
  predicate Reached(i: nat, k: nat, m: nat, state: State, failedIn: State)
    requires i <= k < |PIPELINE|
  {
    && k <= m + 1
    && (state == Done ==> m == k == Index(Done))
    && (state == Failed ==> failedIn == PIPELINE[if k == i then i else k - 1])
    && (state != Failed ==> k <= Index(state) + 1 <= m + 2)
  }

  /** Only the context and the store stop a run before its job is over. */
  predicate StoppedBy(err: Error, done: bool, refused: bool) {
    (err == ErrContext && done) || (err == ErrStore && refused)
  }

  /** How the work of one state ended. */
  datatype Outcome = Passed | Interrupted | Broke(cause: string)

  /** The text an error leaves on a failed job. */
  function Text(e: Error): string {
    match e
    case ErrStep(message) => message
    case _ => "store"
  }

  /** The same results of every step. */
  predicate SameResults(a: JobRecord, b: JobRecord) {
    a.manifest == b.manifest && a.problems == b.problems && a.warnings == b.warnings && a.report == b.report && a.diff == b.diff
  }

  type WorkingStates = s: set<State> | s <= {Exporting, Validating, Importing, Verifying}

  class Runner {
    const steps: WorkingStates    // those that have a step
    const hasSource: bool
    const twoPass: bool
    const hooksFile: string       // the fingerprint of the hooks file, "" for none
    const o: Outside
    var notified: seq<State>      // the states OnState was called with
    var ran: seq<State>           // the states whose step was run
    var finished: seq<State>      // the states job.done or job.failed was fired in

    constructor (steps: WorkingStates, hasSource: bool, twoPass: bool, hooksFile: string, o: Outside)
      ensures this.steps == steps && this.hasSource == hasSource && this.twoPass == twoPass && this.hooksFile == hooksFile && this.o == o
      ensures notified == ran == finished == []
    {
      this.steps, this.hasSource, this.twoPass, this.hooksFile, this.o := steps, hasSource, twoPass, hooksFile, o;
      notified, ran, finished := [], [], [];
    }

    function StepError(s: State, a: JobRecord): Option<Error> {
      match s
      case Exporting => StopsExport(o, hasSource, twoPass, a.manifest)
      case Validating => StopsValidation(o)
      case Importing => StopsImport(o, a.report)
      case Verifying => StopsVerification(o)
      case _ => None
    }

    /** What stands in the way of a job in state s. */
    function Obstacle(s: State, a: JobRecord): Option<string> {
      if !o.allows("state.enter", s) then Some("state.enter")
      else if s in steps && StepError(s, a).Some? then Some(Text(StepError(s, a).value))
      else if !o.allows("state.exit", s) then Some("state.exit")
      else None
    }

    /** The job with the results of the step of state s. */
    function AfterStep(s: State, a: JobRecord): JobRecord {
      if s !in steps then a
      else
        match s
        case Exporting => if hasSource && a.manifest.None? then a.(manifest := Some(o.manifest)) else a
        case Validating =>
          if o.validation.None? then a else a.(problems := o.validation.value.problems, warnings := o.validation.value.warnings)
        case Importing => if a.report.None? then a.(report := o.report) else a
        case Verifying => a.(diff := o.verification)
        case _ => a
    }

    /** And with those of all steps from place i up to place k. */
    function AfterSteps(i: nat, k: nat, a: JobRecord): JobRecord
      requires k <= |PIPELINE|
    {
      if k <= i then a else AfterStep(PIPELINE[k - 1], AfterSteps(i, k - 1, a))
    }

    /** Nothing stands in the way of a job from place i up to place k. */
    predicate Clear(i: nat, k: nat, a: JobRecord)
      requires k <= |PIPELINE|
    {
      k <= i || (Clear(i, k - 1, a) && Obstacle(PIPELINE[k - 1], AfterSteps(i, k - 1, a)).None?)
    }

    /** The cause is the obstacle of a job in state s, or a refused save. */
    predicate Hinders(s: State, a: JobRecord, cause: string, refused: bool) {
      Obstacle(s, a) == Some(cause) || (refused && cause == Text(ErrStore))
    }

    /** The first obstacle of a job on its way from place i, or a refused save, failed it with this error. */
    predicate FailedAt(i: nat, a: JobRecord, failedIn: State, error: string, refused: bool) {
      var k := Index(failedIn);
      i <= k && Clear(i, k, a) && Hinders(failedIn, AfterSteps(i, k, a), error, refused)
    }

    method Notify(j: Job)
      modifies this`notified
      ensures notified == old(notified) + [j.state]
    {
      notified := notified + [j.state];
    }

    /** Moves j and persists the move, or leaves j where it was. */
    method Transition(j: Job, to: State, d: Disk) returns (err: Option<Error>)
      requires d.Valid()
      requires CanTransition(j.state, to) ==> RunSave(d.Now(), j.Snapshot().(state := to))
      modifies j`state, d`job, d`history, d`refusals
      ensures d.Valid() && Progress(old(d.history), d.history) && old(d.refusals) <= d.refusals
      ensures err.None? ==> CanTransition(old(j.state), to) && j.state == to && d.job == j.Snapshot()
      ensures err.Some? ==> j.state == old(j.state) && d.job == old(d.job) && d.history == old(d.history)
      ensures err.Some? && CanTransition(old(j.state), to) ==> err == Some(ErrStore) && old(d.refusals) < d.refusals
    {
      if !CanTransition(j.state, to) {
        return Some(ErrTransition(j.state, to));
      }
      var prev := j.state;
      j.state := to;
      var ok := d.Save(j.Snapshot());
      if !ok {
        j.state := prev;
        return Some(ErrStore);
      }
      return None;
    }

    /** Fails j: all three fields that say so change, in memory and on disk, or none. */
    method Fail(j: Job, cause: string, d: Disk) returns (err: Option<Error>)
      requires j.InStep(d) && Valid(j.state) && !Terminal(j.state)
      modifies j`state, j`failedIn, j`error, d`job, d`history, d`refusals
      ensures d.Valid() && Progress(old(d.history), d.history) && old(d.refusals) <= d.refusals
      ensures err.None? ==> j.state == Failed && j.failedIn == old(j.state) && j.error == cause && d.job == j.Snapshot()
      ensures err.Some? ==> j.state == old(j.state) && j.failedIn == NoState && j.error == ""
      ensures err.Some? ==> d.job == old(d.job) && d.history == old(d.history) && err == Some(ErrStore) && old(d.refusals) < d.refusals
    {
      j.failedIn, j.error := j.state, cause;
      err := Transition(j, Failed, d);
      if err.Some? {
        j.failedIn, j.error := NoState, "";
      }
    }

    /** Fires the last event of a job that is over, and saves what it recorded. */
    method Finish(j: Job, d: Disk) returns (err: Option<Error>)
      requires j.InStep(d) && Terminal(j.state)
      modifies this`finished, j`hooks, d`job, d`history, d`refusals
      ensures j.InStep(d) && Progress(old(d.history), d.history) && old(d.refusals) <= d.refusals
      ensures err.None? ==> d.job.hooks == j.hooks || j.hooks == old(j.hooks)
      ensures finished == old(finished) + [j.state]
      ensures err.Some? ==> err == Some(ErrStore) && old(d.refusals) < d.refusals
    {
      var n := |j.hooks|;
      j.Event(if j.state == Failed then "job.failed" else "job.done", d);
      finished := finished + [j.state];
      if |j.hooks| == n {
        return None;
      }
      var ok := d.Save(j.Snapshot());
      return if ok then None else Some(ErrStore);
    }

    /** Ends a run that broke: in a done context j keeps its state, else it is failed, or kept by a failed save. */
    method Stop(cause: string, ctx: Context, j: Job, d: Disk) returns (err: Option<Error>)
      requires j.InStep(d) && Valid(j.state) && !Terminal(j.state)
      modifies this`finished, ctx, j`state, j`failedIn, j`error, j`hooks, d`job, d`history, d`refusals
      ensures d.Valid() && Progress(old(d.history), d.history) && old(d.refusals) <= d.refusals
      ensures err.None? ==> j.state == Failed
      ensures err.Some? ==> StoppedBy(err.value, ctx.done, old(d.refusals) < d.refusals)
      ensures j.state == d.job.state && (old(ctx.done) ==> ctx.done)
      ensures (ctx.done <==> err == Some(ErrContext)) && (ctx.done ==> j.state == old(j.state) && d.history == old(d.history))
      ensures j.state == old(j.state) || (j.state == Failed && j.failedIn == old(j.state) && j.error == cause)
      ensures finished == old(finished) + if j.state == Failed then [Failed] else []
      ensures old(j.failedIn) == NoState && old(j.error) == "" ==> SameStanding(d.job, j.Snapshot())
    {
      var cancelled := ctx.Err();
      if cancelled {
        return Some(ErrContext);
      }
      err := Fail(j, cause, d);
      if err.None? {
        err := Finish(j, d);
      }
    }

    method NoteHooksFile(j: Job, d: Disk)
      requires j.InStep(d)
      modifies j`hooksFingerprint, j`hooks
      ensures j.InStep(d)
      ensures j.hooksFingerprint == if hooksFile == "" then old(j.hooksFingerprint) else hooksFile
      ensures (old(j.hooksFingerprint) != "" && old(j.hooksFingerprint) != hooksFile) <==> j.hooks != old(j.hooks)
    {
      if hooksFile == j.hooksFingerprint || (hooksFile != "" && j.hooksFingerprint == "") {
        j.hooksFingerprint := hooksFile;
        return;
      }
      if hooksFile != "" {
        j.hooksFingerprint := hooksFile;
      }
      j.RecordHook("hooks");
    }

    /** The step of j's state, run with its state already persisted. */
    method Step(j: Job, d: Disk) returns (err: Option<Error>)
      requires j.InStep(d) && j.state in {Exporting, Validating, Importing, Verifying}
      modifies this`ran, d`job, d`users, d`part, d`raw, d`imports, d`history, d`refusals
      modifies j`manifest, j`problems, j`warnings, j`report, j`diff, j`chunks, j`hooks
      ensures j.InStep(d) && Progress(old(d.history), d.history) && old(d.refusals) <= d.refusals
      ensures ran == old(ran) + [d.job.state] && j.state == old(j.state)
      ensures err == StepError(j.state, old(j.Snapshot()))
      ensures err.None? && j.state in steps ==> SameResults(j.Snapshot(), AfterStep(j.state, old(j.Snapshot())))
    {
      ran := ran + [j.state];
      match j.state
      case Exporting => err := Export(o, hasSource, twoPass, j, d);
      case Validating => err := Validate(o, j, d);
      case Importing => err := Import(o, j, d);
      case Verifying => err := Verify(o, j, d);
    }

    /** Runs the step, then tries to save the job, whatever the step returned. */
    method RunStep(j: Job, d: Disk) returns (err: Option<Error>, ghost saved: bool)
      requires j.InStep(d) && j.state in {Exporting, Validating, Importing, Verifying}
      modifies this`ran, d`job, d`users, d`part, d`raw, d`imports, d`history, d`refusals
      modifies j`manifest, j`problems, j`warnings, j`report, j`diff, j`chunks, j`hooks
      ensures j.InStep(d) && Progress(old(d.history), d.history) && old(d.refusals) <= d.refusals
      ensures ran == old(ran) + [j.state] && j.state == old(j.state)
      ensures if saved then d.job == j.Snapshot() else old(d.refusals) < d.refusals
      ensures err.None? ==> saved && StepError(j.state, old(j.Snapshot())).None?
      ensures err.Some? ==> err == StepError(j.state, old(j.Snapshot())) || (err == Some(ErrStore) && !saved)
      ensures err.None? && j.state in steps ==> SameResults(j.Snapshot(), AfterStep(j.state, old(j.Snapshot())))
    {
      err := Step(j, d);
      var ok := d.Save(j.Snapshot());
      saved := ok;
      if !ok && err.None? {
        return Some(ErrStore), saved;
      }
    }

    /** The step of j's state, and a look at the context if it did what it is for. */
    method TakeStep(ctx: Context, j: Job, d: Disk) returns (outcome: Outcome)
      requires j.InStep(d) && j.state in steps
      modifies this`ran, ctx, d`job, d`users, d`part, d`raw, d`imports, d`history, d`refusals
      modifies j`manifest, j`problems, j`warnings, j`report, j`diff, j`chunks, j`hooks
      ensures j.InStep(d) && Progress(old(d.history), d.history) && old(d.refusals) <= d.refusals
      ensures ran == old(ran) + [j.state] && j.state == old(j.state)
      ensures outcome.Passed? ==>
                StepError(j.state, old(j.Snapshot())).None? && SameResults(j.Snapshot(), AfterStep(j.state, old(j.Snapshot())))
      ensures outcome.Interrupted? ==> ctx.done
      ensures (old(ctx.done) ==> ctx.done) && (ctx.done && !old(ctx.done) ==> outcome.Interrupted?)
      ensures outcome.Broke? ==>
                || StepError(j.state, old(j.Snapshot())) == Some(ErrStep(outcome.cause))
                || (old(d.refusals) < d.refusals && outcome.cause == Text(ErrStore))
    {
      var err, _ := RunStep(j, d);
      if err.Some? {
        return Broke(Text(err.value));
      }
      var cancelled := ctx.Err();
      return if cancelled then Interrupted else Passed;
    }

    /** The events and the step of j's state. It says how they ended, and
        whether they got as far as the step. */
    method Perform(ctx: Context, j: Job, d: Disk) returns (outcome: Outcome, ghost stepped: bool)
      requires j.InStep(d) && JobState.Valid(j.state) && !Terminal(j.state)
      modifies this`ran, ctx, d`job, d`users, d`part, d`raw, d`imports, d`history, d`refusals
      modifies j`manifest, j`problems, j`warnings, j`report, j`diff, j`chunks, j`hooks
      ensures j.InStep(d) && Progress(old(d.history), d.history) && old(d.refusals) <= d.refusals
      ensures outcome.Passed? ==>
                && stepped && Obstacle(j.state, old(j.Snapshot())).None?
                && SameResults(j.Snapshot(), AfterStep(j.state, old(j.Snapshot())))
      ensures outcome.Interrupted? ==> ctx.done
      ensures (old(ctx.done) ==> ctx.done) && (ctx.done && !old(ctx.done) ==> outcome.Interrupted?)
      ensures outcome.Broke? ==> Hinders(j.state, old(j.Snapshot()), outcome.cause, old(d.refusals) < d.refusals)
      ensures ran == old(ran) + if stepped && j.state in steps then [j.state] else []
    {
      j.Event("state.enter", d);
      if !o.allows("state.enter", j.state) {
        return Broke("state.enter"), false;
      }
      if j.state in steps {
        outcome := TakeStep(ctx, j, d);
        if !outcome.Passed? {
          return outcome, true;
        }
      }
      j.Event("state.exit", d);
      return if o.allows("state.exit", j.state) then Passed else Broke("state.exit"), true;
    }

    /** The move to the next state, once the work of j's is done. */
    method MoveOn(j: Job, d: Disk) returns (err: Option<Error>)
      requires j.InStep(d) && JobState.Valid(j.state) && !Terminal(j.state)
      modifies j`state, d`job, d`history, d`refusals
      ensures j.InStep(d) && Progress(old(d.history), d.history) && old(d.refusals) <= d.refusals
      ensures err.None? ==> Next(old(j.state)) == Some(j.state)
      ensures SameResults(j.Snapshot(), old(j.Snapshot()))
      ensures err.Some? ==> j.state == old(j.state) && err == Some(ErrStore) && old(d.refusals) < d.refusals
    {
      var next := Next(j.state);
      if next.None? {
        assert false;
      }
      err := Transition(j, next.value, d);
    }

    /** One round of the loop: the work of j's state, then the move to the next one. */
    method Work(ctx: Context, j: Job, d: Disk) returns (ends: bool, err: Option<Error>, ghost stepped: bool)
      requires j.InStep(d) && JobState.Valid(j.state) && !Terminal(j.state)
      modifies this`ran, this`finished, ctx, j, d`job, d`users, d`part, d`raw, d`imports, d`history, d`refusals
      ensures d.Valid() && Progress(old(d.history), d.history) && old(d.refusals) <= d.refusals
      ensures j.state == d.job.state
      ensures ctx.done && !old(ctx.done) ==> err == Some(ErrContext)
      ensures err == Some(ErrContext) ==> ctx.done && j.state == old(j.state)
      ensures !ends ==> j.InStep(d) && Next(old(j.state)) == Some(j.state) && j.failedIn == old(j.failedIn) && j.error == old(j.error)
      ensures ends && err.None? ==> j.state == Failed
      ensures ends && err.Some? ==> StoppedBy(err.value, ctx.done, old(d.refusals) < d.refusals)
      ensures ends ==> j.state == old(j.state) || (j.state == Failed && j.failedIn == old(j.state))
      ensures ends && old(j.failedIn) == NoState && old(j.error) == "" ==> SameStanding(d.job, j.Snapshot())
      ensures !ends ==> stepped && Obstacle(old(j.state), old(j.Snapshot())).None?
                        && SameResults(j.Snapshot(), AfterStep(old(j.state), old(j.Snapshot())))
      ensures j.state == Failed ==> Hinders(old(j.state), old(j.Snapshot()), j.error, old(d.refusals) < d.refusals)
      ensures finished == old(finished) + if j.state == Failed then [Failed] else []
      ensures ran == old(ran) + if stepped && old(j.state) in steps then [old(j.state)] else []
    {
      var outcome;
      outcome, stepped := Perform(ctx, j, d);
      ends, err := Conclude(outcome, ctx, j, d);
    }

    /** The end of a round, by how the work ended. */
    method Conclude(outcome: Outcome, ctx: Context, j: Job, d: Disk) returns (ends: bool, err: Option<Error>)
      requires j.InStep(d) && JobState.Valid(j.state) && !Terminal(j.state)
      modifies this`finished, ctx, j`state, j`failedIn, j`error, j`hooks, d`job, d`history, d`refusals
      ensures d.Valid() && Progress(old(d.history), d.history) && old(d.refusals) <= d.refusals
      ensures j.state == d.job.state
      ensures SameResults(j.Snapshot(), old(j.Snapshot()))
      ensures !ends ==>
                && outcome.Passed? && j.InStep(d) && Next(old(j.state)) == Some(j.state)
                && j.failedIn == old(j.failedIn) && j.error == old(j.error)
      ensures ends && err.None? ==> j.state == Failed
      ensures ends && err.Some? ==> StoppedBy(err.value, ctx.done, old(d.refusals) < d.refusals) || (err.value == ErrContext && outcome.Interrupted?)
      ensures ends ==>
                || j.state == old(j.state)
                || (j.state == Failed && j.failedIn == old(j.state) && outcome.Broke? && j.error == outcome.cause)
      ensures ends && old(j.failedIn) == NoState && old(j.error) == "" ==> SameStanding(d.job, j.Snapshot())
      ensures finished == old(finished) + if j.state == Failed then [Failed] else []
      ensures (old(ctx.done) ==> ctx.done) && (ctx.done && !old(ctx.done) ==> err == Some(ErrContext))
      ensures err == Some(ErrContext) ==> j.state == old(j.state) && (ctx.done || outcome.Interrupted?)
      ensures outcome.Interrupted? ==> ends && err == Some(ErrContext) && ctx.done == old(ctx.done)
    {
      match outcome
      case Interrupted =>
        return true, Some(ErrContext);
      case Broke(cause) =>
        err := Stop(cause, ctx, j, d);
        ends := true;
      case Passed =>
        err := MoveOn(j, d);
        ends := err.Some?;
    }

    /** What a run does before its first state. */
    method Begin(ctx: Context, j: Job, d: Disk) returns (begun: bool, err: Option<Error>)
      requires j.InStep(d) && JobState.Valid(j.state) && !Terminal(j.state)
      modifies this`finished, ctx, j, d`job, d`history, d`refusals
      ensures begun <==> o.allows("job.before_run", old(j.state))
      ensures begun ==> SameResults(j.Snapshot(), old(j.Snapshot()))
      ensures j.state == Failed ==> j.error == "job.before_run"
      ensures finished == old(finished) + if j.state == Failed then [Failed] else []
      ensures d.Valid() && Progress(old(d.history), d.history) && old(d.refusals) <= d.refusals
      ensures begun ==> j.InStep(d) && j.failedIn == old(j.failedIn) && j.error == old(j.error)
      ensures !begun && err.None? ==> j.state == Failed
      ensures !begun && err.Some? ==> StoppedBy(err.value, ctx.done, old(d.refusals) < d.refusals)
      ensures j.state == d.job.state
      ensures !begun ==> (ctx.done <==> err == Some(ErrContext)) && (ctx.done ==> !Terminal(j.state))
      ensures j.state == old(j.state) || (!begun && j.state == Failed && j.failedIn == old(j.state))
      ensures !begun && old(j.failedIn) == NoState && old(j.error) == "" ==> SameStanding(d.job, j.Snapshot())
    {
      NoteHooksFile(j, d);
      j.Event("job.before_run", d);
      begun := o.allows("job.before_run", j.state);
      err := None;
      if !begun {
        err := Stop("job.before_run", ctx, j, d);
      }
    }

    /** Only its results matter to what stands in a job's way. */
    lemma SameWay(s: State, a: JobRecord, b: JobRecord)
      requires SameResults(a, b)
      ensures Obstacle(s, a) == Obstacle(s, b) && SameResults(AfterStep(s, a), AfterStep(s, b))
    {
    }

    /** Where a job went from a: over, with all results, if nothing stood in
        its way; else failed by the first obstacle. */
    predicate Ended(a: JobRecord, r: JobRecord, refused: bool)
      requires Index(a.state) >= 0
    {
      var i := Index(a.state);
      && (r.state == Done ==> Clear(i, Index(Done), a) && SameResults(r, AfterSteps(i, Index(Done), a)))
      && (r.state == Failed ==> FailedAt(i, a, r.failedIn, r.error, refused))
    }

    /** A job that started as a in place i got to place k, with the results of the steps between. */
    predicate OnWay(i: nat, k: nat, a: JobRecord, r: JobRecord) {
      && i <= k < |PIPELINE| && Index(a.state) == i && r.state == PIPELINE[k]
      && Clear(i, k, a) && SameResults(r, AfterSteps(i, k, a))
    }

    lemma RoundPasses(i: nat, k: nat, a: JobRecord, now: JobRecord, next: JobRecord)
      requires OnWay(i, k, a, now) && Obstacle(now.state, now).None? && SameResults(next, AfterStep(now.state, now))
      requires Next(now.state) == Some(next.state)
      ensures OnWay(i, k + 1, a, next)
    {
      SameWay(PIPELINE[k], now, AfterSteps(i, k, a));
    }

    lemma RoundEnds(i: nat, k: nat, a: JobRecord, now: JobRecord, r: JobRecord, worked: bool, stepped: bool, refused: bool)
      requires OnWay(i, k, a, now) && !Terminal(now.state) && (stepped ==> worked)
      requires r.state == now.state || (r.state == Failed && worked)
      requires r.state == Failed ==> r.failedIn == now.state && Hinders(now.state, now, r.error, refused)
      ensures Ended(a, r, refused) && r.state != Done && k < Index(Done)
      ensures Reached(i, if worked then k + 1 else k, if stepped then k + 1 else k, r.state, r.failedIn)
    {
      IndexPositions(now.state);
      SameWay(PIPELINE[k], now, AfterSteps(i, k, a));
    }

    lemma {:induction false} SameSteps(i: nat, k: nat, a: JobRecord, b: JobRecord)
      requires k <= |PIPELINE| && SameResults(a, b)
      ensures Clear(i, k, a) == Clear(i, k, b) && SameResults(AfterSteps(i, k, a), AfterSteps(i, k, b))
    {
      if k > i {
        SameSteps(i, k - 1, a, b);
        SameWay(PIPELINE[k - 1], AfterSteps(i, k - 1, a), AfterSteps(i, k - 1, b));
      }
    }

    lemma SameEnd(a: JobRecord, b: JobRecord, r: JobRecord, refused: bool, more: bool)
      requires Index(a.state) >= 0 && a.state == b.state && SameResults(a, b) && Ended(b, r, refused) && (refused ==> more)
      ensures Ended(a, r, more)
    {
      var i := Index(a.state);
      if r.state == Done {
        SameSteps(i, Index(Done), a, b);
      } else if r.state == Failed {
        var k := Index(r.failedIn);
        SameSteps(i, k, a, b);
        SameWay(r.failedIn, AfterSteps(i, k, a), AfterSteps(i, k, b));
      }
    }

    /** A run that started with a ended with r: its job failed, or it was stopped
        with the job left where it was. */
    ghost predicate Over(a: JobRecord, r: JobRecord, stored: JobRecord, err: Option<Error>, done: bool, refused: bool)
      requires Index(a.state) >= 0
    {
      && Ended(a, r, refused) && r.state != Done && stored.state == r.state
      && (if err.None? then r.state == Failed else StoppedBy(err.value, done, refused))
      && (done <==> err == Some(ErrContext)) && (done ==> r.state != Failed)
      && (a.failedIn == NoState && a.error == "" ==> SameStanding(stored, r))
    }

    /** Unless the context is done, the work of j's state, the k-th, of a job
        that started as a in the i-th. */
    method Round(ctx: Context, j: Job, d: Disk, ghost i: nat, ghost k: nat, ghost a: JobRecord, ghost refusals: nat)
      returns (ends: bool, err: Option<Error>, ghost worked: bool, ghost stepped: bool)
      requires j.InStep(d) && !Terminal(j.state) && OnWay(i, k, a, j.Snapshot())
      requires refusals <= d.refusals && j.failedIn == a.failedIn && j.error == a.error
      modifies this`ran, this`notified, this`finished, ctx, j, d`job, d`users, d`part, d`raw, d`imports, d`history, d`refusals
      ensures d.Valid() && Progress(old(d.history), d.history) && old(d.refusals) <= d.refusals
      ensures !ends ==> j.InStep(d) && OnWay(i, k + 1, a, j.Snapshot()) && j.failedIn == a.failedIn && j.error == a.error
      ensures !ends ==> !ctx.done && stepped && j.state != Failed
      ensures ends ==> Over(a, j.Snapshot(), d.job, err, ctx.done, refusals < d.refusals)
      ensures ends ==> k < Index(Done) && Reached(i, if worked then k + 1 else k, if stepped then k + 1 else k, j.state, j.failedIn)
      ensures stepped ==> worked
      ensures finished == old(finished) + if j.state == Failed then [Failed] else []
      ensures notified == old(notified) + if worked then [PIPELINE[k]] else []
      ensures ran == old(ran) + if stepped && PIPELINE[k] in steps then [PIPELINE[k]] else []
    {
      ghost var now := j.Snapshot();
      IndexPositions(j.state);
      var cancelled := ctx.Err();
      if cancelled {
        RoundEnds(i, k, a, now, now, false, false, false);
        return true, Some(ErrContext), false, false;
      }
      worked := true;
      Notify(j);
      ends, err, stepped := Work(ctx, j, d);
      if ends {
        RoundEnds(i, k, a, now, j.Snapshot(), true, stepped, refusals < d.refusals);
      } else {
        RoundPasses(i, k, a, now, j.Snapshot());
      }
    }

    /** Nothing stands in a job's way in state s exactly if the hooks allow it to
        enter and to leave, and its step, if there is one, does what it is for. */
    lemma {:induction false} NoObstacleIf(s: State, a: JobRecord)
      ensures Obstacle(s, a).None? <==>
                && o.allows("state.enter", s) && o.allows("state.exit", s)
                && (s == Exporting && s in steps && hasSource && a.manifest.None? ==>
                      && o.exportReady && (twoPass ==> o.raw.Written?) && o.part.Written?
                      && o.allows("export.after", s) && o.renames)
                && (s == Validating && s in steps ==>
                      o.validation.Some? && o.allows("validate.after", s) && !o.validation.value.fail)
                && (s == Importing && s in steps ==>
                      && (a.report.None? ==> o.importReady && o.allows("import.before", s) && o.report.Some?)
                      && o.allows("import.after", s))
                && (s == Verifying && s in steps ==>
                      o.verification.Some? && o.allows("verify.after", s) && !o.verifyFails)
    {
    }

    /** What stops a job in state s is the first of a veto on entering it, the error of its step, and a veto on leaving it. */
    lemma {:induction false} FirstObstacle(s: State, a: JobRecord)
      ensures !o.allows("state.enter", s) ==> Obstacle(s, a) == Some("state.enter")
      ensures o.allows("state.enter", s) && s in steps && StepError(s, a).Some? ==> Obstacle(s, a) == Some(StepError(s, a).value.message)
      ensures o.allows("state.enter", s) && !(s in steps && StepError(s, a).Some?) && !o.allows("state.exit", s)
              ==> Obstacle(s, a) == Some("state.exit")
      ensures s == Verifying && o.verification.Some? && o.allows("verify.after", s) && o.verifyFails
              ==> StepError(s, a) == Some(ErrStep("verify failed"))
      ensures s == Validating && o.validation.Some? && o.allows("validate.after", s) && o.validation.value.fail
              ==> StepError(s, a) == Some(ErrStep("validate failed"))
    {
    }

    /** The way is clear exactly if it is in each state, as the job was at the start. */
    lemma {:induction false} ClearIsEach(i: nat, k: nat, a: JobRecord)
      requires k <= |PIPELINE|
      ensures Clear(i, k, a) <==> forall x :: i <= x < k ==> Obstacle(PIPELINE[x], a).None?
      ensures k <= Index(Exporting) ==> AfterSteps(i, k, a).manifest == a.manifest
      ensures k <= Index(Importing) ==> AfterSteps(i, k, a).report == a.report
    {
      if k > i {
        ClearIsEach(i, k - 1, a);
        IndexPositions(PIPELINE[k - 1]);
        NoObstacleIf(PIPELINE[k - 1], a);
        NoObstacleIf(PIPELINE[k - 1], AfterSteps(i, k - 1, a));
      }
    }

    /** What a job that got from place i to Done has of each step on its way. */
    lemma {:induction false} DoneJobsHaveResults(i: nat, a: JobRecord)
      requires i <= Index(Done) && Clear(i, Index(Done), a)
      ensures var r := AfterSteps(i, Index(Done), a);
              && r.manifest == (if i <= 1 && Exporting in steps && hasSource && a.manifest.None? then Some(o.manifest) else a.manifest)
              && (if i <= 2 && Validating in steps
                  then o.validation.Some? && r.problems == o.validation.value.problems && r.warnings == o.validation.value.warnings
                  else r.problems == a.problems && r.warnings == a.warnings)
              && r.report == (if i <= 3 && Importing in steps && a.report.None? then o.report else a.report)
              && r.diff == (if i <= 4 && Verifying in steps then o.verification else a.diff)
              && (i <= 1 && Exporting in steps && hasSource ==> r.manifest.Some?)
              && (i <= 3 && Importing in steps ==> r.report.Some?)
              && (i <= 4 && Verifying in steps ==> r.diff.Some?)
    {
      ResultsSoFar(i, Index(Done), a);
      ClearIsEach(i, Index(Done), a);
      if i <= 2 {
        NoObstacleIf(PIPELINE[2], a);
      }
      if i <= 3 {
        NoObstacleIf(PIPELINE[3], a);
      }
      if i <= 4 {
        NoObstacleIf(PIPELINE[4], a);
      }
    }

    lemma {:induction false} ResultsSoFar(i: nat, k: nat, a: JobRecord)
      requires k <= |PIPELINE|
      ensures var r := AfterSteps(i, k, a);
              && r.manifest == (if i <= 1 < k && Exporting in steps && hasSource && a.manifest.None? then Some(o.manifest) else a.manifest)
              && r.problems == (if i <= 2 < k && Validating in steps && o.validation.Some? then o.validation.value.problems else a.problems)
              && r.warnings == (if i <= 2 < k && Validating in steps && o.validation.Some? then o.validation.value.warnings else a.warnings)
              && r.report == (if i <= 3 < k && Importing in steps && a.report.None? then o.report else a.report)
              && r.diff == (if i <= 4 < k && Verifying in steps then o.verification else a.diff)
    {
      if k > i {
        ResultsSoFar(i, k - 1, a);
        IndexPositions(PIPELINE[k - 1]);
      }
    }

    /** The loop of a run: one round after the other, from the state j is in,
        until one ends the run or j is over. */
    method Rounds(ctx: Context, j: Job, d: Disk) returns (ends: bool, err: Option<Error>, ghost k: nat, ghost m: nat)
      requires j.InStep(d) && JobState.Valid(j.state) && !Terminal(j.state)
      modifies this`ran, this`notified, this`finished, ctx, j, d`job, d`users, d`part, d`raw, d`imports, d`history, d`refusals
      ensures d.Valid() && Progress(old(d.history), d.history) && old(d.refusals) <= d.refusals
      ensures ends ==> Over(old(j.Snapshot()), j.Snapshot(), d.job, err, ctx.done, old(d.refusals) < d.refusals)
      ensures !ends ==> j.InStep(d) && j.state == Done && j.failedIn == old(j.failedIn) && j.error == old(j.error)
      ensures !ends ==> !ctx.done && Ended(old(j.Snapshot()), j.Snapshot(), false)
      ensures 0 <= Index(old(j.state)) <= m <= k < |PIPELINE| && Reached(Index(old(j.state)), k, m, j.state, j.failedIn)
      ensures notified == Trace(old(notified), Index(old(j.state)), k, ALL_STATES)
      ensures ran == Trace(old(ran), Index(old(j.state)), m, steps)
      ensures finished == old(finished) + if j.state == Failed then [Failed] else []
    {
      ghost var i0, a := Index(j.state), j.Snapshot();
      k, m, ends, err := i0, i0, false, None;
      IndexPositions(j.state);
      while !ends && !Terminal(j.state)
        invariant d.Valid() && Progress(old(d.history), d.history) && old(d.refusals) <= d.refusals
        invariant !ends ==> j.InStep(d) && OnWay(i0, k, a, j.Snapshot()) && k == m && j.failedIn == a.failedIn && j.error == a.error
        invariant !ends ==> j.state != Failed && (j.state == a.state || !ctx.done)
        invariant ends ==> Over(a, j.Snapshot(), d.job, err, ctx.done, old(d.refusals) < d.refusals)
        invariant i0 <= m <= k < |PIPELINE| && (ends ==> Reached(i0, k, m, j.state, j.failedIn))
        invariant finished == old(finished) + if j.state == Failed then [Failed] else []
        invariant notified == Trace(old(notified), i0, k, ALL_STATES)
        invariant ran == Trace(old(ran), i0, m, steps)
        decreases if ends then 0 else 1, |PIPELINE| - k
      {
        ghost var worked, stepped;
        ends, err, worked, stepped := Round(ctx, j, d, i0, k, a, old(d.refusals));
        k, m := if worked then k + 1 else k, if stepped then m + 1 else m;
      }
    }

    /** The same for a whole run, which job.before_run may veto at its start. */
    predicate Carried(a: JobRecord, r: JobRecord, refused: bool)
      requires Index(a.state) >= 0
    {
      if o.allows("job.before_run", a.state) then Ended(a, r, refused)
      else r.state == a.state || (r.state == Failed && r.failedIn == a.state && r.error == "job.before_run")
    }

    /** Drives j, loaded in a working state, until it is over or can't be
        carried further. It worked on the k - start states from where it was,
        and got to the step of m - start of them. */
    method Drive(ctx: Context, j: Job, d: Disk) returns (err: Option<Error>, ghost k: nat, ghost m: nat)
      requires d.Valid() && j.Snapshot() == d.job && JobState.Valid(j.state) && !Terminal(j.state)
      modifies this`ran, this`notified, this`finished, ctx, j, d`job, d`users, d`part, d`raw, d`imports, d`history, d`refusals
      ensures d.Valid() && Progress(old(d.history), d.history) && old(d.refusals) <= d.refusals
      ensures err.None? ==> Terminal(j.state)
      ensures err.Some? ==> StoppedBy(err.value, ctx.done, old(d.refusals) < d.refusals)
      ensures j.state == d.job.state
      ensures (ctx.done <==> err == Some(ErrContext)) && (ctx.done ==> !Terminal(j.state))
      ensures old(j.failedIn) == NoState && old(j.error) == "" ==> SameStanding(d.job, j.Snapshot())
      ensures 0 <= Index(old(j.state)) <= m <= k < |PIPELINE| && Reached(Index(old(j.state)), k, m, j.state, j.failedIn)
      ensures notified == Trace(old(notified), Index(old(j.state)), k, ALL_STATES)
      ensures ran == Trace(old(ran), Index(old(j.state)), m, steps)
      ensures Carried(old(j.Snapshot()), j.Snapshot(), old(d.refusals) < d.refusals)
      ensures finished == old(finished) + if Terminal(j.state) then [j.state] else []
    {
      k, m := Index(j.state), Index(j.state);
      var begun;
      begun, err := Begin(ctx, j, d);
      if begun {
        ghost var b, refused := j.Snapshot(), d.refusals;
        err, k, m := Pursue(ctx, j, d);
        SameEnd(old(j.Snapshot()), b, j.Snapshot(), refused < d.refusals, old(d.refusals) < d.refusals);
      }
    }

    /** The rounds of a run, and the last event of a job they carried to its end. */
    method Pursue(ctx: Context, j: Job, d: Disk) returns (err: Option<Error>, ghost k: nat, ghost m: nat)
      requires j.InStep(d) && JobState.Valid(j.state) && !Terminal(j.state)
      modifies this`ran, this`notified, this`finished, ctx, j, d`job, d`users, d`part, d`raw, d`imports, d`history, d`refusals
      ensures d.Valid() && Progress(old(d.history), d.history) && old(d.refusals) <= d.refusals
      ensures err.None? ==> Terminal(j.state)
      ensures err.Some? ==> StoppedBy(err.value, ctx.done, old(d.refusals) < d.refusals)
      ensures j.state == d.job.state
      ensures (ctx.done <==> err == Some(ErrContext)) && (ctx.done ==> !Terminal(j.state))
      ensures old(j.failedIn) == NoState && old(j.error) == "" ==> SameStanding(d.job, j.Snapshot())
      ensures 0 <= Index(old(j.state)) <= m <= k < |PIPELINE| && Reached(Index(old(j.state)), k, m, j.state, j.failedIn)
      ensures notified == Trace(old(notified), Index(old(j.state)), k, ALL_STATES)
      ensures ran == Trace(old(ran), Index(old(j.state)), m, steps)
      ensures Ended(old(j.Snapshot()), j.Snapshot(), old(d.refusals) < d.refusals)
      ensures finished == old(finished) + if Terminal(j.state) then [j.state] else []
    {
      var ends;
      ends, err, k, m := Rounds(ctx, j, d);
      if !ends {
        err := Finish(j, d);
      }
    }

    /** A run of j, loaded from d, from its state to its end, if it is not over yet. */
    method Carry(ctx: Context, j: Job, d: Disk) returns (err: Option<Error>)
      requires d.Valid() && j.Snapshot() == d.job && JobState.Valid(j.state)
      modifies this`ran, this`notified, this`finished, ctx, j, d`job, d`users, d`part, d`raw, d`imports, d`history, d`refusals
      ensures d.Valid() && Progress(old(d.history), d.history) && old(d.refusals) <= d.refusals && j.state == d.job.state
      ensures !Terminal(old(d.job.state)) ==> (ctx.done <==> err == Some(ErrContext)) && (ctx.done ==> !Terminal(j.state))
      ensures Terminal(old(d.job.state)) ==> d.history == old(d.history) && ran == old(ran)
      ensures err.None? ==> Terminal(j.state)
      ensures err.Some? ==> StoppedBy(err.value, ctx.done, old(d.refusals) < d.refusals)
      ensures Staged(old(d.job)) ==> SameStanding(d.job, j.Snapshot())
      ensures !Terminal(old(d.job.state)) ==> Carried(old(d.job), j.Snapshot(), old(d.refusals) < d.refusals)
      ensures finished == old(finished) + if Terminal(j.state) && !Terminal(old(d.job.state)) then [j.state] else []
      ensures err.None? && j.state == Done && old(d.job.state) != Done
              ==> ran == Trace(old(ran), Index(old(d.job.state)), Index(Done), steps)
                  && notified == old(notified) + PIPELINE[Index(old(d.job.state))..]
      ensures ran == old(ran)
              || exists m :: 0 <= Index(old(d.job.state)) <= m < |PIPELINE| && ran == Trace(old(ran), Index(old(d.job.state)), m, steps)
    {
      ghost var start := j.state;
      IndexPositions(start);
      err := None;
      if !Terminal(j.state) {
        ghost var k, m;
        err, k, m := Drive(ctx, j, d);
        TraceThenDone(old(notified), Index(start));
      }
      if Terminal(j.state) {
        Notify(j);
      }
    }

    /** Run: carries the stored job on to its end, under the lock. */
    method Run(ctx: Context, loads: bool, d: Disk) returns (j: Job?, err: Option<Error>)
      requires d.Valid()
      modifies this`ran, this`notified, this`finished, ctx, d
      ensures d.Valid() && Progress(old(d.history), d.history) && old(d.refusals) <= d.refusals && Forwards(old(d.history), d.history)
      ensures j == null <==> old(d.locked) || !loads
      // Refused, or nothing to do: nothing changes.
      ensures old(d.locked) ==> err == Some(ErrLocked) && d.locked
      ensures !old(d.locked) ==> !d.locked
      ensures old(d.locked) || !JobState.Valid(old(d.job.state)) || Terminal(old(d.job.state)) || j == null
              ==> d.history == old(d.history) && ran == old(ran)
      ensures j == null ==> err.Some?
      // A step's error is the job's outcome, not the run's: only a lock, a load, an
      // unknown state, the context or the store ends it with an error.
      ensures err.Some? ==> StoppedBy(err.value, ctx.done, old(d.refusals) < d.refusals)
                            || (err.value == ErrLocked && old(d.locked)) || (err.value == ErrLoad && !loads)
                            || (err.value.ErrUnknownState? && !JobState.Valid(old(d.job.state)))
      // A done context leaves a working job to be resumed.
      ensures j != null && JobState.Valid(old(d.job.state)) && !Terminal(old(d.job.state))
              ==> (ctx.done <==> err == Some(ErrContext)) && (ctx.done ==> !Terminal(j.state))
      // No error means the job is over, and the caller sees it as it is stored.
      ensures err.None? ==> Terminal(j.state)
      ensures j != null ==> j.state == d.job.state
      ensures j != null && Staged(old(d.job)) ==> SameStanding(d.job, j.Snapshot())
      // Nothing stood in the way of a job that got done, and the first obstacle failed one that failed.
      ensures j != null && JobState.Valid(old(d.job.state)) && !Terminal(old(d.job.state))
              ==> Carried(old(d.job), j.Snapshot(), old(d.refusals) < d.refusals)
                  && finished == old(finished) + if Terminal(j.state) then [j.state] else []
      // The states are worked on in order, each at most once.
      ensures j != null && err.None? && j.state == Done && old(d.job.state) != Done
              ==> ran == Trace(old(ran), Index(old(d.job.state)), Index(Done), steps)
                  && notified == old(notified) + PIPELINE[Index(old(d.job.state))..]
      ensures ran == old(ran)
              || exists m :: 0 <= Index(old(d.job.state)) <= m < |PIPELINE| && ran == Trace(old(ran), Index(old(d.job.state)), m, steps)
    {
      var ok := d.Lock();
      if !ok {
        return null, Some(ErrLocked);
      }
      if !loads {
        d.Unlock();
        return null, Some(ErrLoad);
      }
      j := new Job.Load(d.job);
      if !JobState.Valid(j.state) {
        d.Unlock();
        return j, Some(ErrUnknownState(j.state));
      }
      err := Carry(ctx, j, d);
      d.Unlock();
      ProgressIsForwards(old(d.history), d.history);
    }

    /** Rewinds j, loaded from d, in one save. */
    method Reset(to: State, j: Job, d: Disk) returns (ok: bool)
      requires d.Valid() && j.Snapshot() == d.job && RetryAccepts(d.job, to)
      modifies j, d`job, d`history, d`refusals
      ensures d.Valid()
      ensures ok ==> j.Snapshot() == d.job == Rewound(old(d.job), to)
      ensures ok ==> d.history == old(d.history) + [d.Now()] && RetryStep(old(d.Now()), d.Now())
      ensures WorldOK(old(d.Now())) ==> WorldOK(d.Now())
      ensures !ok ==> d.job == old(d.job) && d.history == old(d.history) && old(d.refusals) < d.refusals
    {
      j.Rewind(to);
      RewoundKeepsWorlds(d.Now(), to);
      ok := d.Save(j.Snapshot());
    }

    /** Retry: the stored job is rewound in one save, or left alone. */
    method Retry(from: State, loads: bool, d: Disk) returns (j: Job?, err: Option<Error>)
      requires d.Valid()
      modifies d
      ensures d.Valid() && d.locked == old(d.locked)
      ensures old(d.locked) ==> err == Some(ErrLocked)
      ensures err.None? ==> d.history == old(d.history) + [d.Now()] && RetryStep(old(d.Now()), d.Now())
      ensures WorldOK(old(d.Now())) ==> WorldOK(d.Now())
      ensures err.Some? ==> d.job == old(d.job) && d.history == old(d.history)
      ensures var to := if from == NoState then old(d.job.failedIn) else from;
              && (err.None? ==> RetryAccepts(old(d.job), to) && d.job == Rewound(old(d.job), to))
              && (err.None? ==> j != null && j.Snapshot() == d.job)
              && (err.Some? && err.value.ErrTransition? ==> !RetryAccepts(old(d.job), to) && old(d.job.state) == Failed)
              && (err.Some? && err.value.ErrNotFailed? ==> !exists s :: RetryAccepts(old(d.job), s))
              && (RetryAccepts(old(d.job), to) && err.Some? ==>
                    || (err.value == ErrLocked && old(d.locked))
                    || (err.value == ErrLoad && !loads)
                    || (err.value == ErrStore && old(d.refusals) < d.refusals))
    {
      var ok := d.Lock();
      if !ok {
        return null, Some(ErrLocked);
      }
      if !loads {
        d.Unlock();
        return null, Some(ErrLoad);
      }
      j := new Job.Load(d.job);
      if j.state != Failed || !JobState.Valid(j.failedIn) || j.failedIn == Failed {
        d.Unlock();
        return j, Some(ErrNotFailed(j.state));
      }
      var to := if from == NoState then j.failedIn else from;
      if to == Queued || Index(to) < 0 || Index(to) > Index(j.failedIn) {
        d.Unlock();
        return j, Some(ErrTransition(j.failedIn, to));
      }
      ok := Reset(to, j, d);
      d.Unlock();
      if !ok {
        return null, Some(ErrStore);
      }
      return j, None;
    }
  }
}
