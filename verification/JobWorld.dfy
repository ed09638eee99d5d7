/** What a migration job leaves behind on disk and at the target, the durable
    steps its operations take, and what holds in every world those steps reach.

    A crash can strike between any two durable steps, so a fact about every
    world of a chain of steps is a fact about every crash. */
module JobWorld {

  import opened JobState
  import opened Options
  import opened Reports

  datatype HookResult = HookResult(hook: string, state: State, outcome: string)

  /** One stored version of a job. */
  datatype JobRecord = JobRecord(
    state: State,
    failedIn: State,
    error: string,
    manifest: Option<Manifest>,
    problems: seq<Problem>,
    warnings: seq<Problem>,
    report: Option<ImportReport>,
    diff: Option<DiffReport>,
    hooks: seq<HookResult>,
    hooksFingerprint: string,
    chunks: map<nat, Checkpoint>)

  const NEW_JOB := JobRecord(Queued, NoState, "", None, [], [], None, None, [], "", map[])

  /** A users file: a finished export is named by the manifest that describes it. */
  datatype File = Absent | Partial | Complete(of: Manifest)

  datatype World = World(
    job: JobRecord,
    users: File,     // the export in place, which the later steps read
    part: File,      // the export written aside
    raw: File,       // the first pass of an export rewritten in a second one
    imports: nat)    // how often the target was asked to import

  /** The stage a job is in: its state's, or that of its failure. */
  function Stage(r: JobRecord): int {
    Index(if r.state == Failed then r.failedIn else r.state)
  }

  /** What working on the stored state may change, in memory or on disk. */
  ghost predicate Worked(w: World, r: JobRecord) {
    var a := w.job;
    && (r.manifest == a.manifest
        || (a.state == Exporting && a.manifest.None? && r.manifest.Some? && w.users == Complete(r.manifest.value)))
    && (a.state != Validating ==> r.problems == a.problems && r.warnings == a.warnings)
    && (r.report == a.report || (a.state == Importing && a.report.None?))
    && (a.state != Importing ==> r.chunks == a.chunks)
    && (a.state != Verifying ==> r.diff == a.diff)
    && a.hooks <= r.hooks
    && forall h :: h in r.hooks[|a.hooks|..] ==> h.state == a.state
  }

  ghost predicate SameStanding(a: JobRecord, r: JobRecord) {
    r.state == a.state && r.failedIn == a.failedIn && r.error == a.error
  }

  /** A save by Run: progress on the state, a legal move out of it, or the hooks of a finished job. */
  ghost predicate RunSave(w: World, r: JobRecord) {
    var a := w.job;
    && Valid(a.state)
    && Worked(w, r)
    && (|| SameStanding(a, r)
        || (CanTransition(a.state, r.state)
            && (if r.state == Failed then r.failedIn == a.state else r.failedIn == a.failedIn && r.error == a.error)))
  }

  predicate RetryAccepts(a: JobRecord, from: State) {
    && a.state == Failed && Valid(a.failedIn) && a.failedIn != Failed
    && from != Queued && 0 <= Index(from) <= Index(a.failedIn)
  }

  function HooksBefore(hooks: seq<HookResult>, from: State): seq<HookResult> {
    if hooks == [] then []
    else
      var last := hooks[|hooks| - 1];
      HooksBefore(hooks[..|hooks| - 1], from) + (if 0 <= Index(last.state) < Index(from) then [last] else [])
  }

  /** Whether a retry from a state drops what another state left. */
  predicate Discards(failedIn: State, from: State, results: State) {
    from != failedIn && Index(from) <= Index(results)
  }

  /** The job put back in from, without the results of from and of later states. */
  function Rewound(a: JobRecord, from: State): JobRecord {
    JobRecord(
      from, NoState, "",
      if Discards(a.failedIn, from, Exporting) then None else a.manifest,
      if Discards(a.failedIn, from, Validating) then [] else a.problems,
      if Discards(a.failedIn, from, Validating) then [] else a.warnings,
      if Discards(a.failedIn, from, Importing) then None else a.report,
      if Discards(a.failedIn, from, Verifying) then None else a.diff,
      if from != a.failedIn then HooksBefore(a.hooks, from) else a.hooks,
      a.hooksFingerprint,
      if Discards(a.failedIn, from, Importing) then map[] else a.chunks)
  }

  ghost predicate RetrySave(a: JobRecord, r: JobRecord) {
    exists from :: RetryAccepts(a, from) && r == Rewound(a, from)
  }

  /** An export in progress: no manifest is stored yet. */
  ghost predicate ExportOpen(w: World) {
    w.job.state == Exporting && w.job.manifest.None?
  }

  ghost predicate RunSaveStep(w: World, w': World) {
    w' == w.(job := w'.job) && RunSave(w, w'.job)
  }

  ghost predicate RetryStep(w: World, w': World) {
    w' == w.(job := w'.job) && RetrySave(w.job, w'.job)
  }

  ghost predicate SaveStep(w: World, w': World) {
    RunSaveStep(w, w') || RetryStep(w, w')
  }

  ghost predicate WriteStep(w: World, w': World) {
    w' == w.(part := w'.part, raw := w'.raw) && ExportOpen(w)
  }

  ghost predicate RenameStep(w: World, w': World) {
    w' == w.(users := w.part, part := Absent) && w.part.Complete? && ExportOpen(w)
  }

  ghost predicate ImportStep(w: World, w': World) {
    w' == w.(imports := w.imports + 1) && w.job.state == Importing && w.job.report.None?
  }

  /** The durable steps of a run. */
  ghost predicate WorkStep(w: World, w': World) {
    RunSaveStep(w, w') || WriteStep(w, w') || RenameStep(w, w') || ImportStep(w, w')
  }

  ghost predicate DurableStep(w: World, w': World) {
    WorkStep(w, w') || RetryStep(w, w')
  }

  ghost predicate Chain(ws: seq<World>) {
    forall i :: 0 <= i < |ws| - 1 ==> DurableStep(ws[i], ws[i + 1])
  }

  /** No results of a later stage, and a failure recorded exactly on a failed job. */
  ghost predicate Staged(r: JobRecord) {
    var k := Stage(r);
    && Valid(r.state)
    && (r.state == Failed ==> 0 <= k < Index(Done))
    && (r.state != Failed ==> r.failedIn == NoState && r.error == "")
    && (r.manifest.Some? ==> k >= Index(Exporting))
    && (r.problems != [] || r.warnings != [] ==> k >= Index(Validating))
    && (r.report.Some? || r.chunks != map[] ==> k >= Index(Importing))
    && (r.diff.Some? ==> k >= Index(Verifying))
    && forall h :: h in r.hooks ==> h.state == Failed || 0 <= Index(h.state) <= k
  }

  /** A stored manifest describes the users file. */
  ghost predicate ExportIntact(w: World) {
    w.job.manifest.Some? ==> w.users == Complete(w.job.manifest.value)
  }

  ghost predicate WorldOK(w: World) {
    Staged(w.job) && ExportIntact(w)
  }

  lemma {:induction false} HooksBeforeAreEarlier(hooks: seq<HookResult>, from: State)
    ensures forall h :: h in HooksBefore(hooks, from) <==> h in hooks && 0 <= Index(h.state) < Index(from)
  {
    if hooks != [] {
      HooksBeforeAreEarlier(hooks[..|hooks| - 1], from);
    }
  }

  /** And each comes after those kept before it. */
  lemma {:induction false} HooksBeforeStayInOrder(hooks: seq<HookResult>, from: State, i: nat)
    requires i < |hooks| && 0 <= Index(hooks[i].state) < Index(from)
    ensures |HooksBefore(hooks[..i], from)| < |HooksBefore(hooks, from)|
    ensures HooksBefore(hooks, from)[|HooksBefore(hooks[..i], from)|] == hooks[i]
  {
    var n := |hooks| - 1;
    if i < n {
      HooksBeforeStayInOrder(hooks[..n], from, i);
      assert hooks[..n][..i] == hooks[..i];
    }
  }

  lemma RunSaveKeepsStages(w: World, r: JobRecord)
    requires Staged(w.job) && RunSave(w, r)
    ensures Staged(r)
  {
    var a := w.job;
    IndexPositions(a.state);
    CanTransitionIsOneForwardOrFailure(a.state, r.state);
    IndexPositions(r.state);
    forall h | h in r.hooks
      ensures h.state == Failed || 0 <= Index(h.state) <= Stage(r)
    {
      assert r.hooks == a.hooks + r.hooks[|a.hooks|..];
    }
  }

  lemma RewoundKeepsStages(a: JobRecord, from: State)
    requires Staged(a) && RetryAccepts(a, from)
    ensures Staged(Rewound(a, from))
  {
    IndexPositions(from);
    IndexPositions(a.failedIn);
    HooksBeforeAreEarlier(a.hooks, from);
  }

  lemma StepKeepsWorld(w: World, w': World)
    requires WorldOK(w) && DurableStep(w, w')
    ensures WorldOK(w')
  {
    if RunSaveStep(w, w') {
      RunSaveKeepsStages(w, w'.job);
    } else if RetryStep(w, w') {
      var from :| RetryAccepts(w.job, from) && w'.job == Rewound(w.job, from);
      RewoundKeepsStages(w.job, from);
    }
  }

  /** In every world of every sequence of runs, retries and crashes, no stored
      result is of a later stage than the job, and a stored manifest means a
      complete export of exactly that manifest. A new job's world is such a
      one, whatever files it was created beside. */
  lemma {:induction false} EveryWorldIsOK(ws: seq<World>, i: nat)
    requires i < |ws| && Chain(ws) && WorldOK(ws[0])
    ensures WorldOK(ws[i])
  {
    if i > 0 {
      EveryWorldIsOK(ws, i - 1);
      StepKeepsWorld(ws[i - 1], ws[i]);
    }
  }

  /** No step cuts a users file short: only a complete export is put in place. */
  lemma {:induction false} UsersFileStaysWhole(ws: seq<World>, i: nat)
    requires i < |ws| && Chain(ws)
    ensures ws[i].users == ws[0].users || ws[i].users.Complete?
  {
    if i > 0 {
      UsersFileStaysWhole(ws, i - 1);
      assert DurableStep(ws[i - 1], ws[i]);
    }
  }

  /** A crash leaves any world of a call's chain, and the next call's chain goes
      on from there: the whole is a chain again. */
  lemma CrashAndResume(ws: seq<World>, k: nat, more: seq<World>)
    requires k < |ws| && Chain(ws) && |more| > 0 && Chain(more) && more[0] == ws[k]
    ensures Chain(ws[..k] + more)
  {
    var all := ws[..k] + more;
    forall i | 0 <= i < |all| - 1
      ensures DurableStep(all[i], all[i + 1])
    {
      if i < k {
        assert all[i] == ws[i] && all[i + 1] == ws[i + 1];
      } else {
        assert all[i] == more[i - k] && all[i + 1] == more[i + 1 - k];
      }
    }
  }

  /** So results stay in stages, and the export intact, across crashes. */
  lemma CrashedRunsStayOK(ws: seq<World>, k: nat, more: seq<World>, i: nat)
    requires k < |ws| && Chain(ws) && |more| > 0 && Chain(more) && more[0] == ws[k]
    requires WorldOK(ws[0]) && i < |more|
    ensures WorldOK(more[i])
  {
    CrashAndResume(ws, k, more);
    var all := ws[..k] + more;
    assert all[0] == ws[0];
    EveryWorldIsOK(all, k + i);
  }

  /** What a step of a run does to the stored state and report: an allowed
      move at most, and with a report stored no import and no other report. */
  ghost predicate Forward(w: World, w': World) {
    && (w'.job.state == w.job.state || CanTransition(w.job.state, w'.job.state))
    && (w.job.report.Some? ==> w'.job.report == w.job.report && w'.imports == w.imports)
  }

  /** A retry's step is never one of a run, and of all steps exactly the runs' are forward. */
  lemma WorkStepsAreForward(w: World, w': World)
    requires DurableStep(w, w')
    ensures WorkStep(w, w') <==> Forward(w, w')
    ensures WorkStep(w, w') <==> !RetryStep(w, w')
  {
    if RetryStep(w, w') {
      var from :| RetryAccepts(w.job, from) && w'.job == Rewound(w.job, from);
      assert w.job.state == Failed != w'.job.state;
    }
  }

  /** Once a report is stored, the target is not asked to import again and the
      report stays as it is, until a retry goes back to importing or before. */
  lemma {:induction false} StoredReportStopsImports(ws: seq<World>, i: nat, j: nat)
    requires i <= j < |ws| && Chain(ws)
    requires ws[i].job.report.Some?
    requires forall k :: i <= k < j ==> !(RetryStep(ws[k], ws[k + 1]) && ws[k + 1].job.report.None?)
    ensures ws[j].job.report == ws[i].job.report && ws[j].imports == ws[i].imports
    decreases j - i
  {
    if i < j {
      StoredReportStopsImports(ws, i, j - 1);
      WorkStepsAreForward(ws[j - 1], ws[j]);
      if RetryStep(ws[j - 1], ws[j]) {
        assert ws[j].job.report == ws[j - 1].job.report;
      }
    }
  }

  /** The stored states follow CanTransition in exactly the steps that are no retry. */
  lemma StoredStatesFollowTransitions(ws: seq<World>, i: nat)
    requires i + 1 < |ws| && Chain(ws)
    ensures RetryStep(ws[i], ws[i + 1]) || ws[i + 1].job.state == ws[i].job.state
            || CanTransition(ws[i].job.state, ws[i + 1].job.state)
    ensures RetryStep(ws[i], ws[i + 1]) ==> ws[i].job.state == Failed && ws[i + 1].job.state in PIPELINE
    ensures ws[i].job.state == Done ==> ws[i + 1].job.state == Done
  {
    WorkStepsAreForward(ws[i], ws[i + 1]);
    IndexPositions(ws[i + 1].job.state);
  }

  /** A job that failed before its first step can never be retried, whatever state is asked for. */
  lemma FailedInQueuedIsStuck(a: JobRecord)
    requires a.state == Failed && Valid(a.failedIn) && a.failedIn != Failed
    ensures (exists s :: RetryAccepts(a, s)) <==> a.failedIn != Queued
    ensures RetryAccepts(a, a.failedIn) <==> a.failedIn != Queued
  {
    IndexPositions(a.failedIn);
    if a.failedIn == Queued {
      forall s ensures !RetryAccepts(a, s) {
        IndexPositions(s);
      }
    } else {
      assert RetryAccepts(a, a.failedIn);
    }
  }

  /** And a new job can get there: any failure before its first move leaves it so. */
  lemma NewJobsCanGetStuck(w: World, cause: string)
    requires w.job == NEW_JOB
    ensures var a := NEW_JOB.(state := Failed, failedIn := Queued, error := cause);
            WorkStep(w, w.(job := a)) && !exists s :: RetryAccepts(a, s)
  {
    var a := NEW_JOB.(state := Failed, failedIn := Queued, error := cause);
    assert RunSave(w, a);
    FailedInQueuedIsStuck(a);
  }

  /** A retry of the state a job failed in keeps every result; one of an
      earlier state keeps the results of the states before it and only those. */
  lemma RewoundKeepsExactlyEarlierResults(a: JobRecord, from: State)
    requires Staged(a) && RetryAccepts(a, from)
    ensures var b := Rewound(a, from);
            && b.state == from
            && (from == a.failedIn ==> b == a.(state := from, failedIn := NoState, error := ""))
            && (from != a.failedIn ==>
                  && b.manifest == (if Index(from) > Index(Exporting) then a.manifest else None)
                  && b.problems == (if Index(from) > Index(Validating) then a.problems else [])
                  && b.warnings == (if Index(from) > Index(Validating) then a.warnings else [])
                  && b.report == (if Index(from) > Index(Importing) then a.report else None)
                  && b.chunks == (if Index(from) > Index(Importing) then a.chunks else map[])
                  && b.diff == None
                  && forall h :: h in b.hooks <==> h in a.hooks && 0 <= Index(h.state) < Index(from))
  {
    IndexPositions(from);
    IndexPositions(a.failedIn);
    HooksBeforeAreEarlier(a.hooks, from);
  }
}
