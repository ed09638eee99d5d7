/** Any number of processes running, retrying and crashing over one stored job.

    A save is the two steps of the file store: a temporary file is written,
    then renamed over the job's file. The temporary file has one name, shared by
    every process, so only the lock keeps two saves from mixing. */
module JobLock {

  import opened JobWorld
  import opened Options

  /** A file holding a version of the job, or none: missing, or cut off by a crash. */
  datatype JobFile = Whole(version: JobRecord) | Torn

  /** What one process is doing, and the world as it last saw or left it. */
  datatype Process =
    | Claimed
    | Working(base: World)
    | Writing(base: World, next: JobRecord)
    | Written(base: World, next: JobRecord)

  datatype System = System(
    file: JobFile,
    tmp: JobFile,
    disk: World,                 // the other files; its job field is not used
    holder: Option<nat>,
    active: map<nat, Process>,   // the processes inside Run or Retry
    log: seq<World>)             // every durable world so far

  datatype Action =
    | Refuse(p: nat)                 // Lock returns ErrLocked
    | Claim(p: nat)
    | Load(p: nat)
    | BeginSave(p: nat, r: JobRecord)
    | EndWrite(p: nat)
    | Replace(p: nat)
    | FailSave(p: nat)
    | Touch(p: nat, w: World)        // a durable step other than a save
    | Release(p: nat)
    | Crash(p: nat)

  ghost function Stored(s: System): World
    requires s.file.Whole?
  {
    s.disk.(job := s.file.version)
  }

  ghost predicate Enabled(s: System, a: Action) {
    match a
    case Refuse(p) => p !in s.active && s.holder.Some?
    case Claim(p) => p !in s.active && s.holder.None?
    case Load(p) => p in s.active && s.active[p].Claimed? && s.file.Whole?
    case BeginSave(p, r) => p in s.active && s.active[p].Working? && SaveStep(s.active[p].base, s.active[p].base.(job := r))
    case EndWrite(p) => p in s.active && s.active[p].Writing?
    case Replace(p) => p in s.active && s.active[p].Written?
    case FailSave(p) => p in s.active && (s.active[p].Writing? || s.active[p].Written?)
    case Touch(p, w) => p in s.active && s.active[p].Working? && DurableStep(s.active[p].base, w) && w.job == s.active[p].base.job
    case Release(p) => p in s.active && (s.active[p].Claimed? || s.active[p].Working?)
    case Crash(p) => p in s.active
  }

  ghost function Leave(s: System, p: nat): System {
    s.(active := s.active - {p}, holder := if s.holder == Some(p) then None else s.holder)
  }

  ghost function Apply(s: System, a: Action): System
    requires Enabled(s, a)
  {
    match a
    case Refuse(p) => s
    case Claim(p) => s.(holder := Some(p), active := s.active[p := Claimed])
    case Load(p) => s.(active := s.active[p := Working(Stored(s))])
    case BeginSave(p, r) => s.(tmp := Torn, active := s.active[p := Writing(s.active[p].base, r)])
    case EndWrite(p) =>
      s.(tmp := Whole(s.active[p].next), active := s.active[p := Written(s.active[p].base, s.active[p].next)])
    case Replace(p) =>
      var w := s.active[p].base.(job := s.active[p].next);
      s.(file := s.tmp, tmp := Torn, active := s.active[p := Working(w)],
         log := if s.tmp.Whole? then s.log + [s.disk.(job := s.tmp.version)] else s.log)
    case FailSave(p) => s.(active := s.active[p := Working(s.active[p].base)])
    case Touch(p, w) =>
      s.(disk := w, active := s.active[p := Working(w)],
         log := if s.file.Whole? then s.log + [w.(job := s.file.version)] else s.log)
    case Release(p) => Leave(s, p)
    case Crash(p) => Leave(s, p)
  }

  ghost predicate Init(s: System, w: World) {
    w.job == NEW_JOB && s == System(Whole(NEW_JOB), Torn, w, None, map[], [w])
  }

  ghost predicate Behaviour(w: World, ss: seq<System>, acts: seq<Action>) {
    && |ss| == |acts| + 1
    && Init(ss[0], w)
    && forall i {:trigger acts[i]} :: 0 <= i < |acts| ==> Enabled(ss[i], acts[i]) && ss[i + 1] == Apply(ss[i], acts[i])
  }

  ghost predicate InStep(s: System, pr: Process)
    requires s.file.Whole?
  {
    match pr
    case Claimed => true
    case Working(base) => base == Stored(s)
    case Writing(base, next) => base == Stored(s) && SaveStep(base, base.(job := next))
    case Written(base, next) => base == Stored(s) && SaveStep(base, base.(job := next)) && s.tmp == Whole(next)
  }

  /** The lock's promise, and what it buys: the active process knows the stored world exactly. */
  ghost predicate Inv(s: System) {
    && s.file.Whole?
    && |s.log| > 0 && s.log[|s.log| - 1] == Stored(s)
    && Chain(s.log)
    && (s.holder.Some? ==> s.holder.value in s.active)
    && forall p :: p in s.active ==> s.holder == Some(p) && InStep(s, s.active[p])
  }

  lemma LogGrows(log: seq<World>, w: World)
    requires |log| > 0 && Chain(log) && DurableStep(log[|log| - 1], w)
    ensures Chain(log + [w])
  {
    var more := log + [w];
    forall i | 0 <= i < |more| - 1
      ensures DurableStep(more[i], more[i + 1])
    {
      if i < |log| - 1 {
        assert more[i] == log[i] && more[i + 1] == log[i + 1];
      }
    }
  }

  lemma StepKeepsInv(s: System, a: Action)
    requires Inv(s) && Enabled(s, a)
    ensures Inv(Apply(s, a))
  {
    var t := Apply(s, a);
    match a
    case Replace(p) =>
      LogGrows(s.log, Stored(t));
    case Touch(p, w) =>
      LogGrows(s.log, w);
    case _ =>
  }

  lemma {:induction false} BehavioursKeepInv(w: World, ss: seq<System>, acts: seq<Action>, i: nat)
    requires Behaviour(w, ss, acts) && i < |ss|
    ensures Inv(ss[i]) && ss[i].log[0] == w
  {
    if i > 0 {
      BehavioursKeepInv(w, ss, acts, i - 1);
      StepKeepsInv(ss[i - 1], acts[i - 1]);
    }
  }

  /** However the processes interleave and crash, at most one is past the
      lock, and the stored job is whole, in stages, beside the export its
      manifest describes. */
  lemma AtMostOneProcessAndSoundJob(w: World, ss: seq<System>, acts: seq<Action>, i: nat)
    requires Behaviour(w, ss, acts) && i < |ss|
    ensures forall p, q :: p in ss[i].active && q in ss[i].active ==> p == q
    ensures ss[i].file.Whole? && WorldOK(Stored(ss[i]))
  {
    BehavioursKeepInv(w, ss, acts, i);
    EveryWorldIsOK(ss[i].log, |ss[i].log| - 1);
  }

  function Actor(a: Action): nat {
    match a
    case Refuse(p) => p
    case Claim(p) => p
    case Load(p) => p
    case BeginSave(p, _) => p
    case EndWrite(p) => p
    case Replace(p) => p
    case FailSave(p) => p
    case Touch(p, _) => p
    case Release(p) => p
    case Crash(p) => p
  }

  /** The stored world changes only in a step of the lock's holder, by a
      durable step from the version stored just before: no save is lost or
      based on a stale version, and a refused call changes nothing. */
  lemma OnlyTheHolderChangesTheJob(w: World, ss: seq<System>, acts: seq<Action>, i: nat)
    requires Behaviour(w, ss, acts) && i < |acts|
    ensures ss[i].file.Whole? && ss[i + 1].file.Whole?
    ensures Stored(ss[i + 1]) != Stored(ss[i])
            ==> ss[i].holder == Some(Actor(acts[i])) && DurableStep(Stored(ss[i]), Stored(ss[i + 1]))
    ensures acts[i].Refuse? ==> ss[i + 1] == ss[i] && exists p :: p in ss[i].active && p != Actor(acts[i])
  {
    BehavioursKeepInv(w, ss, acts, i);
    BehavioursKeepInv(w, ss, acts, i + 1);
  }

  /** A crash at any point leaves the stored version whole, and a job that can be claimed and loaded. */
  lemma CrashLeavesTheJobUsable(w: World, ss: seq<System>, acts: seq<Action>, i: nat, q: nat)
    requires Behaviour(w, ss, acts) && i < |acts| && acts[i].Crash?
    ensures ss[i].file.Whole? && ss[i + 1].file == ss[i].file
    ensures Enabled(ss[i + 1], Claim(q)) && Enabled(Apply(ss[i + 1], Claim(q)), Load(q))
  {
    BehavioursKeepInv(w, ss, acts, i);
    BehavioursKeepInv(w, ss, acts, i + 1);
    assert ss[i].holder == Some(acts[i].p);
    assert ss[i + 1].active.Keys == {};
  }
}
