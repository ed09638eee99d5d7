/** Verifying an import: looking users up in the target, a batch at a time,
    and reporting what differs. */
module Reconcile {

  import opened Delegation
  import opened Options
  import opened Reports
  import opened Sequences

  datatype User = User(sourceID: string, rest: nat)

  /** How to find a user: by target ID, else by identifier, else the connector's own way. */
  datatype Lookup = Lookup(targetID: string, identifier: string)

  datatype Found = Found(noIdentifier: bool, missing: bool, drift: seq<string>)

  /** The run's options, the connector's check, which may fail, and the handlers of the strategies. */
  datatype Settings = Settings(
    targetIDs: map<string, string>,
    byTargetID: bool,
    notImported: set<string>,
    primary: User -> User,
    check: (User, Lookup) -> Option<Found>,
    lookup: seq<User> -> Handled<map<string, Lookup>>,
    compare: (seq<User>, seq<Found>) -> Handled<map<string, seq<string>>>)

  function BuiltinLookup(o: Settings, u: User): Lookup {
    Lookup(if o.byTargetID && u.sourceID in o.targetIDs then o.targetIDs[u.sourceID] else "", "")
  }

  function Lookups(o: Settings, batch: seq<User>): (ls: Option<seq<Lookup>>)
    ensures ls.Some? ==> |ls.value| == |batch|
  {
    match o.lookup(batch)
    case HandlerFailed => None
    case Ignored => Some(seq(|batch|, i requires 0 <= i < |batch| => BuiltinLookup(o, batch[i])))
    case Answered(answers) =>
      if forall i :: 0 <= i < |batch| ==> batch[i].sourceID in answers
      then Some(seq(|batch|, i requires 0 <= i < |batch| => answers[batch[i].sourceID])) else None
  }

  function Checked(o: Settings, batch: seq<User>, ls: seq<Lookup>): (fs: Option<seq<Found>>)
    requires |ls| == |batch|
    ensures fs.Some? ==> |fs.value| == |batch|
    decreases |batch|
  {
    if batch == [] then Some([])
    else
      var n := |batch| - 1;
      var before, last := Checked(o, batch[..n], ls[..n]), o.check(batch[n], ls[n]);
      if before.Some? && last.Some? then Some(before.value + [last.value]) else None
  }

  predicate IsFound(f: Found) {
    !f.noIdentifier && !f.missing
  }

  /** The answer for a source ID is for the last user found under it. */
  predicate TakesAnswer(batch: seq<User>, fs: seq<Found>, i: nat)
    requires i < |batch| == |fs|
  {
    IsFound(fs[i]) && forall j :: i < j < |batch| && IsFound(fs[j]) ==> batch[j].sourceID != batch[i].sourceID
  }

  function Compared(o: Settings, batch: seq<User>, fs: seq<Found>): (out: Option<seq<Found>>)
    requires |fs| == |batch|
    ensures out.Some? ==> |out.value| == |batch|
  {
    match o.compare(batch, fs)
    case HandlerFailed => None
    case Ignored => Some(fs)
    case Answered(answers) =>
      Some(seq(|batch|, i requires 0 <= i < |batch| =>
        if TakesAnswer(batch, fs, i) && batch[i].sourceID in answers then fs[i].(drift := answers[batch[i].sourceID]) else fs[i]))
  }

  function Add(r: DiffReport, u: User, f: Found): DiffReport {
    var counted := r.(sourceCount := r.sourceCount + 1);
    if f.noIdentifier then counted.(noIdentifier := r.noIdentifier + [u.sourceID])
    else if f.missing then counted.(missingInTarget := r.missingInTarget + [u.sourceID])
    else counted.(targetCount := r.targetCount + 1,
                  attributeDrift := r.attributeDrift + (if f.drift == [] then [] else [DriftEntry(u.sourceID, f.drift)]))
  }

  function AddAll(r: DiffReport, batch: seq<User>, fs: seq<Found>): DiffReport
    requires |fs| == |batch|
    decreases |batch|
  {
    if batch == [] then r
    else
      var n := |batch| - 1;
      Add(AddAll(r, batch[..n], fs[..n]), batch[n], fs[n])
  }

  /** The report once a batch is looked up, checked and compared. */
  function Flushed(o: Settings, r: DiffReport, batch: seq<User>): Option<DiffReport> {
    match Lookups(o, batch)
    case None => None
    case Some(ls) =>
      match Checked(o, batch, ls)
      case None => None
      case Some(fs) =>
        match Compared(o, batch, fs)
        case None => None
        case Some(compared) => Some(AddAll(r, batch, compared))
  }

  function Skip(r: DiffReport, u: User): DiffReport {
    r.(skipped := r.skipped + [u.sourceID])
  }

  /** The report and the batch gathered after reading some users. */
  datatype Progress = Progress(report: DiffReport, batch: seq<User>)

  function Step(o: Settings, size: nat, p: Progress, read: User): Option<Progress> {
    var u := o.primary(read);
    if u.sourceID in o.notImported then Some(p.(report := Skip(p.report, u)))
    else
      var batch := p.batch + [u];
      if |batch| != size then Some(p.(batch := batch))
      else
        match Flushed(o, p.report, batch)
        case None => None
        case Some(r) => Some(Progress(r, []))
  }

  function After(o: Settings, size: nat, users: seq<User>): Option<Progress> {
    if users == [] then Some(Progress(EMPTY_DIFF, []))
    else
      match After(o, size, users[..|users| - 1])
      case None => None
      case Some(p) => Step(o, size, p, users[|users| - 1])
  }

  /** The report of the whole input. */
  function Reconciled(o: Settings, size: nat, users: seq<User>): Option<DiffReport> {
    match After(o, size, users)
    case None => None
    case Some(p) => Flushed(o, p.report, p.batch)
  }

  // A user at a time.

  /** How a run looks at each user by itself: how it looks it up, and what drift
      it reports of a user found; and which batches its handlers refuse. */
  datatype Sight = Sight(
    lookup: User -> Lookup,
    drift: (User, seq<string>) -> seq<string>,
    refusesLookup: seq<User> -> bool,
    refusesCompare: seq<User> -> bool)

  function WithDrift(u: User, f: Found, drift: (User, seq<string>) -> seq<string>): Found {
    if IsFound(f) then f.(drift := drift(u, f.drift)) else f
  }

  /** The users of the batch the comparison is asked about. */
  function FoundUsers(batch: seq<User>, fs: seq<Found>): seq<User>
    requires |fs| == |batch|
    decreases |batch|
  {
    if |batch| == 0 then []
    else
      var n := |batch| - 1;
      FoundUsers(batch[..n], fs[..n]) + (if IsFound(fs[n]) then [batch[n]] else [])
  }

  /** The batch is refused, or each of its users looked up and compared by itself. */
  ghost predicate SeesEach(o: Settings, v: Sight, batch: seq<User>) {
    if v.refusesLookup(batch) then Lookups(o, batch).None?
    else
      && Lookups(o, batch).Some? && (forall i :: 0 <= i < |batch| ==> Lookups(o, batch).value[i] == v.lookup(batch[i]))
      && (forall fs: seq<Found> :: |fs| == |batch| ==> ComparesEach(o, v, batch, fs))
  }

  ghost predicate ComparesEach(o: Settings, v: Sight, batch: seq<User>, fs: seq<Found>)
    requires |fs| == |batch|
  {
    if v.refusesCompare(FoundUsers(batch, fs)) then Compared(o, batch, fs).None?
    else Compared(o, batch, fs).Some?
         && forall i :: 0 <= i < |batch| ==> Compared(o, batch, fs).value[i] == WithDrift(batch[i], fs[i], v.drift)
  }

  /** A handler refuses the batch; of a comparison's, only the users found count. */
  predicate Refuses(o: Settings, v: Sight, batch: seq<User>) {
    v.refusesLookup(batch) || v.refusesCompare(FoundAlone(o, v, batch))
  }

  function FoundAlone(o: Settings, v: Sight, batch: seq<User>): seq<User> {
    if |batch| == 0 then []
    else
      var u := batch[|batch| - 1];
      FoundAlone(o, v, batch[..|batch| - 1])
      + (match o.check(u, v.lookup(u)) case None => [] case Some(f) => if IsFound(f) then [u] else [])
  }

  /** What a user comes to alone: skipped, or found or not; None if its check fails. */
  datatype Class = Skipped | Alone(found: Found)

  function ClassOf(o: Settings, v: Sight, read: User): Option<Class> {
    var u := o.primary(read);
    if u.sourceID in o.notImported then Some(Skipped)
    else
      match o.check(u, v.lookup(u))
      case None => None
      case Some(f) => Some(Alone(WithDrift(u, f, v.drift)))
  }

  function OneByOne(o: Settings, v: Sight, users: seq<User>): Option<DiffReport> {
    if users == [] then Some(EMPTY_DIFF)
    else
      var n := |users| - 1;
      var u := o.primary(users[n]);
      match OneByOne(o, v, users[..n])
      case None => None
      case Some(r) =>
        match ClassOf(o, v, users[n])
        case None => None
        case Some(Skipped) => Some(Skip(r, u))
        case Some(Alone(f)) => Some(Add(r, u, f))
  }

  /** A batch checked and added one user at a time. */
  function AddEach(o: Settings, v: Sight, r: DiffReport, batch: seq<User>)
    : Option<DiffReport>
  {
    if batch == [] then Some(r)
    else
      var n := |batch| - 1;
      match AddEach(o, v, r, batch[..n])
      case None => None
      case Some(before) =>
        match o.check(batch[n], v.lookup(batch[n]))
        case None => None
        case Some(f) => Some(Add(before, batch[n], WithDrift(batch[n], f, v.drift)))
  }

  lemma {:induction false} CheckedAddsEach(o: Settings, v: Sight, r: DiffReport,
                                           batch: seq<User>, ls: seq<Lookup>, out: seq<Found>)
    requires |ls| == |batch| == |out| && forall i :: 0 <= i < |batch| ==> ls[i] == v.lookup(batch[i])
    requires Checked(o, batch, ls).Some? ==>
               forall i :: 0 <= i < |batch| ==> out[i] == WithDrift(batch[i], Checked(o, batch, ls).value[i], v.drift)
    ensures Checked(o, batch, ls).Some? <==> AddEach(o, v, r, batch).Some?
    ensures Checked(o, batch, ls).Some? ==> AddEach(o, v, r, batch) == Some(AddAll(r, batch, out))
    decreases |batch|
  {
    if batch != [] {
      var n := |batch| - 1;
      var before := Checked(o, batch[..n], ls[..n]);
      if before.None? || o.check(batch[n], ls[n]).Some? {
        CheckedAddsEach(o, v, r, batch[..n], ls[..n], out[..n]);
      }
    }
  }

  lemma {:induction false} FoundAreAlone(o: Settings, v: Sight, batch: seq<User>, ls: seq<Lookup>)
    requires |ls| == |batch| && forall i :: 0 <= i < |batch| ==> ls[i] == v.lookup(batch[i])
    requires Checked(o, batch, ls).Some?
    ensures FoundUsers(batch, Checked(o, batch, ls).value) == FoundAlone(o, v, batch)
    decreases |batch|
  {
    if |batch| > 0 {
      var n := |batch| - 1;
      FoundAreAlone(o, v, batch[..n], ls[..n]);
      var fs := Checked(o, batch, ls).value;
      assert fs[..n] == Checked(o, batch[..n], ls[..n]).value;
    }
  }

  /** A batch is reported one user at a time, unless it is refused. */
  lemma {:induction false} FlushedAddsEach(o: Settings, v: Sight, r: DiffReport, batch: seq<User>)
    requires SeesEach(o, v, batch)
    ensures Flushed(o, r, batch) == if Refuses(o, v, batch) then None else AddEach(o, v, r, batch)
  {
    if !v.refusesLookup(batch) {
      var ls := Lookups(o, batch).value;
      var fs := Checked(o, batch, ls);
      if fs.None? {
        CheckedAddsEach(o, v, r, batch, ls, seq(|batch|, i => Found(false, false, [])));
      } else {
        FoundAreAlone(o, v, batch, ls);
        assert ComparesEach(o, v, batch, fs.value);
        if !v.refusesCompare(FoundUsers(batch, fs.value)) {
          CheckedAddsEach(o, v, r, batch, ls, Compared(o, batch, fs.value).value);
        }
      }
    }
  }

  lemma {:induction false} SkippingCommutes(o: Settings, v: Sight, r: DiffReport, u: User, batch: seq<User>)
    ensures AddEach(o, v, Skip(r, u), batch)
            == match AddEach(o, v, r, batch) case None => None case Some(d) => Some(Skip(d, u))
  {
    if batch != [] {
      SkippingCommutes(o, v, r, u, batch[..|batch| - 1]);
    }
  }

  /** The users looked up: those the import did not leave out. */
  function Imported(o: Settings, users: seq<User>): seq<User> {
    if |users| == 0 then []
    else
      var u := o.primary(users[|users| - 1]);
      Imported(o, users[..|users| - 1]) + (if u.sourceID in o.notImported then [] else [u])
  }

  /** The batches flushed when full, and the users gathered for the last one. */
  function Full(size: nat, us: seq<User>): seq<seq<User>> {
    if |us| == 0 then []
    else if |Rest(size, us[..|us| - 1])| + 1 == size then Full(size, us[..|us| - 1]) + [Rest(size, us[..|us| - 1]) + [us[|us| - 1]]]
    else Full(size, us[..|us| - 1])
  }

  function Rest(size: nat, us: seq<User>): seq<User> {
    if |us| == 0 || |Rest(size, us[..|us| - 1])| + 1 == size then [] else Rest(size, us[..|us| - 1]) + [us[|us| - 1]]
  }

  /** All batches a run flushes, the last of them maybe empty. */
  function BatchesOf(o: Settings, size: nat, users: seq<User>): seq<seq<User>> {
    Full(size, Imported(o, users)) + [Rest(size, Imported(o, users))]
  }

  function Flushes(size: nat, us: seq<User>): seq<seq<User>> {
    Full(size, us) + (if |Rest(size, us)| == 0 then [] else [Rest(size, us)])
  }

  /** They are the users looked up, cut into batches of the run's size. */
  lemma {:induction false} BatchesAreCut(size: nat, us: seq<User>)
    requires size >= 1
    ensures |Rest(size, us)| < size && forall k :: 0 <= k < |Full(size, us)| ==> |Full(size, us)[k]| == size
    ensures Flushes(size, us) == Cut(us, size)
  {
    if |us| > 0 {
      var n := |us| - 1;
      BatchesAreCut(size, us[..n]);
      assert us == us[..n] + [us[n]];
      OneMoreIsCut(size, us[..n], us[n]);
    }
  }

  lemma {:induction false} OneMoreIsCut(size: nat, us: seq<User>, u: User)
    requires size >= 1 && |Rest(size, us)| < size && forall k :: 0 <= k < |Full(size, us)| ==> |Full(size, us)[k]| == size
    requires Flushes(size, us) == Cut(us, size)
    ensures |Rest(size, us + [u])| < size && forall k :: 0 <= k < |Full(size, us + [u])| ==> |Full(size, us + [u])[k]| == size
    ensures Flushes(size, us + [u]) == Cut(us + [u], size)
  {
    FullOneMore(size, us, u);
    FlushesAfter(size, us, u);
    FlushesOneMore(Full(size, us), Rest(size, us), u, size);
    CutOneMore(us, u, size);
  }

  lemma {:induction false} FlushesAfter(size: nat, us: seq<User>, u: User)
    ensures Flushes(size, us + [u]) == Full(size, us) + [Rest(size, us) + [u]]
  {
    FullOneMore(size, us, u);
    var full := Full(size, us) + [Rest(size, us) + [u]];
    assert full + [] == full;
  }

  lemma {:induction false} FlushesOneMore(full: seq<seq<User>>, rest: seq<User>, u: User, size: nat)
    requires |rest| < size && forall k :: 0 <= k < |full| ==> |full[k]| == size
    ensures var cut, batch := full + (if |rest| == 0 then [] else [rest]), rest + [u];
            full + [batch] == WithOneMore(cut, u, size)
  {
    if |rest| > 0 {
      assert (full + [rest])[..|full|] == full;
    } else {
      assert full + [] == full && rest + [u] == [u];
    }
  }

  ghost predicate AllSeen(o: Settings, v: Sight, batches: seq<seq<User>>) {
    forall k :: 0 <= k < |batches| ==> SeesEach(o, v, batches[k])
  }

  lemma {:induction false} SeenOneMore(o: Settings, v: Sight, batches: seq<seq<User>>, batch: seq<User>)
    ensures AllSeen(o, v, batches + [batch]) <==> AllSeen(o, v, batches) && SeesEach(o, v, batch)
  {
    assert (batches + [batch])[|batches|] == batch;
    assert forall k :: 0 <= k < |batches| ==> (batches + [batch])[k] == batches[k];
  }

  predicate AnyRefused(o: Settings, v: Sight, batches: seq<seq<User>>) {
    exists k :: 0 <= k < |batches| && Refuses(o, v, batches[k])
  }

  /** What one user adds to a report made one user at a time. */
  function PlusOne(o: Settings, v: Sight, r: Option<DiffReport>, read: User): Option<DiffReport> {
    match r
    case None => None
    case Some(d) =>
      match ClassOf(o, v, read)
      case None => None
      case Some(Skipped) => Some(Skip(d, o.primary(read)))
      case Some(Alone(f)) => Some(Add(d, o.primary(read), f))
  }

  /** The report so far and the batch gathered, one user at a time. */
  function Gathered(o: Settings, v: Sight, p: Option<Progress>): Option<DiffReport> {
    match p
    case None => None
    case Some(g) => AddEach(o, v, g.report, g.batch)
  }

  lemma {:induction false} StepOneByOne(o: Settings, v: Sight, size: nat, p: Progress, read: User)
    requires o.primary(read).sourceID !in o.notImported && |p.batch| + 1 == size ==> SeesEach(o, v, p.batch + [o.primary(read)])
    ensures var next, u := Step(o, size, p, read), o.primary(read);
            if u.sourceID !in o.notImported && |p.batch| + 1 == size && Refuses(o, v, p.batch + [u]) then next.None?
            else Gathered(o, v, next) == PlusOne(o, v, AddEach(o, v, p.report, p.batch), read)
  {
    var u := o.primary(read);
    if u.sourceID in o.notImported {
      SkippingCommutes(o, v, p.report, u, p.batch);
    } else {
      var batch := p.batch + [u];
      assert batch[..|batch| - 1] == p.batch;
      if |batch| == size {
        FlushedAddsEach(o, v, p.report, batch);
      }
    }
  }

  /** p is where the loop is after users of which us are looked up; whole is
      their report one at a time. */
  predicate InStep(o: Settings, v: Sight, size: nat, us: seq<User>, p: Option<Progress>, whole: Option<DiffReport>) {
    && (p.Some? ==> p.value.batch == Rest(size, us))
    && (if AnyRefused(o, v, Full(size, us)) then p.None? else whole == Gathered(o, v, p))
  }

  lemma {:induction false} SkippedInStep(o: Settings, v: Sight, size: nat, us: seq<User>, p: Progress, whole: Option<DiffReport>, read: User)
    requires InStep(o, v, size, us, Some(p), whole) && o.primary(read).sourceID in o.notImported
    ensures InStep(o, v, size, us, Step(o, size, p, read), PlusOne(o, v, whole, read))
  {
    StepOneByOne(o, v, size, p, read);
  }

  lemma {:induction false} LookedUpInStep(o: Settings, v: Sight, size: nat, us: seq<User>, p: Progress, whole: Option<DiffReport>, read: User)
    requires InStep(o, v, size, us, Some(p), whole) && o.primary(read).sourceID !in o.notImported
    requires |p.batch| + 1 == size ==> SeesEach(o, v, p.batch + [o.primary(read)])
    ensures InStep(o, v, size, us + [o.primary(read)], Step(o, size, p, read), PlusOne(o, v, whole, read))
  {
    var u := o.primary(read);
    FullOneMore(size, us, u);
    StepOneByOne(o, v, size, p, read);
    RefusedOneMore(o, v, Full(size, us), p.batch + [u]);
  }

  lemma {:induction false} RefusedOneMore(o: Settings, v: Sight, batches: seq<seq<User>>, batch: seq<User>)
    ensures AnyRefused(o, v, batches + [batch]) <==> AnyRefused(o, v, batches) || Refuses(o, v, batch)
  {
    assert (batches + [batch])[|batches|] == batch;
    assert forall k :: 0 <= k < |batches| ==> (batches + [batch])[k] == batches[k];
  }

  lemma {:induction false} FullOneMore(size: nat, us: seq<User>, u: User)
    ensures var batch := Rest(size, us) + [u];
            && Full(size, us + [u]) == (if |batch| == size then Full(size, us) + [batch] else Full(size, us))
            && Rest(size, us + [u]) == (if |batch| == size then [] else batch)
  {
    assert (us + [u])[..|us|] == us;
  }

  function AlsoImported(o: Settings, us: seq<User>, read: User): seq<User> {
    if o.primary(read).sourceID in o.notImported then us else us + [o.primary(read)]
  }

  function Stepped(o: Settings, size: nat, p: Option<Progress>, read: User): Option<Progress> {
    if p.None? then None else Step(o, size, p.value, read)
  }

  lemma {:induction false} StaysInStep(o: Settings, v: Sight, size: nat, us: seq<User>, p: Option<Progress>,
                                       whole: Option<DiffReport>, read: User)
    requires InStep(o, v, size, us, p, whole) && AllSeen(o, v, Full(size, AlsoImported(o, us, read)))
    ensures InStep(o, v, size, AlsoImported(o, us, read), Stepped(o, size, p, read), PlusOne(o, v, whole, read))
  {
    var u := o.primary(read);
    if u.sourceID in o.notImported {
      if p.Some? {
        SkippedInStep(o, v, size, us, p.value, whole, read);
      }
    } else {
      FullOneMore(size, us, u);
      SeenOneMore(o, v, Full(size, us), Rest(size, us) + [u]);
      if p.Some? {
        LookedUpInStep(o, v, size, us, p.value, whole, read);
      } else {
        RefusedOneMore(o, v, Full(size, us), Rest(size, us) + [u]);
      }
    }
  }

  lemma {:induction false} SeenBefore(o: Settings, v: Sight, size: nat, us: seq<User>, read: User)
    requires AllSeen(o, v, Full(size, AlsoImported(o, us, read)))
    ensures AllSeen(o, v, Full(size, us))
  {
    if o.primary(read).sourceID !in o.notImported {
      FullOneMore(size, us, o.primary(read));
      SeenOneMore(o, v, Full(size, us), Rest(size, us) + [o.primary(read)]);
    }
  }

  lemma {:induction false} GatheredOneByOne(o: Settings, v: Sight, size: nat, users: seq<User>)
    requires AllSeen(o, v, Full(size, Imported(o, users)))
    ensures InStep(o, v, size, Imported(o, users), After(o, size, users), OneByOne(o, v, users))
  {
    if |users| > 0 {
      var n := |users| - 1;
      assert Imported(o, users) == AlsoImported(o, Imported(o, users[..n]), users[n]);
      SeenBefore(o, v, size, Imported(o, users[..n]), users[n]);
      GatheredOneByOne(o, v, size, users[..n]);
      StaysInStep(o, v, size, Imported(o, users[..n]), After(o, size, users[..n]), OneByOne(o, v, users[..n]), users[n]);
    }
  }

  /** The batch size matters only by the batches that are refused: with one the
      run fails, and else its report is that of a loop over one user at a time. */
  lemma {:induction false} BatchSizeDoesNotMatter(o: Settings, v: Sight, size: nat, users: seq<User>)
    requires AllSeen(o, v, BatchesOf(o, size, users))
    ensures Reconciled(o, size, users)
            == if AnyRefused(o, v, BatchesOf(o, size, users)) then None else OneByOne(o, v, users)
  {
    var full, rest := Full(size, Imported(o, users)), Rest(size, Imported(o, users));
    SeenOneMore(o, v, full, rest);
    RefusedOneMore(o, v, full, rest);
    GatheredOneByOne(o, v, size, users);
    var p := After(o, size, users);
    if p.Some? {
      FlushedAddsEach(o, v, p.value.report, rest);
    }
  }

  // What the report says of each user.

  datatype Kind = KSkipped | KNoIdentifier | KMissing | KFound

  function KindOf(c: Class): Kind {
    match c
    case Skipped => KSkipped
    case Alone(f) => if f.noIdentifier then KNoIdentifier else if f.missing then KMissing else KFound
  }

  /** The users of one kind, in input order. */
  function IDsOf(o: Settings, v: Sight, users: seq<User>, kind: Kind): seq<string> {
    if users == [] then []
    else
      var n := |users| - 1;
      var c := ClassOf(o, v, users[n]);
      IDsOf(o, v, users[..n], kind)
      + (if c.Some? && KindOf(c.value) == kind then [o.primary(users[n]).sourceID] else [])
  }

  /** The users found with drift, in input order. */
  function DriftsOf(o: Settings, v: Sight, users: seq<User>): seq<DriftEntry> {
    if users == [] then []
    else
      var n := |users| - 1;
      var c := ClassOf(o, v, users[n]);
      DriftsOf(o, v, users[..n])
      + (if c.Some? && KindOf(c.value) == KFound && c.value.found.drift != []
         then [DriftEntry(o.primary(users[n]).sourceID, c.value.found.drift)] else [])
  }

  /** Each user read is in exactly one of the skipped, those with no
      identifier, the missing and the found; drift entries are of found users. */
  lemma {:induction false} ReportPartitionsUsers(o: Settings, v: Sight,
                                                 users: seq<User>)
    requires OneByOne(o, v, users).Some?
    ensures var r := OneByOne(o, v, users).value;
            && r.skipped == IDsOf(o, v, users, KSkipped)
            && r.noIdentifier == IDsOf(o, v, users, KNoIdentifier)
            && r.missingInTarget == IDsOf(o, v, users, KMissing)
            && r.targetCount == |IDsOf(o, v, users, KFound)|
            && r.attributeDrift == DriftsOf(o, v, users)
            && r.sourceCount == |r.noIdentifier| + |r.missingInTarget| + r.targetCount
            && |users| == |r.skipped| + r.sourceCount
  {
    if users != [] {
      ReportPartitionsUsers(o, v, users[..|users| - 1]);
    }
  }

  /** What each user comes to, in the report after that of the users before it:
      one the import left out is skipped, and any other is looked up and checked
      as the run sees it, and listed with what the target lacks or how it differs. */
  lemma {:induction false} UserIsReported(o: Settings, v: Sight, users: seq<User>, i: nat)
    requires i < |users| && OneByOne(o, v, users).Some?
    ensures OneByOne(o, v, users[..i]).Some?
    ensures var r, before, u := OneByOne(o, v, users).value, OneByOne(o, v, users[..i]).value, o.primary(users[i]);
            if u.sourceID in o.notImported then before.skipped + [u.sourceID] <= r.skipped
            else
              var checked := o.check(u, v.lookup(u));
              && checked.Some?
              && var drift := v.drift(u, checked.value.drift);
                 if checked.value.noIdentifier then before.noIdentifier + [u.sourceID] <= r.noIdentifier
                 else if checked.value.missing then before.missingInTarget + [u.sourceID] <= r.missingInTarget
                 else
                   && before.targetCount < r.targetCount
                   && (drift != [] ==> before.attributeDrift + [DriftEntry(u.sourceID, drift)] <= r.attributeDrift)
  {
    var n := |users| - 1;
    if i < n {
      UserIsReported(o, v, users[..n], i);
      assert users[..n][..i] == users[..i];
    }
  }

  /** Without a handler a user with a recorded target ID is looked up by it if
      the mapping says so, and any other in the connector's own way. */
  lemma {:induction false} LookedUpByTargetID(o: Settings, batch: seq<User>, i: nat)
    requires i < |batch| && o.lookup(batch).Ignored?
    ensures Lookups(o, batch).Some?
    ensures var u, l := batch[i], Lookups(o, batch).value[i];
            && l.identifier == ""
            && (o.byTargetID && u.sourceID in o.targetIDs ==> l.targetID == o.targetIDs[u.sourceID])
            && (!o.byTargetID || u.sourceID !in o.targetIDs ==> l.targetID == "")
  {
  }

  /** A handler's answers decide the lookups, and it must have one for every user. */
  lemma {:induction false} LookedUpAsAnswered(o: Settings, batch: seq<User>)
    requires o.lookup(batch).Answered?
    ensures var answers, ls := o.lookup(batch).answers, Lookups(o, batch);
            && (ls.Some? <==> forall i :: 0 <= i < |batch| ==> batch[i].sourceID in answers)
            && (ls.Some? ==> forall i :: 0 <= i < |batch| ==> batch[i].sourceID in answers && ls.value[i] == answers[batch[i].sourceID])
  {
  }

  /** A comparison's answer replaces the drift of the last user found under its
      source ID, and nothing else changes. */
  lemma {:induction false} ComparedAsAnswered(o: Settings, batch: seq<User>, fs: seq<Found>, i: nat)
    requires i < |batch| == |fs| && o.compare(batch, fs).Answered?
    ensures Compared(o, batch, fs).Some?
    ensures var answers, id, f, out := o.compare(batch, fs).answers, batch[i].sourceID, fs[i], Compared(o, batch, fs).value[i];
            && out.noIdentifier == f.noIdentifier && out.missing == f.missing
            && (id in answers && !f.noIdentifier && !f.missing
                && (forall j :: i < j < |batch| && !fs[j].noIdentifier && !fs[j].missing ==> batch[j].sourceID != id)
                ==> out.drift == answers[id])
            && (id !in answers || f.noIdentifier || f.missing
                || (exists j :: i < j < |batch| && !fs[j].noIdentifier && !fs[j].missing && batch[j].sourceID == id)
                ==> out.drift == f.drift)
  {
  }

  // The loops.

  /** What ends a run early: the context, the reader, or a lookup, check or comparison. */
  datatype RunError = Cancelled | Unreadable | FlushFailed

  lemma {:induction false} ChecksNoFurther(o: Settings, batch: seq<User>, ls: seq<Lookup>, k: nat)
    requires |ls| == |batch| && k <= |batch| && Checked(o, batch[..k], ls[..k]).None?
    ensures Checked(o, batch, ls).None?
    decreases |batch| - k
  {
    if k == |batch| {
      assert batch[..k] == batch && ls[..k] == ls;
    } else {
      assert batch[..k + 1][..k] == batch[..k] && ls[..k + 1][..k] == ls[..k];
      ChecksNoFurther(o, batch, ls, k + 1);
    }
  }

  /** The report of a run, built up in place. */
  class Run {
    const o: Settings
    const size: nat
    var report: DiffReport
    var batch: seq<User>
    const isDone: nat -> bool    // whether the context is done, when it is looked at
    var looks: nat
    ghost var cancelled: bool    // the context was done at a look

    constructor (o: Settings, size: nat, isDone: nat -> bool)
      ensures this.o == o && this.size == size && this.isDone == isDone
      ensures report == EMPTY_DIFF && batch == [] && looks == 0 && !cancelled
    {
      this.o, this.size, this.isDone := o, size, isDone;
      report, batch, looks, cancelled := EMPTY_DIFF, [], 0, false;
    }

    /** Whether the context is done. */
    method Done() returns (done: bool)
      modifies `looks, `cancelled
      ensures looks == old(looks) + 1 && done == isDone(old(looks)) && cancelled == (old(cancelled) || done)
    {
      done := isDone(looks);
      looks, cancelled := looks + 1, cancelled || done;
    }

    method CheckBatch(ls: seq<Lookup>) returns (err: Option<RunError>, fs: seq<Found>)
      requires |ls| == |batch| && !cancelled
      modifies `looks, `cancelled
      ensures err.None? ==> Checked(o, batch, ls) == Some(fs)
      ensures err == Some(Cancelled) <==> cancelled
      ensures err.Some? ==> err.value == Cancelled || (err.value == FlushFailed && Checked(o, batch, ls).None?)
    {
      fs := [];
      for i := 0 to |batch|
        invariant Checked(o, batch[..i], ls[..i]) == Some(fs) && !cancelled
      {
        var done := Done();
        if done {
          return Some(Cancelled), [];
        }
        assert batch[..i + 1][..i] == batch[..i] && ls[..i + 1][..i] == ls[..i];
        var f := o.check(batch[i], ls[i]);
        if f.None? {
          ChecksNoFurther(o, batch, ls, i + 1);
          return Some(FlushFailed), [];
        }
        fs := fs + [f.value];
      }
      assert batch[..|batch|] == batch && ls[..|batch|] == ls;
      err := None;
    }

    method Count(u: User, f: Found)
      modifies `report
      ensures report == Add(old(report), u, f)
    {
      report := report.(sourceCount := report.sourceCount + 1);
      if f.noIdentifier {
        report := report.(noIdentifier := report.noIdentifier + [u.sourceID]);
      } else if f.missing {
        report := report.(missingInTarget := report.missingInTarget + [u.sourceID]);
      } else {
        report := report.(targetCount := report.targetCount + 1);
        if f.drift != [] {
          report := report.(attributeDrift := report.attributeDrift + [DriftEntry(u.sourceID, f.drift)]);
        }
      }
    }

    /** Checks and reports the batch, or leaves the report as it was. */
    method Flush() returns (err: Option<RunError>)
      requires !cancelled
      modifies this
      ensures err == Some(Cancelled) <==> cancelled
      ensures err.None? ==> Flushed(o, old(report), old(batch)) == Some(report) && batch == []
      ensures err.Some? ==> report == old(report)
      ensures err.Some? ==> err.value == Cancelled
                            || (err.value == FlushFailed && Flushed(o, old(report), old(batch)).None?)
    {
      var ls := Lookups(o, batch);
      if ls.None? {
        return Some(FlushFailed);
      }
      var fs;
      err, fs := CheckBatch(ls.value);
      if err.Some? {
        return;
      }
      var founds := Compared(o, batch, fs);
      if founds.None? {
        return Some(FlushFailed);
      }
      for i := 0 to |batch|
        invariant !cancelled && batch == old(batch) && report == AddAll(old(report), batch[..i], founds.value[..i])
      {
        assert batch[..i + 1][..i] == batch[..i] && founds.value[..i + 1][..i] == founds.value[..i];
        Count(batch[i], founds.value[i]);
      }
      assert batch[..|batch|] == batch && founds.value[..|batch|] == founds.value;
      batch := [];
    }

    /** One user of the stream. */
    method Take(read: User) returns (err: Option<RunError>)
      requires !cancelled
      modifies this
      ensures err == Some(Cancelled) <==> cancelled
      ensures err.None? ==> Step(o, size, Progress(old(report), old(batch)), read) == Some(Progress(report, batch))
      ensures err.Some? ==> report == old(report)
      ensures err.Some? ==> err.value == Cancelled
                            || (err.value == FlushFailed && Step(o, size, Progress(old(report), old(batch)), read).None?)
    {
      var u := o.primary(read);
      if u.sourceID in o.notImported {
        report := report.(skipped := report.skipped + [u.sourceID]);
        return None;
      }
      batch := batch + [u];
      if |batch| == size {
        err := Flush();
        return;
      }
      return None;
    }

    /** Run, over the users the reader gives before its end, which may be an
        error. A run that is stopped has the report of the first n users, but
        for those of them still in a batch. */
    method Reconcile(users: seq<User>, unreadable: bool) returns (err: Option<RunError>, ghost n: nat)
      requires report == EMPTY_DIFF && batch == [] && !cancelled
      modifies this
      ensures err.None? ==> !unreadable && Reconciled(o, size, users) == Some(report)
      ensures err.Some? ==> n <= |users| && After(o, size, users[..n]).Some? && report == After(o, size, users[..n]).value.report
      ensures err == Some(Cancelled) <==> cancelled
      ensures err == Some(Unreadable) ==> unreadable && n == |users|
      ensures err == Some(FlushFailed) ==> Reconciled(o, size, users).None? && (n < |users| ==> After(o, size, users[..n + 1]).None?)
    {
      for i := 0 to |users|
        invariant After(o, size, users[..i]) == Some(Progress(report, batch)) && !cancelled
      {
        var done := Done();
        if done {
          return Some(Cancelled), i;
        }
        AfterOneMore(o, size, users, i);
        err := Take(users[i]);
        if err.Some? {
          n := i;
          if err.value == FlushFailed {
            NoFurther(o, size, users, i + 1);
          }
          return;
        }
      }
      assert users[..|users|] == users;
      n := |users|;
      var done := Done();
      if done {
        return Some(Cancelled), n;
      }
      if unreadable {
        return Some(Unreadable), n;
      }
      err := Flush();
    }
  }

  lemma AfterOneMore(o: Settings, size: nat, users: seq<User>, i: nat)
    requires i < |users|
    ensures After(o, size, users[..i + 1])
            == match After(o, size, users[..i]) case None => None case Some(p) => Step(o, size, p, users[i])
  {
    assert users[..i + 1][..i] == users[..i];
  }

  lemma {:induction false} NoFurther(o: Settings, size: nat, users: seq<User>, k: nat)
    requires k <= |users| && After(o, size, users[..k]).None?
    ensures After(o, size, users).None?
    decreases |users| - k
  {
    if k == |users| {
      assert users[..k] == users;
    } else {
      assert users[..k + 1][..k] == users[..k];
      NoFurther(o, size, users, k + 1);
    }
  }
}
