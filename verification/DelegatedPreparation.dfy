/** Preparations that delegate import.user and metadata.place to handlers that
    answer each user by itself: what the batches they are sent in change. */
module DelegatedPreparation {

  import opened Delegation
  import opened Metadata
  import opened Preparation
  import opened PreparedReader
  import opened Sequences
  import opened UserPreparation
  import B = Batcher

  datatype Mapping = Mapping(
    importUser: Delegated<User, UserAnswer>,
    place: Delegated<User, seq<Placement>>,
    check: string -> bool,
    routes: seq<Placement>,
    rules: seq<TargetRule>)

  predicate WellFormed(m: Mapping) {
    && BuiltinRules(m.rules)
    && ValidSize(m.importUser) && ValidSize(m.place)
  }

  predicate HasMetadata(u: User) {
    u.app != map[] || u.own != map[]
  }

  /** The users metadata.place is asked about. */
  function WithMetadata(users: seq<User>): seq<User> {
    if users == [] then []
    else
      var u := users[|users| - 1];
      WithMetadata(users[..|users| - 1]) + (if HasMetadata(u) then [u] else [])
  }

  function AskedImport(m: Mapping, users: seq<User>): Handled<string -> UserAnswer>
    requires WellFormed(m)
  {
    match Asked(m.importUser, SourceID, users)
    case HandlerFailed => HandlerFailed
    case Ignored => Ignored
    case Answered(results) => Answered(id => if id in results then results[id] else Unknown)
  }

  function StrategiesOf(m: Mapping): Strategies
    requires WellFormed(m)
  {
    Strategies((i, users) => AskedImport(m, users), (i, users) => Asked(m.place, SourceID, WithMetadata(users)), m.check, m.routes, m.rules)
  }

  function AnswerOf(m: Mapping): User -> UserAnswer {
    if m.importUser.BuiltIn? then u => Keep else m.importUser.answer
  }

  function PlacementsFor(m: Mapping): User -> seq<Placement> {
    u => if m.place.BuiltIn? || !HasMetadata(u) then [] else m.place.answer(u)
  }

  /** What becomes of each user alone. */
  function Fates(m: Mapping): User -> Fate<User, seq<Field>>
    requires WellFormed(m)
  {
    FatesOf(StrategiesOf(m), AnswerOf(m), PlacementsFor(m))
  }

  /** A user without metadata is given the placements of one with the same source ID. */
  predicate Misplaced(d: Delegated<User, seq<Placement>>, users: seq<User>) {
    d.ToHandler? && exists k, l :: 0 <= k < |users| && 0 <= l < |users| && users[k].sourceID == users[l].sourceID
                                   && !HasMetadata(users[k]) && HasMetadata(users[l]) && d.answer(users[l]) != []
  }

  /** The batch fails although no user may be to blame. */
  predicate Refused(m: Mapping, users: seq<User>)
    requires WellFormed(m)
  {
    var kept := KeptOf(AnswerOf(m), users);
    Twice(m.importUser, SourceID, users) || (AllApply(AnswerOf(m), users) && (Twice(m.place, SourceID, WithMetadata(kept)) || Misplaced(m.place, kept)))
  }

  function Refusals(m: Mapping): seq<User> -> bool
    requires WellFormed(m)
  {
    users => Refused(m, users)
  }

  predicate Agrees(m: Mapping, users: seq<User>) {
    && OneAnswer(m.importUser, SourceID, users)
    && (AllApply(AnswerOf(m), users) ==> OneAnswer(m.place, SourceID, WithMetadata(KeptOf(AnswerOf(m), users))))
  }

  lemma {:induction false} ImportIsEachUser(m: Mapping, users: seq<User>)
    requires WellFormed(m) && OneAnswer(m.importUser, SourceID, users)
    ensures if Twice(m.importUser, SourceID, users) then AskedImport(m, users).HandlerFailed? else AnswersEach(AskedImport(m, users), AnswerOf(m), users)
  {
    var d := m.importUser;
    if d.ToHandler? && users != [] && !Twice(d, SourceID, users) {
      forall k | 0 <= k < |users|
        ensures AskedImport(m, users).answers(users[k].sourceID) == d.answer(users[k])
      {
        EachAnswered(d.answer, SourceID, users, k);
      }
    }
  }

  lemma {:induction false} AskedAbout(users: seq<User>, k: nat) returns (at: nat)
    requires k < |users| && HasMetadata(users[k])
    ensures at < |WithMetadata(users)| && WithMetadata(users)[at] == users[k]
  {
    var n := |users| - 1;
    if k < n {
      at := AskedAbout(users[..n], k);
    } else {
      at := |WithMetadata(users[..n])|;
    }
  }

  lemma {:induction false} OnlyThoseAskedAbout(users: seq<User>, at: nat) returns (k: nat)
    requires at < |WithMetadata(users)|
    ensures k < |users| && users[k] == WithMetadata(users)[at] && HasMetadata(users[k])
  {
    var n := |users| - 1;
    if at < |WithMetadata(users[..n])| {
      k := OnlyThoseAskedAbout(users[..n], at);
    } else {
      k := n;
    }
  }

  /** No placement of a user without metadata can be carried out. */
  lemma {:induction false} NothingToPlace(u: User, ps: seq<Placement>, check: string -> bool)
    requires !HasMetadata(u)
    ensures Placed(u, ps, check).Some? <==> ps == []
  {
    if ps != [] {
      NothingToPlace(u, ps[..|ps| - 1], check);
    }
  }

  /** What a handler's answers for some users say of all those kept with them. */
  predicate Gives(d: Delegated<User, seq<Placement>>, kept: seq<User>, k: nat, given: seq<Placement>)
    requires k < |kept| && d.ToHandler?
  {
    if HasMetadata(kept[k]) then given == d.answer(kept[k])
    else given != [] <==> Borrows(d, kept, k)
  }

  /** Another user's placements come with the source ID. */
  predicate Borrows(d: Delegated<User, seq<Placement>>, kept: seq<User>, k: nat)
    requires k < |kept| && d.ToHandler?
  {
    exists l :: 0 <= l < |kept| && kept[l].sourceID == kept[k].sourceID && HasMetadata(kept[l]) && d.answer(kept[l]) != []
  }

  lemma {:induction false} UserIsGiven(d: Delegated<User, seq<Placement>>, kept: seq<User>, k: nat)
    requires d.ToHandler? && k < |kept| && OneAnswer(d, SourceID, WithMetadata(kept))
    ensures Gives(d, kept, k, PlacementsOf(B.AnswersTo(d.answer, ItemsOf(SourceID, WithMetadata(kept))), kept[k]))
  {
    var asked := WithMetadata(kept);
    var results := B.AnswersTo(d.answer, ItemsOf(SourceID, asked));
    forall l: nat | l < |kept| && HasMetadata(kept[l])
      ensures kept[l].sourceID in results && results[kept[l].sourceID] == d.answer(kept[l])
    {
      var at := AskedAbout(kept, l);
      EachAnswered(d.answer, SourceID, asked, at);
    }
    if kept[k].sourceID in results {
      var at := OnlyKeysAnswered(d.answer, SourceID, asked, kept[k].sourceID);
      var l := OnlyThoseAskedAbout(kept, at);
      assert kept[l].sourceID == kept[k].sourceID && HasMetadata(kept[l]);
    }
  }

  lemma {:induction false} PlaceIsEachUser(m: Mapping, kept: seq<User>)
    requires WellFormed(m) && OneAnswer(m.place, SourceID, WithMetadata(kept))
    ensures Twice(m.place, SourceID, WithMetadata(kept)) ==> Asked(m.place, SourceID, WithMetadata(kept)).HandlerFailed?
    ensures !Twice(m.place, SourceID, WithMetadata(kept)) && !Misplaced(m.place, kept)
            ==> PlacesEach(Asked(m.place, SourceID, WithMetadata(kept)), PlacementsFor(m), kept)
    ensures !Twice(m.place, SourceID, WithMetadata(kept)) && Misplaced(m.place, kept)
            ==> !AllPlaced(StrategiesOf(m), AnswersOf(Asked(m.place, SourceID, WithMetadata(kept))), kept)
  {
    var d, asked := m.place, WithMetadata(kept);
    if d.ToHandler? {
      AskedAnswers(d, SourceID, asked);
      var answers := B.AnswersTo(d.answer, ItemsOf(SourceID, asked));
      forall k: nat | k < |kept|
        ensures Gives(d, kept, k, PlacementsOf(answers, kept[k]))
      {
        UserIsGiven(d, kept, k);
      }
      if !Twice(d, SourceID, asked) {
        assert AnswersOf(Asked(d, SourceID, asked)) == answers;
        PlacedAsGiven(m, kept, answers);
      }
    }
  }

  lemma {:induction false} PlacedAsGiven(m: Mapping, kept: seq<User>, answers: map<string, seq<Placement>>)
    requires WellFormed(m) && m.place.ToHandler?
    requires forall k: nat :: k < |kept| ==> Gives(m.place, kept, k, PlacementsOf(answers, kept[k]))
    ensures !Misplaced(m.place, kept) ==> forall k :: 0 <= k < |kept| ==> PlacementsOf(answers, kept[k]) == PlacementsFor(m)(kept[k])
    ensures Misplaced(m.place, kept) ==> !AllPlaced(StrategiesOf(m), answers, kept)
  {
    var d := m.place;
    if Misplaced(d, kept) {
      var k: nat, l: nat :| k < |kept| && l < |kept| && kept[k].sourceID == kept[l].sourceID
                            && !HasMetadata(kept[k]) && HasMetadata(kept[l]) && d.answer(kept[l]) != [];
      assert Borrows(d, kept, k) && Gives(d, kept, k, PlacementsOf(answers, kept[k]));
      NothingToPlace(kept[k], PlacementsOf(answers, kept[k]), m.check);
    } else {
      forall k: nat | k < |kept|
        ensures PlacementsOf(answers, kept[k]) == PlacementsFor(m)(kept[k])
      {
        assert Gives(d, kept, k, PlacementsOf(answers, kept[k]));
      }
    }
  }

  /** What the steps after import.user come to. */
  lemma {:induction false} KeptBatch(m: Mapping, i: nat, kept: seq<User>, skipped: seq<User>)
    requires WellFormed(m) && OneAnswer(m.place, SourceID, WithMetadata(kept))
    ensures PrepareKept(StrategiesOf(m), i, kept, skipped)
            == if Twice(m.place, SourceID, WithMetadata(kept)) || Misplaced(m.place, kept) then Failed
               else Finish(StrategiesOf(m), PlacementsFor(m), kept, skipped)
  {
    PlaceIsEachUser(m, kept);
    if !Twice(m.place, SourceID, WithMetadata(kept)) && !Misplaced(m.place, kept) {
      KeptFinish(StrategiesOf(m), PlacementsFor(m), i, kept, skipped);
    } else if !Twice(m.place, SourceID, WithMetadata(kept)) {
      var answers := AnswersOf(Asked(m.place, SourceID, WithMetadata(kept)));
      assert !AllPlaced(StrategiesOf(m), answers, kept);
    }
  }

  /** A batch fails if it is refused, and else comes to what its users do alone. */
  lemma {:induction false} BatchComesTo(m: Mapping, i: nat, users: seq<User>)
    requires WellFormed(m) && Agrees(m, users)
    ensures PrepareBatch(StrategiesOf(m), i, users) == AloneUnless(Refusals(m), Fates(m), users)
  {
    var s, kept := StrategiesOf(m), KeptOf(AnswerOf(m), users);
    ImportIsEachUser(m, users);
    if !Twice(m.importUser, SourceID, users) {
      AloneFinish(s, AnswerOf(m), PlacementsFor(m), users);
      if AllApply(AnswerOf(m), users) {
        KeptBatch(m, i, kept, DroppedOf(AnswerOf(m), users));
      }
      match s.importUser(i, users)
      case Ignored =>
        AllAreKept(AnswerOf(m), users);
      case Answered(answers) =>
        AnswersKeep(answers, AnswerOf(m), users);
        assert AllApply(AnswerOf(m), users) <==> forall j :: 0 <= j < |users| ==> Applies(answers(users[j].sourceID), users[j]);
    }
  }

  /** In runs over handlers that answer each user by itself, built-in transforms
      and any users, the reader delivers each user prepared alone, up to the
      first batch that is refused or has a fatal user. */
  lemma {:induction false} RefinesEachUser(m: Mapping, batch: nat, users: seq<User>, err: ReadError) returns (j: nat)
    requires WellFormed(m) && batch >= 1
    requires forall k :: 0 <= k < |Cut(users, batch)| ==> Agrees(m, Cut(users, batch)[k])
    ensures Sound(ApplierOf(StrategiesOf(m), batch))
    ensures Refines(Cut(users, batch), 0, err, Fates(m), Refusals(m), Deliver(ApplierOf(StrategiesOf(m), batch), 0, users, err), j)
  {
    PreparationIsSound(StrategiesOf(m), batch);
    var a, batches := ApplierOf(StrategiesOf(m), batch), Cut(users, batch);
    forall k: nat | k < |batches|
      ensures a.prepare(0 + k, batches[k]) == AloneUnless(Refusals(m), Fates(m), batches[k])
    {
      BatchComesTo(m, k, batches[k]);
    }
    j := RefinesPlainReader(a, 0, users, err, Fates(m), Refusals(m));
  }

  /** So the batches do not matter exactly if none is refused: every user is
      delivered as it is prepared alone, with the same error after them, if and
      only if no user is fatal and no handler is sent a source ID twice in one
      batch, nor a user given what was placed for another. */
  lemma {:induction false} BatchesDoNotMatterExactly(m: Mapping, batch: nat, users: seq<User>, err: ReadError)
    requires WellFormed(m) && batch >= 1 && !err.Unprepared?
    requires forall k :: 0 <= k < |Cut(users, batch)| ==> Agrees(m, Cut(users, batch)[k])
    ensures Sound(ApplierOf(StrategiesOf(m), batch))
    ensures PreparedReader.Gives(Deliver(ApplierOf(StrategiesOf(m), batch), 0, users, err), Alone(Fates(m), users), err)
            <==> Alone(Fates(m), users).Ready? && forall k: nat :: k < |Cut(users, batch)| ==> !Refused(m, Cut(users, batch)[k])
  {
    var j := RefinesEachUser(m, batch, users, err);
    var d := Deliver(ApplierOf(StrategiesOf(m), batch), 0, users, err);
    CutIsWhole(users, batch);
    ExactlyIfTaken(m, Cut(users, batch), err, d, j);
  }

  lemma {:induction false} ExactlyIfTaken(m: Mapping, batches: seq<seq<User>>, err: ReadError, d: Delivery<User, seq<Field>>, j: nat)
    requires WellFormed(m) && !err.Unprepared? && Refines(batches, 0, err, Fates(m), Refusals(m), d, j)
    ensures PreparedReader.Gives(d, Alone(Fates(m), Concat(batches)), err)
            <==> Alone(Fates(m), Concat(batches)).Ready? && forall k: nat :: k < |batches| ==> !Refused(m, batches[k])
  {
    PreparedReader.BatchesDoNotMatterExactly(batches, 0, err, Fates(m), Refusals(m), d, j);
    assert forall k: nat :: k < |batches| ==> Refusals(m)(batches[k]) == Refused(m, batches[k]);
  }

  // Users without a repeated source ID.

  lemma {:induction false} KeptStayDistinct(answer: User -> UserAnswer, users: seq<User>)
    requires DistinctIDs(SourceID, users) && AllApply(answer, users)
    ensures DistinctIDs(SourceID, KeptOf(answer, users))
    ensures forall j :: 0 <= j < |KeptOf(answer, users)| ==>
              exists k :: 0 <= k < |users| && users[k].sourceID == KeptOf(answer, users)[j].sourceID
  {
    if users != [] {
      var n := |users| - 1;
      KeptStayDistinct(answer, users[..n]);
      var before := KeptOf(answer, users[..n]);
      forall j | 0 <= j < |before|
        ensures before[j].sourceID != users[n].sourceID && exists k :: 0 <= k < |users| && users[k].sourceID == before[j].sourceID
      {
        var k :| 0 <= k < n && users[..n][k].sourceID == before[j].sourceID;
        assert users[k] == users[..n][k];
      }
      assert Applies(answer(users[n]), users[n]);
    }
  }

  lemma {:induction false} AskedStayDistinct(users: seq<User>)
    requires DistinctIDs(SourceID, users)
    ensures DistinctIDs(SourceID, WithMetadata(users))
  {
    if users != [] {
      var n := |users| - 1;
      AskedStayDistinct(users[..n]);
      forall at | 0 <= at < |WithMetadata(users[..n])|
        ensures WithMetadata(users[..n])[at].sourceID != users[n].sourceID
      {
        var k := OnlyThoseAskedAbout(users[..n], at);
      }
    }
  }

  lemma {:induction false} DistinctBatchIsTaken(m: Mapping, users: seq<User>)
    requires WellFormed(m) && DistinctIDs(SourceID, users)
    ensures Agrees(m, users) && !Refused(m, users)
  {
    var kept := KeptOf(AnswerOf(m), users);
    NeverTwice(m.importUser, SourceID, users);
    if AllApply(AnswerOf(m), users) {
      KeptStayDistinct(AnswerOf(m), users);
      AskedStayDistinct(kept);
      NeverTwice(m.place, SourceID, WithMetadata(kept));
    }
  }

  /** Without a repeated source ID no batch is refused: whatever its handlers
      answer each user, a run delivers all users as they are prepared alone,
      if none is fatal, and else those before the first batch with a fatal one. */
  lemma {:induction false} BatchesDoNotMatter(m: Mapping, batch: nat, users: seq<User>, err: ReadError) returns (j: nat)
    requires WellFormed(m) && batch >= 1 && !err.Unprepared? && DistinctIDs(SourceID, users)
    ensures Sound(ApplierOf(StrategiesOf(m), batch))
    ensures Refines(Cut(users, batch), 0, err, Fates(m), Refusals(m), Deliver(ApplierOf(StrategiesOf(m), batch), 0, users, err), j)
    ensures forall k: nat :: k < |Cut(users, batch)| ==> !Refused(m, Cut(users, batch)[k])
    ensures PreparedReader.Gives(Deliver(ApplierOf(StrategiesOf(m), batch), 0, users, err), Alone(Fates(m), users), err)
            <==> Alone(Fates(m), users).Ready?
  {
    forall k: nat | k < |Cut(users, batch)|
      ensures Agrees(m, Cut(users, batch)[k]) && !Refused(m, Cut(users, batch)[k])
    {
      var start := CutAt(users, batch, k);
      DistinctBatchIsTaken(m, Cut(users, batch)[k]);
    }
    j := RefinesEachUser(m, batch, users, err);
    BatchesDoNotMatterExactly(m, batch, users, err);
  }

  /** The failing input: a user read twice, with import.user delegated two or
      more at a time. The run delivers nothing. */
  lemma {:induction false} UserReadTwiceFails(m: Mapping, batch: nat, u: User)
    requires WellFormed(m) && m.importUser.ToHandler? && m.importUser.size >= 2 && batch >= 2
    ensures Sound(ApplierOf(StrategiesOf(m), batch))
    ensures Deliver(ApplierOf(StrategiesOf(m), batch), 0, [u, u], EOF) == Delivery([], [], Unprepared(0))
  {
    PreparationIsSound(StrategiesOf(m), batch);
    TwiceInTwo(m.importUser, u);
    var a := ApplierOf(StrategiesOf(m), batch);
    assert Asked(m.importUser, SourceID, [u, u]).HandlerFailed?;
    assert a.prepare(0, [u, u]).Failed?;
    FirstBatchFailed(a, [u, u]);
  }

  lemma {:induction false} TwiceInTwo(d: Delegated<User, UserAnswer>, u: User)
    requires d.ToHandler? && d.size >= 2
    ensures Twice(d, SourceID, [u, u])
  {
    var users := [u, u];
    TwiceInOneBatch(d, SourceID, users);
    assert SourceID(users[0]) == SourceID(users[1]);
  }

  lemma {:induction false} FirstBatchFailed(a: Applier<User, seq<Field>>, users: seq<User>)
    requires Sound(a) && 0 < |users| <= a.batch && a.prepare(0, users).Failed?
    ensures Deliver(a, 0, users, EOF) == Delivery([], [], Unprepared(0))
  {
    assert users[..Min(a.batch, |users|)] == users;
    DeliverStep(a, 0, users, EOF);
  }
}
