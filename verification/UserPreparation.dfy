/** A batch whose users are prepared one by one: the handlers' answers are looked
    at user by user, and the transforms are built in. */
module UserPreparation {

  import opened Delegation
  import opened Metadata
  import opened Options
  import opened Preparation
  import opened PreparedReader

  /** What import.user came to for a batch is what answer says of each of its users. */
  predicate AnswersEach(outcome: Handled<string -> UserAnswer>, answer: User -> UserAnswer, users: seq<User>) {
    match outcome
    case HandlerFailed => false
    case Ignored => forall k :: 0 <= k < |users| ==> answer(users[k]) == Keep
    case Answered(answers) => forall k :: 0 <= k < |users| ==> answers(users[k].sourceID) == answer(users[k])
  }

  /** So is what metadata.place came to. */
  predicate PlacesEach(outcome: Handled<map<string, seq<Placement>>>, placements: User -> seq<Placement>, users: seq<User>) {
    && !outcome.HandlerFailed?
    && forall k :: 0 <= k < |users| ==> PlacementsOf(AnswersOf(outcome), users[k]) == placements(users[k])
  }

  function AnswersOf(outcome: Handled<map<string, seq<Placement>>>): map<string, seq<Placement>> {
    if outcome.Answered? then outcome.answers else map[]
  }

  /** What a user that is imported comes to. */
  function Finished(s: Strategies, placements: User -> seq<Placement>, u: User): Fate<User, seq<Field>>
    requires BuiltinRules(s.rules)
  {
    match Placed(u, placements(u), s.check)
    case None => Fatal
    case Some(placed) =>
      var t := Routed(placed, s.routes);
      match UserFields(s.rules, t.user)
      case None => Fatal
      case Some(fields) => Kept(t.user, FieldsOf(t.moves) + fields)
  }

  /** The user import.user makes of u, if any. */
  function Imported(answer: UserAnswer, u: User): seq<User> {
    match answer
    case Keep => [u]
    case Replace(r) => [r]
    case _ => []
  }

  /** What becomes of one user, whatever batch it is read in. */
  function FateOf(s: Strategies, answer: User -> UserAnswer, placements: User -> seq<Placement>, u: User): Fate<User, seq<Field>>
    requires BuiltinRules(s.rules)
  {
    if !Applies(answer(u), u) then Fatal
    else if answer(u).Drop? then Skipped
    else Finished(s, placements, Imported(answer(u), u)[0])
  }

  function FatesOf(s: Strategies, answer: User -> UserAnswer, placements: User -> seq<Placement>): User -> Fate<User, seq<Field>>
    requires BuiltinRules(s.rules)
  {
    u => FateOf(s, answer, placements, u)
  }

  predicate AllFinish(s: Strategies, placements: User -> seq<Placement>, kept: seq<User>)
    requires BuiltinRules(s.rules)
  {
    forall k :: 0 <= k < |kept| ==> Finished(s, placements, kept[k]).Kept?
  }

  /** The kept users finished one by one. */
  function Finish(s: Strategies, placements: User -> seq<Placement>, kept: seq<User>, skipped: seq<User>): Prepared<User, seq<Field>>
    requires BuiltinRules(s.rules)
  {
    if AllFinish(s, placements, kept)
    then Ready(seq(|kept|, k requires 0 <= k < |kept| => Finished(s, placements, kept[k]).user),
               seq(|kept|, k requires 0 <= k < |kept| => Finished(s, placements, kept[k]).field), skipped)
    else Failed
  }

  lemma MovedFinishes(s: Strategies, placements: User -> seq<Placement>, answers: map<string, seq<Placement>>, u: User)
    requires BuiltinRules(s.rules)
    requires Placed(u, PlacementsOf(answers, u), s.check).Some? && PlacementsOf(answers, u) == placements(u)
    ensures var t := Moved(s, answers, u);
            Finished(s, placements, u)
            == match UserFields(s.rules, t.user)
               case None => Fatal
               case Some(fields) => Kept(t.user, FieldsOf(t.moves) + fields)
  {
  }

  /** Fields resolved for all users are as good as each user's own. */
  lemma ResolvedFinish(s: Strategies, ts: seq<Taken>, fates: seq<Fate<User, seq<Field>>>, fields: seq<seq<Field>>)
    requires BuiltinRules(s.rules) && |ts| == |fates| && Resolved(s.rules, UsersOf(ts)) == Some(fields)
    requires forall k :: 0 <= k < |ts| ==>
               fates[k] == match UserFields(s.rules, ts[k].user)
                           case None => Fatal
                           case Some(fs) => Kept(ts[k].user, FieldsOf(ts[k].moves) + fs)
    ensures forall k :: 0 <= k < |ts| ==> fates[k] == Kept(ts[k].user, Preparation.Joined(ts, fields)[k])
  {
    var users := UsersOf(ts);
    ResolvedIsEachUser(s.rules, users);
    forall k | 0 <= k < |ts|
      ensures fates[k] == Kept(ts[k].user, Preparation.Joined(ts, fields)[k])
    {
      assert UserFields(s.rules, users[k]) == Some(fields[k]);
    }
  }

  lemma PlacedFinish(s: Strategies, placements: User -> seq<Placement>, answers: map<string, seq<Placement>>,
                     kept: seq<User>, skipped: seq<User>)
    requires BuiltinRules(s.rules) && AllPlaced(s, answers, kept)
    requires forall k :: 0 <= k < |kept| ==> PlacementsOf(answers, kept[k]) == placements(kept[k])
    ensures PreparePlaced(s, answers, kept, skipped) == Finish(s, placements, kept, skipped)
  {
    var ts := AllMoved(s, answers, kept);
    var users := UsersOf(ts);
    var fates := seq(|kept|, k requires 0 <= k < |kept| => Finished(s, placements, kept[k]));
    forall k | 0 <= k < |kept|
      ensures fates[k] == match UserFields(s.rules, ts[k].user)
                          case None => Fatal
                          case Some(fields) => Kept(ts[k].user, FieldsOf(ts[k].moves) + fields)
    {
      MovedFinishes(s, placements, answers, kept[k]);
    }
    match Resolved(s.rules, users)
    case None =>
      ResolvedIsEachUser(s.rules, users);
      var k :| 0 <= k < |users| && UserFields(s.rules, users[k]).None?;
      assert fates[k].Fatal?;
    case Some(fields) =>
      ResolvedFinish(s, ts, fates, fields);
      assert forall k :: 0 <= k < |kept| ==> Finished(s, placements, kept[k]) == fates[k];
      var p := Finish(s, placements, kept, skipped);
      assert p.Ready? && p.users == users && p.fields == Preparation.Joined(ts, fields);
  }

  /** The steps after import.user come to what they do for each user. */
  lemma KeptFinish(s: Strategies, placements: User -> seq<Placement>, i: nat, kept: seq<User>, skipped: seq<User>)
    requires BuiltinRules(s.rules) && PlacesEach(s.place(i, kept), placements, kept)
    ensures PrepareKept(s, i, kept, skipped) == Finish(s, placements, kept, skipped)
  {
    var answers := AnswersOf(s.place(i, kept));
    if AllPlaced(s, answers, kept) {
      PlacedFinish(s, placements, answers, kept, skipped);
    } else {
      var k :| 0 <= k < |kept| && Placed(kept[k], PlacementsOf(answers, kept[k]), s.check).None?;
      assert Finished(s, placements, kept[k]).Fatal?;
    }
    if s.place(i, kept).Ignored? {
      assert forall k :: 0 <= k < |kept| ==> Placed(kept[k], [], s.check) == Some(Taken(kept[k], []));
    }
  }

  lemma FinishOneMore(s: Strategies, placements: User -> seq<Placement>, kept: seq<User>, skipped: seq<User>, u: User)
    requires BuiltinRules(s.rules)
    ensures Finish(s, placements, kept + [u], skipped) == Then(Finish(s, placements, kept, skipped), u, Finished(s, placements, u))
  {
    var more := kept + [u];
    assert AllFinish(s, placements, more) <==> AllFinish(s, placements, kept) && Finished(s, placements, u).Kept? by {
      assert more[|kept|] == u && forall k :: 0 <= k < |kept| ==> more[k] == kept[k];
    }
  }

  predicate AllApply(answer: User -> UserAnswer, users: seq<User>) {
    forall k :: 0 <= k < |users| ==> Applies(answer(users[k]), users[k])
  }

  /** The users imported, and those dropped. */
  function KeptOf(answer: User -> UserAnswer, users: seq<User>): seq<User> {
    if users == [] then []
    else
      var u := users[|users| - 1];
      KeptOf(answer, users[..|users| - 1]) + Imported(answer(u), u)
  }

  function DroppedOf(answer: User -> UserAnswer, users: seq<User>): seq<User> {
    if users == [] then []
    else
      var u := users[|users| - 1];
      DroppedOf(answer, users[..|users| - 1]) + (if answer(u).Drop? then [u] else [])
  }

  /** Users alone come to the kept ones finished, beside the dropped ones. */
  lemma {:induction false} AloneFinish(s: Strategies, answer: User -> UserAnswer, placements: User -> seq<Placement>, users: seq<User>)
    requires BuiltinRules(s.rules)
    ensures Alone(FatesOf(s, answer, placements), users)
            == if AllApply(answer, users) then Finish(s, placements, KeptOf(answer, users), DroppedOf(answer, users)) else Failed
  {
    if users != [] {
      var n := |users| - 1;
      AloneFinish(s, answer, placements, users[..n]);
      AllApplyOneMore(answer, users);
      if Applies(answer(users[n]), users[n]) {
        FinishOneMoreRead(s, answer, placements, KeptOf(answer, users[..n]), DroppedOf(answer, users[..n]), users[n]);
      }
    }
  }

  lemma AllApplyOneMore(answer: User -> UserAnswer, users: seq<User>)
    requires users != []
    ensures var n := |users| - 1; AllApply(answer, users) <==> AllApply(answer, users[..n]) && Applies(answer(users[n]), users[n])
  {
    assert users[..|users| - 1] + [users[|users| - 1]] == users;
  }

  lemma FinishOneMoreRead(s: Strategies, answer: User -> UserAnswer, placements: User -> seq<Placement>,
                          kept: seq<User>, dropped: seq<User>, u: User)
    requires BuiltinRules(s.rules) && Applies(answer(u), u)
    ensures Finish(s, placements, kept + Imported(answer(u), u), dropped + (if answer(u).Drop? then [u] else []))
            == Then(Finish(s, placements, kept, dropped), u, FateOf(s, answer, placements, u))
  {
    if answer(u).Drop? {
      FinishOneMoreDropped(s, placements, kept, dropped, u);
    } else {
      FinishOneMore(s, placements, kept, dropped, Imported(answer(u), u)[0]);
      assert dropped + [] == dropped;
    }
  }

  lemma FinishOneMoreDropped(s: Strategies, placements: User -> seq<Placement>, kept: seq<User>, dropped: seq<User>, u: User)
    requires BuiltinRules(s.rules)
    ensures Finish(s, placements, kept + [], dropped + [u]) == Then(Finish(s, placements, kept, dropped), u, Skipped)
  {
    assert kept + [] == kept;
  }

  lemma {:induction false} AnswersKeep(answers: string -> UserAnswer, answer: User -> UserAnswer, users: seq<User>)
    requires forall k :: 0 <= k < |users| ==> answers(users[k].sourceID) == answer(users[k])
    ensures KeptUsers(answers, users) == KeptOf(answer, users) && DroppedUsers(answers, users) == DroppedOf(answer, users)
  {
    if users != [] {
      AnswersKeep(answers, answer, users[..|users| - 1]);
    }
  }

  lemma {:induction false} AllAreKept(answer: User -> UserAnswer, users: seq<User>)
    requires forall k :: 0 <= k < |users| ==> answer(users[k]) == Keep
    ensures KeptOf(answer, users) == users && DroppedOf(answer, users) == []
  {
    if users != [] {
      AllAreKept(answer, users[..|users| - 1]);
    }
  }
}
