/** Preparing a batch of users for the target: who is imported, which metadata
    keys move where, and the target's fields. */
module Preparation {

  import opened Delegation
  import opened Metadata
  import opened Options
  import opened PreparedReader
  import opened Transforms

  datatype UserAnswer = Keep | Drop | Replace(user: User) | Unknown

  /** A target field: where its value is looked up, its default and transforms. */
  datatype TargetRule = TargetRule(lookup: User -> Value, target: string, def: string, steps: seq<Step>)

  /** The strategies of an import; a handler's answer may differ from batch to batch. */
  datatype Strategies = Strategies(
    importUser: (nat, seq<User>) -> Handled<string -> UserAnswer>,
    place: (nat, seq<User>) -> Handled<map<string, seq<Placement>>>,
    check: string -> bool,
    routes: seq<Placement>,
    rules: seq<TargetRule>)

  // import.user

  /** The answer's user: kept, replaced by one with the same source ID, or none. */
  predicate Applies(answer: UserAnswer, u: User) {
    answer.Keep? || answer.Drop? || (answer.Replace? && answer.user.sourceID == u.sourceID)
  }

  function KeptUsers(answers: string -> UserAnswer, users: seq<User>): seq<User> {
    if users == [] then []
    else
      var u := users[|users| - 1];
      KeptUsers(answers, users[..|users| - 1])
      + match answers(u.sourceID) case Replace(r) => [r] case Keep => [u] case _ => []
  }

  function DroppedUsers(answers: string -> UserAnswer, users: seq<User>): seq<User> {
    if users == [] then []
    else
      var u := users[|users| - 1];
      DroppedUsers(answers, users[..|users| - 1]) + (if answers(u.sourceID).Drop? then [u] else [])
  }

  function SourceID(u: User): string {
    u.sourceID
  }

  lemma {:induction false} ImportAccounts(answers: string -> UserAnswer, users: seq<User>)
    requires forall i :: 0 <= i < |users| ==> Applies(answers(users[i].sourceID), users[i])
    ensures Accounts(SourceID, users, KeptUsers(answers, users), DroppedUsers(answers, users))
  {
    if users != [] {
      var n := |users| - 1;
      ImportAccounts(answers, users[..n]);
      var u := users[n];
      var kept := match answers(u.sourceID) case Replace(r) => [r] case Keep => [u] case _ => [];
      var dropped := if answers(u.sourceID).Drop? then [u] else [];
      assert [u][1..] == [] && kept[|kept|..] == [] && dropped[|dropped|..] == [];
      assert Accounts(SourceID, [u], kept, dropped);
      AccountsAppend(SourceID, users[..n], KeptUsers(answers, users[..n]), DroppedUsers(answers, users[..n]), [u], kept, dropped);
      assert users == users[..n] + [u];
    }
  }

  /** Each user is kept, replaced or skipped as it was answered, in its place. */
  lemma {:induction false} AnsweredUser(answers: string -> UserAnswer, users: seq<User>, i: nat)
    requires i < |users|
    ensures var kept, dropped := |KeptUsers(answers, users[..i])|, |DroppedUsers(answers, users[..i])|;
            match answers(users[i].sourceID)
            case Keep => kept < |KeptUsers(answers, users)| && KeptUsers(answers, users)[kept] == users[i]
            case Replace(r) => kept < |KeptUsers(answers, users)| && KeptUsers(answers, users)[kept] == r
            case Drop => dropped < |DroppedUsers(answers, users)| && DroppedUsers(answers, users)[dropped] == users[i]
            case Unknown => true
  {
    var n := |users| - 1;
    if i < n {
      AnsweredUser(answers, users[..n], i);
      assert users[..n][..i] == users[..i];
    }
  }

  /** importUser's loop: users kept and skipped, or an answer that can't be applied. */
  method ImportUsers(answers: string -> UserAnswer, users: seq<User>)
    returns (ok: bool, kept: seq<User>, skipped: seq<User>)
    ensures ok <==> forall i :: 0 <= i < |users| ==> Applies(answers(users[i].sourceID), users[i])
    ensures ok ==> kept == KeptUsers(answers, users) && skipped == DroppedUsers(answers, users)
  {
    kept, skipped := [], [];
    for i := 0 to |users|
      invariant forall j :: 0 <= j < i ==> Applies(answers(users[j].sourceID), users[j])
      invariant kept == KeptUsers(answers, users[..i]) && skipped == DroppedUsers(answers, users[..i])
    {
      assert users[..i + 1][..i] == users[..i];
      var u := users[i];
      match answers(u.sourceID) {
        case Keep => kept := kept + [u];
        case Drop => skipped := skipped + [u];
        case Replace(r) =>
          if r.sourceID != u.sourceID {
            return false, [], [];
          }
          kept := kept + [r];
        case Unknown => return false, [], [];
      }
    }
    assert users[..|users|] == users;
    ok := true;
  }

  // metadata.place and the routes

  /** The user's placements, none for a user the handler was not asked about. */
  function PlacementsOf(answers: map<string, seq<Placement>>, u: User): seq<Placement> {
    if u.sourceID in answers then answers[u.sourceID] else []
  }

  predicate AllPlaced(s: Strategies, answers: map<string, seq<Placement>>, users: seq<User>) {
    forall i :: 0 <= i < |users| ==> Placed(users[i], PlacementsOf(answers, users[i]), s.check).Some?
  }

  /** A user after its placements and the routes. */
  function Moved(s: Strategies, answers: map<string, seq<Placement>>, u: User): Taken
    requires Placed(u, PlacementsOf(answers, u), s.check).Some?
  {
    Routed(Placed(u, PlacementsOf(answers, u), s.check).value, s.routes)
  }

  function AllMoved(s: Strategies, answers: map<string, seq<Placement>>, users: seq<User>): (ts: seq<Taken>)
    requires AllPlaced(s, answers, users)
    ensures |ts| == |users| && forall i :: 0 <= i < |users| ==> ts[i] == Moved(s, answers, users[i])
  {
    seq(|users|, i requires 0 <= i < |users| => Moved(s, answers, users[i]))
  }

  /** place: the placements of each user, in place. */
  method Place(s: Strategies, answers: map<string, seq<Placement>>, users: array<User>) returns (ok: bool, out: seq<seq<Field>>)
    modifies users
    ensures ok <==> AllPlaced(s, answers, old(users[..]))
    ensures ok ==> |out| == users.Length
    ensures ok ==> forall i :: 0 <= i < users.Length ==>
                     var t := Placed(old(users[i]), PlacementsOf(answers, old(users[i])), s.check);
                     t.Some? && users[i] == t.value.user && out[i] == FieldsOf(t.value.moves)
  {
    out := [];
    for i := 0 to users.Length
      invariant |out| == i
      invariant forall j :: i <= j < users.Length ==> users[j] == old(users[j])
      invariant forall j :: 0 <= j < i ==>
                  var t := Placed(old(users[j]), PlacementsOf(answers, old(users[j])), s.check);
                  t.Some? && users[j] == t.value.user && out[j] == FieldsOf(t.value.moves)
    {
      var placed, u, fields := PlaceUser(users[i], PlacementsOf(answers, users[i]), s.check);
      if !placed {
        assert Placed(old(users[..])[i], PlacementsOf(answers, old(users[..])[i]), s.check).None?;
        return false, [];
      }
      users[i] := u;
      out := out + [fields];
    }
    ok := true;
  }

  /** route: the routed keys of each user, in place. */
  method Route(routes: seq<Placement>, users: array<User>) returns (out: seq<seq<Field>>)
    modifies users
    ensures |out| == users.Length
    ensures forall i :: 0 <= i < users.Length ==>
              var t := Routed(Taken(old(users[i]), []), routes);
              users[i] == t.user && out[i] == FieldsOf(t.moves)
  {
    out := [];
    for i := 0 to users.Length
      invariant |out| == i
      invariant forall j :: i <= j < users.Length ==> users[j] == old(users[j])
      invariant forall j :: 0 <= j < i ==>
                  var t := Routed(Taken(old(users[j]), []), routes);
                  users[j] == t.user && out[j] == FieldsOf(t.moves)
    {
      var u, fields := RouteUser(users[i], routes);
      users[i] := u;
      out := out + [fields];
    }
  }

  // The target fields

  function Looked(r: TargetRule, u: User): Value {
    var v := r.lookup(u);
    if Empty(v) && r.def != "" then Str(r.def) else v
  }

  function LookedAll(r: TargetRule, users: seq<User>): (vs: seq<Value>)
    ensures |vs| == |users| && forall i :: 0 <= i < |users| ==> vs[i] == Looked(r, users[i])
  {
    seq(|users|, i requires 0 <= i < |users| => Looked(r, users[i]))
  }

  /** A value a transform can work on. */
  predicate IsScalar(v: Value) {
    Empty(v) || v.Str? || v.Scalar?
  }

  function ScalarString(v: Value): string
    requires IsScalar(v)
  {
    match v
    case Str(s) => s
    case Scalar(text) => text
    case _ => ""
  }

  function ScalarStrings(vs: seq<Value>): (strs: seq<string>)
    requires forall i :: 0 <= i < |vs| ==> IsScalar(vs[i])
    ensures |strs| == |vs| && forall i :: 0 <= i < |vs| ==> strs[i] == ScalarString(vs[i])
  {
    seq(|vs|, i requires 0 <= i < |vs| => ScalarString(vs[i]))
  }

  function Strs(strs: seq<string>): (vs: seq<Value>)
    ensures |vs| == |strs| && forall i :: 0 <= i < |vs| ==> vs[i] == Str(strs[i])
  {
    seq(|strs|, i requires 0 <= i < |strs| => Str(strs[i]))
  }

  function SourceIDs(users: seq<User>): (keys: seq<string>)
    ensures |keys| == |users| && forall i :: 0 <= i < |users| ==> keys[i] == users[i].sourceID
  {
    seq(|users|, i requires 0 <= i < |users| => users[i].sourceID)
  }

  /** One target field over all users. */
  function ResolveRule(r: TargetRule, users: seq<User>): (vs: Option<seq<Value>>)
    ensures vs.Some? ==> |vs.value| == |users|
  {
    var values := LookedAll(r, users);
    if |r.steps| == 0 then Some(values)
    else if exists i :: 0 <= i < |values| && !IsScalar(values[i]) then None
    else
      match Column(r.steps, SourceIDs(users), ScalarStrings(values))
      case None => None
      case Some(strs) => Some(Strs(strs))
  }

  function FieldIn(r: TargetRule, v: Value): seq<Field> {
    if Empty(v) then [] else [Field(r.target, v)]
  }

  function AppendFields(r: TargetRule, out: seq<seq<Field>>, vs: seq<Value>): (fields: seq<seq<Field>>)
    requires |out| == |vs|
    ensures |fields| == |out| && forall i :: 0 <= i < |out| ==> fields[i] == out[i] + FieldIn(r, vs[i])
  {
    seq(|out|, i requires 0 <= i < |out| => out[i] + FieldIn(r, vs[i]))
  }

  function NoFields(users: seq<User>): (fields: seq<seq<Field>>)
    ensures |fields| == |users| && forall i :: 0 <= i < |users| ==> fields[i] == []
  {
    seq(|users|, i => [])
  }

  /** The target fields of all users, a field at a time. */
  function Resolved(rules: seq<TargetRule>, users: seq<User>): (fields: Option<seq<seq<Field>>>)
    ensures fields.Some? ==> |fields.value| == |users|
  {
    if |rules| == 0 then Some(NoFields(users))
    else
      var r := rules[|rules| - 1];
      match Resolved(rules[..|rules| - 1], users)
      case None => None
      case Some(out) =>
        match ResolveRule(r, users)
        case None => None
        case Some(vs) => Some(AppendFields(r, out, vs))
  }

  /** What one user's value for a field comes to, if the transforms are built-in. */
  function RuleValueOf(r: TargetRule, u: User): Option<Value>
    requires AllBuiltin(r.steps)
  {
    var v := Looked(r, u);
    if |r.steps| == 0 then Some(v)
    else if !IsScalar(v) then None
    else
      match Through(r.steps, ScalarString(v))
      case None => None
      case Some(s) => Some(Str(s))
  }

  predicate BuiltinRules(rules: seq<TargetRule>) {
    forall i :: 0 <= i < |rules| ==> AllBuiltin(rules[i].steps)
  }

  /** The target fields of one user alone. */
  function UserFields(rules: seq<TargetRule>, u: User): Option<seq<Field>>
    requires BuiltinRules(rules)
  {
    if |rules| == 0 then Some([])
    else
      var r := rules[|rules| - 1];
      match UserFields(rules[..|rules| - 1], u)
      case None => None
      case Some(fs) =>
        match RuleValueOf(r, u)
        case None => None
        case Some(v) => Some(fs + FieldIn(r, v))
  }

  /** A rule's field of a user comes after those of the rules before it: what
      was looked up, or the default if that is empty, through the transforms if
      there are any; and no field if the value ends up empty. */
  lemma {:induction false} TargetFieldIs(rules: seq<TargetRule>, u: User, k: nat)
    requires BuiltinRules(rules) && UserFields(rules, u).Some? && k < |rules|
    ensures UserFields(rules[..k], u).Some?
    ensures var r := rules[k];
            var looked := r.lookup(u);
            var v := if looked in {Null, Str("")} && r.def != "" then Str(r.def) else looked;
            var before, fields := UserFields(rules[..k], u).value, UserFields(rules, u).value;
            && (|r.steps| == 0 && v !in {Null, Str("")} ==> before + [Field(r.target, v)] <= fields)
            && (|r.steps| > 0 ==>
                  && !v.Composite?
                  && var through := Through(r.steps, match v case Null => "" case Str(s) => s case Scalar(text) => text case _ => "");
                     && through.Some?
                     && (through.value != "" ==> before + [Field(r.target, Str(through.value))] <= fields))
  {
    var n := |rules| - 1;
    if k < n {
      TargetFieldIs(rules[..n], u, k);
      assert rules[..n][..k] == rules[..k];
    }
  }

  /** Each field is that of a rule. */
  lemma {:induction false} OnlyRulesGiveFields(rules: seq<TargetRule>, u: User, at: nat) returns (k: nat)
    requires BuiltinRules(rules) && UserFields(rules, u).Some? && at < |UserFields(rules, u).value|
    ensures k < |rules| && UserFields(rules[..k], u).Some? && at == |UserFields(rules[..k], u).value|
    ensures UserFields(rules, u).value[at].path == rules[k].target && UserFields(rules, u).value[at].value !in {Null, Str("")}
  {
    var n := |rules| - 1;
    if at < |UserFields(rules[..n], u).value| {
      k := OnlyRulesGiveFields(rules[..n], u, at);
      assert rules[..n][..k] == rules[..k];
    } else {
      k := n;
    }
  }

  lemma ResolveRuleIsEachUser(r: TargetRule, users: seq<User>)
    requires AllBuiltin(r.steps)
    ensures ResolveRule(r, users).Some? <==> forall i :: 0 <= i < |users| ==> RuleValueOf(r, users[i]).Some?
    ensures ResolveRule(r, users).Some? ==>
              forall i :: 0 <= i < |users| ==> RuleValueOf(r, users[i]) == Some(ResolveRule(r, users).value[i])
  {
    var values := LookedAll(r, users);
    if |r.steps| == 0 {
    } else if exists i :: 0 <= i < |values| && !IsScalar(values[i]) {
      var i :| 0 <= i < |values| && !IsScalar(values[i]);
      assert RuleValueOf(r, users[i]).None?;
    } else {
      var strs := ScalarStrings(values);
      ColumnIsEachValue(r.steps, SourceIDs(users), strs);
      if Column(r.steps, SourceIDs(users), strs).None? {
        var i :| 0 <= i < |strs| && Through(r.steps, strs[i]).None?;
        assert RuleValueOf(r, users[i]).None?;
      } else {
        assert forall i :: 0 <= i < |users| ==> strs[i] == ScalarString(Looked(r, users[i]));
      }
    }
  }

  /** Field by field over all users is field by field for each user. */
  lemma {:induction false} ResolvedIsEachUser(rules: seq<TargetRule>, users: seq<User>)
    requires BuiltinRules(rules)
    ensures Resolved(rules, users).Some? <==> forall i :: 0 <= i < |users| ==> UserFields(rules, users[i]).Some?
    ensures Resolved(rules, users).Some? ==>
              forall i :: 0 <= i < |users| ==> UserFields(rules, users[i]) == Some(Resolved(rules, users).value[i])
  {
    if |rules| > 0 {
      var n := |rules| - 1;
      ResolvedIsEachUser(rules[..n], users);
      ResolveRuleIsEachUser(rules[n], users);
      if Resolved(rules[..n], users).None? {
        var i :| 0 <= i < |users| && UserFields(rules[..n], users[i]).None?;
        assert UserFields(rules, users[i]).None?;
      } else if ResolveRule(rules[n], users).None? {
        var i :| 0 <= i < |users| && RuleValueOf(rules[n], users[i]).None?;
        assert UserFields(rules, users[i]).None?;
      }
    }
  }

  /** The values of one field, as strings where it has transforms. */
  method LookUp(r: TargetRule, users: seq<User>) returns (ok: bool, values: seq<Value>, strs: seq<string>)
    ensures values == LookedAll(r, users) || !ok
    ensures ok && |r.steps| > 0 ==> (forall i :: 0 <= i < |values| ==> IsScalar(values[i])) && strs == ScalarStrings(values)
    ensures !ok ==> |r.steps| > 0 && exists i :: 0 <= i < |users| && !IsScalar(LookedAll(r, users)[i])
  {
    values, strs := [], [];
    for i := 0 to |users|
      invariant |values| == i && forall j :: 0 <= j < i ==> values[j] == Looked(r, users[j])
      invariant |r.steps| > 0 ==> forall j :: 0 <= j < i ==> IsScalar(values[j])
      invariant |r.steps| > 0 ==> |strs| == i && forall j :: 0 <= j < i ==> strs[j] == ScalarString(values[j])
    {
      var v := r.lookup(users[i]);
      if Empty(v) && r.def != "" {
        v := Str(r.def);
      }
      values := values + [v];
      if |r.steps| > 0 {
        if !IsScalar(v) {
          assert !IsScalar(LookedAll(r, users)[i]);
          return false, values, strs;
        }
        strs := strs + [ScalarString(v)];
      }
    }
    ok := true;
  }

  method ResolveOne(r: TargetRule, users: seq<User>) returns (vs: Option<seq<Value>>)
    ensures vs == ResolveRule(r, users)
  {
    var ok, values, strs := LookUp(r, users);
    if !ok {
      return None;
    }
    if |r.steps| == 0 {
      return Some(values);
    }
    var column := new string[|strs|](k requires 0 <= k < |strs| => strs[k]);
    assert column[..] == strs;
    var err := Apply(r.steps, SourceIDs(users), column);
    if err.Some? {
      return None;
    }
    return Some(Strs(column[..]));
  }

  lemma {:induction false} ResolvesNoFurther(rules: seq<TargetRule>, users: seq<User>, k: nat)
    requires k <= |rules| && Resolved(rules[..k], users).None?
    ensures Resolved(rules, users).None?
    decreases |rules| - k
  {
    if k == |rules| {
      assert rules[..k] == rules;
    } else {
      assert rules[..k + 1][..k] == rules[..k];
      ResolvesNoFurther(rules, users, k + 1);
    }
  }

  /** Resolve: the target fields of each user, a field at a time. */
  method Resolve(rules: seq<TargetRule>, users: seq<User>) returns (fields: Option<seq<seq<Field>>>)
    ensures fields == Resolved(rules, users)
  {
    var out := NoFields(users);
    for k := 0 to |rules|
      invariant |out| == |users| && Resolved(rules[..k], users) == Some(out)
    {
      assert rules[..k + 1][..k] == rules[..k];
      var vs := ResolveOne(rules[k], users);
      if vs.None? {
        ResolvesNoFurther(rules, users, k + 1);
        return None;
      }
      out := AppendFields(rules[k], out, vs.value);
    }
    assert rules[..|rules|] == rules;
    return Some(out);
  }

  // A batch

  function UsersOf(ts: seq<Taken>): (us: seq<User>)
    ensures |us| == |ts| && forall i :: 0 <= i < |us| ==> us[i] == ts[i].user
  {
    seq(|ts|, i requires 0 <= i < |ts| => ts[i].user)
  }

  /** The order decides overlaps: of two fields on one path the later kind wins. */
  function Joined(ts: seq<Taken>, resolved: seq<seq<Field>>): (fields: seq<seq<Field>>)
    requires |ts| == |resolved|
    ensures |fields| == |ts| && forall i :: 0 <= i < |ts| ==> fields[i] == FieldsOf(ts[i].moves) + resolved[i]
  {
    seq(|ts|, i requires 0 <= i < |ts| => FieldsOf(ts[i].moves) + resolved[i])
  }

  function PreparePlaced(s: Strategies, answers: map<string, seq<Placement>>, kept: seq<User>, skipped: seq<User>): Prepared<User, seq<Field>>
    requires AllPlaced(s, answers, kept)
  {
    var ts := AllMoved(s, answers, kept);
    match Resolved(s.rules, UsersOf(ts))
    case None => Failed
    case Some(fields) => Ready(UsersOf(ts), Joined(ts, fields), skipped)
  }

  function PrepareKept(s: Strategies, i: nat, kept: seq<User>, skipped: seq<User>): Prepared<User, seq<Field>> {
    match s.place(i, kept)
    case HandlerFailed => Failed
    case Ignored =>
      PreparePlaced(s, map[], kept, skipped)
    case Answered(answers) =>
      if AllPlaced(s, answers, kept) then PreparePlaced(s, answers, kept, skipped) else Failed
  }

  /** What batch number i comes to. */
  function PrepareBatch(s: Strategies, i: nat, users: seq<User>): Prepared<User, seq<Field>> {
    match s.importUser(i, users)
    case HandlerFailed => Failed
    case Ignored => PrepareKept(s, i, users, [])
    case Answered(answers) =>
      if forall j :: 0 <= j < |users| ==> Applies(answers(users[j].sourceID), users[j])
      then PrepareKept(s, i, KeptUsers(answers, users), DroppedUsers(answers, users))
      else Failed
  }

  /** prepare. */
  method Prepare(s: Strategies, i: nat, users: seq<User>) returns (p: Prepared<User, seq<Field>>)
    ensures p == PrepareBatch(s, i, users)
  {
    var kept, skipped := users, [];
    match s.importUser(i, users) {
      case HandlerFailed => return Failed;
      case Ignored =>
      case Answered(answers) =>
        var ok;
        ok, kept, skipped := ImportUsers(answers, users);
        if !ok {
          return Failed;
        }
    }
    p := PrepareImported(s, i, kept, skipped);
  }

  method PrepareImported(s: Strategies, i: nat, kept: seq<User>, skipped: seq<User>) returns (p: Prepared<User, seq<Field>>)
    ensures p == PrepareKept(s, i, kept, skipped)
  {
    var answers := map[];
    match s.place(i, kept) {
      case HandlerFailed => return Failed;
      case Ignored =>
      case Answered(ans) => answers := ans;
    }
    var users := new User[|kept|](k requires 0 <= k < |kept| => kept[k]);
    assert users[..] == kept;
    var ok, placed := Place(s, answers, users);
    if !ok {
      return Failed;
    }
    p := PrepareMoved(s, answers, kept, skipped, users, placed);
  }

  method PrepareMoved(s: Strategies, answers: map<string, seq<Placement>>, kept: seq<User>, skipped: seq<User>,
                      users: array<User>, placed: seq<seq<Field>>)
    returns (p: Prepared<User, seq<Field>>)
    requires AllPlaced(s, answers, kept) && users.Length == |kept| == |placed|
    requires forall i :: 0 <= i < |kept| ==>
               var t := Placed(kept[i], PlacementsOf(answers, kept[i]), s.check).value;
               users[i] == t.user && placed[i] == FieldsOf(t.moves)
    modifies users
    ensures p == PreparePlaced(s, answers, kept, skipped)
  {
    ghost var ts := AllMoved(s, answers, kept);
    var routed := Route(s.routes, users);
    forall i | 0 <= i < |kept|
      ensures users[i] == ts[i].user && placed[i] + routed[i] == FieldsOf(ts[i].moves)
    {
      var t := Placed(kept[i], PlacementsOf(answers, kept[i]), s.check).value;
      RoutedFrom(t, s.routes);
      FieldsOfAppend(t.moves, Routed(Taken(t.user, []), s.routes).moves);
    }
    assert users[..] == UsersOf(ts);
    var fields := Resolve(s.rules, users[..]);
    if fields.None? {
      return Failed;
    }
    var all := seq(|kept|, i requires 0 <= i < |kept| => placed[i] + routed[i] + fields.value[i]);
    assert all == Joined(ts, fields.value);
    p := Ready(users[..], all, skipped);
  }

  // What a preparation keeps

  lemma {:induction false} AccountsBySourceID(users: seq<User>, kept: seq<User>, skipped: seq<User>, changed: seq<User>)
    requires Accounts(SourceID, users, kept, skipped)
    requires |changed| == |kept| && forall i :: 0 <= i < |kept| ==> changed[i].sourceID == kept[i].sourceID
    ensures Accounts(SourceID, users, changed, skipped)
    decreases |users|
  {
    if users != [] {
      if kept != [] && SourceID(kept[0]) == SourceID(users[0]) && Accounts(SourceID, users[1..], kept[1..], skipped) {
        AccountsBySourceID(users[1..], kept[1..], skipped, changed[1..]);
      } else {
        AccountsBySourceID(users[1..], kept, skipped[1..], changed);
      }
    }
  }

  lemma {:induction false} AllKeptAccounts(users: seq<User>)
    ensures Accounts(SourceID, users, users, [])
  {
    if users != [] {
      AllKeptAccounts(users[1..]);
    }
  }

  lemma PlacedAccounts(s: Strategies, answers: map<string, seq<Placement>>, users: seq<User>, kept: seq<User>, skipped: seq<User>)
    requires AllPlaced(s, answers, kept) && Accounts(SourceID, users, kept, skipped)
    ensures var p := PreparePlaced(s, answers, kept, skipped);
            p.Ready? ==> |p.users| == |p.fields| && Accounts(SourceID, users, p.users, p.skipped)
  {
    var ts := AllMoved(s, answers, kept);
    forall i | 0 <= i < |kept|
      ensures ts[i].user.sourceID == kept[i].sourceID
    {
      MetadataIsConserved(kept[i], PlacementsOf(answers, kept[i]), s.routes, s.check);
    }
    AccountsBySourceID(users, kept, skipped, UsersOf(ts));
  }

  lemma BatchIsAccountedFor(s: Strategies, i: nat, users: seq<User>)
    ensures var p := PrepareBatch(s, i, users);
            p.Ready? ==> |p.users| == |p.fields| && Accounts(SourceID, users, p.users, p.skipped)
  {
    match s.importUser(i, users)
    case HandlerFailed =>
    case Ignored =>
      AllKeptAccounts(users);
      KeptIsAccountedFor(s, i, users, users, []);
    case Answered(answers) =>
      if forall j :: 0 <= j < |users| ==> Applies(answers(users[j].sourceID), users[j]) {
        ImportAccounts(answers, users);
        KeptIsAccountedFor(s, i, users, KeptUsers(answers, users), DroppedUsers(answers, users));
      }
  }

  lemma KeptIsAccountedFor(s: Strategies, i: nat, users: seq<User>, kept: seq<User>, skipped: seq<User>)
    requires Accounts(SourceID, users, kept, skipped)
    ensures var p := PrepareKept(s, i, kept, skipped);
            p.Ready? ==> |p.users| == |p.fields| && Accounts(SourceID, users, p.users, p.skipped)
  {
    match s.place(i, kept)
    case HandlerFailed =>
    case Ignored => PlacedAccounts(s, map[], users, kept, skipped);
    case Answered(answers) =>
      if AllPlaced(s, answers, kept) {
        PlacedAccounts(s, answers, users, kept, skipped);
      }
  }

  /** A batch is prepared exactly if import.user and metadata.place give answers
      or are ignored, every answer of theirs can be applied, and every target
      field can be resolved; those skipped are the users the answers drop. */
  lemma {:induction false} PreparedExactly(s: Strategies, i: nat, users: seq<User>)
    ensures var answers := s.importUser(i, users);
            var kept := if answers.Answered? then KeptUsers(answers.answers, users) else users;
            var dropped := if answers.Answered? then DroppedUsers(answers.answers, users) else [];
            var places := s.place(i, kept);
            var placements := if places.Answered? then places.answers else map[];
            var p := PrepareBatch(s, i, users);
            && (p.Ready? <==>
                  && !answers.HandlerFailed? && !places.HandlerFailed?
                  && (answers.Answered? ==>
                        forall j :: 0 <= j < |users| ==>
                          match answers.answers(users[j].sourceID)
                          case Keep => true
                          case Drop => true
                          case Replace(r) => r.sourceID == users[j].sourceID
                          case Unknown => false)
                  && AllPlaced(s, placements, kept)
                  && Resolved(s.rules, UsersOf(AllMoved(s, placements, kept))).Some?)
            && (p.Ready? ==> p == PreparePlaced(s, placements, kept, dropped) && p.skipped == dropped)
  {
    var answers := s.importUser(i, users);
    var kept := if answers.Answered? then KeptUsers(answers.answers, users) else users;
    if s.place(i, kept).Ignored? {
      NothingPlaced(s, kept);
    }
  }

  lemma {:induction false} NothingPlaced(s: Strategies, users: seq<User>)
    ensures AllPlaced(s, map[], users)
  {
  }

  /** The Applier of the strategies, for a Reader. */
  function ApplierOf(s: Strategies, batch: nat): Applier<User, seq<Field>> {
    Applier(batch, (i, users) => PrepareBatch(s, i, users), SourceID)
  }

  /** Whatever the strategies and their handlers answer, a Reader over them
      neither loses nor repeats a user, and keeps fields with their users. */
  lemma PreparationIsSound(s: Strategies, batch: nat)
    requires batch >= 1
    ensures Sound(ApplierOf(s, batch))
  {
    forall i: nat, users: seq<User>
      ensures var p := ApplierOf(s, batch).prepare(i, users);
              p.Ready? ==> |p.users| == |p.fields| && Accounts(SourceID, users, p.users, p.skipped)
    {
      BatchIsAccountedFor(s, i, users);
    }
  }

  /** The fields of a prepared user are those of the metadata moved from it,
      placements before routes, and then its target fields. */
  lemma PreparedFields(s: Strategies, answers: map<string, seq<Placement>>, kept: seq<User>, skipped: seq<User>, i: nat)
    requires AllPlaced(s, answers, kept) && PreparePlaced(s, answers, kept, skipped).Ready? && i < |kept|
    ensures var p, placed := PreparePlaced(s, answers, kept, skipped), Placed(kept[i], PlacementsOf(answers, kept[i]), s.check).value;
            var routed := Routed(Taken(placed.user, []), s.routes);
            var moved := Taken(routed.user, placed.moves + routed.moves);
            && |p.users| == |p.fields| == |kept| && p.users[i] == moved.user && Conserves(kept[i], moved)
            && Resolved(s.rules, p.users).Some?
            && p.fields[i] == FieldsOf(placed.moves) + FieldsOf(routed.moves) + Resolved(s.rules, p.users).value[i]
  {
    var placed := Placed(kept[i], PlacementsOf(answers, kept[i]), s.check).value;
    MetadataIsConserved(kept[i], PlacementsOf(answers, kept[i]), s.routes, s.check);
    RoutedFrom(placed, s.routes);
    FieldsOfAppend(placed.moves, Routed(Taken(placed.user, []), s.routes).moves);
  }
}
