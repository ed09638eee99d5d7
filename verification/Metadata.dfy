/** Moving metadata keys away from where a connector puts them: the placements
    a handler decides, then the mapping's static routes. */
module Metadata {

  import opened Options

  /** A JSON value; a scalar that is not a string is known by its text. */
  datatype Value = Null | Str(s: string) | Scalar(text: string) | Composite(id: nat)

  predicate Empty(v: Value) {
    v == Null || v == Str("")
  }

  datatype Origin = AppMetadata | UserMetadata | Elsewhere

  datatype User = User(sourceID: string, app: map<string, Value>, own: map<string, Value>, rest: nat)

  datatype Field = Field(path: string, value: Value)

  datatype Placement = Placement(key: string, from: Origin, destination: string)

  /** A key taken out of a user, and where it goes. */
  datatype Move = Move(key: string, from: Origin, destination: string, value: Value)

  /** A user, and what was taken out of it so far. */
  datatype Taken = Taken(user: User, moves: seq<Move>)

  const DROP := "drop"

  function MetadataOf(u: User, from: Origin): map<string, Value> {
    if from == AppMetadata then u.app else u.own
  }

  function Without(u: User, from: Origin, key: string): User {
    if from == AppMetadata then u.(app := u.app - {key}) else u.(own := u.own - {key})
  }

  function TakeOut(t: Taken, p: Placement): Taken {
    var from := MetadataOf(t.user, p.from);
    if p.key in from then Taken(Without(t.user, p.from, p.key), t.moves + [Move(p.key, p.from, p.destination, from[p.key])])
    else t
  }

  /** The move's value goes on to the target: it is neither dropped nor empty. */
  predicate Survives(m: Move) {
    m.destination != DROP && !Empty(m.value)
  }

  function Survivors(moves: seq<Move>): nat {
    if moves == [] then 0 else Survivors(moves[..|moves| - 1]) + (if Survives(moves[|moves| - 1]) then 1 else 0)
  }

  function FieldsOf(moves: seq<Move>): seq<Field> {
    if moves == [] then []
    else
      var m := moves[|moves| - 1];
      FieldsOf(moves[..|moves| - 1])
      + (if Survives(m) then [Field(m.destination, m.value)] else [])
  }

  /** A placement the import takes, if the user has the key. */
  predicate Allowed(p: Placement, check: string -> bool) {
    && p.key != "" && p.destination != "" && p.from != Elsewhere
    && (p.destination == DROP || check(p.destination))
  }

  /** A user after its placements; one of a missing or already placed key fails. */
  function Placed(u: User, ps: seq<Placement>, check: string -> bool): Option<Taken> {
    if ps == [] then Some(Taken(u, []))
    else
      var p := ps[|ps| - 1];
      match Placed(u, ps[..|ps| - 1], check)
      case None => None
      case Some(t) =>
        if Allowed(p, check) && p.key in MetadataOf(t.user, p.from) then Some(TakeOut(t, p)) else None
  }

  /** A user after the routes, which skip the keys it doesn't have. */
  function Routed(t: Taken, routes: seq<Placement>): Taken {
    if routes == [] then t else TakeOut(Routed(t, routes[..|routes| - 1]), routes[|routes| - 1])
  }

  /** The move took this key out. */
  predicate Takes(m: Move, from: Origin, key: string) {
    m.key == key && (m.from == AppMetadata <==> from == AppMetadata)
  }

  predicate TakenOut(moves: seq<Move>, from: Origin, key: string) {
    exists i :: 0 <= i < |moves| && Takes(moves[i], from, key)
  }

  predicate OnceEach(moves: seq<Move>) {
    forall i, j :: 0 <= i < j < |moves| ==> !Takes(moves[i], moves[j].from, moves[j].key)
  }

  /** Each key of the user either stayed on it, or was taken out once with its value. */
  ghost predicate Conserves(u: User, t: Taken) {
    && OnceEach(t.moves)
    && (forall from: Origin, key: string ::
          key in MetadataOf(t.user, from) <==> key in MetadataOf(u, from) && !TakenOut(t.moves, from, key))
    && (forall from: Origin, key: string ::
          key in MetadataOf(t.user, from) ==> MetadataOf(t.user, from)[key] == MetadataOf(u, from)[key])
    && (forall i :: 0 <= i < |t.moves| ==>
          t.moves[i].key in MetadataOf(u, t.moves[i].from) && MetadataOf(u, t.moves[i].from)[t.moves[i].key] == t.moves[i].value)
    && t.user.sourceID == u.sourceID && t.user.rest == u.rest
  }

  lemma TakenOutOneMore(moves: seq<Move>, m: Move, from: Origin, key: string)
    ensures TakenOut(moves + [m], from, key) <==> TakenOut(moves, from, key) || Takes(m, from, key)
  {
    if TakenOut(moves, from, key) {
      var i :| 0 <= i < |moves| && Takes(moves[i], from, key);
      assert (moves + [m])[i] == moves[i];
    }
    if Takes(m, from, key) {
      assert (moves + [m])[|moves|] == m;
    }
  }

  lemma TakeOutConserves(u: User, t: Taken, p: Placement)
    requires Conserves(u, t)
    ensures Conserves(u, TakeOut(t, p))
  {
    if p.key in MetadataOf(t.user, p.from) {
      var m := Move(p.key, p.from, p.destination, MetadataOf(t.user, p.from)[p.key]);
      var n := TakeOut(t, p);
      forall from: Origin, key: string
        ensures TakenOut(n.moves, from, key) <==> TakenOut(t.moves, from, key) || Takes(m, from, key)
      {
        TakenOutOneMore(t.moves, m, from, key);
      }
      assert !TakenOut(t.moves, p.from, p.key);
    }
  }

  lemma {:induction false} PlacedConserves(u: User, ps: seq<Placement>, check: string -> bool)
    requires Placed(u, ps, check).Some?
    ensures Conserves(u, Placed(u, ps, check).value)
  {
    if ps != [] {
      PlacedConserves(u, ps[..|ps| - 1], check);
      TakeOutConserves(u, Placed(u, ps[..|ps| - 1], check).value, ps[|ps| - 1]);
    }
  }

  lemma {:induction false} RoutedConserves(u: User, t: Taken, routes: seq<Placement>)
    requires Conserves(u, t)
    ensures Conserves(u, Routed(t, routes))
  {
    if routes != [] {
      RoutedConserves(u, t, routes[..|routes| - 1]);
      TakeOutConserves(u, Routed(t, routes[..|routes| - 1]), routes[|routes| - 1]);
    }
  }

  /** After the placements and then the routes, each metadata key of a user is
      still on it, or was removed once, and is one field of its moves at most. */
  lemma MetadataIsConserved(u: User, ps: seq<Placement>, routes: seq<Placement>, check: string -> bool)
    requires Placed(u, ps, check).Some?
    ensures Conserves(u, Routed(Placed(u, ps, check).value, routes))
  {
    PlacedConserves(u, ps, check);
    RoutedConserves(u, Placed(u, ps, check).value, routes);
  }

  /** The routes take exactly their keys. */
  lemma {:induction false} RoutesTakeTheirKeys(t: Taken, routes: seq<Placement>, from: Origin, key: string)
    ensures key in MetadataOf(Routed(t, routes).user, from) <==>
              key in MetadataOf(t.user, from)
              && forall j :: 0 <= j < |routes| && routes[j].key == key ==> (routes[j].from == AppMetadata) != (from == AppMetadata)
    ensures key in MetadataOf(Routed(t, routes).user, from) ==>
              MetadataOf(Routed(t, routes).user, from)[key] == MetadataOf(t.user, from)[key]
  {
    if routes != [] {
      RoutesTakeTheirKeys(t, routes[..|routes| - 1], from, key);
    }
  }

  /** A route of a key the user has is a move of it, unless an earlier route
      took it, after the moves of the routes before. */
  lemma {:induction false} RouteIsAMove(t: Taken, routes: seq<Placement>, j: nat)
    requires j < |routes| && routes[j].key in MetadataOf(t.user, routes[j].from)
    requires forall i :: 0 <= i < j ==> !SameKey(routes[i], routes[j])
    ensures var at, r := |Routed(t, routes[..j]).moves|, routes[j];
            && at < |Routed(t, routes).moves|
            && Routed(t, routes).moves[at] == Move(r.key, r.from, r.destination, MetadataOf(t.user, r.from)[r.key])
  {
    var n := |routes| - 1;
    if j < n {
      RouteIsAMove(t, routes[..n], j);
      assert routes[..n][..j] == routes[..j];
    } else {
      RoutesTakeTheirKeys(t, routes[..n], routes[n].from, routes[n].key);
    }
  }

  /** And there are no other moves than those there were and such ones. */
  lemma {:induction false} OnlyRoutesMove(t: Taken, routes: seq<Placement>, at: nat) returns (j: nat)
    requires |t.moves| <= at < |Routed(t, routes).moves|
    ensures j < |routes| && at == |Routed(t, routes[..j]).moves|
    ensures routes[j].key in MetadataOf(t.user, routes[j].from) && forall i :: 0 <= i < j ==> !SameKey(routes[i], routes[j])
  {
    var n := |routes| - 1;
    if at < |Routed(t, routes[..n]).moves| {
      j := OnlyRoutesMove(t, routes[..n], at);
      assert routes[..n][..j] == routes[..j];
    } else {
      j := n;
      RoutesTakeTheirKeys(t, routes[..n], routes[n].from, routes[n].key);
    }
  }

  predicate SameKey(p: Placement, q: Placement) {
    p.key == q.key && (p.from == AppMetadata <==> q.from == AppMetadata)
  }

  /** What the import asks of a handler's placements. */
  predicate Placeable(u: User, ps: seq<Placement>, check: string -> bool) {
    && (forall j :: 0 <= j < |ps| ==> Allowed(ps[j], check) && ps[j].key in MetadataOf(u, ps[j].from))
    && (forall i, j :: 0 <= i < j < |ps| ==> !SameKey(ps[i], ps[j]))
  }

  lemma {:induction false} MovesOfPlacements(u: User, ps: seq<Placement>, check: string -> bool)
    requires Placed(u, ps, check).Some?
    ensures var moves := Placed(u, ps, check).value.moves;
            && |moves| == |ps|
            && forall j :: 0 <= j < |ps| ==> moves[j].key == ps[j].key && moves[j].from == ps[j].from && moves[j].destination == ps[j].destination
  {
    if ps != [] {
      MovesOfPlacements(u, ps[..|ps| - 1], check);
    }
  }

  lemma PlaceableStep(u: User, ps: seq<Placement>, check: string -> bool)
    requires ps != []
    ensures var n := |ps| - 1;
            Placeable(u, ps, check)
            <==> && Placeable(u, ps[..n], check) && Allowed(ps[n], check) && ps[n].key in MetadataOf(u, ps[n].from)
                 && forall i :: 0 <= i < n ==> !SameKey(ps[i], ps[n])
  {
  }

  /** Exactly which placements are carried out: allowed ones of keys the user has, none placed twice. */
  lemma {:induction false} PlacedExactly(u: User, ps: seq<Placement>, check: string -> bool)
    ensures Placed(u, ps, check).Some? <==> Placeable(u, ps, check)
  {
    if ps != [] {
      var n := |ps| - 1;
      PlacedExactly(u, ps[..n], check);
      PlaceableStep(u, ps, check);
      if Placed(u, ps[..n], check).Some? {
        var t := Placed(u, ps[..n], check).value;
        PlacedConserves(u, ps[..n], check);
        MovesOfPlacements(u, ps[..n], check);
        assert TakenOut(t.moves, ps[n].from, ps[n].key) <==> exists i :: 0 <= i < n && SameKey(ps[i], ps[n]) by {
          forall i | 0 <= i < n
            ensures Takes(t.moves[i], ps[n].from, ps[n].key) <==> SameKey(ps[i], ps[n])
          {
          }
        }
      }
    }
  }

  /** One field for each surviving move, at its destination with its value, in
      the order of the moves, and no other field. */
  lemma {:induction false} FieldsOfMoves(moves: seq<Move>)
    ensures |FieldsOf(moves)| == Survivors(moves)
    ensures forall j :: 0 <= j < |moves| ==>
              (Survives(moves[j]) <==> moves[j].destination != "drop" && moves[j].value != Null && moves[j].value != Str(""))
    ensures forall j: nat :: j < |moves| && Survives(moves[j]) ==>
              && Survivors(moves[..j]) < |FieldsOf(moves)|
              && FieldsOf(moves)[Survivors(moves[..j])] == Field(moves[j].destination, moves[j].value)
  {
    if moves != [] {
      var n := |moves| - 1;
      FieldsOfMoves(moves[..n]);
      forall j: nat | j < |moves| && Survives(moves[j])
        ensures Survivors(moves[..j]) < |FieldsOf(moves)|
        ensures FieldsOf(moves)[Survivors(moves[..j])] == Field(moves[j].destination, moves[j].value)
      {
        if j < n {
          assert moves[..n][j] == moves[j] && moves[..n][..j] == moves[..j];
        }
      }
    }
  }

  lemma {:induction false} FieldsOfAppend(a: seq<Move>, b: seq<Move>)
    ensures FieldsOf(a + b) == FieldsOf(a) + FieldsOf(b)
  {
    if b == [] {
      assert a + b == a;
    } else {
      assert (a + b)[..|a + b| - 1] == a + b[..|b| - 1];
      FieldsOfAppend(a, b[..|b| - 1]);
    }
  }

  // The loops.

  /** place, for one user. */
  method PlaceUser(user: User, ps: seq<Placement>, check: string -> bool)
    returns (ok: bool, u: User, fields: seq<Field>)
    ensures ok <==> Placed(user, ps, check).Some?
    ensures ok ==> u == Placed(user, ps, check).value.user && fields == FieldsOf(Placed(user, ps, check).value.moves)
  {
    u, fields := user, [];
    var placed: set<(string, Origin)> := {};
    for j := 0 to |ps|
      invariant Placed(user, ps[..j], check).Some?
      invariant u == Placed(user, ps[..j], check).value.user && fields == FieldsOf(Placed(user, ps[..j], check).value.moves)
      invariant forall q: (string, Origin) :: q in placed ==> q.0 !in MetadataOf(u, q.1)
    {
      var p := ps[j];
      assert ps[..j + 1][..j] == ps[..j];
      ghost var moves := Placed(user, ps[..j], check).value.moves;
      if !Allowed(p, check) || (p.key, p.from) in placed || p.key !in MetadataOf(u, p.from) {
        FailsFurther(user, ps, check, j + 1);
        return false, u, fields;
      }
      placed := placed + {(p.key, p.from)};
      var v := MetadataOf(u, p.from)[p.key];
      u := Without(u, p.from, p.key);
      if p.destination != DROP && !Empty(v) {
        fields := fields + [Field(p.destination, v)];
      }
      FieldsOfAppend(moves, [Move(p.key, p.from, p.destination, v)]);
    }
    assert ps[..|ps|] == ps;
    ok := true;
  }

  lemma {:induction false} FailsFurther(u: User, ps: seq<Placement>, check: string -> bool, j: nat)
    requires j <= |ps| && Placed(u, ps[..j], check).None?
    ensures Placed(u, ps, check).None?
    decreases |ps| - j
  {
    if j == |ps| {
      assert ps[..j] == ps;
    } else {
      assert ps[..j + 1][..j] == ps[..j];
      FailsFurther(u, ps, check, j + 1);
    }
  }

  /** route's loop over the routes, for one user. */
  method RouteUser(user: User, routes: seq<Placement>) returns (u: User, fields: seq<Field>)
    ensures u == Routed(Taken(user, []), routes).user && fields == FieldsOf(Routed(Taken(user, []), routes).moves)
  {
    u, fields := user, [];
    for j := 0 to |routes|
      invariant u == Routed(Taken(user, []), routes[..j]).user
      invariant fields == FieldsOf(Routed(Taken(user, []), routes[..j]).moves)
    {
      var r := routes[j];
      assert routes[..j + 1][..j] == routes[..j];
      if r.key !in MetadataOf(u, r.from) {
        continue;
      }
      var v := MetadataOf(u, r.from)[r.key];
      FieldsOfAppend(Routed(Taken(user, []), routes[..j]).moves, [Move(r.key, r.from, r.destination, v)]);
      u := Without(u, r.from, r.key);
      if r.destination != DROP && !Empty(v) {
        fields := fields + [Field(r.destination, v)];
      }
    }
    assert routes[..|routes|] == routes;
  }

  /** Routing carries on from what was placed. */
  lemma {:induction false} RoutedFrom(t: Taken, routes: seq<Placement>)
    ensures var alone := Routed(Taken(t.user, []), routes);
            Routed(t, routes) == Taken(alone.user, t.moves + alone.moves)
  {
    if routes == [] {
      assert t.moves + [] == t.moves;
    } else {
      RoutedFrom(t, routes[..|routes| - 1]);
    }
  }
}
