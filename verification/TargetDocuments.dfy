/** The documents the fields of prepared users are set in. */
module TargetDocuments {

  import opened Metadata
  import opened Options
  import opened Preparation
  import Decimals
  import T = TargetPaths

  /** A field's path, cut at its dots. */
  function PathOf(f: Field): T.Path {
    Decimals.Split(f.path, '.')
  }

  /** Fields as they are set; doc is what a value is as a document. */
  function ToSet(fields: seq<Field>, doc: Value -> T.Doc<Value>): (out: seq<T.Field<Value>>)
    ensures |out| == |fields| && forall k :: 0 <= k < |fields| ==> out[k] == T.Field(PathOf(fields[k]), doc(fields[k].value))
  {
    seq(|fields|, k requires 0 <= k < |fields| => T.Field(PathOf(fields[k]), doc(fields[k].value)))
  }

  /** The record with a user's fields set in order. */
  function Document(rec: map<string, T.Doc<Value>>, fields: seq<Field>, doc: Value -> T.Doc<Value>): map<string, T.Doc<Value>> {
    T.SetAll(rec, ToSet(fields, doc))
  }

  /** No field after the k-th is set at, above or below its path. */
  predicate LastOnItsPath(fields: seq<Field>, k: nat)
    requires k < |fields|
  {
    forall j :: k < j < |fields| ==> !T.Overlap(PathOf(fields[j]), PathOf(fields[k]))
  }

  predicate Holds(rec: map<string, T.Doc<Value>>, fields: seq<Field>, doc: Value -> T.Doc<Value>, f: Field) {
    T.Lookup(Document(rec, fields, doc), PathOf(f)) == Some(doc(f.value))
  }

  /** Each of the first n of part holds, where no later one of part overlaps it. */
  predicate HoldUnlessOverlapped(rec: map<string, T.Doc<Value>>, fields: seq<Field>, doc: Value -> T.Doc<Value>, part: seq<Field>, n: nat)
    requires n <= |part|
  {
    forall k: nat :: k < n && LastOnItsPath(part, k) ==> Holds(rec, fields, doc, part[k])
  }

  /** Whatever was set before them. */
  lemma {:induction false} LaterFieldsHold(rec: map<string, T.Doc<Value>>, fields: seq<Field>, doc: Value -> T.Doc<Value>,
                                           earlier: seq<Field>, later: seq<Field>, n: nat)
    requires fields == earlier + later && n <= |later|
    ensures HoldUnlessOverlapped(rec, fields, doc, later, n)
  {
    forall k: nat | k < n && LastOnItsPath(later, k)
      ensures Holds(rec, fields, doc, later[k])
    {
      assert ToSet(fields, doc) == ToSet(earlier, doc) + ToSet(later, doc);
      T.LaterKindsWin(rec, ToSet(earlier, doc), ToSet(later, doc), k);
    }
  }

  /** Of the fields a prepared user is delivered with, set in any record: a
      target field holds whatever was placed or routed, a routed one whatever was
      placed, and each wherever no later one of its own or a later kind overlaps. */
  lemma {:induction false} DeliveredFieldsHold(s: Strategies, answers: map<string, seq<Placement>>, kept: seq<User>, skipped: seq<User>,
                                               i: nat, rec: map<string, T.Doc<Value>>, doc: Value -> T.Doc<Value>)
    requires AllPlaced(s, answers, kept) && PreparePlaced(s, answers, kept, skipped).Ready? && i < |kept|
    ensures var p, placed := PreparePlaced(s, answers, kept, skipped), Placed(kept[i], PlacementsOf(answers, kept[i]), s.check).value;
            var routed := Routed(Taken(placed.user, []), s.routes);
            && |p.users| == |p.fields| == |kept| && Resolved(s.rules, p.users).Some?
            && var target, routes, fields := Resolved(s.rules, p.users).value[i], FieldsOf(routed.moves), p.fields[i];
               && HoldUnlessOverlapped(rec, fields, doc, target, |target|)
               && HoldUnlessOverlapped(rec, fields, doc, routes + target, |routes|)
               && HoldUnlessOverlapped(rec, fields, doc, fields, |fields|)
  {
    PreparedFields(s, answers, kept, skipped, i);
    var p, placed := PreparePlaced(s, answers, kept, skipped), Placed(kept[i], PlacementsOf(answers, kept[i]), s.check).value;
    var routed := Routed(Taken(placed.user, []), s.routes);
    KindsHold(rec, p.fields[i], doc, FieldsOf(placed.moves), FieldsOf(routed.moves), Resolved(s.rules, p.users).value[i]);
  }

  lemma {:induction false} KindsHold(rec: map<string, T.Doc<Value>>, fields: seq<Field>, doc: Value -> T.Doc<Value>,
                                     placed: seq<Field>, routes: seq<Field>, target: seq<Field>)
    requires fields == placed + routes + target
    ensures HoldUnlessOverlapped(rec, fields, doc, target, |target|)
    ensures HoldUnlessOverlapped(rec, fields, doc, routes + target, |routes|)
    ensures HoldUnlessOverlapped(rec, fields, doc, fields, |fields|)
  {
    LaterFieldsHold(rec, fields, doc, placed + routes, target, |target|);
    assert fields == placed + (routes + target);
    LaterFieldsHold(rec, fields, doc, placed, routes + target, |routes|);
    assert fields == [] + fields;
    LaterFieldsHold(rec, fields, doc, [], fields, |fields|);
  }
}
