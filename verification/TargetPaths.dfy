/** Setting a target's fields by dotted path in the document of its user. */
module TargetPaths {

  import opened Options

  /** A document: a map of keys, or anything else. */
  datatype Doc<V> = Leaf(value: V) | Node(keys: map<string, Doc<V>>)

  type Path = p: seq<string> | |p| > 0 witness [""]

  datatype Field<V> = Field(path: Path, value: Doc<V>)

  /** Set: the maps on the way are created where there is none. */
  function Set<V>(m: map<string, Doc<V>>, path: Path, v: Doc<V>): map<string, Doc<V>>
    decreases |path|
  {
    if |path| == 1 then m[path[0] := v]
    else
      var next := if path[0] in m && m[path[0]].Node? then m[path[0]].keys else map[];
      m[path[0] := Node(Set(next, path[1..], v))]
  }

  function Lookup<V>(m: map<string, Doc<V>>, path: Path): Option<Doc<V>>
    decreases |path|
  {
    if path[0] !in m then None
    else if |path| == 1 then Some(m[path[0]])
    else
      match m[path[0]]
      case Node(keys) => Lookup(keys, path[1..])
      case Leaf(_) => None
  }

  /** The fields set in order. */
  function SetAll<V>(m: map<string, Doc<V>>, fields: seq<Field<V>>): map<string, Doc<V>> {
    if fields == [] then m
    else Set(SetAll(m, fields[..|fields| - 1]), fields[|fields| - 1].path, fields[|fields| - 1].value)
  }

  /** One path leads to, or through, the other. */
  predicate Overlap(p: Path, q: Path) {
    p <= q || q <= p
  }

  lemma {:induction false} SetThenLookup<V>(m: map<string, Doc<V>>, path: Path, v: Doc<V>)
    ensures Lookup(Set(m, path, v), path) == Some(v)
    decreases |path|
  {
    if |path| > 1 {
      var next := if path[0] in m && m[path[0]].Node? then m[path[0]].keys else map[];
      SetThenLookup(next, path[1..], v);
    }
  }

  lemma OverlapOfTails(p: Path, q: Path)
    requires p[0] == q[0]
    ensures Overlap(p, q) <==> |p| == 1 || |q| == 1 || Overlap(p[1..], q[1..])
  {
    assert p == [p[0]] + p[1..] && q == [q[0]] + q[1..];
    assert p <= q <==> p[1..] <= q[1..];
    assert q <= p <==> q[1..] <= p[1..];
  }

  lemma {:induction false} SetElsewhere<V>(m: map<string, Doc<V>>, path: Path, v: Doc<V>, other: Path)
    requires !Overlap(path, other)
    ensures Lookup(m, other).Some? ==> Lookup(Set(m, path, v), other) == Lookup(m, other)
    decreases |path|
  {
    if path[0] == other[0] {
      OverlapOfTails(path, other);
      var next := if path[0] in m && m[path[0]].Node? then m[path[0]].keys else map[];
      SetElsewhere(next, path[1..], v, other[1..]);
    }
  }

  /** A field no later one overlaps is what its path holds in the end: on a
      shared path, the last field wins. */
  lemma {:induction false} LastFieldWins<V>(m: map<string, Doc<V>>, fields: seq<Field<V>>, i: nat)
    requires i < |fields|
    requires forall j :: i < j < |fields| ==> !Overlap(fields[j].path, fields[i].path)
    ensures Lookup(SetAll(m, fields), fields[i].path) == Some(fields[i].value)
  {
    var n := |fields| - 1;
    if i == n {
      SetThenLookup(SetAll(m, fields[..n]), fields[n].path, fields[n].value);
    } else {
      LastFieldWins(m, fields[..n], i);
      SetElsewhere(SetAll(m, fields[..n]), fields[n].path, fields[n].value, fields[i].path);
    }
  }

  /** A later kind of field wins over every earlier one: a target field over
      the routes and the placements, a route over the placements. */
  lemma LaterKindsWin<V>(m: map<string, Doc<V>>, earlier: seq<Field<V>>, later: seq<Field<V>>, i: nat)
    requires i < |later|
    requires forall j :: i < j < |later| ==> !Overlap(later[j].path, later[i].path)
    ensures Lookup(SetAll(m, earlier + later), later[i].path) == Some(later[i].value)
  {
    var fields := earlier + later;
    forall j | |earlier| + i < j < |fields|
      ensures !Overlap(fields[j].path, fields[|earlier| + i].path)
    {
      assert fields[j] == later[j - |earlier|];
    }
    LastFieldWins(m, fields, |earlier| + i);
  }
}
