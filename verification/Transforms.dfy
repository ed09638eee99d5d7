/** Transform pipelines over columns of values. */
module Transforms {

  import opened Options

  /** A value sent to a handler, under the key of its place in the column. */
  datatype Item = Item(key: string, value: string)

  /** What a custom transform's Batcher comes to: a failure, ignored or not, or
      an answer for each key, which may lack a value. */
  datatype Resolution = ResolveFailed | LeftAlone | Answers(values: map<string, Option<string>>)

  /** A built-in transform fails by giving nothing. */
  datatype Step =
    | Builtin(f: string -> Option<string>)
    | Custom(resolve: seq<Item> -> Resolution)

  datatype ApplyError = ValueError(index: nat) | ColumnError

  function EachValue(f: string -> Option<string>, values: seq<string>): (out: Option<seq<string>>)
    ensures out.Some? ==> |out.value| == |values| && forall i :: 0 <= i < |values| ==> f(values[i]) == Some(out.value[i])
    ensures out.None? ==> exists i :: 0 <= i < |values| && f(values[i]).None?
    decreases |values|
  {
    if values == [] then Some([])
    else
      var n := |values| - 1;
      var before, last := EachValue(f, values[..n]), f(values[n]);
      if before.Some? && last.Some? then Some(before.value + [last.value]) else None
  }

  /** The values that are not empty, with their keys. */
  function ItemsOf(keys: seq<string>, values: seq<string>): seq<Item>
    requires |keys| == |values|
  {
    if values == [] then []
    else
      var n := |values| - 1;
      ItemsOf(keys[..n], values[..n]) + (if values[n] == "" then [] else [Item(keys[n], values[n])])
  }

  function KeysAsked(keys: seq<string>, values: seq<string>): set<string>
    requires |keys| == |values|
  {
    set i | 0 <= i < |values| && values[i] != "" :: keys[i]
  }

  /** A value takes its key's answer if it is the last one sent under that key. */
  predicate Takes(keys: seq<string>, values: seq<string>, i: nat)
    requires i < |values| == |keys|
  {
    values[i] != "" && forall j :: i < j < |values| && values[j] != "" ==> keys[j] != keys[i]
  }

  /** An answer with a value for each of the keys asked for, and for no others. */
  predicate Answered(keys: set<string>, answers: map<string, Option<string>>) {
    answers.Keys == keys && forall k :: k in answers ==> answers[k].Some?
  }

  function CustomColumn(resolve: seq<Item> -> Resolution, keys: seq<string>, values: seq<string>): (out: Option<seq<string>>)
    requires |keys| == |values|
    ensures out.Some? ==> |out.value| == |values|
  {
    var items := ItemsOf(keys, values);
    if items == [] then Some(values)
    else
      match resolve(items)
      case ResolveFailed => None
      case LeftAlone => Some(values)
      case Answers(answers) =>
        if Answered(KeysAsked(keys, values), answers) then
          Some(seq(|values|, i requires 0 <= i < |values| => if Takes(keys, values, i) then answers[keys[i]].value else values[i]))
        else None
  }

  function StepColumn(s: Step, keys: seq<string>, values: seq<string>): (out: Option<seq<string>>)
    requires |keys| == |values|
    ensures out.Some? ==> |out.value| == |values|
  {
    match s
    case Builtin(f) => EachValue(f, values)
    case Custom(resolve) => CustomColumn(resolve, keys, values)
  }

  /** A whole column through the steps, one after the other. */
  function Column(steps: seq<Step>, keys: seq<string>, values: seq<string>): (out: Option<seq<string>>)
    requires |keys| == |values|
    ensures out.Some? ==> |out.value| == |values|
  {
    if steps == [] then Some(values)
    else
      match Column(steps[..|steps| - 1], keys, values)
      case None => None
      case Some(vs) => StepColumn(steps[|steps| - 1], keys, vs)
  }

  /** One value through built-in steps. */
  function Through(steps: seq<Step>, v: string): Option<string>
    requires AllBuiltin(steps)
  {
    if steps == [] then Some(v)
    else
      match Through(steps[..|steps| - 1], v)
      case None => None
      case Some(x) => steps[|steps| - 1].f(x)
  }

  predicate AllBuiltin(steps: seq<Step>) {
    forall i :: 0 <= i < |steps| ==> steps[i].Builtin?
  }

  /** Built-in steps do to a column what they do to each of its values. */
  lemma {:induction false} ColumnIsEachValue(steps: seq<Step>, keys: seq<string>, values: seq<string>)
    requires |keys| == |values| && AllBuiltin(steps)
    ensures Column(steps, keys, values).Some? <==> forall i :: 0 <= i < |values| ==> Through(steps, values[i]).Some?
    ensures Column(steps, keys, values).Some? ==>
              forall i :: 0 <= i < |values| ==> Through(steps, values[i]) == Some(Column(steps, keys, values).value[i])
  {
    if steps != [] {
      var n := |steps| - 1;
      ColumnIsEachValue(steps[..n], keys, values);
      var before := Column(steps[..n], keys, values);
      if before.Some? {
        assert forall i :: 0 <= i < |values| ==> Through(steps, values[i]) == steps[n].f(before.value[i]);
      } else {
        var i :| 0 <= i < |values| && Through(steps[..n], values[i]).None?;
        assert Through(steps, values[i]).None?;
      }
    }
  }

  /** The first step comes first. */
  lemma {:induction false} ThroughFromTheFirst(f: string -> Option<string>, rest: seq<Step>, v: string)
    requires AllBuiltin(rest)
    ensures AllBuiltin([Builtin(f)] + rest)
    ensures Through([Builtin(f)] + rest, v) == if f(v).Some? then Through(rest, f(v).value) else None
  {
    var steps := [Builtin(f)] + rest;
    if rest == [] {
      assert Through(steps[..0], v) == Some(v);
    } else {
      var n := |rest| - 1;
      ThroughFromTheFirst(f, rest[..n], v);
      assert steps[..n + 1] == [Builtin(f)] + rest[..n];
    }
  }

  /** Also of steps some of which are custom. */
  lemma {:induction false} ColumnFromTheFirst(s: Step, rest: seq<Step>, keys: seq<string>, values: seq<string>)
    requires |keys| == |values|
    ensures Column([s] + rest, keys, values)
            == match StepColumn(s, keys, values) case None => None case Some(vs) => Column(rest, keys, vs)
  {
    var steps := [s] + rest;
    if rest == [] {
      assert steps[..0] == [];
      assert Column(steps[..0], keys, values) == Some(values);
    } else {
      var n := |rest| - 1;
      ColumnFromTheFirst(s, rest[..n], keys, values);
      assert steps[..n + 1] == [s] + rest[..n];
    }
  }

  /** The values that are not empty are sent in their order, each under its key. */
  lemma {:induction false} ValueIsSent(keys: seq<string>, values: seq<string>, i: nat)
    requires i < |keys| == |values| && values[i] != ""
    ensures var at := |ItemsOf(keys[..i], values[..i])|;
            at < |ItemsOf(keys, values)| && ItemsOf(keys, values)[at] == Item(keys[i], values[i])
  {
    var n := |values| - 1;
    if i < n {
      ValueIsSent(keys[..n], values[..n], i);
      assert keys[..n][..i] == keys[..i] && values[..n][..i] == values[..i];
    }
  }

  lemma {:induction false} OnlyValuesAreSent(keys: seq<string>, values: seq<string>)
    requires |keys| == |values|
    ensures ItemsOf(keys, values) == [] <==> forall i :: 0 <= i < |values| ==> values[i] == ""
    ensures forall x :: x in ItemsOf(keys, values) ==> exists i :: 0 <= i < |values| && x == Item(keys[i], values[i]) && values[i] != ""
  {
    if values != [] {
      OnlyValuesAreSent(keys[..|values| - 1], values[..|values| - 1]);
    }
  }

  /** The keys of the values sent. */
  predicate AreTheKeysSent(asked: set<string>, keys: seq<string>, values: seq<string>)
    requires |keys| == |values|
  {
    && (forall i :: 0 <= i < |values| && values[i] != "" ==> keys[i] in asked)
    && (forall k :: k in asked ==> exists i :: 0 <= i < |values| && values[i] != "" && keys[i] == k)
  }

  lemma {:induction false} AskedAreTheKeysSent(asked: set<string>, keys: seq<string>, values: seq<string>)
    requires |keys| == |values|
    ensures AreTheKeysSent(asked, keys, values) <==> asked == KeysAsked(keys, values)
  {
    assert AreTheKeysSent(KeysAsked(keys, values), keys, values);
    if AreTheKeysSent(asked, keys, values) {
      assert forall k :: k in asked <==> k in KeysAsked(keys, values);
    }
  }

  /** A custom step leaves a column alone if it has nothing to send or its
      handler's failure is ignored, and fails with its handler. Otherwise it
      takes the answers if there is one with a value for each key sent and no
      other: each goes to the last value sent under its key, and every other
      value stays, as the empty ones do. */
  lemma {:induction false} CustomColumnIs(resolve: seq<Item> -> Resolution, keys: seq<string>, values: seq<string>)
    requires |keys| == |values|
    ensures var out, asked := CustomColumn(resolve, keys, values), resolve(ItemsOf(keys, values));
            if forall i :: 0 <= i < |values| ==> values[i] == "" then out == Some(values)
            else
              match asked
              case ResolveFailed => out == None
              case LeftAlone => out == Some(values)
              case Answers(answers) =>
                && (out.Some? <==> AreTheKeysSent(answers.Keys, keys, values) && forall k :: k in answers ==> answers[k].Some?)
                && (out.Some? ==> forall i :: 0 <= i < |values| ==>
                      if values[i] != "" && forall j :: i < j < |values| && values[j] != "" ==> keys[j] != keys[i]
                      then keys[i] in answers && answers[keys[i]] == Some(out.value[i])
                      else out.value[i] == values[i])
  {
    OnlyValuesAreSent(keys, values);
    var items := ItemsOf(keys, values);
    if items != [] && resolve(items).Answers? {
      AskedAreTheKeysSent(resolve(items).values.Keys, keys, values);
    }
  }

  /** The loop of a built-in step over the values. */
  method ApplyBuiltin(f: string -> Option<string>, values: array<string>) returns (err: Option<ApplyError>)
    modifies values
    ensures err.None? ==> Some(values[..]) == EachValue(f, old(values[..]))
    ensures err.Some? ==> EachValue(f, old(values[..])).None?
    ensures err.Some? ==> err.value.ValueError? && err.value.index < values.Length && f(old(values[..])[err.value.index]).None?
  {
    ghost var was := values[..];
    for i := 0 to values.Length
      invariant EachValue(f, was[..i]) == Some(values[..i])
      invariant forall k :: i <= k < values.Length ==> values[k] == was[k]
    {
      var out := f(values[i]);
      assert was[..i + 1][..i] == was[..i];
      if out.None? {
        FailsLater(f, was, i + 1);
        return Some(ValueError(i));
      }
      values[i] := out.value;
      assert values[..i + 1] == values[..i] + [out.value];
    }
    assert was[..values.Length] == was && values[..values.Length] == values[..];
    return None;
  }

  lemma FailsLater(f: string -> Option<string>, values: seq<string>, n: nat)
    requires n <= |values| && EachValue(f, values[..n]).None?
    ensures EachValue(f, values).None?
  {
    var i :| 0 <= i < n && f(values[..n][i]).None?;
    assert f(values[i]).None?;
  }

  /** The values sent, and where each key was sent last. */
  method Gather(keys: seq<string>, values: array<string>) returns (items: seq<Item>, index: map<string, nat>)
    requires |keys| == values.Length
    ensures items == ItemsOf(keys, values[..]) && index.Keys == KeysAsked(keys, values[..])
    ensures forall k :: k in index ==> index[k] < values.Length && keys[index[k]] == k && Takes(keys, values[..], index[k])
  {
    items, index := [], map[];
    for i := 0 to values.Length
      invariant items == ItemsOf(keys[..i], values[..i]) && index.Keys == KeysAsked(keys[..i], values[..i])
      invariant forall k :: k in index ==> index[k] < i && keys[index[k]] == k && Takes(keys[..i], values[..i], index[k])
    {
      OneMoreSent(keys, values[..], i);
      assert values[..][..i] == values[..i] && values[..][..i + 1] == values[..i + 1];
      if values[i] != "" {
        items := items + [Item(keys[i], values[i])];
        index := index[keys[i] := i];
      }
    }
    assert values[..values.Length] == values[..] && keys[..values.Length] == keys;
  }

  lemma OneMoreSent(keys: seq<string>, values: seq<string>, i: nat)
    requires i < |values| == |keys|
    ensures ItemsOf(keys[..i + 1], values[..i + 1])
            == ItemsOf(keys[..i], values[..i]) + (if values[i] == "" then [] else [Item(keys[i], values[i])])
    ensures KeysAsked(keys[..i + 1], values[..i + 1]) == KeysAsked(keys[..i], values[..i]) + (if values[i] == "" then {} else {keys[i]})
    ensures forall j: nat :: j < i ==> (Takes(keys[..i + 1], values[..i + 1], j) <==>
                                        Takes(keys[..i], values[..i], j) && (values[i] == "" || keys[i] != keys[j]))
    ensures Takes(keys[..i + 1], values[..i + 1], i) <==> values[i] != ""
  {
    var ks, vs := keys[..i + 1], values[..i + 1];
    assert vs[..i] == values[..i] && ks[..i] == keys[..i];
    assert vs[i] == values[i] && ks[i] == keys[i];
  }

  /** The loop over the answers, in no particular order. */
  method WriteAnswers(answers: map<string, Option<string>>, index: map<string, nat>, ghost keys: seq<string>, values: array<string>)
    returns (ok: bool)
    requires index.Keys == answers.Keys && |keys| == values.Length
    requires forall k :: k in index ==> index[k] < values.Length && keys[index[k]] == k
    modifies values
    ensures ok <==> forall k :: k in answers ==> answers[k].Some?
    ensures ok ==> forall i :: 0 <= i < values.Length ==>
                     values[i] == if keys[i] in index && index[keys[i]] == i then answers[keys[i]].value else old(values[i])
  {
    var left := answers.Keys;
    while left != {}
      invariant left <= answers.Keys && forall k :: k in answers.Keys - left ==> answers[k].Some?
      invariant forall i :: 0 <= i < values.Length ==>
                  values[i] == if keys[i] in answers.Keys - left && index[keys[i]] == i then answers[keys[i]].value else old(values[i])
      decreases |left|
    {
      var k :| k in left;
      if answers[k].None? {
        return false;
      }
      values[index[k]] := answers[k].value;
      left := left - {k};
    }
    ok := true;
  }

  /** applyCustom. */
  method ApplyCustom(resolve: seq<Item> -> Resolution, keys: seq<string>, values: array<string>) returns (err: Option<ApplyError>)
    requires |keys| == values.Length
    modifies values
    ensures err.None? ==> Some(values[..]) == CustomColumn(resolve, keys, old(values[..]))
    ensures err.Some? ==> err.value == ColumnError && CustomColumn(resolve, keys, old(values[..])).None?
  {
    ghost var was := values[..];
    var items, index := Gather(keys, values);
    if items == [] {
      return None;
    }
    match resolve(items) {
      case ResolveFailed => err := Some(ColumnError);
      case LeftAlone => err := None;
      case Answers(answers) =>
        // Resolve checks the keys of what it gives.
        if answers.Keys != index.Keys {
          return Some(ColumnError);
        }
        var ok := WriteAnswers(answers, index, keys, values);
        if !ok {
          return Some(ColumnError);
        }
        LastSentTakes(index, keys, was);
        assert values[..] == CustomColumn(resolve, keys, was).value;
        err := None;
    }
  }

  lemma LastSentTakes(index: map<string, nat>, keys: seq<string>, values: seq<string>)
    requires |keys| == |values| && index.Keys == KeysAsked(keys, values)
    requires forall k :: k in index ==> index[k] < |values| && keys[index[k]] == k && Takes(keys, values, index[k])
    ensures forall i: nat :: i < |values| ==> (keys[i] in index && index[keys[i]] == i <==> Takes(keys, values, i))
  {
    forall i: nat | i < |values|
      ensures keys[i] in index && index[keys[i]] == i <==> Takes(keys, values, i)
    {
      if Takes(keys, values, i) {
        assert keys[i] in KeysAsked(keys, values);
        var j := index[keys[i]];
        assert !(i < j) && !(j < i);
      }
    }
  }

  /** Pipeline.Apply: the steps over the values, in place. */
  method Apply(steps: seq<Step>, keys: seq<string>, values: array<string>) returns (err: Option<ApplyError>)
    requires |keys| == values.Length
    modifies values
    ensures err.None? ==> Some(values[..]) == Column(steps, keys, old(values[..]))
    ensures err.Some? ==> Column(steps, keys, old(values[..])).None?
  {
    ghost var was := values[..];
    for k := 0 to |steps|
      invariant Column(steps[..k], keys, was) == Some(values[..])
    {
      assert steps[..k + 1][..k] == steps[..k];
      match steps[k] {
        case Builtin(f) => err := ApplyBuiltin(f, values);
        case Custom(resolve) => err := ApplyCustom(resolve, keys, values);
      }
      if err.Some? {
        StopsHere(steps, keys, was, k + 1);
        return;
      }
    }
    assert steps[..|steps|] == steps;
    err := None;
  }

  lemma {:induction false} StopsHere(steps: seq<Step>, keys: seq<string>, values: seq<string>, n: nat)
    requires |keys| == |values| && n <= |steps| && Column(steps[..n], keys, values).None?
    ensures Column(steps, keys, values).None?
    decreases |steps| - n
  {
    if n == |steps| {
      assert steps[..n] == steps;
    } else {
      assert steps[..n + 1][..n] == steps[..n];
      StopsHere(steps, keys, values, n + 1);
    }
  }
}
