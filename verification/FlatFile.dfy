/** Rewriting the rows of a flat file into the columns the rest of the program
    reads, a field at a time over every row. */
module FlatFile {

  import opened Decimals
  import opened Options
  import opened Transforms

  type Row = map<string, string>

  /** A validated field mapping; a pattern gives its first capture group if it matches. */
  datatype Rule = Rule(
    source: string,
    dest: string,
    def: string,
    pattern: Option<string -> Option<string>>,
    values: map<string, string>,
    steps: seq<Step>)

  /** A row as it is rewritten, and the columns a rule wrote. */
  datatype Rewrite = Rewrite(out: Row, written: set<string>)

  function Get(row: Row, column: string): string {
    if column in row then row[column] else ""
  }

  function Consumed(rules: seq<Rule>): set<string> {
    set i | 0 <= i < |rules| && rules[i].source != "" :: rules[i].source
  }

  function Kept(rules: seq<Rule>, row: Row): Rewrite {
    Rewrite(row - Consumed(rules), {})
  }

  /** The source's value: through the pattern, the values table and the default. */
  function RuleValue(r: Rule, row: Row): string {
    var source := if r.source != "" then Get(row, r.source) else "";
    var v :=
      if r.pattern.None? then source
      else
        var m := r.pattern.value(Get(row, r.source));
        if m.Some? then m.value else "";
    var listed := if v in r.values then r.values[v] else v;
    if listed == "" then r.def else listed
  }

  function Written(w: Rewrite, dest: string, v: string): Rewrite {
    if v == "" then w else Rewrite(w.out[dest := v], w.written + {dest})
  }

  // A row at a time.

  predicate Builtins(rules: seq<Rule>) {
    forall i :: 0 <= i < |rules| ==> AllBuiltin(rules[i].steps)
  }

  function RuleRow(r: Rule, row: Row, w: Rewrite): Option<Rewrite>
    requires AllBuiltin(r.steps)
  {
    if r.dest in w.written then Some(w)
    else
      match Through(r.steps, RuleValue(r, row))
      case None => None
      case Some(v) => Some(Written(w, r.dest, v))
  }

  /** A row through the rules, starting from what it keeps. */
  function RulesRow(rules: seq<Rule>, row: Row, kept: Rewrite): Option<Rewrite>
    requires Builtins(rules)
  {
    if rules == [] then Some(kept)
    else
      match RulesRow(rules[..|rules| - 1], row, kept)
      case None => None
      case Some(w) => RuleRow(rules[|rules| - 1], row, w)
  }

  // A column at a time.

  /** The rows a destination is still to be written in. */
  function Pending(ws: seq<Rewrite>, dest: string): (idx: seq<nat>)
    ensures forall k :: 0 <= k < |idx| ==> idx[k] < |ws| && dest !in ws[idx[k]].written
    ensures forall k, l :: 0 <= k < l < |idx| ==> idx[k] < idx[l]
    ensures forall i :: 0 <= i < |ws| && dest !in ws[i].written ==> i in idx
  {
    if ws == [] then []
    else
      var n := |ws| - 1;
      Pending(ws[..n], dest) + (if dest in ws[n].written then [] else [n])
  }

  function RuleValues(r: Rule, rows: seq<Row>, idx: seq<nat>): (vs: seq<string>)
    requires forall k :: 0 <= k < |idx| ==> idx[k] < |rows|
    ensures |vs| == |idx| && forall k :: 0 <= k < |idx| ==> vs[k] == RuleValue(r, rows[idx[k]])
  {
    seq(|idx|, k requires 0 <= k < |idx| => RuleValue(r, rows[idx[k]]))
  }

  function RecordKeys(idx: seq<nat>): (keys: seq<string>)
    ensures |keys| == |idx|
  {
    seq(|idx|, k requires 0 <= k < |idx| => Itoa(idx[k] + 1))
  }

  function WriteBack(ws: seq<Rewrite>, dest: string, idx: seq<nat>, vs: seq<string>): (out: seq<Rewrite>)
    requires |vs| == |idx| && forall k :: 0 <= k < |idx| ==> idx[k] < |ws|
    ensures |out| == |ws|
    decreases |idx|
  {
    if idx == [] then ws
    else
      var n := |idx| - 1;
      var before := WriteBack(ws, dest, idx[..n], vs[..n]);
      before[idx[n] := Written(before[idx[n]], dest, vs[n])]
  }

  function RuleColumn(r: Rule, rows: seq<Row>, ws: seq<Rewrite>): (out: Option<seq<Rewrite>>)
    requires |rows| == |ws|
    ensures out.Some? ==> |out.value| == |rows|
  {
    var idx := Pending(ws, r.dest);
    match Column(r.steps, RecordKeys(idx), RuleValues(r, rows, idx))
    case None => None
    case Some(vs) => Some(WriteBack(ws, r.dest, idx, vs))
  }

  function RulesColumn(rules: seq<Rule>, rows: seq<Row>, kept: seq<Rewrite>): (out: Option<seq<Rewrite>>)
    requires |rows| == |kept|
    ensures out.Some? ==> |out.value| == |rows|
  {
    if rules == [] then Some(kept)
    else
      match RulesColumn(rules[..|rules| - 1], rows, kept)
      case None => None
      case Some(ws) => RuleColumn(rules[|rules| - 1], rows, ws)
  }

  lemma {:induction false} WriteBackWritesEach(ws: seq<Rewrite>, dest: string, idx: seq<nat>, vs: seq<string>)
    requires |vs| == |idx| && forall k :: 0 <= k < |idx| ==> idx[k] < |ws|
    requires forall k, l :: 0 <= k < l < |idx| ==> idx[k] < idx[l]
    ensures forall k :: 0 <= k < |idx| ==> WriteBack(ws, dest, idx, vs)[idx[k]] == Written(ws[idx[k]], dest, vs[k])
    ensures forall i :: 0 <= i < |ws| && i !in idx ==> WriteBack(ws, dest, idx, vs)[i] == ws[i]
    decreases |idx|
  {
    if idx != [] {
      var n := |idx| - 1;
      WriteBackWritesEach(ws, dest, idx[..n], vs[..n]);
      assert idx[n] !in idx[..n];
      forall i | 0 <= i < |ws| && i !in idx
        ensures i !in idx[..n]
      {
      }
    }
  }

  /** One rule over a column does to each row what it does to the row alone. */
  lemma RuleColumnIsEachRow(r: Rule, rows: seq<Row>, ws: seq<Rewrite>)
    requires |rows| == |ws| && AllBuiltin(r.steps)
    ensures RuleColumn(r, rows, ws).Some? <==> forall i :: 0 <= i < |rows| ==> RuleRow(r, rows[i], ws[i]).Some?
    ensures RuleColumn(r, rows, ws).Some? ==>
              forall i :: 0 <= i < |rows| ==> RuleRow(r, rows[i], ws[i]) == Some(RuleColumn(r, rows, ws).value[i])
  {
    var idx := Pending(ws, r.dest);
    var vs := RuleValues(r, rows, idx);
    ColumnIsEachValue(r.steps, RecordKeys(idx), vs);
    var out := Column(r.steps, RecordKeys(idx), vs);
    if out.Some? {
      WriteBackWritesEach(ws, r.dest, idx, out.value);
      forall i | 0 <= i < |rows|
        ensures RuleRow(r, rows[i], ws[i]) == Some(RuleColumn(r, rows, ws).value[i])
      {
        if r.dest !in ws[i].written {
          var k :| 0 <= k < |idx| && idx[k] == i;
          assert Through(r.steps, vs[k]) == Some(out.value[k]);
        }
      }
    } else {
      var k :| 0 <= k < |vs| && Through(r.steps, vs[k]).None?;
      assert RuleRow(r, rows[idx[k]], ws[idx[k]]).None?;
    }
  }

  /** The rules a column at a time are the rules a row at a time. */
  lemma {:induction false} RulesColumnIsEachRow(rules: seq<Rule>, rows: seq<Row>, kept: seq<Rewrite>)
    requires |rows| == |kept| && Builtins(rules)
    ensures RulesColumn(rules, rows, kept).Some? <==> forall i :: 0 <= i < |rows| ==> RulesRow(rules, rows[i], kept[i]).Some?
    ensures RulesColumn(rules, rows, kept).Some? ==>
              forall i :: 0 <= i < |rows| ==> RulesRow(rules, rows[i], kept[i]) == Some(RulesColumn(rules, rows, kept).value[i])
  {
    if rules != [] {
      var n := |rules| - 1;
      RulesColumnIsEachRow(rules[..n], rows, kept);
      var before := RulesColumn(rules[..n], rows, kept);
      if before.Some? {
        RuleColumnIsEachRow(rules[n], rows, before.value);
        assert forall i :: 0 <= i < |rows| ==>
            RulesRow(rules, rows[i], kept[i]) == RuleRow(rules[n], rows[i], before.value[i]);
      } else {
        var i :| 0 <= i < |rows| && RulesRow(rules[..n], rows[i], kept[i]).None?;
        assert RulesRow(rules, rows[i], kept[i]).None?;
      }
    }
  }

  // What a row's columns come to.

  /** The rule gives the row a value that is not empty. */
  predicate Gives(r: Rule, row: Row)
    requires AllBuiltin(r.steps)
  {
    var v := Through(r.steps, RuleValue(r, row));
    v.Some? && v.value != ""
  }

  /** None of the rules gives the row a value for the column. */
  predicate Unwritten(rules: seq<Rule>, row: Row, column: string)
    requires Builtins(rules)
  {
    rules == []
    || (Unwritten(rules[..|rules| - 1], row, column)
        && !(rules[|rules| - 1].dest == column && Gives(rules[|rules| - 1], row)))
  }

  /** The first rule for its column that gives the row a value. */
  predicate Wins(rules: seq<Rule>, row: Row, i: nat)
    requires i < |rules| && Builtins(rules)
  {
    Gives(rules[i], row) && Unwritten(rules[..i], row, rules[i].dest)
  }

  /** A rule fails a row when no earlier rule gave its column a value and its transforms fail. */
  predicate Fails(rules: seq<Rule>, row: Row, i: nat)
    requires i < |rules| && Builtins(rules)
  {
    Unwritten(rules[..i], row, rules[i].dest) && Through(rules[i].steps, RuleValue(rules[i], row)).None?
  }

  lemma {:induction false} WrittenOrKept(rules: seq<Rule>, row: Row, kept: Rewrite, column: string)
    requires Builtins(rules) && RulesRow(rules, row, kept).Some? && kept.written == {}
    ensures var w := RulesRow(rules, row, kept).value;
            && (column in w.written <==> !Unwritten(rules, row, column))
            && (column !in w.written ==> (column in w.out <==> column in kept.out))
            && (column !in w.written && column in w.out ==> w.out[column] == kept.out[column])
  {
    if rules != [] {
      WrittenOrKept(rules[..|rules| - 1], row, kept, column);
    }
  }

  /** A destination gets the value of the first rule in order that gives one. */
  lemma {:induction false} FirstRuleWins(rules: seq<Rule>, row: Row, kept: Rewrite, i: nat)
    requires Builtins(rules) && RulesRow(rules, row, kept).Some? && kept.written == {}
    requires i < |rules| && Wins(rules, row, i)
    ensures var w := RulesRow(rules, row, kept).value;
            && rules[i].dest in w.written && rules[i].dest in w.out
            && Through(rules[i].steps, RuleValue(rules[i], row)) == Some(w.out[rules[i].dest])
  {
    var n := |rules| - 1;
    if i < n {
      assert rules[..n][..i] == rules[..i];
      FirstRuleWins(rules[..n], row, kept, i);
    } else {
      WrittenOrKept(rules[..n], row, kept, rules[i].dest);
    }
  }

  /** A destination no rule gives a value keeps its unconsumed original one,
      and the consumed columns are gone. */
  lemma OthersKeepTheirs(rules: seq<Rule>, row: Row, column: string)
    requires Builtins(rules) && RulesRow(rules, row, Kept(rules, row)).Some? && Unwritten(rules, row, column)
    ensures var out := RulesRow(rules, row, Kept(rules, row)).value.out;
            && (column in out <==> column in row && column !in Consumed(rules))
            && (column in out ==> out[column] == row[column])
  {
    WrittenOrKept(rules, row, Kept(rules, row), column);
  }

  lemma {:induction false} FailsEarlier(rules: seq<Rule>, row: Row, kept: Rewrite, i: nat)
    requires Builtins(rules) && kept.written == {} && i < |rules| && Fails(rules, row, i)
    ensures RulesRow(rules, row, kept).None?
  {
    var n := |rules| - 1;
    if i < n {
      assert rules[..n][..i] == rules[..i];
      FailsEarlier(rules[..n], row, kept, i);
    } else if RulesRow(rules[..n], row, kept).Some? {
      WrittenOrKept(rules[..n], row, kept, rules[n].dest);
    }
  }

  lemma {:induction false} FailingRule(rules: seq<Rule>, row: Row, kept: Rewrite) returns (i: nat)
    requires Builtins(rules) && kept.written == {} && RulesRow(rules, row, kept).None?
    ensures i < |rules| && Fails(rules, row, i)
  {
    var n := |rules| - 1;
    if RulesRow(rules[..n], row, kept).None? {
      i := FailingRule(rules[..n], row, kept);
      assert rules[..n][..i] == rules[..i];
    } else {
      i := n;
      WrittenOrKept(rules[..n], row, kept, rules[n].dest);
    }
  }

  /** Exactly which rows fail. */
  lemma RowsFailByARule(rules: seq<Rule>, row: Row, kept: Rewrite)
    requires Builtins(rules) && kept.written == {}
    ensures RulesRow(rules, row, kept).None? <==> exists i: nat :: i < |rules| && Fails(rules, row, i)
  {
    if RulesRow(rules, row, kept).None? {
      var i := FailingRule(rules, row, kept);
    }
    if i: nat :| i < |rules| && Fails(rules, row, i) {
      FailsEarlier(rules, row, kept, i);
    }
  }

  // The columns settled last.

  /** A column with the spelling its value is kept in, if the value is one it takes. */
  datatype Settler = Settler(column: string, canonical: string -> Option<string>)

  function SettledColumn(c: Settler, row: Row): Option<Row> {
    if Get(row, c.column) == "" then Some(row)
    else
      match c.canonical(row[c.column])
      case None => None
      case Some(v) => Some(row[c.column := v])
  }

  function Settled(columns: seq<Settler>, row: Row): Option<Row> {
    if columns == [] then Some(row)
    else
      match Settled(columns[..|columns| - 1], row)
      case None => None
      case Some(r) => SettledColumn(columns[|columns| - 1], r)
  }

  /** A row rewritten alone. */
  function NormalizedRow(rules: seq<Rule>, columns: seq<Settler>, row: Row): Option<Row>
    requires Builtins(rules)
  {
    match RulesRow(rules, row, Kept(rules, row))
    case None => None
    case Some(w) => Settled(columns, w.out)
  }

  function KeptRows(rules: seq<Rule>, rows: seq<Row>): (ws: seq<Rewrite>)
    ensures |ws| == |rows| && forall i :: 0 <= i < |rows| ==> ws[i] == Kept(rules, rows[i])
  {
    seq(|rows|, i requires 0 <= i < |rows| => Kept(rules, rows[i]))
  }

  function SettledRows(columns: seq<Settler>, ws: seq<Rewrite>): (out: Option<seq<Row>>)
    ensures out.Some? ==> |out.value| == |ws| && forall i :: 0 <= i < |ws| ==> Settled(columns, ws[i].out) == Some(out.value[i])
    ensures out.None? ==> exists i :: 0 <= i < |ws| && Settled(columns, ws[i].out).None?
  {
    if ws == [] then Some([])
    else
      var before, last := SettledRows(columns, ws[..|ws| - 1]), Settled(columns, ws[|ws| - 1].out);
      if before.Some? && last.Some? then Some(before.value + [last.value]) else None
  }

  /** All rows, a rule at a time and then settled. */
  function Normalized(rules: seq<Rule>, columns: seq<Settler>, rows: seq<Row>): Option<seq<Row>> {
    if rules == [] then Some(rows)
    else
      match RulesColumn(rules, rows, KeptRows(rules, rows))
      case None => None
      case Some(ws) => SettledRows(columns, ws)
  }

  /** Rewriting a column at a time agrees with rewriting a row at a time: it fails
      exactly when some row does, and gives what each row gives. */
  lemma NormalizedIsEachRow(rules: seq<Rule>, columns: seq<Settler>, rows: seq<Row>)
    requires rules != [] && Builtins(rules)
    ensures var out := Normalized(rules, columns, rows);
            && (out.Some? <==> forall i :: 0 <= i < |rows| ==> NormalizedRow(rules, columns, rows[i]).Some?)
            && (out.Some? ==> |out.value| == |rows|
                              && forall i :: 0 <= i < |rows| ==> NormalizedRow(rules, columns, rows[i]) == Some(out.value[i]))
  {
    var kept := KeptRows(rules, rows);
    RulesColumnIsEachRow(rules, rows, kept);
    var ws := RulesColumn(rules, rows, kept);
    if ws.None? {
      var i :| 0 <= i < |rows| && RulesRow(rules, rows[i], kept[i]).None?;
      assert NormalizedRow(rules, columns, rows[i]).None?;
    } else if SettledRows(columns, ws.value).None? {
      var i :| 0 <= i < |rows| && Settled(columns, ws.value[i].out).None?;
      assert NormalizedRow(rules, columns, rows[i]).None?;
    }
  }

  // What a normalized row holds.

  /** The cell a rule without a pattern starts from. */
  function Cell(r: Rule, row: Row): string {
    if r.source != "" && r.source in row then row[r.source] else ""
  }

  /** What the values table and the default make of a value before them. */
  predicate Listed(r: Rule, before: string, v: string) {
    && (before in r.values && r.values[before] != "" ==> v == r.values[before])
    && (before in r.values && r.values[before] == "" ==> v == r.def)
    && (before !in r.values && before != "" ==> v == before)
    && (before !in r.values && before == "" ==> v == r.def)
  }

  /** A rule's value before its transforms, case by case: the pattern's group,
      nothing if the pattern does not match, or the cell itself; then what the
      values table lists for it; and where that leaves nothing, the default. */
  lemma {:induction false} RuleValueIs(r: Rule, row: Row)
    ensures r.pattern.None? ==> Listed(r, Cell(r, row), RuleValue(r, row))
    ensures r.pattern.Some? && r.source in row ==>
              var m := r.pattern.value(row[r.source]);
              Listed(r, if m.Some? then m.value else "", RuleValue(r, row))
    ensures r.pattern.Some? && r.source !in row ==>
              var m := r.pattern.value("");
              Listed(r, if m.Some? then m.value else "", RuleValue(r, row))
  {
  }

  lemma {:induction false} UnwrittenIsNone(rules: seq<Rule>, row: Row, column: string)
    requires Builtins(rules)
    ensures Unwritten(rules, row, column) <==>
              forall j :: 0 <= j < |rules| && rules[j].dest == column ==>
                var v := Through(rules[j].steps, RuleValue(rules[j], row)); v.None? || v.value == ""
  {
    if rules != [] {
      UnwrittenIsNone(rules[..|rules| - 1], row, column);
    }
  }

  predicate DistinctColumns(columns: seq<Settler>) {
    forall i, j :: 0 <= i < j < |columns| ==> columns[i].column != columns[j].column
  }

  /** Settling leaves the other columns alone, and those it settles in their
      canonical spelling; it fails exactly if one of them has none. */
  lemma {:induction false} SettledHolds(columns: seq<Settler>, row: Row)
    requires DistinctColumns(columns)
    ensures Settled(columns, row).None? <==>
              exists k :: 0 <= k < |columns| && Get(row, columns[k].column) != "" && columns[k].canonical(Get(row, columns[k].column)).None?
    ensures Settled(columns, row).Some? ==>
              var out := Settled(columns, row).value;
              && out.Keys == row.Keys
              && (forall c :: c in row && (row[c] == "" || forall k :: 0 <= k < |columns| ==> columns[k].column != c) ==> out[c] == row[c])
              && (forall k :: 0 <= k < |columns| && Get(row, columns[k].column) != "" ==>
                    columns[k].canonical(row[columns[k].column]) == Some(out[columns[k].column]))
  {
    if columns != [] {
      var n := |columns| - 1;
      SettledHolds(columns[..n], row);
      var before := Settled(columns[..n], row);
      if before.None? {
        var k :| 0 <= k < n && Get(row, columns[..n][k].column) != ""
                 && columns[..n][k].canonical(Get(row, columns[..n][k].column)).None?;
        assert columns[k] == columns[..n][k];
      } else {
        assert forall k :: 0 <= k < n ==> columns[..n][k] == columns[k];
        assert Get(before.value, columns[n].column) == Get(row, columns[n].column);
      }
    }
  }

  /** A normalized row holds, for each column with rules, what the first rule
      that gives one makes of the row, in the column's canonical spelling if it has one. */
  lemma {:induction false} NormalizedRowHolds(rules: seq<Rule>, columns: seq<Settler>, row: Row, i: nat, v: string)
    requires Builtins(rules) && DistinctColumns(columns) && NormalizedRow(rules, columns, row).Some?
    requires i < |rules| && v != "" && Through(rules[i].steps, RuleValue(rules[i], row)) == Some(v)
    requires forall j :: 0 <= j < i && rules[j].dest == rules[i].dest ==>
               var u := Through(rules[j].steps, RuleValue(rules[j], row)); u.None? || u.value == ""
    ensures var out, dest := NormalizedRow(rules, columns, row).value, rules[i].dest;
            && dest in out
            && ((forall k :: 0 <= k < |columns| ==> columns[k].column != dest) ==> out[dest] == v)
            && (forall k :: 0 <= k < |columns| && columns[k].column == dest ==> columns[k].canonical(v) == Some(out[dest]))
  {
    UnwrittenIsNone(rules[..i], row, rules[i].dest);
    assert Wins(rules, row, i);
    FirstRuleWins(rules, row, Kept(rules, row), i);
    SettledHolds(columns, RulesRow(rules, row, Kept(rules, row)).value.out);
  }

  /** A handler is asked about a row by its record number, the first being 1. */
  lemma {:induction false} RowsAreKeyedByRecord(r: Rule, rows: seq<Row>, ws: seq<Rewrite>, i: nat) returns (k: nat)
    requires i < |rows| == |ws| && r.dest !in ws[i].written
    ensures var idx := Pending(ws, r.dest);
            k < |idx| && RecordKeys(idx)[k] == Itoa(i + 1) && RuleValues(r, rows, idx)[k] == RuleValue(r, rows[i])
  {
    var idx := Pending(ws, r.dest);
    k :| k < |idx| && idx[k] == i;
  }

  // The loops.

  method ValueOf(r: Rule, row: Row) returns (v: string)
    ensures v == RuleValue(r, row)
  {
    v := "";
    if r.source != "" {
      v := Get(row, r.source);
    }
    if r.pattern.Some? {
      v := "";
      var m := r.pattern.value(Get(row, r.source));
      if m.Some? {
        v := m.value;
      }
    }
    if v in r.values {
      v := r.values[v];
    }
    if v == "" {
      v := r.def;
    }
  }

  lemma OneMorePending(r: Rule, rows: seq<Row>, ws: seq<Rewrite>, i: nat)
    requires |ws| == |rows| && i < |ws|
    ensures var idx := Pending(ws[..i], r.dest);
            Pending(ws[..i + 1], r.dest) == if r.dest in ws[i].written then idx else idx + [i]
  {
    assert ws[..i + 1][..i] == ws[..i];
  }

  lemma OneMoreValue(r: Rule, rows: seq<Row>, idx: seq<nat>, i: nat)
    requires i < |rows| && forall k :: 0 <= k < |idx| ==> idx[k] < |rows|
    ensures RuleValues(r, rows, idx + [i]) == RuleValues(r, rows, idx) + [RuleValue(r, rows[i])]
    ensures RecordKeys(idx + [i]) == RecordKeys(idx) + [Itoa(i + 1)]
  {
  }

  method CollectColumn(r: Rule, rows: seq<Row>, ws: array<Rewrite>)
    returns (idx: seq<nat>, keys: seq<string>, vals: seq<string>)
    requires ws.Length == |rows|
    ensures idx == Pending(ws[..], r.dest) && keys == RecordKeys(idx) && vals == RuleValues(r, rows, idx)
  {
    idx, keys, vals := [], [], [];
    for i := 0 to |rows|
      invariant idx == Pending(ws[..i], r.dest)
      invariant keys == RecordKeys(idx) && vals == RuleValues(r, rows, idx)
    {
      OneMorePending(r, rows, ws[..], i);
      assert ws[..][..i] == ws[..i] && ws[..][..i + 1] == ws[..i + 1];
      if r.dest in ws[i].written {
        continue;
      }
      var v := ValueOf(r, rows[i]);
      OneMoreValue(r, rows, idx, i);
      idx, keys, vals := idx + [i], keys + [Itoa(i + 1)], vals + [v];
    }
    assert ws[..|rows|] == ws[..];
  }

  method WriteColumn(ws: array<Rewrite>, dest: string, idx: seq<nat>, vals: array<string>)
    requires vals.Length == |idx| && forall k :: 0 <= k < |idx| ==> idx[k] < ws.Length
    modifies ws
    ensures ws[..] == WriteBack(old(ws[..]), dest, idx, vals[..])
  {
    ghost var was := ws[..];
    for k := 0 to |idx|
      invariant ws[..] == WriteBack(was, dest, idx[..k], vals[..k])
    {
      assert idx[..k + 1][..k] == idx[..k] && vals[..k + 1][..k] == vals[..k];
      var i := idx[k];
      if vals[k] != "" {
        ws[i] := Rewrite(ws[i].out[dest := vals[k]], ws[i].written + {dest});
      }
    }
    assert idx[..|idx|] == idx && vals[..|idx|] == vals[..];
  }

  /** One rule over every row. */
  method ApplyRule(r: Rule, rows: seq<Row>, ws: array<Rewrite>) returns (ok: bool)
    requires ws.Length == |rows|
    modifies ws
    ensures ok <==> RuleColumn(r, rows, old(ws[..])).Some?
    ensures ok ==> ws[..] == RuleColumn(r, rows, old(ws[..])).value
  {
    var idx, keys, vals := CollectColumn(r, rows, ws);
    var column := new string[|vals|](k requires 0 <= k < |vals| => vals[k]);
    assert column[..] == vals;
    var err := Apply(r.steps, keys, column);
    if err.Some? {
      return false;
    }
    WriteColumn(ws, r.dest, idx, column);
    return true;
  }

  method SettleRow(columns: seq<Settler>, row: Row) returns (out: Option<Row>)
    ensures out == Settled(columns, row)
  {
    var n := row;
    for k := 0 to |columns|
      invariant Settled(columns[..k], row) == Some(n)
    {
      assert columns[..k + 1][..k] == columns[..k];
      var c := columns[k];
      if Get(n, c.column) != "" {
        var v := c.canonical(n[c.column]);
        if v.None? {
          SettlesNoFurther(columns, row, k + 1);
          return None;
        }
        n := n[c.column := v.value];
      }
    }
    assert columns[..|columns|] == columns;
    return Some(n);
  }

  lemma {:induction false} SettlesNoFurther(columns: seq<Settler>, row: Row, k: nat)
    requires k <= |columns| && Settled(columns[..k], row).None?
    ensures Settled(columns, row).None?
    decreases |columns| - k
  {
    if k == |columns| {
      assert columns[..k] == columns;
    } else {
      assert columns[..k + 1][..k] == columns[..k];
      SettlesNoFurther(columns, row, k + 1);
    }
  }

  method SettleRows(columns: seq<Settler>, ws: seq<Rewrite>) returns (out: Option<seq<Row>>)
    ensures out == SettledRows(columns, ws)
  {
    var done := [];
    for i := 0 to |ws|
      invariant SettledRows(columns, ws[..i]) == Some(done)
    {
      assert ws[..i + 1][..i] == ws[..i];
      var row := SettleRow(columns, ws[i].out);
      if row.None? {
        return None;
      }
      done := done + [row.value];
    }
    assert ws[..|ws|] == ws;
    return Some(done);
  }

  lemma {:induction false} RulesStopHere(rules: seq<Rule>, rows: seq<Row>, kept: seq<Rewrite>, k: nat)
    requires |rows| == |kept| && k <= |rules| && RulesColumn(rules[..k], rows, kept).None?
    ensures RulesColumn(rules, rows, kept).None?
    decreases |rules| - k
  {
    if k == |rules| {
      assert rules[..k] == rules;
    } else {
      assert rules[..k + 1][..k] == rules[..k];
      RulesStopHere(rules, rows, kept, k + 1);
    }
  }

  /** normalize: the rules in order, and then the columns with settled values. */
  method Normalize(rules: seq<Rule>, columns: seq<Settler>, rows: seq<Row>) returns (out: Option<seq<Row>>)
    ensures out == Normalized(rules, columns, rows)
  {
    if |rules| == 0 {
      return Some(rows);
    }
    ghost var kept := KeptRows(rules, rows);
    var ws := new Rewrite[|rows|](i requires 0 <= i < |rows| => Kept(rules, rows[i]));
    assert ws[..] == kept;
    for k := 0 to |rules|
      invariant RulesColumn(rules[..k], rows, kept) == Some(ws[..])
    {
      assert rules[..k + 1][..k] == rules[..k];
      var ok := ApplyRule(rules[k], rows, ws);
      if !ok {
        RulesStopHere(rules, rows, kept, k + 1);
        return None;
      }
    }
    assert rules[..|rules|] == rules;
    out := SettleRows(columns, ws[..]);
  }
}
