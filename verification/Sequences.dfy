/** What the batched and chunked parts share about cutting sequences. */
module Sequences {

  function Min(a: nat, b: nat): nat {
    if a <= b then a else b
  }

  function Concat<T>(parts: seq<seq<T>>): seq<T> {
    if parts == [] then [] else Concat(parts[..|parts| - 1]) + parts[|parts| - 1]
  }

  lemma {:induction false} ConcatOneMore<T>(parts: seq<seq<T>>, part: seq<T>)
    ensures Concat(parts + [part]) == Concat(parts) + part
  {
    assert (parts + [part])[..|parts|] == parts;
  }

  lemma {:induction false} ConcatOneBefore<T>(part: seq<T>, parts: seq<seq<T>>)
    ensures Concat([part] + parts) == part + Concat(parts)
  {
    var all := [part] + parts;
    if parts == [] {
      assert all[..0] == [];
    } else {
      assert all[..|parts|] == [part] + parts[..|parts| - 1];
      ConcatOneBefore(part, parts[..|parts| - 1]);
    }
  }

  /** An element of a concatenation, in its part. */
  lemma {:induction false} ConcatAt<T>(parts: seq<seq<T>>, at: nat) returns (k: nat, j: nat)
    requires at < |Concat(parts)|
    ensures k < |parts| && j < |parts[k]| && parts[k][j] == Concat(parts)[at] && at == |Concat(parts[..k])| + j
  {
    var n := |parts| - 1;
    if at < |Concat(parts[..n])| {
      k, j := ConcatAt(parts[..n], at);
      assert parts[..n][..k] == parts[..k];
    } else {
      k, j := n, at - |Concat(parts[..n])|;
    }
  }

  predicate Distinct<T(==)>(xs: seq<T>) {
    forall i, j :: 0 <= i < j < |xs| ==> xs[i] != xs[j]
  }

  /** The items in consecutive batches of at most size. */
  function Cut<T>(items: seq<T>, size: nat): seq<seq<T>>
    requires size >= 1
    decreases |items|
  {
    if items == [] then []
    else [items[..Min(size, |items|)]] + Cut(items[Min(size, |items|)..], size)
  }

  /** Cutting loses nothing and keeps the order; all batches but the last are full. */
  lemma {:induction false} CutIsWhole<T>(items: seq<T>, size: nat)
    requires size >= 1
    ensures Concat(Cut(items, size)) == items
    ensures forall i :: 0 <= i < |Cut(items, size)| ==> 0 < |Cut(items, size)[i]| <= size
    ensures forall i :: 0 <= i < |Cut(items, size)| - 1 ==> |Cut(items, size)[i]| == size
    decreases |items|
  {
    if items != [] {
      CutIsWhole(items[Min(size, |items|)..], size);
      ConcatOneBefore(items[..Min(size, |items|)], Cut(items[Min(size, |items|)..], size));
      assert items == items[..Min(size, |items|)] + items[Min(size, |items|)..];
    }
  }

  lemma NextCut<T>(items: seq<T>, start: nat, size: nat)
    requires start < |items| && size >= 1
    ensures var end := Min(start + size, |items|);
            Cut(items[start..], size) == [items[start..end]] + Cut(items[end..], size)
  {
    var rest := items[start..];
    var n := Min(size, |rest|);
    assert rest[..n] == items[start..start + n] && rest[n..] == items[start + n..];
  }

  /** A batch is a stretch of the items, which starts after the batches before it. */
  lemma {:induction false} CutAt<T>(items: seq<T>, size: nat, k: nat) returns (start: nat)
    requires size >= 1 && k < |Cut(items, size)|
    ensures start + |Cut(items, size)[k]| <= |items|
    ensures Cut(items, size)[k] == items[start..start + |Cut(items, size)[k]|]
    decreases |items|
  {
    var n := Min(size, |items|);
    if k == 0 {
      start := 0;
    } else {
      var later := items[n..];
      var at := CutAt(later, size, k - 1);
      assert Cut(items, size)[k] == Cut(later, size)[k - 1];
      StretchOfRest(items, n, at, |Cut(items, size)[k]|);
      start := n + at;
    }
  }

  lemma {:induction false} StretchOfRest<T>(items: seq<T>, n: nat, at: nat, length: nat)
    requires n + at + length <= |items|
    ensures items[n..][at..at + length] == items[n + at..n + at + length]
  {
  }

  lemma {:induction false} CutSmall<T>(items: seq<T>, size: nat)
    requires 0 < |items| <= size
    ensures Cut(items, size) == [items]
  {
    assert items[..|items|] == items && items[|items|..] == [];
  }

  lemma {:induction false} CutFirst<T>(batch: seq<T>, rest: seq<T>, size: nat)
    requires size >= 1 && |batch| == size
    ensures Cut(batch + rest, size) == [batch] + Cut(rest, size)
  {
    assert (batch + rest)[..size] == batch && (batch + rest)[size..] == rest;
  }

  /** The batches with one more item, which starts a batch, or joins the last one if there is room in it. */
  function WithOneMore<T>(cut: seq<seq<T>>, x: T, size: nat): seq<seq<T>> {
    if |cut| == 0 || |cut[|cut| - 1]| == size then cut + [[x]] else cut[..|cut| - 1] + [cut[|cut| - 1] + [x]]
  }

  lemma {:induction false} CutOneMore<T>(items: seq<T>, x: T, size: nat)
    requires size >= 1
    ensures Cut(items + [x], size) == WithOneMore(Cut(items, size), x, size)
    decreases |items|
  {
    if |items| == 0 {
      assert items + [x] == [x];
      CutSmall([x], size);
    } else if |items| < size {
      CutSmall(items, size);
      CutSmall(items + [x], size);
      assert [items][..0] == [];
    } else {
      var batch, rest := items[..size], items[size..];
      CutOneMore(rest, x, size);
      assert items == batch + rest && items + [x] == batch + (rest + [x]);
      CutFirst(batch, rest, size);
      CutFirst(batch, rest + [x], size);
      BatchBefore(batch, Cut(rest, size), Cut(rest + [x], size), x, size);
    }
  }

  lemma {:induction false} BatchBefore<T>(batch: seq<T>, later: seq<seq<T>>, more: seq<seq<T>>, x: T, size: nat)
    requires |batch| == size
    requires more == WithOneMore(later, x, size)
    ensures [batch] + more == WithOneMore([batch] + later, x, size)
  {
    var cut := [batch] + later;
    if |later| > 0 {
      assert cut[|later|] == later[|later| - 1] && cut[..|later|] == [batch] + later[..|later| - 1];
    }
    assert [batch] + (later + [[x]]) == cut + [[x]];
  }
}
