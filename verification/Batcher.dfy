/** Delegating a strategy's items to a handler, a batch at a time. */
module Batcher {

  import opened Options
  import opened Sequences

  /** A source ID. */
  type Key = string

  datatype Item<D> = Item(key: Key, data: D)

  datatype OnFailure = Fail | Ignore

  /** What one call comes to; a failure stops the caller unless it is ignored. */
  datatype Outcome<R> = Answers(results: map<Key, R>) | Ignored | Failed

  /** What a handler answers to a batch, told by its number; nothing if the call fails. */
  type Handler<!D, !R> = (nat, seq<Item<D>>) -> Option<map<Key, R>>

  /** One batch the Batcher numbered, its items, and what came of it. */
  datatype Attempt<D, R> = Attempt(index: nat, items: seq<Item<D>>, outcome: Outcome<R>)

  function Keys<D>(items: seq<Item<D>>): (keys: set<Key>)
    ensures forall k :: k in keys <==> exists i :: 0 <= i < |items| && items[i].key == k
  {
    set i | 0 <= i < |items| :: items[i].key
  }

  predicate DistinctKeys<D>(items: seq<Item<D>>) {
    forall i, j :: 0 <= i < j < |items| ==> items[i].key != items[j].key
  }

  /** The batches of attempts. */
  function Batches<D, R>(attempts: seq<Attempt<D, R>>): (batches: seq<seq<Item<D>>>)
    ensures |batches| == |attempts| && forall i :: 0 <= i < |batches| ==> batches[i] == attempts[i].items
  {
    seq(|attempts|, i requires 0 <= i < |attempts| => attempts[i].items)
  }

  /** All answers together; a key answered twice has its last answer. */
  function AllAnswers<D, R>(attempts: seq<Attempt<D, R>>): map<Key, R> {
    if attempts == [] then map[]
    else
      var before := AllAnswers(attempts[..|attempts| - 1]);
      match attempts[|attempts| - 1].outcome
      case Answers(results) => before + results
      case _ => before
  }

  /** Every attempt was answered, with exactly its items' keys. */
  predicate AllAnswered<D, R>(attempts: seq<Attempt<D, R>>) {
    forall i :: 0 <= i < |attempts| ==> attempts[i].outcome.Answers? && attempts[i].outcome.results.Keys == Keys(attempts[i].items)
  }

  /** checkKeys, in two loops: over the keys sent, then over those that came back. */
  method CheckKeys<R>(sent: set<Key>, got: map<Key, R>) returns (ok: bool)
    ensures ok <==> got.Keys == sent
  {
    var left := sent;
    while left != {}
      invariant left <= sent && sent - left <= got.Keys
      decreases |left|
    {
      var k :| k in left;
      if k !in got {
        return false;
      }
      left := left - {k};
    }
    var others := got.Keys;
    while others != {}
      invariant others <= got.Keys && got.Keys - others <= sent
      decreases |others|
    {
      var k :| k in others;
      if k !in sent {
        return false;
      }
      others := others - {k};
    }
    ok := true;
  }

  /** What a batch comes to: with a key twice it is not even sent, and an
      answer without exactly its keys is a failure. */
  function Expected<D, R>(handler: Handler<D, R>, onFailure: OnFailure, index: nat, items: seq<Item<D>>): Outcome<R> {
    if !DistinctKeys(items) then Failed
    else
      var answer := handler(index, items);
      if answer.Some? && answer.value.Keys == Keys(items) then Answers(answer.value)
      else if onFailure == Ignore then Ignored else Failed
  }

  /** So a key twice is a failure that is never ignored, and any other batch
      has its handler's answer, if there is one for each of its keys and no
      other, and else a failure that may be ignored. */
  lemma {:induction false} ExpectedIs<D, R>(handler: Handler<D, R>, onFailure: OnFailure, index: nat, items: seq<Item<D>>)
    ensures var outcome, answer := Expected(handler, onFailure, index, items), handler(index, items);
            if exists i, j :: 0 <= i < j < |items| && items[i].key == items[j].key then outcome == Failed
            else if answer.Some? && (forall k :: k in answer.value <==> exists i :: 0 <= i < |items| && items[i].key == k)
            then outcome == Answers(answer.value)
            else outcome == if onFailure == Ignore then Ignored else Failed
  {
    var answer := handler(index, items);
    if answer.Some? {
      assert answer.value.Keys == Keys(items) <==> forall k :: k in answer.value <==> k in Keys(items);
    }
  }

  class Batcher<D, R> {
    const size: nat
    const onFailure: OnFailure
    const handler: Handler<D, R>
    var next: nat
    ghost var attempts: seq<Attempt<D, R>>

    constructor (size: nat, onFailure: OnFailure, handler: Handler<D, R>)
      requires size >= 1
      ensures Valid() && this.size == size && this.onFailure == onFailure && this.handler == handler
      ensures next == 0 && attempts == []
    {
      this.size, this.onFailure, this.handler, next, attempts := size, onFailure, handler, 0, [];
    }

    /** Over the Batcher's whole life batches are numbered 1, 2, 3, ..., and each
        comes to what its handler's answer makes of it. */
    ghost predicate Valid()
      reads this
    {
      && size >= 1 && next == |attempts|
      && (forall i :: 0 <= i < |attempts| ==> attempts[i].index == i + 1)
      && (forall i :: 0 <= i < |attempts| ==> attempts[i].outcome == Expected(handler, onFailure, i + 1, attempts[i].items))
    }

    /** strategy: one call, whatever the handler answers; it answers nothing if it fails. */
    method Call(items: seq<Item<D>>) returns (outcome: Outcome<R>)
      requires Valid()
      modifies `next, `attempts
      ensures Valid() && attempts == old(attempts) + [Attempt(old(next) + 1, items, outcome)]
      ensures outcome == Expected(handler, onFailure, old(next) + 1, items)
      ensures outcome.Answers? ==> outcome.results.Keys == Keys(items)
      ensures outcome.Ignored? ==> onFailure == Ignore
    {
      next := next + 1;
      var distinct, data := CollectKeys(items);
      outcome := Failed;
      if distinct {
        var answer := handler(next, items);
        var ok := false;
        if answer.Some? {
          ok := CheckKeys(data, answer.value);
        }
        outcome := if ok then Answers(answer.value) else if onFailure == Ignore then Ignored else Failed;
      }
      attempts := attempts + [Attempt(next, items, outcome)];
    }

    /** Resolve: the items in consecutive batches, numbered on from the last
        one, until one is not answered; only answers to all of them are given. */
    method Resolve(items: seq<Item<D>>) returns (outcome: Outcome<R>)
      requires Valid()
      modifies `next, `attempts
      ensures Valid() && old(attempts) <= attempts
      ensures Resolves(items, size, attempts[|old(attempts)|..], outcome)
      ensures outcome.Ignored? ==> onFailure == Ignore
    {
      ghost var was := attempts;
      ghost var done: seq<Attempt<D, R>> := [];
      var out: map<Key, R> := map[];
      var start := 0;
      assert items[0..] == items;
      while start < |items|
        invariant Valid() && attempts == was + done
        invariant Answering(items, size, done, start, out)
      {
        var res;
        res, start, done := SendNext(items, start, out, was, done);
        if !res.Answers? {
          assert attempts[|was|..] == done;
          return res;
        }
        out := out + res.results;
      }
      assert attempts[|was|..] == done;
      AllResolved(items, size, done, start, out);
      outcome := Answers(out);
    }

    /** One turn of the loop. */
    method SendNext(items: seq<Item<D>>, start: nat, out: map<Key, R>, ghost was: seq<Attempt<D, R>>, ghost done: seq<Attempt<D, R>>)
      returns (res: Outcome<R>, end: nat, ghost done': seq<Attempt<D, R>>)
      requires Valid() && attempts == was + done && Answering(items, size, done, start, out) && start < |items|
      modifies `next, `attempts
      ensures Valid() && attempts == was + done' && start < end <= |items|
      ensures res.Answers? ==> Answering(items, size, done', end, out + res.results)
      ensures !res.Answers? ==> Resolves(items, size, done', res)
      ensures res.Ignored? ==> onFailure == Ignore
    {
      end := Min(start + size, |items|);
      ghost var index := next + 1;
      res := Call(items[start..end]);
      done' := done + [Attempt(index, items[start..end], res)];
      TurnOver(items, size, done, start, end, out, index, res);
    }
  }

  /** The keys of the items, unless two are the same. */
  method CollectKeys<D>(items: seq<Item<D>>) returns (distinct: bool, data: set<Key>)
    ensures distinct <==> DistinctKeys(items)
    ensures distinct ==> data == Keys(items)
  {
    data := {};
    for i := 0 to |items|
      invariant data == Keys(items[..i]) && DistinctKeys(items[..i])
    {
      KeysOneMore(items, i);
      if items[i].key in data {
        return false, data;
      }
      data := data + {items[i].key};
    }
    assert items[..|items|] == items;
    distinct := true;
  }

  /** The attempts are consecutive batches of the items, each answered but maybe
      the last: either all of the items were, and the outcome has exactly their
      keys with their answers, or the outcome is the last batch's. */
  ghost predicate Resolves<D, R>(items: seq<Item<D>>, size: nat, attempts: seq<Attempt<D, R>>, outcome: Outcome<R>)
    requires size >= 1
  {
    && Batches(attempts) <= Cut(items, size)
    && match outcome
       case Answers(results) =>
         && Batches(attempts) == Cut(items, size) && AllAnswered(attempts)
         && results == AllAnswers(attempts) && results.Keys == Keys(items)
       case _ =>
         && attempts != [] && attempts[|attempts| - 1].outcome == outcome
         && AllAnswered(attempts[..|attempts| - 1])
  }

  /** The batches up to start were answered, and out holds the answers. */
  ghost predicate Answering<D, R>(items: seq<Item<D>>, size: nat, done: seq<Attempt<D, R>>, start: nat, out: map<Key, R>)
    requires size >= 1
  {
    && start <= |items|
    && Batches(done) + Cut(items[start..], size) == Cut(items, size)
    && AllAnswered(done) && out == AllAnswers(done)
  }

  lemma StopsInside<D, R>(items: seq<Item<D>>, size: nat, done: seq<Attempt<D, R>>, start: nat, out: map<Key, R>, a: Attempt<D, R>)
    requires size >= 1 && Answering(items, size, done, start, out) && start < |items|
    requires a.items == items[start..Min(start + size, |items|)]
    ensures Batches(done + [a]) + Cut(items[Min(start + size, |items|)..], size) == Cut(items, size)
    ensures Batches(done + [a]) <= Cut(items, size)
  {
    NextCut(items, start, size);
    OneMoreBatch(done, a);
    var rest := Cut(items[Min(start + size, |items|)..], size);
    assert Batches(done) + ([a.items] + rest) == Batches(done) + [a.items] + rest;
  }

  lemma StopsHere<D, R>(items: seq<Item<D>>, size: nat, done: seq<Attempt<D, R>>, start: nat, out: map<Key, R>, index: nat, res: Outcome<R>)
    requires size >= 1 && Answering(items, size, done, start, out) && start < |items| && !res.Answers?
    ensures Resolves(items, size, done + [Attempt(index, items[start..Min(start + size, |items|)], res)], res)
  {
    var a := Attempt(index, items[start..Min(start + size, |items|)], res);
    StopsInside(items, size, done, start, out, a);
    assert (done + [a])[..|done|] == done;
  }

  lemma TurnOver<D, R>(items: seq<Item<D>>, size: nat, done: seq<Attempt<D, R>>, start: nat, end: nat, out: map<Key, R>, index: nat, res: Outcome<R>)
    requires size >= 1 && Answering(items, size, done, start, out) && start < |items| && end == Min(start + size, |items|)
    requires res.Answers? ==> res.results.Keys == Keys(items[start..end])
    ensures var done' := done + [Attempt(index, items[start..end], res)];
            if res.Answers? then Answering(items, size, done', end, out + res.results) else Resolves(items, size, done', res)
  {
    if res.Answers? {
      GoesOn(items, size, done, start, end, out, index, res.results);
    } else {
      StopsHere(items, size, done, start, out, index, res);
    }
  }

  lemma KeysOfConcat<D>(a: seq<Item<D>>, b: seq<Item<D>>)
    ensures Keys(a + b) == Keys(a) + Keys(b)
  {
    forall k
      ensures k in Keys(a + b) <==> k in Keys(a) || k in Keys(b)
    {
      if k in Keys(b) {
        var i :| 0 <= i < |b| && b[i].key == k;
        assert (a + b)[|a| + i].key == k;
      }
      if k in Keys(a) {
        var i :| 0 <= i < |a| && a[i].key == k;
        assert (a + b)[i].key == k;
      }
    }
  }

  /** A key has the answer of the last batch that was answered for it. */
  lemma {:induction false} LastAnswerCounts<D, R>(attempts: seq<Attempt<D, R>>, i: nat, key: Key)
    requires i < |attempts| && attempts[i].outcome.Answers? && key in attempts[i].outcome.results
    requires forall j :: i < j < |attempts| && attempts[j].outcome.Answers? ==> key !in attempts[j].outcome.results
    ensures key in AllAnswers(attempts) && AllAnswers(attempts)[key] == attempts[i].outcome.results[key]
  {
    var n := |attempts| - 1;
    if i < n {
      LastAnswerCounts(attempts[..n], i, key);
    }
  }

  /** All answers together have exactly the keys of all items. */
  lemma {:induction false} AnswersHaveAllKeys<D, R>(done: seq<Attempt<D, R>>)
    requires AllAnswered(done)
    ensures AllAnswers(done).Keys == Keys(Concat(Batches(done)))
  {
    if done != [] {
      var n := |done| - 1;
      AnswersHaveAllKeys(done[..n]);
      assert Batches(done) == Batches(done[..n]) + [done[n].items];
      ConcatOneMore(Batches(done[..n]), done[n].items);
      KeysOfConcat(Concat(Batches(done[..n])), done[n].items);
    }
  }

  lemma AllResolved<D, R>(items: seq<Item<D>>, size: nat, done: seq<Attempt<D, R>>, start: nat, out: map<Key, R>)
    requires size >= 1 && Answering(items, size, done, start, out) && start == |items|
    ensures Resolves(items, size, done, Answers(out))
  {
    assert items[start..] == [];
    assert Batches(done) + [] == Batches(done);
    AnswersHaveAllKeys(done);
    CutIsWhole(items, size);
  }

  lemma GoesOn<D, R>(items: seq<Item<D>>, size: nat, done: seq<Attempt<D, R>>, start: nat, end: nat, out: map<Key, R>,
               index: nat, results: map<Key, R>)
    requires size >= 1 && Answering(items, size, done, start, out) && start < |items| && end == Min(start + size, |items|)
    requires results.Keys == Keys(items[start..end])
    ensures Answering(items, size, done + [Attempt(index, items[start..end], Answers(results))], end, out + results)
  {
    var a := Attempt(index, items[start..end], Answers(results));
    StopsInside(items, size, done, start, out, a);
    OneMoreBatch(done, a);
  }

  lemma KeysOneMore<D>(items: seq<Item<D>>, i: nat)
    requires i < |items|
    ensures Keys(items[..i + 1]) == Keys(items[..i]) + {items[i].key}
    ensures DistinctKeys(items[..i]) && items[i].key !in Keys(items[..i]) ==> DistinctKeys(items[..i + 1])
    ensures items[i].key in Keys(items[..i]) ==> !DistinctKeys(items)
  {
    assert items[..i + 1] == items[..i] + [items[i]];
  }

  lemma OneMoreBatch<D, R>(attempts: seq<Attempt<D, R>>, a: Attempt<D, R>)
    ensures Batches(attempts + [a]) == Batches(attempts) + [a.items]
    ensures AllAnswers(attempts + [a]) == AllAnswers(attempts) + (if a.outcome.Answers? then a.outcome.results else map[])
  {
    assert (attempts + [a])[..|attempts|] == attempts;
  }

  // The numbers a handler sees.

  /** The numbers of the batches that were sent: not those with a key twice. */
  function SentNumbers<D, R>(attempts: seq<Attempt<D, R>>): seq<nat> {
    if attempts == [] then []
    else
      var a := attempts[|attempts| - 1];
      SentNumbers(attempts[..|attempts| - 1]) + (if DistinctKeys(a.items) then [a.index] else [])
  }

  predicate Numbered<D, R>(attempts: seq<Attempt<D, R>>) {
    forall i :: 0 <= i < |attempts| ==> attempts[i].index == i + 1
  }

  predicate WithoutGap(numbers: seq<nat>) {
    forall k :: 0 <= k < |numbers| ==> numbers[k] == k + 1
  }

  /** Nothing is sent after a batch with a key twice. */
  predicate OnlySentBefore<D, R>(attempts: seq<Attempt<D, R>>) {
    forall i, j :: 0 <= i < j < |attempts| && DistinctKeys(attempts[j].items) ==> DistinctKeys(attempts[i].items)
  }

  lemma {:induction false} SentNumbersGrow<D, R>(attempts: seq<Attempt<D, R>>)
    requires Numbered(attempts)
    ensures |SentNumbers(attempts)| <= |attempts|
    ensures |SentNumbers(attempts)| == |attempts| <==> forall i :: 0 <= i < |attempts| ==> DistinctKeys(attempts[i].items)
    ensures forall k :: 0 <= k < |SentNumbers(attempts)| ==> k < SentNumbers(attempts)[k] <= |attempts|
  {
    if attempts != [] {
      var n := |attempts| - 1;
      SentNumbersGrow(attempts[..n]);
      assert forall i :: 0 <= i < n ==> attempts[..n][i] == attempts[i];
    }
  }

  /** A handler sees the numbers 1, 2, 3, ... without a gap if and only if no
      batch is sent after one with a key twice. */
  lemma {:induction false} NumbersHaveNoGap<D, R>(attempts: seq<Attempt<D, R>>)
    requires Numbered(attempts)
    ensures WithoutGap(SentNumbers(attempts)) <==> OnlySentBefore(attempts)
  {
    if attempts != [] {
      var n := |attempts| - 1;
      var before, numbers := SentNumbers(attempts[..n]), SentNumbers(attempts);
      NumbersHaveNoGap(attempts[..n]);
      SentNumbersGrow(attempts[..n]);
      assert forall i :: 0 <= i < n ==> attempts[..n][i] == attempts[i];
      var allSent := forall i :: 0 <= i < n ==> DistinctKeys(attempts[i].items);
      if DistinctKeys(attempts[n].items) {
        assert OnlySentBefore(attempts) <==> allSent;
        assert numbers == before + [n + 1];
        if WithoutGap(numbers) {
          assert numbers[|before|] == |before| + 1;
        }
        if allSent {
          assert OnlySentBefore(attempts[..n]);
        }
      } else {
        assert numbers == before;
        assert OnlySentBefore(attempts) <==> OnlySentBefore(attempts[..n]);
      }
    }
  }

  /** A caller that stops at a failure sees to that; one that goes on need not. */
  lemma StoppingLeavesNoGap<D, R>(attempts: seq<Attempt<D, R>>, handler: Handler<D, R>, onFailure: OnFailure)
    requires Numbered(attempts)
    requires forall i :: 0 <= i < |attempts| ==> attempts[i].outcome == Expected(handler, onFailure, i + 1, attempts[i].items)
    requires forall i :: 0 <= i < |attempts| - 1 ==> !attempts[i].outcome.Failed?
    ensures WithoutGap(SentNumbers(attempts))
  {
    NumbersHaveNoGap(attempts);
  }

  /** A caller going on after a batch with a key twice: the first number the handler sees is 2. */
  method GoOnAfterFailure<D, R>(b: Batcher<D, R>, k: Key, data: D)
    requires b.Valid() && b.attempts == []
    modifies b
    ensures SentNumbers(b.attempts) == [2]
  {
    var twice, once := [Item(k, data), Item(k, data)], [Item(k, data)];
    assert twice[0].key == twice[1].key && !DistinctKeys(twice) && DistinctKeys(once);
    var _ := b.Call(twice);
    var _ := b.Call(once);
    TwoAttempts(b.attempts);
  }

  lemma {:induction false} TwoAttempts<D, R>(attempts: seq<Attempt<D, R>>)
    requires |attempts| == 2 && !DistinctKeys(attempts[0].items) && DistinctKeys(attempts[1].items)
    ensures SentNumbers(attempts) == [attempts[1].index]
  {
    assert attempts[..1][..0] == [] && SentNumbers(attempts[..1]) == [];
  }

  // A handler that answers each item by itself.

  /** What such a handler says of items; of two under one key the last counts. */
  function AnswersTo<D, R>(answer: D -> R, items: seq<Item<D>>): map<Key, R> {
    if items == [] then map[]
    else
      var last := items[|items| - 1];
      AnswersTo(answer, items[..|items| - 1])[last.key := answer(last.data)]
  }

  lemma {:induction false} AnswersToKeys<D, R>(answer: D -> R, items: seq<Item<D>>)
    ensures AnswersTo(answer, items).Keys == Keys(items)
  {
    if items != [] {
      var n := |items| - 1;
      AnswersToKeys(answer, items[..n]);
      KeysOneMore(items, n);
      assert items[..n + 1] == items;
    }
  }

  function PerItem<D, R>(answer: D -> R): Handler<D, R> {
    (index, items) => Some(AnswersTo(answer, items))
  }

  predicate SentTwice<D>(items: seq<Item<D>>, size: nat)
    requires size >= 1
  {
    exists k :: 0 <= k < |Cut(items, size)| && !DistinctKeys(Cut(items, size)[k])
  }

  /** What Resolve comes to over such a handler: a failure exactly if a batch has a key twice. */
  function Resolution<D, R>(answer: D -> R, items: seq<Item<D>>, size: nat): Outcome<R>
    requires size >= 1
  {
    if SentTwice(items, size) then Failed else Answers(AnswersTo(answer, items))
  }

  lemma UpdateLast<R>(a: map<Key, R>, b: map<Key, R>, k: Key, r: R)
    ensures (a + b)[k := r] == a + b[k := r]
  {
  }

  lemma {:induction false} AnswersAppend<D, R>(answer: D -> R, a: seq<Item<D>>, b: seq<Item<D>>)
    ensures AnswersTo(answer, a + b) == AnswersTo(answer, a) + AnswersTo(answer, b)
  {
    if b == [] {
      assert a + b == a;
    } else {
      var n := |b| - 1;
      AnswersAppend(answer, a, b[..n]);
      assert (a + b)[..|a + b| - 1] == a + b[..n];
      UpdateLast(AnswersTo(answer, a), AnswersTo(answer, b[..n]), b[n].key, answer(b[n].data));
    }
  }

  lemma {:induction false} AllAnswersPerItem<D, R>(answer: D -> R, attempts: seq<Attempt<D, R>>)
    requires forall i :: 0 <= i < |attempts| ==> attempts[i].outcome == Answers(AnswersTo(answer, attempts[i].items))
    ensures AllAnswers(attempts) == AnswersTo(answer, Concat(Batches(attempts)))
  {
    if attempts != [] {
      var n := |attempts| - 1;
      AllAnswersPerItem(answer, attempts[..n]);
      assert Batches(attempts) == Batches(attempts[..n]) + [attempts[n].items];
      ConcatOneMore(Batches(attempts[..n]), attempts[n].items);
      AnswersAppend(answer, Concat(Batches(attempts[..n])), attempts[n].items);
    }
  }

  /** Of every resolving of items by a handler that answers each by itself,
      whatever the batches' numbers are. */
  lemma PerItemResolves<D, R>(answer: D -> R, items: seq<Item<D>>, size: nat, onFailure: OnFailure,
                              attempts: seq<Attempt<D, R>>, outcome: Outcome<R>)
    requires size >= 1 && Resolves(items, size, attempts, outcome)
    requires forall i :: 0 <= i < |attempts| ==>
               attempts[i].outcome == Expected(PerItem(answer), onFailure, attempts[i].index, attempts[i].items)
    ensures outcome == Resolution(answer, items, size)
  {
    forall i | 0 <= i < |attempts|
      ensures attempts[i].outcome == if DistinctKeys(attempts[i].items) then Answers(AnswersTo(answer, attempts[i].items)) else Failed
    {
      OneItemBatch(answer, onFailure, attempts[i].index, attempts[i].items);
    }
    assert forall i :: 0 <= i < |attempts| ==> Batches(attempts)[i] == attempts[i].items;
    if outcome.Answers? {
      AllAnswersPerItem(answer, attempts);
      CutIsWhole(items, size);
    } else {
      var last := attempts[|attempts| - 1];
      assert Cut(items, size)[|attempts| - 1] == last.items;
    }
  }

  lemma OneItemBatch<D, R>(answer: D -> R, onFailure: OnFailure, index: nat, items: seq<Item<D>>)
    ensures Expected(PerItem(answer), onFailure, index, items)
            == if DistinctKeys(items) then Answers(AnswersTo(answer, items)) else Failed
  {
    AnswersToKeys(answer, items);
  }
}

