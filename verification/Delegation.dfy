/** Strategies delegated to handlers that answer each item by itself, whatever
    batch it is sent in. */
module Delegation {

  import opened Sequences
  import B = Batcher

  /** A strategy that is not delegated, or goes to a handler, so many items a batch. */
  datatype Delegated<!D, !A> = BuiltIn | ToHandler(size: nat, answer: D -> A)

  /** What a strategy came to: its handler's failure stops the caller, unless it
      is ignored, which is also how a strategy without a handler looks. */
  datatype Handled<+T> = HandlerFailed | Ignored | Answered(answers: T)

  function ItemsOf<D>(key: D -> string, xs: seq<D>): (items: seq<B.Item<D>>)
    ensures |items| == |xs| && forall k :: 0 <= k < |xs| ==> items[k] == B.Item(key(xs[k]), xs[k])
  {
    seq(|xs|, k requires 0 <= k < |xs| => B.Item(key(xs[k]), xs[k]))
  }

  predicate ValidSize<D, A>(d: Delegated<D, A>) {
    d.ToHandler? ==> d.size >= 1
  }

  /** What Resolve gives for the items: nothing if there is no handler, or nothing to ask. */
  function Asked<D, A>(d: Delegated<D, A>, key: D -> string, xs: seq<D>): Handled<map<string, A>>
    requires ValidSize(d)
  {
    if d.BuiltIn? || |xs| == 0 then Ignored
    else
      match B.Resolution(d.answer, ItemsOf(key, xs), d.size)
      case Answers(results) => Answered(results)
      case Ignored => Ignored
      case Failed => HandlerFailed
  }

  /** The handler is sent a key twice in one batch. */
  predicate Twice<D, A>(d: Delegated<D, A>, key: D -> string, xs: seq<D>)
    requires ValidSize(d)
  {
    d.ToHandler? && B.SentTwice(ItemsOf(key, xs), d.size)
  }

  predicate DistinctIDs<D>(key: D -> string, xs: seq<D>) {
    forall j, k :: 0 <= j < k < |xs| ==> key(xs[j]) != key(xs[k])
  }

  /** Items under one key get one answer. */
  predicate OneAnswer<D, A(==)>(d: Delegated<D, A>, key: D -> string, xs: seq<D>) {
    d.ToHandler? ==> forall j, k :: 0 <= j < k < |xs| && key(xs[j]) == key(xs[k]) ==> d.answer(xs[j]) == d.answer(xs[k])
  }

  lemma {:induction false} EachAnswered<D, A>(answer: D -> A, key: D -> string, xs: seq<D>, k: nat)
    requires k < |xs|
    requires forall i, j :: 0 <= i < j < |xs| && key(xs[i]) == key(xs[j]) ==> answer(xs[i]) == answer(xs[j])
    ensures key(xs[k]) in B.AnswersTo(answer, ItemsOf(key, xs))
    ensures B.AnswersTo(answer, ItemsOf(key, xs))[key(xs[k])] == answer(xs[k])
  {
    var n := |xs| - 1;
    assert ItemsOf(key, xs)[..n] == ItemsOf(key, xs[..n]);
    if k < n {
      EachAnswered(answer, key, xs[..n], k);
    }
  }

  lemma {:induction false} OnlyKeysAnswered<D, A>(answer: D -> A, key: D -> string, xs: seq<D>, id: string) returns (k: nat)
    requires id in B.AnswersTo(answer, ItemsOf(key, xs))
    ensures k < |xs| && key(xs[k]) == id
  {
    B.AnswersToKeys(answer, ItemsOf(key, xs));
    k :| 0 <= k < |xs| && ItemsOf(key, xs)[k].key == id;
  }

  lemma {:induction false} AskedAnswers<D, A>(d: Delegated<D, A>, key: D -> string, xs: seq<D>)
    requires d.ToHandler? && ValidSize(d)
    ensures if Twice(d, key, xs) then |xs| > 0 && Asked(d, key, xs).HandlerFailed?
            else Asked(d, key, xs) == (if |xs| == 0 then Ignored else Answered(B.AnswersTo(d.answer, ItemsOf(key, xs))))
  {
    if |xs| == 0 {
      assert ItemsOf(key, xs) == [];
    }
  }

  /** Distinct items are sent once, and so is each of those left of them. */
  lemma {:induction false} NeverTwice<D, A>(d: Delegated<D, A>, key: D -> string, xs: seq<D>)
    requires ValidSize(d) && DistinctIDs(key, xs)
    ensures !Twice(d, key, xs) && OneAnswer(d, key, xs)
  {
    if d.ToHandler? {
      var items := ItemsOf(key, xs);
      forall k: nat | k < |Cut(items, d.size)|
        ensures B.DistinctKeys(Cut(items, d.size)[k])
      {
        var start := CutAt(items, d.size, k);
      }
    }
  }

  /** A handler that takes all the items in one batch is sent a key twice exactly if there is one. */
  lemma {:induction false} TwiceInOneBatch<D, A>(d: Delegated<D, A>, key: D -> string, xs: seq<D>)
    requires d.ToHandler? && |xs| <= d.size && d.size >= 1
    ensures Twice(d, key, xs) <==> !DistinctIDs(key, xs)
  {
    var items := ItemsOf(key, xs);
    if |xs| > 0 {
      assert items[..Min(d.size, |items|)] == items;
      assert Cut(items, d.size) == [items];
      assert Cut(items, d.size)[0] == items;
      assert B.DistinctKeys(items) <==> DistinctIDs(key, xs);
    }
  }
}
