/** Runs that delegate verify.lookup and verify.compare to handlers that answer
    each user by itself: which batches fail them. */
module DelegatedReconcile {

  import opened Delegation
  import opened Options
  import opened Reconcile
  import opened Sequences
  import B = Batcher

  /** A user found, with the drift the connector saw. */
  type Pair = (User, seq<string>)

  datatype Handlers = Handlers(lookup: Delegated<User, Lookup>, compare: Delegated<Pair, seq<string>>)

  predicate WellFormed(h: Handlers) {
    ValidSize(h.lookup) && ValidSize(h.compare)
  }

  function IDOf(u: User): string {
    u.sourceID
  }

  function PairID(p: Pair): string {
    p.0.sourceID
  }

  /** The users found of a batch, with their drift. */
  function Pairs(batch: seq<User>, fs: seq<Found>): seq<Pair> {
    if |fs| != |batch| || |batch| == 0 then []
    else
      var n := |batch| - 1;
      Pairs(batch[..n], fs[..n]) + (if IsFound(fs[n]) then [(batch[n], fs[n].drift)] else [])
  }

  /** A run's settings, with these handlers. */
  function With(o: Settings, h: Handlers): Settings
    requires WellFormed(h)
  {
    o.(lookup := batch => Asked(h.lookup, IDOf, batch), compare := (batch, fs) => Asked(h.compare, PairID, Pairs(batch, fs)))
  }

  function Bare(us: seq<User>): (ps: seq<Pair>)
    ensures |ps| == |us| && forall k :: 0 <= k < |us| ==> ps[k] == (us[k], [])
  {
    seq(|us|, k requires 0 <= k < |us| => (us[k], []))
  }

  function LookupOf(o: Settings, h: Handlers, u: User): Lookup {
    if h.lookup.BuiltIn? then BuiltinLookup(o, u) else h.lookup.answer(u)
  }

  /** How such a run looks at each user. */
  function SightOf(o: Settings, h: Handlers): Sight
    requires WellFormed(h)
  {
    Sight(u => LookupOf(o, h, u),
          (u, drift) => if h.compare.BuiltIn? then drift else h.compare.answer((u, drift)),
          batch => Twice(h.lookup, IDOf, batch),
          found => Twice(h.compare, PairID, Bare(found)))
  }

  // The pairs of a batch.

  lemma {:induction false} PairsAreFound(batch: seq<User>, fs: seq<Found>)
    requires |fs| == |batch|
    ensures |Pairs(batch, fs)| == |FoundUsers(batch, fs)|
    ensures forall k :: 0 <= k < |Pairs(batch, fs)| ==> Pairs(batch, fs)[k].0 == FoundUsers(batch, fs)[k]
    decreases |batch|
  {
    if |batch| > 0 {
      PairsAreFound(batch[..|batch| - 1], fs[..|batch| - 1]);
    }
  }

  /** Where the pair of the i-th user is: after those of the users before it. */
  function Place(batch: seq<User>, fs: seq<Found>, i: nat): nat
    requires i <= |batch| == |fs|
  {
    |Pairs(batch[..i], fs[..i])|
  }

  lemma {:induction false} PairAt(batch: seq<User>, fs: seq<Found>, i: nat)
    requires i < |batch| == |fs| && IsFound(fs[i])
    ensures Place(batch, fs, i) < |Pairs(batch, fs)| && Pairs(batch, fs)[Place(batch, fs, i)] == (batch[i], fs[i].drift)
    decreases |batch|
  {
    var n := |batch| - 1;
    assert batch[..n][..i] == batch[..i] && fs[..n][..i] == fs[..i];
    if i < n {
      PairAt(batch[..n], fs[..n], i);
    }
  }

  lemma {:induction false} PlacesGrow(batch: seq<User>, fs: seq<Found>, i: nat, j: nat)
    requires i < j <= |batch| == |fs| && IsFound(fs[i])
    ensures Place(batch, fs, i) < Place(batch, fs, j)
  {
    PairAt(batch[..j], fs[..j], i);
    assert batch[..j][..i] == batch[..i] && fs[..j][..i] == fs[..i];
  }

  /** Only the keys decide what is sent twice. */
  lemma {:induction false} SameKeysCut<D, E>(a: seq<B.Item<D>>, b: seq<B.Item<E>>, size: nat)
    requires size >= 1 && |a| == |b| && forall k :: 0 <= k < |a| ==> a[k].key == b[k].key
    ensures |Cut(a, size)| == |Cut(b, size)|
    ensures forall k :: 0 <= k < |Cut(a, size)| ==> (B.DistinctKeys(Cut(a, size)[k]) <==> B.DistinctKeys(Cut(b, size)[k]))
    decreases |a|
  {
    if |a| > 0 {
      var n := Min(size, |a|);
      SameKeysCut(a[n..], b[n..], size);
      assert B.DistinctKeys(a[..n]) <==> B.DistinctKeys(b[..n]);
    }
  }

  lemma {:induction false} BareTwice(h: Handlers, batch: seq<User>, fs: seq<Found>)
    requires WellFormed(h) && |fs| == |batch|
    ensures Twice(h.compare, PairID, Bare(FoundUsers(batch, fs))) <==> Twice(h.compare, PairID, Pairs(batch, fs))
  {
    PairsAreFound(batch, fs);
    if h.compare.ToHandler? {
      SameKeysCut(ItemsOf(PairID, Bare(FoundUsers(batch, fs))), ItemsOf(PairID, Pairs(batch, fs)), h.compare.size);
    }
  }

  // One batch.

  lemma {:induction false} LookedUpEach(o: Settings, h: Handlers, batch: seq<User>)
    requires WellFormed(h) && (Twice(h.lookup, IDOf, batch) || OneAnswer(h.lookup, IDOf, batch))
    ensures var ls := Lookups(With(o, h), batch);
            if Twice(h.lookup, IDOf, batch) then ls.None?
            else ls.Some? && forall i :: 0 <= i < |batch| ==> ls.value[i] == SightOf(o, h).lookup(batch[i])
  {
    if h.lookup.ToHandler? {
      AskedAnswers(h.lookup, IDOf, batch);
      if !Twice(h.lookup, IDOf, batch) {
        forall i: nat | i < |batch|
          ensures batch[i].sourceID in B.AnswersTo(h.lookup.answer, ItemsOf(IDOf, batch))
          ensures B.AnswersTo(h.lookup.answer, ItemsOf(IDOf, batch))[batch[i].sourceID] == h.lookup.answer(batch[i])
        {
          EachAnswered(h.lookup.answer, IDOf, batch, i);
        }
      }
    } else {
      forall i: nat | i < |batch|
        ensures BuiltinLookup(With(o, h), batch[i]) == SightOf(o, h).lookup(batch[i])
      {
        var w, u := With(o, h), batch[i];
        assert w.targetIDs == o.targetIDs && w.byTargetID == o.byTargetID;
        assert BuiltinLookup(w, u) == BuiltinLookup(o, u);
        assert SightOf(o, h).lookup(u) == LookupOf(o, h, u);
      }
    }
  }

  /** Of users found under distinct source IDs each takes the answer to itself. */
  lemma {:induction false} TakesItsOwn(h: Handlers, batch: seq<User>, fs: seq<Found>, i: nat)
    requires WellFormed(h) && h.compare.ToHandler? && i < |batch| == |fs| && IsFound(fs[i])
    requires DistinctIDs(PairID, Pairs(batch, fs))
    ensures TakesAnswer(batch, fs, i)
    ensures var answers := B.AnswersTo(h.compare.answer, ItemsOf(PairID, Pairs(batch, fs)));
            batch[i].sourceID in answers && answers[batch[i].sourceID] == h.compare.answer((batch[i], fs[i].drift))
  {
    var pairs := Pairs(batch, fs);
    PairAt(batch, fs, i);
    EachAnswered(h.compare.answer, PairID, pairs, Place(batch, fs, i));
    forall j: nat | i < j < |batch| && IsFound(fs[j])
      ensures batch[j].sourceID != batch[i].sourceID
    {
      PairAt(batch, fs, j);
      PlacesGrow(batch, fs, i, j);
      assert PairID(pairs[Place(batch, fs, i)]) != PairID(pairs[Place(batch, fs, j)]);
    }
  }

  lemma {:induction false} ComparedEach(o: Settings, h: Handlers, batch: seq<User>, fs: seq<Found>)
    requires WellFormed(h) && |fs| == |batch|
    requires h.compare.BuiltIn? || Twice(h.compare, PairID, Pairs(batch, fs)) || DistinctIDs(PairID, Pairs(batch, fs))
    ensures ComparesEach(With(o, h), SightOf(o, h), batch, fs)
  {
    var v, c := SightOf(o, h), Compared(With(o, h), batch, fs);
    BareTwice(h, batch, fs);
    if h.compare.ToHandler? {
      AskedAnswers(h.compare, PairID, Pairs(batch, fs));
      if !Twice(h.compare, PairID, Pairs(batch, fs)) {
        forall i: nat | i < |batch|
          ensures c.Some? && c.value[i] == WithDrift(batch[i], fs[i], v.drift)
        {
          if IsFound(fs[i]) {
            TakesItsOwn(h, batch, fs, i);
            PairAt(batch, fs, i);
          }
        }
      }
    }
  }

  lemma {:induction false} PairOf(batch: seq<User>, fs: seq<Found>, k: nat) returns (i: nat)
    requires |fs| == |batch| && k < |Pairs(batch, fs)|
    ensures i < |batch| && IsFound(fs[i]) && Pairs(batch, fs)[k].0 == batch[i] && Place(batch, fs, i) == k
    decreases |batch|
  {
    var n := |batch| - 1;
    if k < |Pairs(batch[..n], fs[..n])| {
      i := PairOf(batch[..n], fs[..n], k);
      assert batch[..n][..i] == batch[..i] && fs[..n][..i] == fs[..i];
    } else {
      i := n;
    }
  }

  lemma {:induction false} FoundStayDistinct(batch: seq<User>, fs: seq<Found>)
    requires |fs| == |batch| && DistinctIDs(IDOf, batch)
    ensures DistinctIDs(PairID, Pairs(batch, fs))
  {
    var pairs := Pairs(batch, fs);
    forall j: nat, k: nat | j < k < |pairs|
      ensures PairID(pairs[j]) != PairID(pairs[k])
    {
      var i := PairOf(batch, fs, j);
      var l := PairOf(batch, fs, k);
      assert i != l;
      assert IDOf(batch[i]) != IDOf(batch[l]);
    }
  }

  lemma {:induction false} PairsAreFewer(batch: seq<User>, fs: seq<Found>)
    ensures |Pairs(batch, fs)| <= |batch|
    decreases |batch|
  {
    if |fs| == |batch| && |batch| > 0 {
      var n := |batch| - 1;
      PairsAreFewer(batch[..n], fs[..n]);
      assert |Pairs(batch, fs)| <= |Pairs(batch[..n], fs[..n])| + 1;
    }
  }

  /** The handler, if there is one, takes so many users in one batch. */
  predicate Takes<D, A>(d: Delegated<D, A>, n: nat) {
    d.ToHandler? ==> n <= d.size
  }

  lemma {:induction false} DistinctBatchIsSeen(o: Settings, h: Handlers, batch: seq<User>)
    requires WellFormed(h) && DistinctIDs(IDOf, batch)
    ensures SeesEach(With(o, h), SightOf(o, h), batch) && !Refuses(With(o, h), SightOf(o, h), batch)
  {
    NeverTwice(h.lookup, IDOf, batch);
    LookedUpEach(o, h, batch);
    forall fs: seq<Found> | |fs| == |batch|
      ensures ComparesEach(With(o, h), SightOf(o, h), batch, fs)
    {
      FoundStayDistinct(batch, fs);
      ComparedEach(o, h, batch, fs);
    }
    FoundAloneStayDistinct(With(o, h), SightOf(o, h), batch);
    NeverTwice(h.compare, PairID, Bare(FoundAlone(With(o, h), SightOf(o, h), batch)));
  }

  lemma {:induction false} FoundAloneStayDistinct(o: Settings, v: Sight, batch: seq<User>)
    requires DistinctIDs(IDOf, batch)
    ensures DistinctIDs(IDOf, FoundAlone(o, v, batch))
    ensures forall k :: 0 <= k < |FoundAlone(o, v, batch)| ==> exists i :: 0 <= i < |batch| && batch[i] == FoundAlone(o, v, batch)[k]
    decreases |batch|
  {
    if |batch| > 0 {
      var n := |batch| - 1;
      FoundAloneStayDistinct(o, v, batch[..n]);
      var before := FoundAlone(o, v, batch[..n]);
      forall k | 0 <= k < |before|
        ensures before[k].sourceID != batch[n].sourceID && exists i :: 0 <= i < |batch| && batch[i] == before[k]
      {
        var i :| 0 <= i < n && batch[..n][i] == before[k];
        assert batch[i] == before[k] && IDOf(batch[i]) != IDOf(batch[n]);
      }
    }
  }

  lemma {:induction false} TakenBatchIsSeen(o: Settings, h: Handlers, batch: seq<User>)
    requires WellFormed(h) && Takes(h.lookup, |batch|) && Takes(h.compare, |batch|)
    ensures SeesEach(With(o, h), SightOf(o, h), batch)
  {
    if h.lookup.ToHandler? {
      TwiceInOneBatch(h.lookup, IDOf, batch);
    }
    LookedUpEach(o, h, batch);
    forall fs: seq<Found> | |fs| == |batch|
      ensures ComparesEach(With(o, h), SightOf(o, h), batch, fs)
    {
      if h.compare.ToHandler? {
        PairsAreFewer(batch, fs);
        TwiceInOneBatch(h.compare, PairID, Pairs(batch, fs));
      }
      ComparedEach(o, h, batch, fs);
    }
  }

  // Whole runs.

  /** Whatever the batch sizes of the run and of its handlers, users without a
      repeated source ID are reported as one at a time. */
  lemma {:induction false} BatchesDoNotMatter(o: Settings, h: Handlers, size: nat, users: seq<User>)
    requires WellFormed(h) && size >= 1 && DistinctIDs(IDOf, Imported(o, users))
    ensures Reconciled(With(o, h), size, users) == OneByOne(With(o, h), SightOf(o, h), users)
  {
    SameImported(o, h, users);
    var us := Imported(o, users);
    var batches := BatchesOf(With(o, h), size, users);
    BatchesAreCut(size, us);
    forall k: nat | k < |batches|
      ensures SeesEach(With(o, h), SightOf(o, h), batches[k]) && !Refuses(With(o, h), SightOf(o, h), batches[k])
    {
      StretchOfUsers(size, us, k);
      DistinctBatchIsSeen(o, h, batches[k]);
    }
    BatchSizeDoesNotMatter(With(o, h), SightOf(o, h), size, users);
  }

  /** A batch flushed is a stretch of the users looked up, so without a repeated ID if they are. */
  lemma {:induction false} StretchOfUsers(size: nat, us: seq<User>, k: nat)
    requires size >= 1 && k <= |Full(size, us)|
    ensures DistinctIDs(IDOf, us) ==> DistinctIDs(IDOf, (Full(size, us) + [Rest(size, us)])[k])
    ensures |(Full(size, us) + [Rest(size, us)])[k]| <= size
  {
    BatchesAreCut(size, us);
    if k < |Full(size, us)| || |Rest(size, us)| > 0 {
      assert (Full(size, us) + [Rest(size, us)])[k] == Cut(us, size)[k];
      var start := CutAt(us, size, k);
    }
  }

  lemma {:induction false} SameImported(o: Settings, h: Handlers, users: seq<User>)
    requires WellFormed(h)
    ensures Imported(With(o, h), users) == Imported(o, users)
  {
    if |users| > 0 {
      SameImported(o, h, users[..|users| - 1]);
    }
  }

  /** With handlers that take the run's batches whole, or none, any users are
      reported as one at a time, unless a handler is sent a source ID twice:
      then the run fails. */
  lemma {:induction false} FailsExactlyIfRefused(o: Settings, h: Handlers, size: nat, users: seq<User>)
    requires WellFormed(h) && size >= 1 && Takes(h.lookup, size) && Takes(h.compare, size)
    ensures Reconciled(With(o, h), size, users)
            == if AnyRefused(With(o, h), SightOf(o, h), BatchesOf(With(o, h), size, users)) then None
               else OneByOne(With(o, h), SightOf(o, h), users)
  {
    var batches := BatchesOf(With(o, h), size, users);
    forall k: nat | k < |batches|
      ensures SeesEach(With(o, h), SightOf(o, h), batches[k])
    {
      StretchOfUsers(size, Imported(With(o, h), users), k);
      TakenBatchIsSeen(o, h, batches[k]);
    }
    BatchSizeDoesNotMatter(With(o, h), SightOf(o, h), size, users);
  }

  /** Such a handler refuses a batch exactly if two of the users it is asked about share their source ID. */
  lemma {:induction false} RefusedIfRepeated(o: Settings, h: Handlers, batch: seq<User>)
    requires WellFormed(h) && Takes(h.lookup, |batch|) && Takes(h.compare, |batch|)
    ensures Refuses(With(o, h), SightOf(o, h), batch)
            <==> (h.lookup.ToHandler? && !DistinctIDs(IDOf, batch))
                 || (h.compare.ToHandler? && !DistinctIDs(IDOf, FoundAlone(With(o, h), SightOf(o, h), batch)))
  {
    if h.lookup.ToHandler? {
      TwiceInOneBatch(h.lookup, IDOf, batch);
    }
    var found := FoundAlone(With(o, h), SightOf(o, h), batch);
    FoundAloneAreFewer(With(o, h), SightOf(o, h), batch);
    if h.compare.ToHandler? {
      TwiceInOneBatch(h.compare, PairID, Bare(found));
      assert DistinctIDs(PairID, Bare(found)) <==> DistinctIDs(IDOf, found);
    }
  }

  lemma {:induction false} FoundAloneAreFewer(o: Settings, v: Sight, batch: seq<User>)
    ensures |FoundAlone(o, v, batch)| <= |batch|
    decreases |batch|
  {
    if |batch| > 0 {
      FoundAloneAreFewer(o, v, batch[..|batch| - 1]);
    }
  }
}
