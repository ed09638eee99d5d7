/** Cutting the users of an import into the chunks of Auth0's bulk import jobs. */
module Chunking {

  import opened Options
  import opened Reports
  import opened Sequences

  const CHUNK_MAX_BYTES: nat := 500 * 1024
  const CHUNK_MAX_USERS: nat := 1000

  /** What becomes of a user's import record: no translation, no JSON, or its JSON, a char a byte. */
  datatype Translation = Untranslatable(message: string) | Unencodable | Encoded(json: string)

  datatype User = User(sourceID: string, userID: string, hasRoles: bool, translation: Translation)

  /** A record waiting in a chunk. */
  datatype Item = Item(sourceID: string, userID: string, json: string)

  /** A chunk as it is submitted. */
  datatype Chunk = Chunk(records: seq<string>, sourceIDs: seq<string>, userIDs: seq<string>)

  /** What import.payload answers for a chunk, by its number: nothing if it
      fails, else for each record the one to put in its place, if any. */
  type Payload = (nat, seq<Item>) -> Option<seq<Option<string>>>

  datatype StreamError = ReadFailed | Cancelled | EncodingFailed | PayloadFailed | SubmitFailed

  function Items(users: seq<User>): seq<Item> {
    if users == [] then []
    else
      var u := users[|users| - 1];
      Items(users[..|users| - 1])
      + (if u.translation.Encoded? then [Item(u.sourceID, u.userID, u.translation.json)] else [])
  }

  function TranslationErrors(users: seq<User>): seq<ImportError> {
    if users == [] then []
    else
      var u := users[|users| - 1];
      TranslationErrors(users[..|users| - 1])
      + (if u.translation.Untranslatable? then [ImportError(u.sourceID, "TRANSLATION_ERROR", u.translation.message)] else [])
  }

  function UserSourceIDs(users: seq<User>): seq<string> {
    if users == [] then [] else UserSourceIDs(users[..|users| - 1]) + [users[|users| - 1].sourceID]
  }

  function RoleUsers(users: seq<User>): seq<string> {
    if users == [] then []
    else
      var u := users[|users| - 1];
      RoleUsers(users[..|users| - 1]) + (if u.hasRoles then [u.sourceID] else [])
  }

  /** The length of a JSON array of the records, as a JSON encoder writes it. */
  function EncodeArray(records: seq<string>): string {
    "[" + Join(records) + "]"
  }

  function Join(records: seq<string>): string {
    if records == [] then ""
    else if |records| == 1 then records[0]
    else Join(records[..|records| - 1]) + "," + records[|records| - 1]
  }

  /** The size counted for a chunk's array: two for the brackets, and a comma for every record. */
  function Bytes(items: seq<Item>): nat {
    if items == [] then 2 else Bytes(items[..|items| - 1]) + |items[|items| - 1].json| + 1
  }

  function Records(items: seq<Item>): (rs: seq<string>)
    ensures |rs| == |items|
  {
    seq(|items|, i requires 0 <= i < |items| => items[i].json)
  }

  function SourceIDs(items: seq<Item>): (ids: seq<string>)
    ensures |ids| == |items|
  {
    seq(|items|, i requires 0 <= i < |items| => items[i].sourceID)
  }

  function UserIDs(items: seq<Item>): (ids: seq<string>)
    ensures |ids| == |items|
  {
    seq(|items|, i requires 0 <= i < |items| => items[i].userID)
  }

  predicate Accepts(chunk: seq<Item>, x: Item) {
    Bytes(chunk) + |x.json| + 1 <= CHUNK_MAX_BYTES && |chunk| < CHUNK_MAX_USERS
  }

  /** The chunks of a whole input: each record joins the last chunk if it accepts it, else starts one. */
  function Chunks(items: seq<Item>): (chunks: seq<seq<Item>>)
    ensures items == [] <==> chunks == []
  {
    if items == [] then []
    else
      var before := Chunks(items[..|items| - 1]);
      var x := items[|items| - 1];
      if before != [] && Accepts(before[|before| - 1], x)
      then before[..|before| - 1] + [before[|before| - 1] + [x]]
      else before + [[x]]
  }

  predicate FitsJob(records: seq<string>) {
    |EncodeArray(records)| <= CHUNK_MAX_BYTES
  }

  /** What is submitted for a chunk: each record, or what was answered for it;
      a chunk with one answered fits the limit. */
  predicate Submits(c: Chunk, items: seq<Item>, answers: Option<seq<Option<string>>>) {
    && c.sourceIDs == SourceIDs(items) && c.userIDs == UserIDs(items)
    && answers.Some? && |answers.value| == |items| == |c.records|
    && (forall i :: 0 <= i < |items| ==> c.records[i] == if answers.value[i].Some? then answers.value[i].value else items[i].json)
    && (NoneReplaced(answers.value) || FitsJob(c.records))
  }

  predicate SubmitsAll(cs: seq<Chunk>, chunks: seq<seq<Item>>, payload: Payload) {
    |cs| == |chunks| && forall i :: 0 <= i < |cs| ==> Submits(cs[i], chunks[i], payload(i, chunks[i]))
  }

  /** No answer, or one too large. */
  predicate Refused(items: seq<Item>, answers: Option<seq<Option<string>>>) {
    answers.None? || |answers.value| != |items| || !(NoneReplaced(answers.value) || FitsJob(Replaced(Records(items), answers.value)))
  }

  /** The records with those a handler answered in their place. */
  function Replaced(records: seq<string>, answers: seq<Option<string>>): (final: seq<string>)
    requires |records| == |answers|
    ensures |final| == |records|
    ensures forall i :: 0 <= i < |final| ==> final[i] == if answers[i].Some? then answers[i].value else records[i]
  {
    seq(|records|, i requires 0 <= i < |records| => if answers[i].Some? then answers[i].value else records[i])
  }

  predicate NoneReplaced(answers: seq<Option<string>>) {
    forall i :: 0 <= i < |answers| ==> answers[i].None?
  }

  lemma {:induction false} JoinLength(items: seq<Item>)
    requires items != []
    ensures |EncodeArray(Records(items))| == Bytes(items) - 1
  {
    var n := |items|;
    if n > 1 {
      JoinLength(items[..n - 1]);
      assert Records(items)[..n - 1] == Records(items[..n - 1]);
    } else {
      assert items[..0] == [];
    }
  }

  predicate Sized(c: seq<Item>) {
    0 < |c| <= CHUNK_MAX_USERS && (|c| == 1 || Bytes(c) <= CHUNK_MAX_BYTES)
  }

  /** A chunk was closed because the next record did not fit in it. */
  predicate Closed(chunks: seq<seq<Item>>, i: nat)
    requires i + 1 < |chunks|
  {
    chunks[i + 1] != [] && !Accepts(chunks[i], chunks[i + 1][0])
  }

  /** Nothing is lost or reordered, and every chunk but a single record fits
      the job limits, with room for no more. */
  ghost predicate GreedyChunks(items: seq<Item>, chunks: seq<seq<Item>>) {
    && Concat(chunks) == items
    && (forall c :: c in chunks ==> Sized(c))
    && (forall i :: 0 <= i < |chunks| - 1 ==> Closed(chunks, i))
  }

  lemma {:induction false} GreedyOneMoreChunk(items: seq<Item>, chunks: seq<seq<Item>>, c: seq<Item>)
    requires GreedyChunks(items, chunks) && Sized(c)
    requires chunks == [] || !Accepts(chunks[|chunks| - 1], c[0])
    ensures GreedyChunks(items + c, chunks + [c])
  {
    ConcatOneMore(chunks, c);
    var more := chunks + [c];
    forall i | 0 <= i < |more| - 1
      ensures Closed(more, i)
    {
      assert i < |chunks| - 1 ==> Closed(chunks, i);
    }
  }

  lemma {:induction false} GreedyWithoutLastChunk(items: seq<Item>, chunks: seq<seq<Item>>)
    requires GreedyChunks(items, chunks) && chunks != []
    ensures var k := |chunks| - 1;
            && chunks[k] in chunks && Sized(chunks[k]) && items == Concat(chunks[..k]) + chunks[k]
            && GreedyChunks(Concat(chunks[..k]), chunks[..k])
            && (k > 0 ==> !Accepts(chunks[k - 1], chunks[k][0]))
  {
    var k := |chunks| - 1;
    forall i | 0 <= i < k - 1
      ensures Closed(chunks[..k], i)
    {
      assert Closed(chunks, i);
    }
    assert k > 0 ==> Closed(chunks, k - 1);
  }

  lemma RecordJoinsLast(items: seq<Item>, chunks: seq<seq<Item>>, x: Item)
    requires GreedyChunks(items, chunks) && chunks != [] && Accepts(chunks[|chunks| - 1], x)
    ensures GreedyChunks(items + [x], chunks[..|chunks| - 1] + [chunks[|chunks| - 1] + [x]])
  {
    var k := |chunks| - 1;
    GreedyWithoutLastChunk(items, chunks);
    var c := chunks[k] + [x];
    assert c[..|c| - 1] == chunks[k];
    assert items + [x] == Concat(chunks[..k]) + c;
    GreedyOneMoreChunk(Concat(chunks[..k]), chunks[..k], c);
  }

  lemma RecordStartsChunk(items: seq<Item>, chunks: seq<seq<Item>>, x: Item)
    requires GreedyChunks(items, chunks) && (chunks == [] || !Accepts(chunks[|chunks| - 1], x))
    ensures GreedyChunks(items + [x], chunks + [[x]])
  {
    assert [x][..0] == [];
    GreedyOneMoreChunk(items, chunks, [x]);
  }

  lemma {:induction false} ChunksAreGreedy(items: seq<Item>)
    ensures GreedyChunks(items, Chunks(items))
  {
    if items != [] {
      var rest, x := items[..|items| - 1], items[|items| - 1];
      ChunksAreGreedy(rest);
      var before := Chunks(rest);
      assert items == rest + [x];
      if before != [] && Accepts(before[|before| - 1], x) {
        RecordJoinsLast(rest, before, x);
      } else {
        RecordStartsChunk(rest, before, x);
      }
    }
  }

  /** Every chunk fits the limits as bytes on the wire. */
  lemma {:induction false} EveryChunkFits(items: seq<Item>, c: seq<Item>)
    requires c in Chunks(items)
    ensures 0 < |c| <= 1000 && (|c| == 1 || |EncodeArray(Records(c))| < 500 * 1024)
    ensures |c| == 1 || FitsJob(Records(c))
  {
    ChunksAreGreedy(items);
    assert Sized(c);
    JoinLength(c);
  }

  /** And no chunk is closed early: it has all users it may, or the next record
      would take its array to the limit. */
  lemma {:induction false} ChunksCloseWhenFull(items: seq<Item>, i: nat)
    requires i + 1 < |Chunks(items)|
    ensures var c, next := Chunks(items)[i], Chunks(items)[i + 1];
            next != [] && (|c| == 1000 || |EncodeArray(Records(c + [next[0]]))| >= 500 * 1024)
  {
    ChunksAreGreedy(items);
    var c, next := Chunks(items)[i], Chunks(items)[i + 1];
    assert Closed(Chunks(items), i) && Sized(c);
    JoinLength(c + [next[0]]);
    assert (c + [next[0]])[..|c|] == c;
  }

  /** Greedy chunks without their last record are greedy chunks. */
  lemma GreedyWithoutLastRecord(items: seq<Item>, chunks: seq<seq<Item>>)
    requires GreedyChunks(items, chunks) && chunks != []
    ensures var k := |chunks| - 1;
            var n := |chunks[k]| - 1;
            && n >= 0 && items != [] && items[|items| - 1] == chunks[k][n]
            && GreedyChunks(items[..|items| - 1], if n == 0 then chunks[..k] else chunks[..k] + [chunks[k][..n]])
  {
    var k := |chunks| - 1;
    GreedyWithoutLastChunk(items, chunks);
    var c := chunks[k];
    var n := |c| - 1;
    assert items[..|items| - 1] == Concat(chunks[..k]) + c[..n];
    if n > 0 {
      GreedyOneMoreChunk(Concat(chunks[..k]), chunks[..k], c[..n]);
    }
  }

  /** Greedy chunking is deterministic: its properties leave one result, so the
      same input gives every run the same chunks. */
  lemma {:induction false} GreedyIsUnique(items: seq<Item>, chunks: seq<seq<Item>>)
    requires GreedyChunks(items, chunks)
    ensures chunks == Chunks(items)
    decreases |items|
  {
    if chunks != [] {
      var k := |chunks| - 1;
      GreedyWithoutLastChunk(items, chunks);
      GreedyWithoutLastRecord(items, chunks);
      var c := chunks[k];
      var n := |c| - 1;
      assert chunks == chunks[..k] + [c] && c == c[..n] + [c[n]];
      GreedyIsUnique(items[..|items| - 1], if n == 0 then chunks[..k] else chunks[..k] + [c[..n]]);
      assert n == 0 ==> c == [c[n]];
    }
  }

  /** Reading on never changes a chunk that was already closed. */
  lemma {:induction false} ClosedChunksStay(items: seq<Item>, more: seq<Item>)
    requires items != []
    ensures var closed := Chunks(items)[..|Chunks(items)| - 1];
            closed <= Chunks(items + more) && |closed| < |Chunks(items + more)|
    decreases |more|
  {
    if more == [] {
      assert items + more == items;
    } else {
      var less := more[..|more| - 1];
      ClosedChunksStay(items, less);
      assert (items + more)[..|items + more| - 1] == items + less;
    }
  }

  lemma OneMoreItem(done: seq<User>, u: User)
    ensures Items(done + [u])
            == if u.translation.Encoded? then Items(done) + [Item(u.sourceID, u.userID, u.translation.json)] else Items(done)
  {
    assert (done + [u])[..|done|] == done;
  }

  lemma OneMoreNote(done: seq<User>, u: User)
    ensures RoleUsers(done + [u]) == if u.hasRoles then RoleUsers(done) + [u.sourceID] else RoleUsers(done)
    ensures TranslationErrors(done + [u])
            == if u.translation.Untranslatable?
               then TranslationErrors(done) + [ImportError(u.sourceID, "TRANSLATION_ERROR", u.translation.message)]
               else TranslationErrors(done)
  {
    assert (done + [u])[..|done|] == done;
  }

  lemma {:induction false} ItemsAppend(users: seq<User>, more: seq<User>)
    ensures Items(users + more) == Items(users) + Items(more)
    decreases |more|
  {
    if more == [] {
      assert users + more == users;
    } else {
      var less, u := more[..|more| - 1], more[|more| - 1];
      ItemsAppend(users, less);
      assert more == less + [u] && users + more == users + less + [u];
      OneMoreItem(users + less, u);
      OneMoreItem(less, u);
    }
  }

  /** all is a and b shuffled together, each in its own order. */
  ghost predicate Interleaves(a: seq<string>, b: seq<string>, all: seq<string>)
    decreases |all|
  {
    if all == [] then a == b == []
    else
      var n := |all| - 1;
      || (a != [] && a[|a| - 1] == all[n] && Interleaves(a[..|a| - 1], b, all[..n]))
      || (b != [] && b[|b| - 1] == all[n] && Interleaves(a, b[..|b| - 1], all[..n]))
  }

  lemma {:induction false} OneMoreOnEitherSide(a: seq<string>, b: seq<string>, all: seq<string>, x: string)
    requires Interleaves(a, b, all)
    ensures Interleaves(a + [x], b, all + [x]) && Interleaves(a, b + [x], all + [x])
  {
    assert (a + [x])[..|a|] == a && (b + [x])[..|b|] == b && (all + [x])[..|all|] == all;
  }

  /** Every user read is either a record or a translation failure, once and in order. */
  lemma {:induction false} UsersAreConserved(users: seq<User>)
    requires AllEncodable(users)
    ensures Interleaves(SourceIDs(Items(users)), FailedIDs(TranslationErrors(users)), UserSourceIDs(users))
  {
    if users != [] {
      var less, u := users[..|users| - 1], users[|users| - 1];
      UsersAreConserved(less);
      OneMoreOnEitherSide(SourceIDs(Items(less)), FailedIDs(TranslationErrors(less)), UserSourceIDs(less), u.sourceID);
      if u.translation.Encoded? {
        assert SourceIDs(Items(users)) == SourceIDs(Items(less)) + [u.sourceID];
        assert TranslationErrors(users) == TranslationErrors(less);
      } else {
        FailedIDsOneMore(TranslationErrors(less), ImportError(u.sourceID, "TRANSLATION_ERROR", u.translation.message));
        assert Items(users) == Items(less);
      }
    }
  }

  /** Where a user is: its record, its failure and its roles come after those
      of the users before it. */
  lemma {:induction false} UserAt(users: seq<User>, i: nat)
    requires i < |users|
    ensures var u, items, failures, roles := users[i], |Items(users[..i])|, |TranslationErrors(users[..i])|, |RoleUsers(users[..i])|;
            && (u.translation.Encoded? ==>
                  items < |Items(users)| && Items(users)[items] == Item(u.sourceID, u.userID, u.translation.json))
            && (u.translation.Untranslatable? ==>
                  && failures < |TranslationErrors(users)|
                  && TranslationErrors(users)[failures] == ImportError(u.sourceID, "TRANSLATION_ERROR", u.translation.message))
            && (u.hasRoles ==> roles < |RoleUsers(users)| && RoleUsers(users)[roles] == u.sourceID)
  {
    var n := |users| - 1;
    if i < n {
      UserAt(users[..n], i);
      assert users[..n][..i] == users[..i];
    }
  }

  /** Only users with roles are listed for theirs. */
  lemma {:induction false} OnlyUsersWithRoles(users: seq<User>, id: string)
    requires id in RoleUsers(users)
    ensures exists i :: 0 <= i < |users| && users[i].hasRoles && users[i].sourceID == id
  {
    var n := |users| - 1;
    if id in RoleUsers(users[..n]) {
      OnlyUsersWithRoles(users[..n], id);
      var i :| 0 <= i < n && users[..n][i].hasRoles && users[..n][i].sourceID == id;
      assert users[i] == users[..n][i];
    } else {
      assert users[n].hasRoles;
    }
  }

  function RecordsOf(cs: seq<Chunk>): (parts: seq<seq<string>>)
    ensures |parts| == |cs| && forall k :: 0 <= k < |cs| ==> parts[k] == cs[k].records
  {
    seq(|cs|, k requires 0 <= k < |cs| => cs[k].records)
  }

  lemma {:induction false} AsManyRecords(cs: seq<Chunk>, chunks: seq<seq<Item>>, payload: Payload)
    requires SubmitsAll(cs, chunks, payload)
    ensures |Concat(RecordsOf(cs))| == |Concat(chunks)|
  {
    if cs != [] {
      var n := |cs| - 1;
      AsManyRecords(cs[..n], chunks[..n], payload);
      assert RecordsOf(cs)[..n] == RecordsOf(cs[..n]);
      assert Submits(cs[n], chunks[n], payload(n, chunks[n]));
    }
  }

  /** Each user with a record is submitted in its place, under its own IDs:
      with its own record, or with what import.payload answered for it. */
  lemma {:induction false} UsersAreSubmitted(users: seq<User>, cs: seq<Chunk>, payload: Payload, i: nat) returns (k: nat, j: nat)
    requires SubmitsAll(cs, Chunks(Items(users)), payload) && i < |users| && users[i].translation.Encoded?
    ensures k < |cs| && j < |cs[k].records| == |cs[k].sourceIDs| == |cs[k].userIDs|
    ensures cs[k].sourceIDs[j] == users[i].sourceID && cs[k].userIDs[j] == users[i].userID
    ensures var answers := payload(k, Chunks(Items(users))[k]);
            && answers.Some? && j < |answers.value|
            && cs[k].records[j] == if answers.value[j].Some? then answers.value[j].value else users[i].translation.json
    ensures |Concat(RecordsOf(cs[..k]))| + j == |Items(users[..i])|
  {
    var chunks := Chunks(Items(users));
    UserAt(users, i);
    ChunksAreGreedy(Items(users));
    k, j := ConcatAt(chunks, |Items(users[..i])|);
    assert Submits(cs[k], chunks[k], payload(k, chunks[k]));
    AsManyRecords(cs[..k], chunks[..k], payload);
  }

  /** With nothing answered, the chunks' records are those of the users, in order. */
  lemma {:induction false} RecordsAreTheUsers(cs: seq<Chunk>, chunks: seq<seq<Item>>, payload: Payload)
    requires SubmitsAll(cs, chunks, payload)
    requires forall k :: 0 <= k < |chunks| && payload(k, chunks[k]).Some? ==> NoneReplaced(payload(k, chunks[k]).value)
    ensures Concat(RecordsOf(cs)) == Records(Concat(chunks))
  {
    if cs != [] {
      var n := |cs| - 1;
      RecordsAreTheUsers(cs[..n], chunks[..n], payload);
      assert RecordsOf(cs)[..n] == RecordsOf(cs[..n]);
      assert Submits(cs[n], chunks[n], payload(n, chunks[n]));
      assert cs[n].records == Records(chunks[n]);
      assert Records(Concat(chunks[..n]) + chunks[n]) == Records(Concat(chunks[..n])) + Records(chunks[n]);
    }
  }

  /** The jobs the chunks go to, and all that may stop the stream: what
      import.payload and submit answer for a chunk, and whether the context is
      done when it is looked at. */
  class Jobs {
    const payload: Payload
    const accepts: (nat, Chunk) -> bool
    const takes: (nat, Chunk) -> bool    // a chunk not accepted may have been taken: a replayed one whose event fails
    const done: nat -> bool
    var chunks: seq<Chunk>
    var looks: nat
    ghost var interrupted: bool    // it was done at a look

    constructor (payload: Payload, accepts: (nat, Chunk) -> bool, takes: (nat, Chunk) -> bool, done: nat -> bool)
      ensures this.payload == payload && this.accepts == accepts && this.takes == takes && this.done == done
      ensures chunks == [] && looks == 0 && !interrupted
    {
      this.payload, this.accepts, this.takes, this.done := payload, accepts, takes, done;
      chunks, looks, interrupted := [], 0, false;
    }

    method Submit(c: Chunk) returns (ok: bool)
      modifies `chunks
      ensures ok == accepts(|old(chunks)|, c)
      ensures chunks == if ok || takes(|old(chunks)|, c) then old(chunks) + [c] else old(chunks)
    {
      ok := accepts(|chunks|, c);
      if ok || takes(|chunks|, c) {
        chunks := chunks + [c];
      }
    }

    /** Whether the context is done. */
    method Done() returns (cancelled: bool)
      modifies `looks, `interrupted
      ensures looks == old(looks) + 1 && cancelled == done(old(looks)) && interrupted == (old(interrupted) || cancelled)
    {
      cancelled := done(looks);
      looks, interrupted := looks + 1, interrupted || cancelled;
    }

    /** import.payload or submit stopped the stream at one of the chunks. */
    predicate Stops(err: StreamError, all: seq<seq<Item>>)
      reads `chunks
    {
      var k := |chunks|;
      match err
      case PayloadFailed => k < |all| && Refused(all[k], payload(k, all[k]))
      case SubmitFailed =>
        || (k < |all| && NotAccepted(k, all[k], false))
        || (0 < k <= |all| && NotAccepted(k - 1, all[k - 1], true))
      case _ => false
    }

    predicate NotAccepted(k: nat, items: seq<Item>, taken: bool) {
      var answers := payload(k, items);
      && !Refused(items, answers)
      && var c := Chunk(Replaced(Records(items), answers.value), SourceIDs(items), UserIDs(items));
         !accepts(k, c) && takes(k, c) == taken
    }
  }

  /** finalPayloads: a handler may replace records, and then the chunk must still fit. */
  method FinalPayloads(records: seq<string>, answers: seq<Option<string>>) returns (ok: bool, final: seq<string>)
    requires |records| == |answers|
    ensures final == Replaced(records, answers)
    ensures ok <==> NoneReplaced(answers) || FitsJob(final)
  {
    final := records;
    var replaced := false;
    for i := 0 to |records|
      invariant |final| == |records| && (replaced <==> !NoneReplaced(answers[..i]))
      invariant forall j :: 0 <= j < |records| ==> final[j] == if j < i && answers[j].Some? then answers[j].value else records[j]
    {
      if answers[i].Some? {
        final, replaced := final[i := answers[i].value], true;
      }
      assert answers[..i + 1] == answers[..i] + [answers[i]];
    }
    assert answers[..|records|] == answers;
    ok := !replaced || |EncodeArray(final)| <= CHUNK_MAX_BYTES;
  }

  /** flush of a non-empty chunk. */
  method Flush(chunk: seq<Item>, jobs: Jobs, ghost all: seq<seq<Item>>) returns (err: Option<StreamError>)
    requires chunk != [] && |jobs.chunks| < |all| && all[|jobs.chunks|] == chunk
    modifies jobs`chunks
    ensures err.None? ==> Flushed(jobs, old(jobs.chunks), chunk)
    ensures err.Some? ==> (jobs.chunks == old(jobs.chunks) || Flushed(jobs, old(jobs.chunks), chunk)) && jobs.Stops(err.value, all)
  {
    var k := |jobs.chunks|;
    var answers := jobs.payload(k, chunk);
    if answers.None? || |answers.value| != |chunk| {
      return Some(PayloadFailed);
    }
    var ok, final := FinalPayloads(Records(chunk), answers.value);
    if !ok {
      return Some(PayloadFailed);
    }
    var c := Chunk(final, SourceIDs(chunk), UserIDs(chunk));
    assert Submits(c, chunk, answers);
    ok := jobs.Submit(c);
    assert !ok ==> jobs.NotAccepted(k, chunk, jobs.takes(k, c));
    return if ok then None else Some(SubmitFailed);
  }

  ghost predicate Flushed(jobs: Jobs, before: seq<Chunk>, chunk: seq<Item>)
    reads jobs`chunks
  {
    && |jobs.chunks| == |before| + 1 && before == jobs.chunks[..|before|]
    && Submits(jobs.chunks[|before|], chunk, jobs.payload(|before|, chunk))
  }

  /** The submitted chunks are the first ones of items. */
  ghost predicate Begins(submitted: seq<Chunk>, items: seq<Item>, payload: Payload) {
    |submitted| <= |Chunks(items)| && SubmitsAll(submitted, Chunks(items)[..|submitted|], payload)
  }

  /** The submitted chunks are the first ones of items, and not its last. */
  ghost predicate Ahead(submitted: seq<Chunk>, items: seq<Item>, payload: Payload) {
    submitted == [] || (|submitted| < |Chunks(items)| && Begins(submitted, items, payload))
  }

  lemma {:induction false} AheadStays(submitted: seq<Chunk>, users: seq<User>, rest: seq<User>, payload: Payload)
    requires Ahead(submitted, Items(users), payload)
    ensures Ahead(submitted, Items(users + rest), payload)
  {
    var items := Items(users);
    if submitted != [] {
      ItemsAppend(users, rest);
      ClosedChunksStay(items, Items(rest));
      var closed := Chunks(items)[..|Chunks(items)| - 1];
      assert Chunks(items)[..|submitted|] == closed[..|submitted|] == Chunks(items + Items(rest))[..|submitted|];
    }
  }

  /** The submitted chunks are those of items but the last, which is pending. */
  ghost predicate Pending(submitted: seq<Chunk>, chunk: seq<Item>, items: seq<Item>, payload: Payload) {
    var chunks := Chunks(items);
    if chunk == [] then items == [] && submitted == []
    else chunks != [] && chunks[|chunks| - 1] == chunk && SubmitsAll(submitted, chunks[..|chunks| - 1], payload)
  }

  lemma {:induction false} PendingCloses(submitted: seq<Chunk>, chunk: seq<Item>, items: seq<Item>, x: Item, payload: Payload)
    requires chunk != [] && Pending(submitted, chunk, items, payload) && !Accepts(chunk, x)
    ensures Chunks(items + [x]) == Chunks(items) + [[x]]
    ensures |Chunks(items)| == |submitted| + 1 && Chunks(items + [x])[|submitted|] == chunk
    ensures Ahead(submitted, items + [x], payload)
  {
    assert (items + [x])[..|items|] == items;
    assert Chunks(items + [x])[..|submitted|] == Chunks(items)[..|submitted|];
  }

  lemma {:induction false} ClosedIsAhead(submitted: seq<Chunk>, c: Chunk, chunk: seq<Item>, items: seq<Item>, x: Item, payload: Payload)
    requires chunk != [] && Pending(submitted, chunk, items, payload) && !Accepts(chunk, x)
    requires Submits(c, chunk, payload(|submitted|, chunk))
    ensures SubmitsAll(submitted + [c], Chunks(items), payload) && Ahead(submitted + [c], items + [x], payload)
  {
    PendingCloses(submitted, chunk, items, x, payload);
    SubmitsOneMore(submitted, c, Chunks(items), payload);
    assert Chunks(items + [x])[..|submitted + [c]|] == Chunks(items);
  }

  lemma {:induction false} PendingTakes(submitted: seq<Chunk>, chunk: seq<Item>, items: seq<Item>, x: Item, payload: Payload)
    requires Pending(submitted, chunk, items, payload) && (chunk == [] || Accepts(chunk, x))
    ensures Pending(submitted, chunk + [x], items + [x], payload)
    ensures Bytes(chunk + [x]) == Bytes(chunk) + |x.json| + 1
  {
    var chunks, more := Chunks(items), Chunks(items + [x]);
    assert (items + [x])[..|items|] == items && (chunk + [x])[..|chunk|] == chunk;
    if chunk != [] {
      assert more[..|more| - 1] == chunks[..|chunks| - 1];
    }
  }

  lemma {:induction false} PendingRestarts(submitted: seq<Chunk>, c: Chunk, chunk: seq<Item>, items: seq<Item>, x: Item, payload: Payload)
    requires chunk != [] && Pending(submitted, chunk, items, payload) && !Accepts(chunk, x) && Submits(c, chunk, payload(|submitted|, chunk))
    ensures Pending(submitted + [c], [x], items + [x], payload)
    ensures Bytes([x]) == 2 + |x.json| + 1
  {
    PendingCloses(submitted, chunk, items, x, payload);
    ClosedIsAhead(submitted, c, chunk, items, x, payload);
    var more := Chunks(items + [x]);
    assert more[..|more| - 1] == Chunks(items);
    assert [x][..0] == [];
  }

  lemma {:induction false} SubmitsOneMore(cs: seq<Chunk>, c: Chunk, chunks: seq<seq<Item>>, payload: Payload)
    requires chunks != [] && SubmitsAll(cs, chunks[..|chunks| - 1], payload) && Submits(c, chunks[|chunks| - 1], payload(|cs|, chunks[|cs|]))
    ensures SubmitsAll(cs + [c], chunks, payload)
  {
    forall i | 0 <= i < |cs + [c]|
      ensures Submits((cs + [c])[i], chunks[i], payload(i, chunks[i]))
    {
      if i < |cs| {
        assert chunks[i] == chunks[..|chunks| - 1][i];
      }
    }
  }

  lemma {:induction false} PendingIsAhead(submitted: seq<Chunk>, chunk: seq<Item>, items: seq<Item>, payload: Payload)
    requires Pending(submitted, chunk, items, payload)
    ensures Ahead(submitted, items, payload)
  {
  }

  lemma {:induction false} FlushedFor(jobs: Jobs, before: seq<Chunk>, chunk: seq<Item>, items: seq<Item>, x: Item)
    requires chunk != [] && Pending(before, chunk, items, jobs.payload) && !Accepts(chunk, x) && Flushed(jobs, before, chunk)
    ensures Pending(jobs.chunks, [x], items + [x], jobs.payload) && Bytes([x]) == 2 + |x.json| + 1
    ensures Ahead(jobs.chunks, items + [x], jobs.payload)
  {
    var c := jobs.chunks[|before|];
    assert jobs.chunks == before + [c];
    ClosedIsAhead(before, c, chunk, items, x, jobs.payload);
    PendingRestarts(before, c, chunk, items, x, jobs.payload);
  }

  /** flush of a chunk that does not accept the next record. */
  method FlushFor(x: Item, chunk: seq<Item>, jobs: Jobs, ghost items: seq<Item>) returns (err: Option<StreamError>)
    requires Pending(jobs.chunks, chunk, items, jobs.payload) && chunk != [] && !Accepts(chunk, x)
    modifies jobs`chunks
    ensures err.None? ==> Pending(jobs.chunks, [x], items + [x], jobs.payload) && Bytes([x]) == 2 + |x.json| + 1
    ensures err.Some? ==> jobs.Stops(err.value, Chunks(items + [x]))
    ensures Ahead(jobs.chunks, items + [x], jobs.payload)
  {
    ghost var before, all := jobs.chunks, Chunks(items + [x]);
    PendingCloses(before, chunk, items, x, jobs.payload);
    err := Flush(chunk, jobs, all);
    if |jobs.chunks| > |before| {
      FlushedFor(jobs, before, chunk, items, x);
    }
  }

  /** Adds a record to the current chunk, flushing the chunk first if it does not accept it. */
  method Take(x: Item, recBytes: nat, chunk: seq<Item>, chunkBytes: nat, jobs: Jobs, ghost items: seq<Item>)
    returns (err: Option<StreamError>, chunk': seq<Item>, chunkBytes': nat)
    requires Pending(jobs.chunks, chunk, items, jobs.payload) && chunkBytes == Bytes(chunk) && recBytes == |x.json| + 1
    modifies jobs`chunks
    ensures err.None? ==> Pending(jobs.chunks, chunk', items + [x], jobs.payload) && chunkBytes' == Bytes(chunk')
    ensures err.Some? ==> jobs.Stops(err.value, Chunks(items + [x]))
    ensures Ahead(jobs.chunks, items + [x], jobs.payload)
  {
    err, chunk', chunkBytes' := None, chunk, chunkBytes;
    if chunk != [] && (chunkBytes + recBytes > CHUNK_MAX_BYTES || |chunk| >= CHUNK_MAX_USERS) {
      err := FlushFor(x, chunk, jobs, items);
      if err.Some? {
        return;
      }
      chunk', chunkBytes' := [], 2;
    } else {
      PendingTakes(jobs.chunks, chunk, items, x, jobs.payload);
      PendingIsAhead(jobs.chunks, chunk + [x], items + [x], jobs.payload);
    }
    assert [] + [x] == [x];
    chunk', chunkBytes' := chunk' + [x], chunkBytes' + recBytes;
  }

  /** What a user adds to the failed users and to those with roles. */
  method NoteUser(u: User, failed: seq<ImportError>, roleInfos: seq<string>, ghost done: seq<User>)
    returns (failed': seq<ImportError>, roleInfos': seq<string>)
    requires Streamed(done, failed, roleInfos)
    ensures Streamed(done + [u], failed', roleInfos')
  {
    failed', roleInfos' := failed, roleInfos;
    OneMoreNote(done, u);
    if u.hasRoles {
      roleInfos' := roleInfos' + [u.sourceID];
    }
    if u.translation.Untranslatable? {
      failed' := failed' + [ImportError(u.sourceID, "TRANSLATION_ERROR", u.translation.message)];
    }
  }

  /** What a user adds to the chunks. */
  method TakeUser(u: User, chunk: seq<Item>, chunkBytes: nat, jobs: Jobs, ghost done: seq<User>)
    returns (err: Option<StreamError>, chunk': seq<Item>, chunkBytes': nat)
    requires Gathered(done, chunk, chunkBytes, jobs)
    modifies jobs`chunks
    ensures err.None? ==> Gathered(done + [u], chunk', chunkBytes', jobs)
    ensures err.Some? ==> !err.value.Cancelled? && Halted(err.value, done + [u], jobs)
  {
    OneMoreItem(done, u);
    PendingIsAhead(jobs.chunks, chunk, Items(done), jobs.payload);
    err, chunk', chunkBytes' := None, chunk, chunkBytes;
    if u.translation.Unencodable? {
      err := Some(EncodingFailed);
    } else if u.translation.Encoded? {
      var json := u.translation.json;
      err, chunk', chunkBytes' := Take(Item(u.sourceID, u.userID, json), |json| + 1, chunk, chunkBytes, jobs, Items(done));
    }
  }

  /** What streamChunks holds after the users in done. */
  ghost predicate Streamed(done: seq<User>, failed: seq<ImportError>, roleInfos: seq<string>) {
    failed == TranslationErrors(done) && roleInfos == RoleUsers(done)
  }

  ghost predicate Gathered(done: seq<User>, chunk: seq<Item>, chunkBytes: nat, jobs: Jobs)
    reads jobs`chunks
  {
    chunkBytes == Bytes(chunk) && Pending(jobs.chunks, chunk, Items(done), jobs.payload) && AllEncodable(done)
  }

  predicate AllEncodable(users: seq<User>) {
    forall i :: 0 <= i < |users| ==> !users[i].translation.Unencodable?
  }

  /** Why the stream stopped, at the last of the users in done. */
  ghost predicate Stopped(err: StreamError, done: seq<User>, jobs: Jobs)
    reads jobs`chunks
  {
    if err.EncodingFailed? then done != [] && done[|done| - 1].translation.Unencodable?
    else jobs.Stops(err, Chunks(Items(done)))
  }

  /** What the loop holds after the users in done: a chunk being gathered, or
      the error it was left for. */
  ghost predicate Reading(done: seq<User>, failed: seq<ImportError>, roleInfos: seq<string>, chunk: seq<Item>, chunkBytes: nat,
                          err: Option<StreamError>, jobs: Jobs)
    reads jobs`chunks
  {
    && Streamed(done, failed, roleInfos)
    && (err.None? ==> Gathered(done, chunk, chunkBytes, jobs))
    && (err.Some? ==> Halted(err.value, done, jobs))
  }

  /** One turn of streamChunks' loop, over the user after those in done. */
  method ReadUser(u: User, failed: seq<ImportError>, roleInfos: seq<string>, chunk: seq<Item>, chunkBytes: nat, jobs: Jobs,
                  ghost done: seq<User>)
    returns (failed': seq<ImportError>, roleInfos': seq<string>, chunk': seq<Item>, chunkBytes': nat, err: Option<StreamError>,
             ghost done': seq<User>)
    requires Reading(done, failed, roleInfos, chunk, chunkBytes, None, jobs) && !jobs.interrupted
    modifies jobs
    ensures done' == done + [u] || (done' == done && err.Some?)
    ensures err == Some(Cancelled) <==> jobs.interrupted
    ensures Reading(done', failed', roleInfos', chunk', chunkBytes', err, jobs)
  {
    failed', roleInfos', chunk', chunkBytes', done' := failed, roleInfos, chunk, chunkBytes, done;
    var cancelled := jobs.Done();
    if cancelled {
      PendingIsAhead(jobs.chunks, chunk, Items(done), jobs.payload);
      err := Some(Cancelled);
    } else {
      failed', roleInfos' := NoteUser(u, failed, roleInfos, done);
      done' := done + [u];
      err, chunk', chunkBytes' := TakeUser(u, chunk, chunkBytes, jobs, done);
    }
  }

  /** How the loop ends when no user is left: the end of the file, a read error, or a done context. */
  method EndOfUsers(endOfFile: bool, jobs: Jobs) returns (err: Option<StreamError>)
    requires !jobs.interrupted
    modifies jobs`looks, jobs`interrupted
    ensures err == if jobs.interrupted then Some(Cancelled) else if endOfFile then None else Some(ReadFailed)
  {
    var cancelled := jobs.Done();
    err := if cancelled then Some(Cancelled) else if endOfFile then None else Some(ReadFailed);
  }

  /** streamChunks' loop, over the users of a reader that ends with endOfFile
      or a read error. done are the users read, chunk is what is left to flush. */
  method ReadChunks(users: seq<User>, endOfFile: bool, jobs: Jobs)
    returns (failed: seq<ImportError>, roleInfos: seq<string>, chunk: seq<Item>, err: Option<StreamError>, ghost done: seq<User>)
    requires jobs.chunks == [] && !jobs.interrupted
    modifies jobs
    ensures done <= users && Streamed(done, failed, roleInfos)
    ensures err.None? ==> endOfFile && done == users && AllEncodable(done) && Pending(jobs.chunks, chunk, Items(done), jobs.payload)
    ensures err.Some? ==> Caused(err.value, users, endOfFile, done, jobs) && Ahead(jobs.chunks, Items(done), jobs.payload)
    ensures err == Some(Cancelled) <==> jobs.interrupted
  {
    var chunkBytes;
    failed, roleInfos, chunk, chunkBytes, err, done := ReadUsers(users, jobs);
    if err.None? {
      PendingIsAhead(jobs.chunks, chunk, Items(done), jobs.payload);
      err := EndOfUsers(endOfFile, jobs);
    }
  }

  /** The turns of the loop, one for each user. */
  method ReadUsers(users: seq<User>, jobs: Jobs)
    returns (failed: seq<ImportError>, roleInfos: seq<string>, chunk: seq<Item>, chunkBytes: nat, err: Option<StreamError>, ghost done: seq<User>)
    requires jobs.chunks == [] && !jobs.interrupted
    modifies jobs
    ensures done <= users && (err.None? ==> done == users)
    ensures Reading(done, failed, roleInfos, chunk, chunkBytes, err, jobs) && (err == Some(Cancelled) <==> jobs.interrupted)
  {
    var read := 0;
    failed, roleInfos, chunk, chunkBytes, err, done := [], [], [], 2, None, [];
    while read < |users| && err.None?
      invariant read <= |users| && (done == users[..read] || (err.Some? && done <= users))
      invariant Reading(done, failed, roleInfos, chunk, chunkBytes, err, jobs) && (err == Some(Cancelled) <==> jobs.interrupted)
      decreases |users| - read
    {
      assert users[..read + 1] == users[..read] + [users[read]];
      failed, roleInfos, chunk, chunkBytes, err, done := ReadUser(users[read], failed, roleInfos, chunk, chunkBytes, jobs, done);
      read := read + 1;
    }
  }

  /** The loop was left after the users in done. */
  ghost predicate Halted(err: StreamError, done: seq<User>, jobs: Jobs)
    reads jobs`chunks
  {
    (err.Cancelled? || Stopped(err, done, jobs)) && Ahead(jobs.chunks, Items(done), jobs.payload)
  }

  /** An error has its cause: the context, the reader, a user that can't be
      encoded, what import.payload answered for a chunk, or submit. */
  ghost predicate Caused(err: StreamError, users: seq<User>, endOfFile: bool, done: seq<User>, jobs: Jobs)
    reads jobs`chunks, jobs`interrupted
  {
    match err
    case Cancelled => jobs.interrupted
    case ReadFailed => !endOfFile && done == users
    case _ => Stopped(err, done, jobs)
  }

  /** The last flush, of what is left of a whole input. */
  method FlushLast(chunk: seq<Item>, jobs: Jobs, ghost items: seq<Item>) returns (err: Option<StreamError>)
    requires Pending(jobs.chunks, chunk, items, jobs.payload)
    modifies jobs`chunks
    ensures err.None? ==> SubmitsAll(jobs.chunks, Chunks(items), jobs.payload)
    ensures err.Some? ==> jobs.Stops(err.value, Chunks(items))
    ensures Begins(jobs.chunks, items, jobs.payload)
  {
    err := None;
    ghost var before := jobs.chunks;
    if chunk != [] {
      assert Chunks(items)[..|before|] == Chunks(items)[..|Chunks(items)| - 1];
      err := Flush(chunk, jobs, Chunks(items));
      if |jobs.chunks| > |before| {
        assert jobs.chunks == before + [jobs.chunks[|before|]];
        SubmitsOneMore(before, jobs.chunks[|before|], Chunks(items), jobs.payload);
        assert Chunks(items)[..|jobs.chunks|] == Chunks(items);
      }
    }
  }

  /** streamChunks: the users in chunks, up to the end of the file or to an
      error; done are the users read. */
  method StreamChunks(users: seq<User>, endOfFile: bool, jobs: Jobs)
    returns (failed: seq<ImportError>, roleInfos: seq<string>, err: Option<StreamError>, ghost done: seq<User>)
    requires jobs.chunks == [] && !jobs.interrupted
    modifies jobs
    ensures done <= users
    ensures failed == TranslationErrors(done) && roleInfos == RoleUsers(done)
    // At the end of the file the chunks are those of the whole input.
    ensures err.None? ==> endOfFile && done == users && SubmitsAll(jobs.chunks, Chunks(Items(users)), jobs.payload)
    ensures err.None? ==> AllEncodable(users)
    ensures err.Some? ==> Caused(err.value, users, endOfFile, done, jobs)
    ensures err == Some(Cancelled) <==> jobs.interrupted
    // However the stream stops, what was submitted begins the chunks of any input that goes on from what was read.
    ensures Begins(jobs.chunks, Items(done), jobs.payload)
    ensures !(endOfFile && done == users) ==> forall rest :: Begins(jobs.chunks, Items(done + rest), jobs.payload)
  {
    var chunk;
    failed, roleInfos, chunk, err, done := ReadChunks(users, endOfFile, jobs);
    if err.Some? {
      forall rest
        ensures Begins(jobs.chunks, Items(done + rest), jobs.payload)
      {
        AheadStays(jobs.chunks, done, rest, jobs.payload);
      }
      assert done + [] == done && Begins(jobs.chunks, Items(done + []), jobs.payload);
    } else {
      err := FlushLast(chunk, jobs, Items(done));
    }
  }
}
