/** The whole import into Auth0: users cut into chunks, the chunks' jobs run and
    interrupted in any way, and one report merged from them. */
module AuthImport {

  import opened ChunkOutcome
  import opened ImportJobs
  import opened ImportProtocol
  import opened ImportSafety
  import opened Options
  import opened Reports
  import opened Sequences
  import C = Chunking

  /** runBulkImport's report: the users that could not be translated, then the jobs' report. */
  function Whole(users: seq<C.User>, jobs: ImportReport): ImportReport {
    Merged(ImportReport([], C.TranslationErrors(users), map[], []), jobs)
  }

  /** A user read is on exactly one side of the report, and has a target ID if it succeeded. */
  predicate OneSide(r: ImportReport, id: string) {
    (id in r.succeeded <==> id !in FailedIDs(r.failed)) && (id in r.targetIDs <==> id in r.succeeded)
  }

  /** A job's errors fail no user of the import outside its chunk. */
  ghost predicate NamesNoOther(r: ImportReport, sourceIDs: seq<string>, all: seq<string>) {
    forall id :: id in FailedIDs(r.failed) && id in all ==> id in sourceIDs
  }

  /** The report is one submitAndPoll makes of the chunk, whatever its job's status and errors. */
  ghost predicate ReportsOn(r: ImportReport, c: C.Chunk, all: seq<string>) {
    && |c.sourceIDs| == |c.userIDs|
    && (exists status, errors, upsert, message :: r == ChunkReport(c.sourceIDs, c.userIDs, status, errors, upsert, message))
    && NamesNoOther(r, c.sourceIDs, all)
  }

  /** Every job made of a chunk of the run ends with such a report, each with its own. */
  ghost predicate JobsReportOn(s: State, submitted: seq<C.Chunk>, all: seq<string>) {
    && |s.input| == |submitted|
    && forall k: nat, id: nat :: k < |s.input| && IsJobOf(s, k, id) ==> ReportsOn(s.jobs[id].report, submitted[k], all)
  }

  ghost predicate AllReportOn(rs: seq<Option<ImportReport>>, submitted: seq<C.Chunk>, all: seq<string>) {
    |rs| == |submitted| && forall k :: 0 <= k < |rs| ==> rs[k].Some? && ReportsOn(rs[k].value, submitted[k], all)
  }

  // Where the source IDs are.

  function SourcesOf(cs: seq<C.Chunk>): (parts: seq<seq<string>>)
    ensures |parts| == |cs| && forall k :: 0 <= k < |cs| ==> parts[k] == cs[k].sourceIDs
  {
    seq(|cs|, k requires 0 <= k < |cs| => cs[k].sourceIDs)
  }

  lemma {:induction false} SourcesOfChunks(cs: seq<C.Chunk>, chunks: seq<seq<C.Item>>, payload: C.Payload)
    requires C.SubmitsAll(cs, chunks, payload)
    ensures Concat(SourcesOf(cs)) == C.SourceIDs(Concat(chunks))
  {
    if cs != [] {
      var n := |cs| - 1;
      SourcesOfChunks(cs[..n], chunks[..n], payload);
      assert SourcesOf(cs)[..n] == SourcesOf(cs[..n]);
      assert C.Submits(cs[n], chunks[n], payload(n, chunks[n]));
      var a, b := Concat(chunks[..n]), chunks[n];
      assert C.SourceIDs(a + b) == C.SourceIDs(a) + C.SourceIDs(b);
    }
  }

  lemma {:induction false} ConcatMembers(parts: seq<seq<string>>, id: string)
    ensures id in Concat(parts) <==> exists k :: 0 <= k < |parts| && id in parts[k]
  {
    if parts != [] {
      var n := |parts| - 1;
      ConcatMembers(parts[..n], id);
      assert forall k :: 0 <= k < n ==> parts[..n][k] == parts[k];
    }
  }

  /** Of a concatenation without repetition, an element is in one part only. */
  lemma {:induction false} OnePart(parts: seq<seq<string>>, id: string, j: nat, k: nat)
    requires Distinct(Concat(parts)) && j < k < |parts| && id in parts[j]
    ensures id !in parts[k]
  {
    var n := |parts| - 1;
    var before := Concat(parts[..n]);
    if k < n {
      assert forall a :: 0 <= a < |before| ==> Concat(parts)[a] == before[a];
      OnePart(parts[..n], id, j, k);
    } else {
      assert parts[..n][j] == parts[j];
      ConcatMembers(parts[..n], id);
      var a :| 0 <= a < |before| && before[a] == id;
      forall b | 0 <= b < |parts[k]|
        ensures parts[k][b] != id
      {
        assert Concat(parts)[a] == id && Concat(parts)[|before| + b] == parts[k][b];
      }
    }
  }

  /** Shuffled together without repetition, two lists share nothing. */
  lemma {:induction false} SidesAreApart(a: seq<string>, b: seq<string>, all: seq<string>)
    requires C.Interleaves(a, b, all) && Distinct(all)
    ensures Distinct(a) && Distinct(b)
    ensures forall id :: id in all <==> id in a || id in b
    ensures forall id :: !(id in a && id in b)
    decreases |all|
  {
    if all != [] {
      var n := |all| - 1;
      assert all == all[..n] + [all[n]] && all[n] !in all[..n];
      if a != [] && a[|a| - 1] == all[n] && C.Interleaves(a[..|a| - 1], b, all[..n]) {
        SidesAreApart(a[..|a| - 1], b, all[..n]);
        assert a == a[..|a| - 1] + [all[n]];
      } else {
        SidesAreApart(a, b[..|b| - 1], all[..n]);
        assert b == b[..|b| - 1] + [all[n]];
      }
    }
  }

  // What the merged report holds.

  lemma {:induction false} MergedSucceeded(rs: seq<Option<ImportReport>>, id: string)
    ensures id in MergeAll(rs).succeeded <==> exists k :: 0 <= k < |rs| && rs[k].Some? && id in rs[k].value.succeeded
  {
    if rs != [] {
      MergedSucceeded(rs[..|rs| - 1], id);
      assert forall k :: 0 <= k < |rs| - 1 ==> rs[..|rs| - 1][k] == rs[k];
    }
  }

  lemma {:induction false} MergedFailed(rs: seq<Option<ImportReport>>, id: string)
    ensures id in FailedIDs(MergeAll(rs).failed) <==> exists k :: 0 <= k < |rs| && rs[k].Some? && id in FailedIDs(rs[k].value.failed)
  {
    if rs != [] {
      var n := |rs| - 1;
      MergedFailed(rs[..n], id);
      assert forall k :: 0 <= k < n ==> rs[..n][k] == rs[k];
      if rs[n].Some? {
        FailedIDsAppend(MergeAll(rs[..n]).failed, rs[n].value.failed);
      }
    }
  }

  lemma {:induction false} MergedTargetIDs(rs: seq<Option<ImportReport>>, id: string)
    ensures id in MergeAll(rs).targetIDs <==> exists k :: 0 <= k < |rs| && rs[k].Some? && id in rs[k].value.targetIDs
  {
    if rs != [] {
      MergedTargetIDs(rs[..|rs| - 1], id);
      assert forall k :: 0 <= k < |rs| - 1 ==> rs[..|rs| - 1][k] == rs[k];
    }
  }

  /** A report on a chunk mentions a user of the import exactly if the chunk has it, and then on one side. */
  lemma {:induction false} ChunkMentions(r: ImportReport, c: C.Chunk, all: seq<string>, id: string)
    requires ReportsOn(r, c, all) && Distinct(c.sourceIDs) && id in all
    ensures if id in c.sourceIDs then OneSide(r, id)
            else id !in r.succeeded && id !in FailedIDs(r.failed) && id !in r.targetIDs
  {
    var status, errors, upsert, message :| r == ChunkReport(c.sourceIDs, c.userIDs, status, errors, upsert, message);
    TargetIDsCoverSucceeded(c.sourceIDs, c.userIDs, status, errors, upsert, message);
    if id in c.sourceIDs {
      EveryUserHasOneOutcome(c.sourceIDs, c.userIDs, status, errors, upsert, message, id);
    } else {
      UnnamedMembers(c.sourceIDs, NamedBy(AttributeAll(errors, BySourceID(c.sourceIDs, c.userIDs), upsert)), id);
    }
  }

  lemma {:induction false} PartIsDistinct(parts: seq<seq<string>>, k: nat)
    requires Distinct(Concat(parts)) && k < |parts|
    ensures Distinct(parts[k])
  {
    var n := |parts| - 1;
    var before := Concat(parts[..n]);
    if k < n {
      assert forall a :: 0 <= a < |before| ==> Concat(parts)[a] == before[a];
      PartIsDistinct(parts[..n], k);
    } else {
      assert forall b :: 0 <= b < |parts[k]| ==> Concat(parts)[|before| + b] == parts[k][b];
    }
  }

  /** The jobs' report mentions exactly the users with a record, each on one side. */
  lemma {:induction false} JobsMention(rs: seq<Option<ImportReport>>, submitted: seq<C.Chunk>, all: seq<string>, id: string)
    requires AllReportOn(rs, submitted, all) && Distinct(Concat(SourcesOf(submitted))) && id in all
    ensures var r := MergeAll(rs);
            if id in Concat(SourcesOf(submitted)) then OneSide(r, id)
            else id !in r.succeeded && id !in FailedIDs(r.failed) && id !in r.targetIDs
  {
    var parts := SourcesOf(submitted);
    MergedSucceeded(rs, id);
    MergedFailed(rs, id);
    MergedTargetIDs(rs, id);
    ConcatMembers(parts, id);
    forall k | 0 <= k < |rs|
      ensures if id in parts[k] then OneSide(rs[k].value, id)
              else id !in rs[k].value.succeeded && id !in FailedIDs(rs[k].value.failed) && id !in rs[k].value.targetIDs
    {
      PartIsDistinct(parts, k);
      ChunkMentions(rs[k].value, submitted[k], all, id);
    }
    if id in Concat(parts) {
      var k :| 0 <= k < |parts| && id in parts[k];
      forall j | 0 <= j < |parts| && j != k
        ensures id !in parts[j]
      {
        if j < k {
          if id in parts[j] {
            OnePart(parts, id, j, k);
          }
        } else {
          OnePart(parts, id, k, j);
        }
      }
    }
  }

  /** Each user of an input is on exactly one side of the whole report. */
  lemma {:induction false} UsersHaveOneSide(users: seq<C.User>, submitted: seq<C.Chunk>, payload: C.Payload, rs: seq<Option<ImportReport>>, id: string)
    requires C.AllEncodable(users) && Distinct(C.UserSourceIDs(users)) && id in C.UserSourceIDs(users)
    requires C.SubmitsAll(submitted, C.Chunks(C.Items(users)), payload)
    requires AllReportOn(rs, submitted, C.UserSourceIDs(users))
    ensures OneSide(Whole(users, MergeAll(rs)), id)
  {
    var items := C.Items(users);
    C.UsersAreConserved(users);
    C.ChunksAreGreedy(items);
    SourcesOfChunks(submitted, C.Chunks(items), payload);
    SidesAreApart(C.SourceIDs(items), FailedIDs(C.TranslationErrors(users)), C.UserSourceIDs(users));
    JobsMention(rs, submitted, C.UserSourceIDs(users), id);
    FailedIDsAppend(C.TranslationErrors(users), MergeAll(rs).failed);
  }

  /** A run that submitted every chunk of its input and ends without a failed job
      reports each user read exactly once: as succeeded, with a target ID, or as
      failed; however its jobs ended, and however often the import was
      interrupted before. */
  lemma {:induction false} EveryUserIsReportedOnce(users: seq<C.User>, submitted: seq<C.Chunk>, payload: C.Payload, ss: seq<State>, acts: seq<Action>,
                                i: nat, id: string)
    requires C.AllEncodable(users) && Distinct(C.UserSourceIDs(users)) && id in C.UserSourceIDs(users)
    requires C.SubmitsAll(submitted, C.Chunks(C.Items(users)), payload)
    requires Behaviour(ss, acts) && i < |ss| && JobsReportOn(ss[i], submitted, C.UserSourceIDs(users))
    requires ss[i].submitter.Stopped? && Enabled(ss[i], Finish) && !ss[i].failed && |ss[i].results| == |ss[i].input|
    ensures OneSide(Whole(users, MergeAll(ReportsOf(ss[i].results))), id)
  {
    AllJobsReported(ss, acts, i, submitted, C.UserSourceIDs(users));
    UsersHaveOneSide(users, submitted, payload, ReportsOf(ss[i].results), id);
  }

  lemma {:induction false} AllJobsReported(ss: seq<State>, acts: seq<Action>, i: nat, submitted: seq<C.Chunk>, all: seq<string>)
    requires Behaviour(ss, acts) && i < |ss| && JobsReportOn(ss[i], submitted, all)
    requires ss[i].submitter.Stopped? && Enabled(ss[i], Finish) && !ss[i].failed && |ss[i].results| == |ss[i].input|
    ensures AllReportOn(ReportsOf(ss[i].results), submitted, all)
  {
    EveryStateIsSafe(ss, acts, i);
    var s, rs := ss[i], ReportsOf(ss[i].results);
    forall k | 0 <= k < |rs|
      ensures rs[k].Some? && ReportsOn(rs[k].value, submitted[k], all)
    {
      assert !Errs(s, k);
      var job := ReportsFollowCheckpoints(ss, acts, i, k);
    }
  }

  /** In the whole report a user keeps the outcome its own chunk's report has:
      no other chunk's report has its source ID. */
  lemma {:induction false} OnlyItsChunkReports(rs: seq<Option<ImportReport>>, submitted: seq<C.Chunk>, all: seq<string>, k: nat, id: string)
    requires AllReportOn(rs, submitted, all) && Distinct(Concat(SourcesOf(submitted))) && id in all
    requires k < |submitted| && id in submitted[k].sourceIDs
    ensures forall j :: 0 <= j < |rs| && j != k ==> id !in rs[j].value.targetIDs && id !in rs[j].value.succeeded
  {
    var parts := SourcesOf(submitted);
    forall j | 0 <= j < |rs| && j != k
      ensures id !in rs[j].value.targetIDs && id !in rs[j].value.succeeded
    {
      if j < k {
        if id in parts[j] {
          OnePart(parts, id, j, k);
        }
      } else {
        OnePart(parts, id, k, j);
      }
      PartIsDistinct(parts, j);
      ChunkMentions(rs[j].value, submitted[j], all, id);
    }
  }

  lemma {:induction false} ChunkHasTargetID(r: ImportReport, c: C.Chunk, all: seq<string>, j: nat)
    requires ReportsOn(r, c, all) && Distinct(c.sourceIDs) && j < |c.sourceIDs| && c.sourceIDs[j] in r.succeeded
    ensures c.sourceIDs[j] in r.targetIDs && r.targetIDs[c.sourceIDs[j]] == TargetUserID(c.userIDs[j])
  {
    var status, errors, upsert, message :| r == ChunkReport(c.sourceIDs, c.userIDs, status, errors, upsert, message);
    TargetIDsCoverSucceeded(c.sourceIDs, c.userIDs, status, errors, upsert, message);
  }

  lemma {:induction false} UserHasItsTargetID(users: seq<C.User>, submitted: seq<C.Chunk>, payload: C.Payload, rs: seq<Option<ImportReport>>, u: nat)
    requires C.AllEncodable(users) && Distinct(C.UserSourceIDs(users)) && u < |users| && users[u].translation.Encoded?
    requires C.SubmitsAll(submitted, C.Chunks(C.Items(users)), payload)
    requires AllReportOn(rs, submitted, C.UserSourceIDs(users))
    requires users[u].sourceID in MergeAll(rs).succeeded
    ensures users[u].sourceID in MergeAll(rs).targetIDs
    ensures MergeAll(rs).targetIDs[users[u].sourceID] == TargetUserID(users[u].userID)
  {
    var all, id, parts := C.UserSourceIDs(users), users[u].sourceID, SourcesOf(submitted);
    var k, j := C.UsersAreSubmitted(users, submitted, payload, u);
    RecordsAreDistinct(users, submitted, payload);
    SourceIDAt(users, u);
    OnlyItsChunkReports(rs, submitted, all, k, id);
    MergedSucceeded(rs, id);
    PartIsDistinct(parts, k);
    ChunkHasTargetID(rs[k].value, submitted[k], all, j);
    MergedTargetID(rs, k, id);
  }

  lemma {:induction false} RecordsAreDistinct(users: seq<C.User>, submitted: seq<C.Chunk>, payload: C.Payload)
    requires C.AllEncodable(users) && Distinct(C.UserSourceIDs(users))
    requires C.SubmitsAll(submitted, C.Chunks(C.Items(users)), payload)
    ensures Distinct(Concat(SourcesOf(submitted)))
  {
    var items := C.Items(users);
    C.UsersAreConserved(users);
    C.ChunksAreGreedy(items);
    SourcesOfChunks(submitted, C.Chunks(items), payload);
    SidesAreApart(C.SourceIDs(items), FailedIDs(C.TranslationErrors(users)), C.UserSourceIDs(users));
  }

  lemma {:induction false} SourceIDAt(users: seq<C.User>, u: nat)
    requires u < |users|
    ensures |C.UserSourceIDs(users)| == |users| && C.UserSourceIDs(users)[u] == users[u].sourceID
  {
    var n := |users| - 1;
    if u < n {
      SourceIDAt(users[..n], u);
    } else if n > 0 {
      SourceIDAt(users[..n], n - 1);
    }
  }

  /** In such a run every user that succeeded is recorded with the target ID of its own user_id. */
  lemma {:induction false} EveryUserHasItsTargetID(users: seq<C.User>, submitted: seq<C.Chunk>, payload: C.Payload, ss: seq<State>, acts: seq<Action>,
                                i: nat, u: nat)
    requires C.AllEncodable(users) && Distinct(C.UserSourceIDs(users)) && u < |users|
    requires C.SubmitsAll(submitted, C.Chunks(C.Items(users)), payload)
    requires Behaviour(ss, acts) && i < |ss| && JobsReportOn(ss[i], submitted, C.UserSourceIDs(users))
    requires ss[i].submitter.Stopped? && Enabled(ss[i], Finish) && !ss[i].failed && |ss[i].results| == |ss[i].input|
    ensures var r := Whole(users, MergeAll(ReportsOf(ss[i].results)));
            && (users[u].translation.Untranslatable? ==> users[u].sourceID in FailedIDs(r.failed))
            && (users[u].sourceID in r.succeeded ==>
                  && users[u].sourceID in r.targetIDs
                  && r.targetIDs[users[u].sourceID] == TargetUserID(users[u].userID))
  {
    var all, rs := C.UserSourceIDs(users), ReportsOf(ss[i].results);
    AllJobsReported(ss, acts, i, submitted, all);
    SourceIDAt(users, u);
    FailedIDsAppend(C.TranslationErrors(users), MergeAll(rs).failed);
    C.UserAt(users, u);
    if users[u].translation.Untranslatable? {
      assert users[u].sourceID in FailedIDs(C.TranslationErrors(users));
      UsersHaveOneSide(users, submitted, payload, rs, users[u].sourceID);
    } else if users[u].sourceID in MergeAll(rs).succeeded {
      UserHasItsTargetID(users, submitted, payload, rs, u);
    }
  }

  lemma EchoIsOfTheChunk(sourceIDs: seq<string>, userIDs: seq<string>, e: Echo, j: nat, upsert: bool)
    requires j < |sourceIDs| == |userIDs| && userIDs[j] == e.userID && KnownUnprefixed(sourceIDs, userIDs, j)
    ensures Attribute(Echoed(e), BySourceID(sourceIDs, userIDs), upsert).sourceID in sourceIDs
  {
    PrefixedUserID(e.userID);
    assert userIDs[j] in userIDs && sourceIDs[j] in sourceIDs;
  }

  lemma KnownEchoIsOfTheChunk(sourceIDs: seq<string>, userIDs: seq<string>, e: Echo, upsert: bool)
    requires |sourceIDs| == |userIDs| && AllKnown(sourceIDs, userIDs) && e.userID in userIDs
    ensures Attribute(Echoed(e), BySourceID(sourceIDs, userIDs), upsert).sourceID in sourceIDs
  {
    var j: nat :| j < |userIDs| && userIDs[j] == e.userID;
    EchoIsOfTheChunk(sourceIDs, userIDs, e, j, upsert);
  }

  lemma FailedAmong(errors: seq<ImportError>, ids: seq<string>, id: string)
    requires forall k :: 0 <= k < |errors| ==> errors[k].sourceID in ids
    requires id in FailedIDs(errors)
    ensures id in ids
  {
    var k :| 0 <= k < |errors| && FailedIDs(errors)[k] == id;
  }

  lemma EchoesAreOfTheChunk(sourceIDs: seq<string>, userIDs: seq<string>, es: seq<Echo>, upsert: bool, id: string)
    requires |sourceIDs| == |userIDs| && AllKnown(sourceIDs, userIDs)
    requires forall k :: 0 <= k < |es| ==> es[k].userID in userIDs
    requires id in FailedIDs(AttributeAll(EchoedAll(es), BySourceID(sourceIDs, userIDs), upsert))
    ensures id in sourceIDs
  {
    var attributed := AttributeAll(EchoedAll(es), BySourceID(sourceIDs, userIDs), upsert);
    forall k | 0 <= k < |es|
      ensures attributed[k].sourceID in sourceIDs
    {
      KnownEchoIsOfTheChunk(sourceIDs, userIDs, es[k], upsert);
    }
    FailedAmong(attributed, sourceIDs, id);
  }

  lemma UnnamedAreOfTheChunk(attributed: seq<ImportError>, sourceIDs: seq<string>, message: string, id: string)
    requires id in FailedIDs(attributed + JobFailures(Unnamed(sourceIDs, NamedBy(attributed)), message))
    ensures id in FailedIDs(attributed) || id in sourceIDs
  {
    var unnamed := Unnamed(sourceIDs, NamedBy(attributed));
    FailedIDsAppend(attributed, JobFailures(unnamed, message));
    assert FailedIDs(JobFailures(unnamed, message)) == unnamed;
    UnnamedMembers(sourceIDs, NamedBy(attributed), id);
  }

  /** Errors that echo user_ids of their chunk name no other user, if the chunk's users are known by them. */
  lemma EchoesNameNoOther(c: C.Chunk, status: Status, es: seq<Echo>, upsert: bool, message: string, all: seq<string>)
    requires |c.sourceIDs| == |c.userIDs| && AllKnown(c.sourceIDs, c.userIDs)
    requires forall k :: 0 <= k < |es| ==> es[k].userID in c.userIDs
    ensures NamesNoOther(ChunkReport(c.sourceIDs, c.userIDs, status, EchoedAll(es), upsert, message), c.sourceIDs, all)
  {
    var attributed := AttributeAll(EchoedAll(es), BySourceID(c.sourceIDs, c.userIDs), upsert);
    var r := ChunkReport(c.sourceIDs, c.userIDs, status, EchoedAll(es), upsert, message);
    forall id | id in FailedIDs(r.failed)
      ensures id in c.sourceIDs
    {
      if status == StatusFailed {
        UnnamedAreOfTheChunk(attributed, c.sourceIDs, message, id);
      }
      if id in FailedIDs(attributed) {
        EchoesAreOfTheChunk(c.sourceIDs, c.userIDs, es, upsert, id);
      }
    }
  }
}
