/** What one bulk import job says of each user of its chunk, and the merging of
    the jobs' reports into the import's. */
module ChunkOutcome {

  import opened Options
  import opened Reports
  import opened Sequences

  const USER_ID_PREFIX := "auth0|"
  const DUPLICATED_USER := "DUPLICATED_USER"
  const JOB_FAILED := "JOB_FAILED"

  datatype Status = StatusCompleted | StatusFailed | StatusOther

  /** The user_id of an import payload: the target ID without the prefix Auth0 adds. */
  function ImportUserID(id: string): string {
    if USER_ID_PREFIX <= id then id[|USER_ID_PREFIX|..] else id
  }

  function TargetUserID(id: string): string {
    USER_ID_PREFIX + ImportUserID(id)
  }

  function DuplicatedMessage(upsert: bool): string {
    if upsert then "user exists in Auth0's user store but not this tenant/connection"
    else "user already exists in this connection"
  }

  /** Source IDs by payload user_id; a user_id used twice names its last user. */
  function BySourceID(sourceIDs: seq<string>, userIDs: seq<string>): (owner: map<string, string>)
    requires |sourceIDs| == |userIDs|
    ensures forall u :: u in owner <==> u in userIDs
    ensures forall u :: u in owner ==> exists i :: 0 <= i < |userIDs| && userIDs[i] == u && owner[u] == sourceIDs[i]
  {
    if sourceIDs == [] then map[]
    else
      var n := |sourceIDs| - 1;
      BySourceID(sourceIDs[..n], userIDs[..n])[userIDs[n] := sourceIDs[n]]
  }

  /** A job error told by source ID. */
  function Attribute(e: ImportError, owner: map<string, string>, upsert: bool): ImportError {
    var id := ImportUserID(e.sourceID);
    ImportError(
      if id in owner then owner[id] else e.sourceID,
      e.code,
      if e.code == DUPLICATED_USER then DuplicatedMessage(upsert) else e.message)
  }

  function AttributeAll(es: seq<ImportError>, owner: map<string, string>, upsert: bool): (out: seq<ImportError>)
    ensures |out| == |es| && forall i :: 0 <= i < |es| ==> out[i] == Attribute(es[i], owner, upsert)
  {
    if es == [] then []
    else AttributeAll(es[..|es| - 1], owner, upsert) + [Attribute(es[|es| - 1], owner, upsert)]
  }

  /** The source IDs of a chunk no error names. */
  function Unnamed(sourceIDs: seq<string>, named: set<string>): seq<string> {
    if sourceIDs == [] then []
    else
      var id := sourceIDs[|sourceIDs| - 1];
      Unnamed(sourceIDs[..|sourceIDs| - 1], named) + (if id in named then [] else [id])
  }

  lemma {:induction false} UnnamedMembers(sourceIDs: seq<string>, named: set<string>, id: string)
    ensures id in Unnamed(sourceIDs, named) <==> id in sourceIDs && id !in named
  {
    if sourceIDs != [] {
      UnnamedMembers(sourceIDs[..|sourceIDs| - 1], named, id);
    }
  }

  function NamedBy(es: seq<ImportError>): (ids: set<string>)
    ensures forall id :: id in ids <==> id in FailedIDs(es)
  {
    set id | id in FailedIDs(es)
  }

  /** The error of a user its failed job says nothing about. */
  function JobFailure(id: string, message: string): ImportError {
    ImportError(id, JOB_FAILED, message)
  }

  function JobFailures(ids: seq<string>, message: string): (es: seq<ImportError>)
    ensures |es| == |ids| && forall i :: 0 <= i < |ids| ==> es[i] == JobFailure(ids[i], message)
  {
    seq(|ids|, i requires 0 <= i < |ids| => JobFailure(ids[i], message))
  }

  /** The target ID each succeeded source ID is recorded with: its last one. */
  function TargetIDs(sourceIDs: seq<string>, userIDs: seq<string>, named: set<string>): map<string, string>
    requires |sourceIDs| == |userIDs|
  {
    if sourceIDs == [] then map[]
    else
      var n := |sourceIDs| - 1;
      var before := TargetIDs(sourceIDs[..n], userIDs[..n], named);
      if sourceIDs[n] in named then before else before[sourceIDs[n] := TargetUserID(userIDs[n])]
  }

  method IndexUsers(sourceIDs: seq<string>, userIDs: seq<string>) returns (owner: map<string, string>)
    requires |sourceIDs| == |userIDs|
    ensures owner == BySourceID(sourceIDs, userIDs)
  {
    owner := map[];
    for i := 0 to |sourceIDs|
      invariant owner == BySourceID(sourceIDs[..i], userIDs[..i])
    {
      assert sourceIDs[..i + 1][..i] == sourceIDs[..i] && userIDs[..i + 1][..i] == userIDs[..i];
      owner := owner[userIDs[i] := sourceIDs[i]];
    }
    assert sourceIDs[..|sourceIDs|] == sourceIDs && userIDs[..|userIDs|] == userIDs;
  }

  /** One job error, told by source ID. */
  method TellBySourceID(e: ImportError, owner: map<string, string>, upsert: bool) returns (je: ImportError)
    ensures je == Attribute(e, owner, upsert)
  {
    je := e;
    var id := ImportUserID(je.sourceID);
    if id in owner {
      je := je.(sourceID := owner[id]);
    }
    if je.code == DUPLICATED_USER {
      je := je.(message := DuplicatedMessage(upsert));
    }
  }

  lemma AttributeOneMore(es: seq<ImportError>, k: nat, owner: map<string, string>, upsert: bool)
    requires k < |es|
    ensures AttributeAll(es[..k + 1], owner, upsert) == AttributeAll(es[..k], owner, upsert) + [Attribute(es[k], owner, upsert)]
  {
    assert es[..k + 1][..k] == es[..k];
  }

  lemma {:induction false} NamedByOneMore(es: seq<ImportError>, e: ImportError)
    ensures NamedBy(es + [e]) == NamedBy(es) + {e.sourceID}
  {
    FailedIDsOneMore(es, e);
  }

  /** The loop over the job's errors. */
  method RecordErrors(jobErrors: seq<ImportError>, owner: map<string, string>, upsert: bool)
    returns (failed: seq<ImportError>, failedIDs: set<string>)
    ensures failed == AttributeAll(jobErrors, owner, upsert) && failedIDs == NamedBy(failed)
  {
    failed, failedIDs := [], {};
    for k := 0 to |jobErrors|
      invariant failed == AttributeAll(jobErrors[..k], owner, upsert)
      invariant failedIDs == NamedBy(failed)
    {
      var je := TellBySourceID(jobErrors[k], owner, upsert);
      AttributeOneMore(jobErrors, k, owner, upsert);
      NamedByOneMore(failed, je);
      failedIDs := failedIDs + {je.sourceID};
      failed := failed + [je];
    }
    assert jobErrors[..|jobErrors|] == jobErrors;
  }

  /** The loop over the chunk's users. */
  method RecordUsers(sourceIDs: seq<string>, userIDs: seq<string>, failedIDs: set<string>, status: Status, jobFailedMessage: string)
    returns (succeeded: seq<string>, failed: seq<ImportError>, targetIDs: map<string, string>)
    requires |sourceIDs| == |userIDs|
    ensures status == StatusFailed ==> succeeded == [] && targetIDs == map[]
                                       && failed == JobFailures(Unnamed(sourceIDs, failedIDs), jobFailedMessage)
    ensures status != StatusFailed ==> failed == [] && succeeded == Unnamed(sourceIDs, failedIDs)
                                       && targetIDs == TargetIDs(sourceIDs, userIDs, failedIDs)
  {
    succeeded, failed, targetIDs := [], [], map[];
    for i := 0 to |sourceIDs|
      invariant status == StatusFailed ==> succeeded == [] && targetIDs == map[]
                                           && failed == JobFailures(Unnamed(sourceIDs[..i], failedIDs), jobFailedMessage)
      invariant status != StatusFailed ==> failed == [] && succeeded == Unnamed(sourceIDs[..i], failedIDs)
                                           && targetIDs == TargetIDs(sourceIDs[..i], userIDs[..i], failedIDs)
    {
      assert sourceIDs[..i + 1][..i] == sourceIDs[..i] && userIDs[..i + 1][..i] == userIDs[..i];
      var id := sourceIDs[i];
      if id in failedIDs {
        assert Unnamed(sourceIDs[..i + 1], failedIDs) == Unnamed(sourceIDs[..i], failedIDs);
        continue;
      }
      if status == StatusFailed {
        failed := failed + [JobFailure(id, jobFailedMessage)];
        continue;
      }
      succeeded := succeeded + [id];
      targetIDs := targetIDs[id := TargetUserID(userIDs[i])];
    }
    assert sourceIDs[..|sourceIDs|] == sourceIDs && userIDs[..|userIDs|] == userIDs;
  }

  /** What a chunk's users come to, for a job that ended with a status and errors. */
  function ChunkReport(sourceIDs: seq<string>, userIDs: seq<string>, status: Status, jobErrors: seq<ImportError>,
                       upsert: bool, message: string): ImportReport
    requires |sourceIDs| == |userIDs|
  {
    var attributed := AttributeAll(jobErrors, BySourceID(sourceIDs, userIDs), upsert);
    var unnamed := Unnamed(sourceIDs, NamedBy(attributed));
    if status == StatusFailed then ImportReport([], attributed + JobFailures(unnamed, message), map[], [])
    else ImportReport(unnamed, attributed, TargetIDs(sourceIDs, userIDs, NamedBy(attributed)), [])
  }

  /** submitAndPoll's report on a chunk, once its job has ended. */
  method ReportChunk(sourceIDs: seq<string>, userIDs: seq<string>, status: Status, jobErrors: seq<ImportError>,
                     upsert: bool, jobFailedMessage: string)
    returns (report: ImportReport)
    requires |sourceIDs| == |userIDs|
    ensures report == ChunkReport(sourceIDs, userIDs, status, jobErrors, upsert, jobFailedMessage)
  {
    var owner := IndexUsers(sourceIDs, userIDs);
    var failed, failedIDs := RecordErrors(jobErrors, owner, upsert);
    var succeeded, unconfirmed, targetIDs := RecordUsers(sourceIDs, userIDs, failedIDs, status, jobFailedMessage);
    assert failed + [] == failed;
    report := ImportReport(succeeded, failed + unconfirmed, targetIDs, []);
  }

  /** Each user of a chunk is in exactly one of the succeeded and the failed
      ones, and a failed job leaves none succeeded. */
  lemma {:induction false} EveryUserHasOneOutcome(sourceIDs: seq<string>, userIDs: seq<string>, status: Status,
                                                 jobErrors: seq<ImportError>, upsert: bool, message: string, id: string)
    requires |sourceIDs| == |userIDs| && id in sourceIDs
    ensures var r := ChunkReport(sourceIDs, userIDs, status, jobErrors, upsert, message);
            && (id in r.succeeded <==> id !in FailedIDs(r.failed))
            && (status == StatusFailed ==> id in FailedIDs(r.failed))
  {
    var attributed := AttributeAll(jobErrors, BySourceID(sourceIDs, userIDs), upsert);
    var named := NamedBy(attributed);
    var unnamed := Unnamed(sourceIDs, named);
    UnnamedMembers(sourceIDs, named, id);
    if status == StatusFailed {
      var js := JobFailures(unnamed, message);
      FailedIDsAppend(attributed, js);
      assert FailedIDs(js) == unnamed;
    }
  }

  lemma {:induction false} TargetIDsCoverUnnamed(sourceIDs: seq<string>, userIDs: seq<string>, named: set<string>, id: string)
    requires |sourceIDs| == |userIDs|
    ensures id in TargetIDs(sourceIDs, userIDs, named) <==> id in Unnamed(sourceIDs, named)
  {
    if sourceIDs != [] {
      TargetIDsCoverUnnamed(sourceIDs[..|sourceIDs| - 1], userIDs[..|sourceIDs| - 1], named, id);
    }
  }

  lemma {:induction false} TargetIDOfUser(sourceIDs: seq<string>, userIDs: seq<string>, named: set<string>, i: nat)
    requires i < |sourceIDs| == |userIDs| && Distinct(sourceIDs) && sourceIDs[i] !in named
    ensures sourceIDs[i] in TargetIDs(sourceIDs, userIDs, named)
    ensures TargetIDs(sourceIDs, userIDs, named)[sourceIDs[i]] == TargetUserID(userIDs[i])
  {
    var n := |sourceIDs| - 1;
    if i < n {
      TargetIDOfUser(sourceIDs[..n], userIDs[..n], named, i);
    }
  }

  /** The recorded target IDs are those of the succeeded users, each with its own user_id. */
  lemma TargetIDsCoverSucceeded(sourceIDs: seq<string>, userIDs: seq<string>, status: Status,
                                jobErrors: seq<ImportError>, upsert: bool, message: string)
    requires |sourceIDs| == |userIDs| && Distinct(sourceIDs)
    ensures var r := ChunkReport(sourceIDs, userIDs, status, jobErrors, upsert, message);
            && (forall id :: id in r.targetIDs <==> id in r.succeeded)
            && (forall i :: 0 <= i < |sourceIDs| && sourceIDs[i] in r.succeeded ==> r.targetIDs[sourceIDs[i]] == TargetUserID(userIDs[i]))
  {
    var named := NamedBy(AttributeAll(jobErrors, BySourceID(sourceIDs, userIDs), upsert));
    forall id
      ensures id in TargetIDs(sourceIDs, userIDs, named) <==> id in Unnamed(sourceIDs, named)
    {
      TargetIDsCoverUnnamed(sourceIDs, userIDs, named, id);
    }
    forall i | 0 <= i < |sourceIDs| && sourceIDs[i] in Unnamed(sourceIDs, named)
      ensures TargetIDs(sourceIDs, userIDs, named)[sourceIDs[i]] == TargetUserID(userIDs[i])
    {
      UnnamedMembers(sourceIDs, named, sourceIDs[i]);
      TargetIDOfUser(sourceIDs, userIDs, named, i);
    }
  }

  // What a chunk's report says in full.

  /** The last user of a user_id. */
  lemma {:induction false} LastOwner(sourceIDs: seq<string>, userIDs: seq<string>, i: nat)
    requires i < |sourceIDs| == |userIDs| && userIDs[i] !in userIDs[i + 1..]
    ensures BySourceID(sourceIDs, userIDs)[userIDs[i]] == sourceIDs[i]
  {
    var n := |userIDs| - 1;
    if i < n {
      assert userIDs[n] == userIDs[i + 1..][n - i - 1];
      assert userIDs[..n][i + 1..] == userIDs[i + 1..][..n - i - 1];
      LastOwner(sourceIDs[..n], userIDs[..n], i);
    }
  }

  /** Each error is reported first and in its place: with its code, its message
      unless it is that of a duplicate, and the source ID of the last user it
      names, or its own if it names none. */
  lemma {:induction false} ErrorsInFull(sourceIDs: seq<string>, userIDs: seq<string>, status: Status, jobErrors: seq<ImportError>,
                     upsert: bool, message: string, k: nat)
    requires |sourceIDs| == |userIDs| && k < |jobErrors|
    ensures var r := ChunkReport(sourceIDs, userIDs, status, jobErrors, upsert, message);
            var e := jobErrors[k];
            var named := if "auth0|" <= e.sourceID then e.sourceID[6..] else e.sourceID;
            && |r.failed| >= |jobErrors| && (status != StatusFailed ==> |r.failed| == |jobErrors|)
            && r.failed[k].code == e.code
            && r.failed[k].message == (if e.code != "DUPLICATED_USER" then e.message
                                       else if upsert then "user exists in Auth0's user store but not this tenant/connection"
                                       else "user already exists in this connection")
            && (named !in userIDs ==> r.failed[k].sourceID == e.sourceID)
            && (forall i :: 0 <= i < |userIDs| && userIDs[i] == named && named !in userIDs[i + 1..] ==> r.failed[k].sourceID == sourceIDs[i])
  {
    var e := jobErrors[k];
    assert |USER_ID_PREFIX| == 6;
    forall i | 0 <= i < |userIDs| && userIDs[i] == ImportUserID(e.sourceID) && userIDs[i] !in userIDs[i + 1..]
      ensures BySourceID(sourceIDs, userIDs)[userIDs[i]] == sourceIDs[i]
    {
      LastOwner(sourceIDs, userIDs, i);
    }
  }

  lemma {:induction false} UnnamedAt(sourceIDs: seq<string>, named: set<string>, i: nat)
    requires i < |sourceIDs| && sourceIDs[i] !in named
    ensures |Unnamed(sourceIDs[..i], named)| < |Unnamed(sourceIDs, named)|
    ensures Unnamed(sourceIDs, named)[|Unnamed(sourceIDs[..i], named)|] == sourceIDs[i]
  {
    var n := |sourceIDs| - 1;
    if i < n {
      UnnamedAt(sourceIDs[..n], named, i);
      assert sourceIDs[..n][..i] == sourceIDs[..i];
    }
  }

  /** The users no error is reported for are reported in their order, each after
      those before it: succeeded, or with the failure of its job after the errors. */
  lemma {:induction false} OthersInFull(sourceIDs: seq<string>, userIDs: seq<string>, status: Status, jobErrors: seq<ImportError>,
                     upsert: bool, message: string, i: nat)
    requires i < |sourceIDs| == |userIDs|
    requires forall k :: 0 <= k < |jobErrors| ==>
               ChunkReport(sourceIDs, userIDs, status, jobErrors, upsert, message).failed[k].sourceID != sourceIDs[i]
    ensures var r := ChunkReport(sourceIDs, userIDs, status, jobErrors, upsert, message);
            var named := NamedBy(r.failed[..|jobErrors|]);
            var at := |Unnamed(sourceIDs[..i], named)|;
            if status == StatusFailed
            then |jobErrors| + at < |r.failed| && r.failed[|jobErrors| + at] == ImportError(sourceIDs[i], "JOB_FAILED", message)
            else at < |r.succeeded| && r.succeeded[at] == sourceIDs[i]
  {
    var attributed := AttributeAll(jobErrors, BySourceID(sourceIDs, userIDs), upsert);
    assert ChunkReport(sourceIDs, userIDs, status, jobErrors, upsert, message).failed[..|jobErrors|] == attributed;
    assert sourceIDs[i] !in FailedIDs(attributed);
    UnnamedAt(sourceIDs, NamedBy(attributed), i);
  }

  /** An error names user i when it carries the user's user_id, prefixed or
      not, or carries no user_id of the chunk but the user's source ID. */
  predicate Names(e: ImportError, sourceIDs: seq<string>, userIDs: seq<string>, i: nat)
    requires i < |sourceIDs| == |userIDs|
  {
    || ImportUserID(e.sourceID) == userIDs[i]
    || (ImportUserID(e.sourceID) !in userIDs && e.sourceID == sourceIDs[i])
  }

  /** Two records of a chunk share their source ID exactly if they share their user_id. */
  ghost predicate OneToOne(sourceIDs: seq<string>, userIDs: seq<string>)
    requires |sourceIDs| == |userIDs|
  {
    forall i, j :: 0 <= i < |userIDs| && 0 <= j < |userIDs| ==> (userIDs[i] == userIDs[j] <==> sourceIDs[i] == sourceIDs[j])
  }

  lemma ErrorNamesUser(e: ImportError, sourceIDs: seq<string>, userIDs: seq<string>, upsert: bool, i: nat)
    requires i < |sourceIDs| == |userIDs| && OneToOne(sourceIDs, userIDs)
    ensures Attribute(e, BySourceID(sourceIDs, userIDs), upsert).sourceID == sourceIDs[i] <==> Names(e, sourceIDs, userIDs, i)
  {
  }

  lemma FailuresAreAttributedRight(sourceIDs: seq<string>, userIDs: seq<string>, status: Status,
                                   jobErrors: seq<ImportError>, upsert: bool, message: string, i: nat)
    requires i < |sourceIDs| == |userIDs| && OneToOne(sourceIDs, userIDs) && status != StatusFailed
    ensures var r := ChunkReport(sourceIDs, userIDs, status, jobErrors, upsert, message);
            sourceIDs[i] in FailedIDs(r.failed) <==> exists k :: 0 <= k < |jobErrors| && Names(jobErrors[k], sourceIDs, userIDs, i)
  {
    var attributed := AttributeAll(jobErrors, BySourceID(sourceIDs, userIDs), upsert);
    forall k | 0 <= k < |jobErrors|
      ensures FailedIDs(attributed)[k] == sourceIDs[i] <==> Names(jobErrors[k], sourceIDs, userIDs, i)
    {
      ErrorNamesUser(jobErrors[k], sourceIDs, userIDs, upsert, i);
    }
  }

  /** What Auth0 says of one user: the user_id it was sent, with or without the prefix it adds. */
  datatype Echo = Echo(userID: string, prefixed: bool, code: string, message: string)

  function Echoed(e: Echo): ImportError {
    ImportError(if e.prefixed then USER_ID_PREFIX + e.userID else e.userID, e.code, e.message)
  }

  function EchoedAll(es: seq<Echo>): (out: seq<ImportError>)
    ensures |out| == |es| && forall k :: 0 <= k < |es| ==> out[k] == Echoed(es[k])
  {
    seq(|es|, k requires 0 <= k < |es| => Echoed(es[k]))
  }

  /** A job that did not fail, and whose errors are the echoes, fails exactly the users they echo. */
  ghost predicate FailsTheEchoed(sourceIDs: seq<string>, userIDs: seq<string>, status: Status, es: seq<Echo>,
                                 upsert: bool, message: string)
    requires |sourceIDs| == |userIDs|
  {
    var r := ChunkReport(sourceIDs, userIDs, status, EchoedAll(es), upsert, message);
    forall i :: 0 <= i < |userIDs| ==>
      (sourceIDs[i] in FailedIDs(r.failed) <==> exists k :: 0 <= k < |es| && es[k].userID == userIDs[i])
  }

  ghost predicate AlwaysFailsTheEchoed(sourceIDs: seq<string>, userIDs: seq<string>)
    requires |sourceIDs| == |userIDs|
  {
    forall es: seq<Echo>, status: Status, upsert: bool, message: string
      | status != StatusFailed && forall k :: 0 <= k < |es| ==> es[k].userID in userIDs
      :: FailsTheEchoed(sourceIDs, userIDs, status, es, upsert, message)
  }

  /** User i is known by its user_id as it stands: that does not begin with the
      prefix, or is the user's source ID too and no other user_id with the
      prefix removed. */
  predicate KnownUnprefixed(sourceIDs: seq<string>, userIDs: seq<string>, i: nat)
    requires i < |sourceIDs| == |userIDs|
  {
    || !(USER_ID_PREFIX <= userIDs[i])
    || (ImportUserID(userIDs[i]) !in userIDs && sourceIDs[i] == userIDs[i])
  }

  ghost predicate AllKnown(sourceIDs: seq<string>, userIDs: seq<string>)
    requires |sourceIDs| == |userIDs|
  {
    forall j: nat :: j < |userIDs| ==> KnownUnprefixed(sourceIDs, userIDs, j)
  }

  lemma PrefixedUserID(userID: string)
    ensures ImportUserID(USER_ID_PREFIX + userID) == userID
    ensures ImportUserID(userID) == userID <==> !(USER_ID_PREFIX <= userID)
  {
    assert (USER_ID_PREFIX + userID)[|USER_ID_PREFIX|..] == userID;
    assert USER_ID_PREFIX <= userID ==> |ImportUserID(userID)| < |userID|;
  }

  lemma EchoNamesItsUser(e: Echo, sourceIDs: seq<string>, userIDs: seq<string>, i: nat, j: nat)
    requires i < |sourceIDs| == |userIDs| && j < |userIDs| && OneToOne(sourceIDs, userIDs)
    requires e.userID == userIDs[j] && (e.prefixed || KnownUnprefixed(sourceIDs, userIDs, j))
    ensures Names(Echoed(e), sourceIDs, userIDs, i) <==> userIDs[i] == e.userID
  {
    PrefixedUserID(e.userID);
  }

  lemma EchoesFailTheirUsers(sourceIDs: seq<string>, userIDs: seq<string>, status: Status, es: seq<Echo>,
                             upsert: bool, message: string)
    requires |sourceIDs| == |userIDs| && OneToOne(sourceIDs, userIDs) && status != StatusFailed
    requires AllKnown(sourceIDs, userIDs)
    requires forall k :: 0 <= k < |es| ==> es[k].userID in userIDs
    ensures FailsTheEchoed(sourceIDs, userIDs, status, es, upsert, message)
  {
    var errors := EchoedAll(es);
    forall i | 0 <= i < |userIDs|
      ensures sourceIDs[i] in FailedIDs(ChunkReport(sourceIDs, userIDs, status, errors, upsert, message).failed)
              <==> exists k :: 0 <= k < |es| && es[k].userID == userIDs[i]
    {
      FailuresAreAttributedRight(sourceIDs, userIDs, status, errors, upsert, message, i);
      forall k | 0 <= k < |es|
        ensures Names(errors[k], sourceIDs, userIDs, i) <==> es[k].userID == userIDs[i]
      {
        var j :| 0 <= j < |userIDs| && userIDs[j] == es[k].userID;
        EchoNamesItsUser(es[k], sourceIDs, userIDs, i, j);
      }
    }
  }

  /** The only source ID one error fails. */
  lemma OneErrorFailsOne(sourceIDs: seq<string>, userIDs: seq<string>, status: Status, e: Echo, upsert: bool, message: string)
    requires |sourceIDs| == |userIDs| && status != StatusFailed
    ensures FailedIDs(ChunkReport(sourceIDs, userIDs, status, EchoedAll([e]), upsert, message).failed)
            == [Attribute(Echoed(e), BySourceID(sourceIDs, userIDs), upsert).sourceID]
  {
  }

  /** The report on a completed job with this one error. */
  function ReportOfOne(sourceIDs: seq<string>, userIDs: seq<string>, e: Echo): ImportReport
    requires |sourceIDs| == |userIDs|
  {
    ChunkReport(sourceIDs, userIDs, StatusCompleted, EchoedAll([e]), false, "")
  }

  lemma WrongUserFails(sourceIDs: seq<string>, userIDs: seq<string>, e: Echo, wrong: nat)
    requires wrong < |sourceIDs| == |userIDs| && e.userID in userIDs
    requires sourceIDs[wrong] in FailedIDs(ReportOfOne(sourceIDs, userIDs, e).failed) <==> userIDs[wrong] != e.userID
    ensures !AlwaysFailsTheEchoed(sourceIDs, userIDs)
  {
    assert [e][0].userID == e.userID;
    assert !FailsTheEchoed(sourceIDs, userIDs, StatusCompleted, [e], false, "");
  }

  lemma OneIsFailed(sourceIDs: seq<string>, userIDs: seq<string>, e: Echo) returns (failed: string)
    requires |sourceIDs| == |userIDs|
    ensures forall id :: id in FailedIDs(ReportOfOne(sourceIDs, userIDs, e).failed) <==> id == failed
  {
    OneErrorFailsOne(sourceIDs, userIDs, StatusCompleted, e, false, "");
    failed := Attribute(Echoed(e), BySourceID(sourceIDs, userIDs), false).sourceID;
  }

  lemma SharedUserID(sourceIDs: seq<string>, userIDs: seq<string>, i: nat, j: nat)
    requires |sourceIDs| == |userIDs| && i < |userIDs| && j < |userIDs| && userIDs[i] == userIDs[j] && sourceIDs[i] != sourceIDs[j]
    ensures !AlwaysFailsTheEchoed(sourceIDs, userIDs)
  {
    var e := Echo(userIDs[i], true, "", "");
    var failed := OneIsFailed(sourceIDs, userIDs, e);
    WrongUserFails(sourceIDs, userIDs, e, if sourceIDs[i] == failed then j else i);
  }

  lemma SharedSourceID(sourceIDs: seq<string>, userIDs: seq<string>, i: nat, j: nat)
    requires |sourceIDs| == |userIDs| && i < |userIDs| && j < |userIDs| && userIDs[i] != userIDs[j] && sourceIDs[i] == sourceIDs[j]
    ensures !AlwaysFailsTheEchoed(sourceIDs, userIDs)
  {
    var e := Echo(userIDs[i], true, "", "");
    var failed := OneIsFailed(sourceIDs, userIDs, e);
    WrongUserFails(sourceIDs, userIDs, e, if sourceIDs[i] == failed then j else i);
  }

  /** An echo fails the wrong users in a chunk whose IDs are not one to one. */
  lemma SharedIDGoesAstray(sourceIDs: seq<string>, userIDs: seq<string>)
    requires |sourceIDs| == |userIDs| && !OneToOne(sourceIDs, userIDs)
    ensures !AlwaysFailsTheEchoed(sourceIDs, userIDs)
  {
    var i, j :| 0 <= i < |userIDs| && 0 <= j < |userIDs| && (userIDs[i] == userIDs[j]) != (sourceIDs[i] == sourceIDs[j]);
    if userIDs[i] == userIDs[j] {
      SharedUserID(sourceIDs, userIDs, i, j);
    } else {
      SharedSourceID(sourceIDs, userIDs, i, j);
    }
  }

  /** And in one with a user its own user_id does not tell. */
  lemma PrefixedIDGoesAstray(sourceIDs: seq<string>, userIDs: seq<string>, i: nat)
    requires i < |sourceIDs| == |userIDs| && OneToOne(sourceIDs, userIDs) && !KnownUnprefixed(sourceIDs, userIDs, i)
    ensures !AlwaysFailsTheEchoed(sourceIDs, userIDs)
  {
    var e := Echo(userIDs[i], false, "", "");
    PrefixedUserID(userIDs[i]);
    FailuresAreAttributedRight(sourceIDs, userIDs, StatusCompleted, EchoedAll([e]), false, "", i);
    assert EchoedAll([e])[0] == Echoed(e);
    WrongUserFails(sourceIDs, userIDs, e, i);
  }

  /** Errors that echo the chunk's user_ids fail exactly the users echoed, for
      every list of them, if and only if the chunk's IDs are one to one and each
      user is known by its unprefixed user_id. */
  lemma EchoesFailExactly(sourceIDs: seq<string>, userIDs: seq<string>)
    requires |sourceIDs| == |userIDs|
    ensures AlwaysFailsTheEchoed(sourceIDs, userIDs) <==> OneToOne(sourceIDs, userIDs) && AllKnown(sourceIDs, userIDs)
  {
    if !OneToOne(sourceIDs, userIDs) {
      SharedIDGoesAstray(sourceIDs, userIDs);
    } else if !AllKnown(sourceIDs, userIDs) {
      var i: nat :| i < |userIDs| && !KnownUnprefixed(sourceIDs, userIDs, i);
      PrefixedIDGoesAstray(sourceIDs, userIDs, i);
    } else {
      KnownUsersFailExactly(sourceIDs, userIDs);
    }
  }

  lemma KnownUsersFailExactly(sourceIDs: seq<string>, userIDs: seq<string>)
    requires |sourceIDs| == |userIDs| && OneToOne(sourceIDs, userIDs) && AllKnown(sourceIDs, userIDs)
    ensures AlwaysFailsTheEchoed(sourceIDs, userIDs)
  {
    forall es: seq<Echo>, status: Status, upsert: bool, message: string
      | status != StatusFailed && forall k :: 0 <= k < |es| ==> es[k].userID in userIDs
      ensures FailsTheEchoed(sourceIDs, userIDs, status, es, upsert, message)
    {
      EchoesFailTheirUsers(sourceIDs, userIDs, status, es, upsert, message);
    }
  }

  /** The failing input: user a is echoed, and b is reported failed. */
  lemma AnotherUserIsFailed(message: string)
    ensures var r := ChunkReport(["a", "b"], ["auth0|x", "x"], StatusCompleted,
                                 EchoedAll([Echo("auth0|x", false, "invalid", message)]), false, "");
            r.succeeded == ["a"] && r.failed == [ImportError("b", "invalid", message)]
  {
    var e := Echoed(Echo("auth0|x", false, "invalid", message));
    var sourceIDs, userIDs := ["a", "b"], ["auth0|x", "x"];
    assert ImportUserID("auth0|x") == "x";
    assert sourceIDs[..1] == ["a"] && userIDs[..1] == ["auth0|x"];
    assert BySourceID(sourceIDs, userIDs)["x"] == "b";
    var errors := EchoedAll([Echo("auth0|x", false, "invalid", message)]);
    assert errors == [e];
    var attributed := AttributeAll(errors, BySourceID(sourceIDs, userIDs), false);
    assert attributed == [ImportError("b", "invalid", message)];
    assert NamedBy(attributed) == {"b"};
    assert Unnamed(["a"], {"b"}) == ["a"];
  }

  /** A succeeded user is recorded under the ID Auth0 gives it exactly if its
      user_id does not begin with the prefix: TargetUserID removes one more. */
  lemma TargetIDsAreAuth0s(sourceIDs: seq<string>, userIDs: seq<string>, status: Status,
                           jobErrors: seq<ImportError>, upsert: bool, message: string, i: nat)
    requires i < |sourceIDs| == |userIDs| && Distinct(sourceIDs)
    ensures var r := ChunkReport(sourceIDs, userIDs, status, jobErrors, upsert, message);
            sourceIDs[i] in r.succeeded ==>
              && sourceIDs[i] in r.targetIDs
              && (r.targetIDs[sourceIDs[i]] == USER_ID_PREFIX + userIDs[i] <==> !(USER_ID_PREFIX <= userIDs[i]))
  {
    TargetIDsCoverSucceeded(sourceIDs, userIDs, status, jobErrors, upsert, message);
    PrefixedUserID(userIDs[i]);
    var u := ImportUserID(userIDs[i]);
    assert (USER_ID_PREFIX + u)[|USER_ID_PREFIX|..] == u;
    assert (USER_ID_PREFIX + userIDs[i])[|USER_ID_PREFIX|..] == userIDs[i];
  }

  /** Two succeeded users of different user_ids share a recorded target ID
      exactly if one's user_id is the other's, unprefixed, with the prefix. */
  lemma TargetIDsAreDistinct(sourceIDs: seq<string>, userIDs: seq<string>, status: Status,
                             jobErrors: seq<ImportError>, upsert: bool, message: string, i: nat, j: nat)
    requires i < |sourceIDs| == |userIDs| && j < |sourceIDs| && Distinct(sourceIDs) && userIDs[i] != userIDs[j]
    ensures var r := ChunkReport(sourceIDs, userIDs, status, jobErrors, upsert, message);
            sourceIDs[i] in r.succeeded && sourceIDs[j] in r.succeeded ==>
              && sourceIDs[i] in r.targetIDs && sourceIDs[j] in r.targetIDs
              && (r.targetIDs[sourceIDs[i]] == r.targetIDs[sourceIDs[j]] <==>
                  PrefixedPair(userIDs[i], userIDs[j]) || PrefixedPair(userIDs[j], userIDs[i]))
  {
    TargetIDsCoverSucceeded(sourceIDs, userIDs, status, jobErrors, upsert, message);
    var a, b := ImportUserID(userIDs[i]), ImportUserID(userIDs[j]);
    assert (USER_ID_PREFIX + a)[|USER_ID_PREFIX|..] == a && (USER_ID_PREFIX + b)[|USER_ID_PREFIX|..] == b;
    PrefixedUserID(userIDs[i]);
    PrefixedUserID(userIDs[j]);
  }

  predicate PrefixedPair(u: string, v: string) {
    u == USER_ID_PREFIX + v && !(USER_ID_PREFIX <= v)
  }

  /** In terms of the target IDs that user_ids are made of, only one that begins with the prefix twice is affected. */
  lemma OnlyTwicePrefixedIDs(targetID: string)
    ensures USER_ID_PREFIX <= ImportUserID(targetID) <==> USER_ID_PREFIX + USER_ID_PREFIX <= targetID
  {
    if USER_ID_PREFIX <= targetID {
      assert targetID == USER_ID_PREFIX + targetID[|USER_ID_PREFIX|..];
    }
  }

  /** The import's report, built up in place. */
  class MergedReport {
    var succeeded: seq<string>
    var failed: seq<ImportError>
    var targetIDs: map<string, string>

    constructor ()
      ensures succeeded == [] && failed == [] && targetIDs == map[]
    {
      succeeded, failed, targetIDs := [], [], map[];
    }

    function Value(): ImportReport
      reads this
    {
      ImportReport(succeeded, failed, targetIDs, [])
    }

    method SetTargetID(s: string, t: string)
      modifies this`targetIDs
      ensures targetIDs == old(targetIDs)[s := t]
    {
      targetIDs := targetIDs[s := t];
    }

    /** Records src's target IDs, in no particular order. */
    method SetTargetIDs(src: map<string, string>)
      modifies this`targetIDs
      ensures targetIDs == old(targetIDs) + src
    {
      var left := src.Keys;
      while left != {}
        invariant left <= src.Keys
        invariant targetIDs == old(targetIDs) + (src - left)
        decreases |left|
      {
        var s :| s in left;
        SetTargetID(s, src[s]);
        left := left - {s};
      }
      assert src - {} == src;
    }

    /** mergeReport. */
    method Merge(src: ImportReport)
      modifies this
      ensures Value() == Merged(old(Value()), src)
    {
      succeeded := succeeded + src.succeeded;
      failed := failed + src.failed;
      SetTargetIDs(src.targetIDs);
    }
  }

  function Merged(a: ImportReport, b: ImportReport): ImportReport {
    ImportReport(a.succeeded + b.succeeded, a.failed + b.failed, a.targetIDs + b.targetIDs, [])
  }

  /** The reports of the jobs that finished, merged in chunk order. */
  function MergeAll(results: seq<Option<ImportReport>>): ImportReport {
    if results == [] then EMPTY_REPORT
    else
      var before := MergeAll(results[..|results| - 1]);
      var last := results[|results| - 1];
      if last.Some? then Merged(before, last.value) else before
  }

  function SucceededOf(results: seq<Option<ImportReport>>): (parts: seq<seq<string>>)
    ensures |parts| == |results|
    ensures forall k :: 0 <= k < |results| ==> parts[k] == if results[k].Some? then results[k].value.succeeded else []
  {
    seq(|results|, k requires 0 <= k < |results| => if results[k].Some? then results[k].value.succeeded else [])
  }

  function FailedOf(results: seq<Option<ImportReport>>): (parts: seq<seq<ImportError>>)
    ensures |parts| == |results|
    ensures forall k :: 0 <= k < |results| ==> parts[k] == if results[k].Some? then results[k].value.failed else []
  {
    seq(|results|, k requires 0 <= k < |results| => if results[k].Some? then results[k].value.failed else [])
  }

  /** The merged lists are those of the reports, one after the other in chunk order. */
  lemma {:induction false} MergedInOrder(results: seq<Option<ImportReport>>)
    ensures MergeAll(results).succeeded == Concat(SucceededOf(results))
    ensures MergeAll(results).failed == Concat(FailedOf(results))
  {
    if results != [] {
      var n := |results| - 1;
      MergedInOrder(results[..n]);
      assert SucceededOf(results)[..n] == SucceededOf(results[..n]);
      assert FailedOf(results)[..n] == FailedOf(results[..n]);
    }
  }

  /** A merged target ID is that of the last report with one for its source ID. */
  lemma {:induction false} MergedTargetID(results: seq<Option<ImportReport>>, k: nat, id: string)
    requires k < |results| && results[k].Some? && id in results[k].value.targetIDs
    requires forall j :: k < j < |results| && results[j].Some? ==> id !in results[j].value.targetIDs
    ensures id in MergeAll(results).targetIDs && MergeAll(results).targetIDs[id] == results[k].value.targetIDs[id]
  {
    var n := |results| - 1;
    if k < n {
      MergedTargetID(results[..n], k, id);
    }
  }

  /** wait's loop over the results of the jobs, in chunk order. */
  method MergeResults(results: seq<Option<ImportReport>>) returns (report: ImportReport)
    ensures report == MergeAll(results)
  {
    var merged := new MergedReport();
    for i := 0 to |results|
      invariant merged.Value() == MergeAll(results[..i])
    {
      assert results[..i + 1][..i] == results[..i];
      if results[i].Some? {
        merged.Merge(results[i].value);
      }
    }
    assert results[..|results|] == results;
    report := merged.Value();
  }
}
