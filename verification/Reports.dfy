/** What the steps of a migration report, shared by the jobs and the connectors. */
module Reports {

  datatype Manifest = Manifest(recordCount: nat)

  datatype Problem = Problem(sourceID: string, field: string, rule: string, value: string)

  datatype ImportError = ImportError(sourceID: string, code: string, message: string)

  datatype ImportReport = ImportReport(
    succeeded: seq<string>,
    failed: seq<ImportError>,
    targetIDs: map<string, string>,
    skipped: seq<ImportError>)

  const EMPTY_REPORT := ImportReport([], [], map[], [])

  datatype DriftEntry = DriftEntry(sourceID: string, fields: seq<string>)

  datatype DiffReport = DiffReport(
    sourceCount: nat,
    targetCount: nat,
    missingInTarget: seq<string>,
    attributeDrift: seq<DriftEntry>,
    noIdentifier: seq<string>,
    skipped: seq<string>)

  const EMPTY_DIFF := DiffReport(0, 0, [], [], [], [])

  datatype Checkpoint = Checkpoint(
    index: nat,
    fingerprint: string,
    jobID: string,
    done: bool,
    report: ImportReport)

  /** The source IDs a report lists as failed. */
  function FailedIDs(errors: seq<ImportError>): (ids: seq<string>)
    ensures |ids| == |errors| && forall i :: 0 <= i < |ids| ==> ids[i] == errors[i].sourceID
  {
    if errors == [] then [] else FailedIDs(errors[..|errors| - 1]) + [errors[|errors| - 1].sourceID]
  }

  lemma FailedIDsOneMore(errors: seq<ImportError>, e: ImportError)
    ensures FailedIDs(errors + [e]) == FailedIDs(errors) + [e.sourceID]
  {
    assert (errors + [e])[..|errors|] == errors;
  }

  lemma {:induction false} FailedIDsAppend(a: seq<ImportError>, b: seq<ImportError>)
    ensures FailedIDs(a + b) == FailedIDs(a) + FailedIDs(b)
  {
  }
}
