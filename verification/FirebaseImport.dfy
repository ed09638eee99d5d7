/** The Firebase import: users grouped by hash configuration, each group sent
    in batches, and each response attributed back to its users. */
module FirebaseImport {

  import opened Options
  import opened Reports

  const BATCH_SIZE: nat := 1000

  /** A hash configuration, by number. */
  type Params = nat

  datatype Account = Account(sourceID: string, localID: string, params: Params, payload: nat)

  /** A user as it was read: an account, or the reason there is none. */
  datatype User = Translated(account: Account) | Untranslatable(id: string, message: string)

  /** What accounts:batchCreate answers: an error, or the entries it rejected. */
  datatype Response = RequestFailed(message: string) | Answered(errors: seq<(int, string)>)

  /** A request with the payloads sent for its accounts. */
  datatype Request = Request(params: Params, accounts: seq<Account>, payloads: seq<nat>)

  /** The accounts' own payloads, but for those import.payload answered. */
  function Payloads(accounts: seq<Account>, answers: seq<Option<nat>>): (payloads: seq<nat>)
    requires |answers| == |accounts|
    ensures |payloads| == |accounts|
    ensures forall i :: 0 <= i < |accounts| ==> payloads[i] == if answers[i].Some? then answers[i].value else accounts[i].payload
  {
    seq(|accounts|, i requires 0 <= i < |accounts| => if answers[i].Some? then answers[i].value else accounts[i].payload)
  }


  /** What the import did, in order. */
  datatype Event = Refused(id: string, message: string) | Sent(request: Request, response: Response)

  datatype Error = Cancelled | PayloadFailed | ReadFailed

  function IDOf(u: User): string {
    match u
    case Translated(a) => a.sourceID
    case Untranslatable(id, _) => id
  }

  predicate IsWordChar(c: char) {
    'A' <= c <= 'Z' || '0' <= c <= '9' || c == '_' || 'a' <= c <= 'z'
  }

  function FirstWord(s: string): string {
    if s == "" || !IsWordChar(s[0]) then "" else [s[0]] + FirstWord(s[1..])
  }

  /** [A-Z][A-Z0-9]*(_[A-Z0-9]+)+ */
  predicate IsCode(w: string) {
    && w != "" && 'A' <= w[0] <= 'Z' && '_' in w && w[|w| - 1] != '_'
    && (forall i :: 0 <= i < |w| ==> !('a' <= w[i] <= 'z'))
    && (forall i :: 0 <= i < |w| - 1 ==> w[i] == '_' ==> w[i + 1] != '_')
  }

  /** The code a message starts with, if it does. */
  function ErrorCode(message: string): string {
    if IsCode(FirstWord(message)) then FirstWord(message) else "IMPORT_ERROR"
  }

  /** The message an index was rejected with: its last one. */
  function Rejected(errors: seq<(int, string)>, i: int): Option<string> {
    if errors == [] then None
    else if errors[|errors| - 1].0 == i then Some(errors[|errors| - 1].1)
    else Rejected(errors[..|errors| - 1], i)
  }

  /** The error of the i-th account of a request, if it has one. */
  function ErrorOf(id: string, r: Response, i: nat): Option<ImportError> {
    match r
    case RequestFailed(message) => Some(ImportError(id, "REQUEST_ERROR", message))
    case Answered(errors) =>
      match Rejected(errors, i)
      case None => None
      case Some(message) => Some(ImportError(id, ErrorCode(message), message))
  }

  function Outcomes(accounts: seq<Account>, r: Response): (outcomes: seq<Option<ImportError>>)
    ensures |outcomes| == |accounts|
    ensures forall i :: 0 <= i < |accounts| ==> outcomes[i] == ErrorOf(accounts[i].sourceID, r, i)
  {
    seq(|accounts|, i requires 0 <= i < |accounts| => ErrorOf(accounts[i].sourceID, r, i))
  }

  /** The IDs with an error, or those without. */
  function Where(ids: seq<string>, outcomes: seq<Option<ImportError>>, failed: bool): seq<string>
    requires |ids| == |outcomes|
  {
    if ids == [] then []
    else
      var n := |ids| - 1;
      Where(ids[..n], outcomes[..n], failed) + (if outcomes[n].Some? == failed then [ids[n]] else [])
  }

  function Errors(outcomes: seq<Option<ImportError>>): seq<ImportError> {
    if outcomes == [] then []
    else
      var n := |outcomes| - 1;
      Errors(outcomes[..n]) + (if outcomes[n].Some? then [outcomes[n].value] else [])
  }

  function SucceededIn(accounts: seq<Account>, r: Response): seq<string> {
    Where(AccountIDs(accounts), Outcomes(accounts, r), false)
  }

  function FailedIn(accounts: seq<Account>, r: Response): seq<ImportError> {
    Errors(Outcomes(accounts, r))
  }

  function TargetIDsIn(accounts: seq<Account>, r: Response): map<string, string> {
    if accounts == [] then map[]
    else
      var n := |accounts| - 1;
      var before := TargetIDsIn(accounts[..n], r);
      if ErrorOf(accounts[n].sourceID, r, n).None? then before[accounts[n].sourceID := accounts[n].localID] else before
  }

  /** The report of what the import did. */
  function ReportOf(log: seq<Event>): ImportReport {
    if log == [] then EMPTY_REPORT
    else
      var before := ReportOf(log[..|log| - 1]);
      match log[|log| - 1]
      case Refused(id, message) => before.(failed := before.failed + [ImportError(id, "TRANSLATION_ERROR", message)])
      case Sent(q, r) =>
        ImportReport(before.succeeded + SucceededIn(q.accounts, r), before.failed + FailedIn(q.accounts, r),
                     before.targetIDs + TargetIDsIn(q.accounts, r), before.skipped)
  }

  /** The accounts of one configuration among the users, in order. */
  function AccountsOf(users: seq<User>, p: Params): seq<Account> {
    if users == [] then []
    else
      var u := users[|users| - 1];
      AccountsOf(users[..|users| - 1], p) + (if u.Translated? && u.account.params == p then [u.account] else [])
  }

  /** The accounts of one configuration sent so far, in order. */
  function SentOf(log: seq<Event>, p: Params): seq<Account> {
    if log == [] then []
    else
      var e := log[|log| - 1];
      SentOf(log[..|log| - 1], p) + (if e.Sent? && e.request.params == p then e.request.accounts else [])
  }

  predicate WellFormed(q: Request) {
    && 0 < |q.accounts| <= BATCH_SIZE && |q.payloads| == |q.accounts|
    && forall i :: 0 <= i < |q.accounts| ==> q.accounts[i].params == q.params
  }

  predicate AllWellFormed(log: seq<Event>) {
    forall i :: 0 <= i < |log| && log[i].Sent? ==> WellFormed(log[i].request)
  }

  /** The request is a full one. */
  predicate Full(e: Event) {
    e.Sent? ==> |e.request.accounts| == BATCH_SIZE
  }

  predicate AllFull(log: seq<Event>) {
    forall i :: 0 <= i < |log| ==> Full(log[i])
  }

  /** Of each configuration, every request but the last is full. */
  predicate FullButLast(log: seq<Event>) {
    forall i, j :: 0 <= i < j < |log| && log[i].Sent? && log[j].Sent? && log[i].request.params == log[j].request.params ==> Full(log[i])
  }

  /** Only the first k configurations have requests that are not full. */
  predicate ShortOnesAreOf(log: seq<Event>, order: seq<Params>, k: nat) {
    forall i :: 0 <= i < |log| && log[i].Sent? && !Full(log[i]) ==> exists j :: 0 <= j < k && j < |order| && order[j] == log[i].request.params
  }

  lemma {:induction false} OneMoreFull(log: seq<Event>, e: Event)
    requires AllFull(log) && Full(e)
    ensures AllFull(log + [e])
  {
  }

  lemma {:induction false} OneMoreWellFormed(log: seq<Event>, e: Event)
    requires AllWellFormed(log) && (e.Sent? ==> WellFormed(e.request))
    ensures AllWellFormed(log + [e])
  {
  }

  lemma {:induction false} OneMoreMayBeShort(log: seq<Event>, order: seq<Params>, k: nat, e: Event)
    requires DistinctParams(order) && k < |order| && e.Sent? && e.request.params == order[k]
    requires FullButLast(log) && ShortOnesAreOf(log, order, k)
    ensures FullButLast(log + [e]) && ShortOnesAreOf(log + [e], order, k + 1)
  {
  }

  // Counting users by source ID.

  function Count(ids: seq<string>, id: string): nat {
    if ids == [] then 0 else Count(ids[..|ids| - 1], id) + (if ids[|ids| - 1] == id then 1 else 0)
  }

  function UserIDs(users: seq<User>): (ids: seq<string>)
    ensures |ids| == |users| && forall i :: 0 <= i < |ids| ==> ids[i] == IDOf(users[i])
  {
    seq(|users|, i requires 0 <= i < |users| => IDOf(users[i]))
  }

  function AccountIDs(accounts: seq<Account>): (ids: seq<string>)
    ensures |ids| == |accounts| && forall i :: 0 <= i < |ids| ==> ids[i] == accounts[i].sourceID
  {
    seq(|accounts|, i requires 0 <= i < |accounts| => accounts[i].sourceID)
  }

  /** How often the import recorded a user, as succeeded or as failed. */
  function Recorded(r: ImportReport, id: string): nat {
    Count(r.succeeded, id) + Count(FailedIDs(r.failed), id)
  }

  lemma {:induction false} CountAppend(a: seq<string>, b: seq<string>, id: string)
    ensures Count(a + b, id) == Count(a, id) + Count(b, id)
  {
    if b == [] {
      assert a + b == a;
    } else {
      assert (a + b)[..|a + b| - 1] == a + b[..|b| - 1];
      CountAppend(a, b[..|b| - 1], id);
    }
  }

  lemma CountOneMore(a: seq<string>, x: string, id: string)
    ensures Count(a + [x], id) == Count(a, id) + (if x == id then 1 else 0)
  {
    assert (a + [x])[..|a|] == a;
  }

  predicate ErrorsMatch(ids: seq<string>, outcomes: seq<Option<ImportError>>) {
    |ids| == |outcomes| && forall i :: 0 <= i < |ids| && outcomes[i].Some? ==> outcomes[i].value.sourceID == ids[i]
  }

  lemma {:induction false} ErrorsAreWhere(ids: seq<string>, outcomes: seq<Option<ImportError>>)
    requires ErrorsMatch(ids, outcomes)
    ensures FailedIDs(Errors(outcomes)) == Where(ids, outcomes, true)
  {
    if ids != [] {
      var n := |ids| - 1;
      ErrorsAreWhere(ids[..n], outcomes[..n]);
      if outcomes[n].Some? {
        FailedIDsOneMore(Errors(outcomes[..n]), outcomes[n].value);
      }
    }
  }

  lemma {:induction false} EachOutcomeCounts(ids: seq<string>, outcomes: seq<Option<ImportError>>, id: string)
    requires |ids| == |outcomes|
    ensures Count(Where(ids, outcomes, false), id) + Count(Where(ids, outcomes, true), id) == Count(ids, id)
  {
    if ids != [] {
      var n := |ids| - 1;
      EachOutcomeCounts(ids[..n], outcomes[..n], id);
      var failed := outcomes[n].Some?;
      CountOneMore(Where(ids[..n], outcomes[..n], failed), ids[n], id);
      assert Where(ids, outcomes, !failed) == Where(ids[..n], outcomes[..n], !failed);
    }
  }

  /** A response puts each account of its request on one side or the other. */
  lemma ResponseRecordsAll(accounts: seq<Account>, r: Response, id: string)
    ensures Count(SucceededIn(accounts, r), id) + Count(FailedIDs(FailedIn(accounts, r)), id) == Count(AccountIDs(accounts), id)
  {
    EachOutcomeCounts(AccountIDs(accounts), Outcomes(accounts, r), id);
    ErrorsAreWhere(AccountIDs(accounts), Outcomes(accounts, r));
  }

  /** How often the log mentions a user. */
  function Logged(log: seq<Event>, id: string): nat {
    if log == [] then 0
    else
      Logged(log[..|log| - 1], id)
      + match log[|log| - 1]
        case Refused(x, _) => (if x == id then 1 else 0)
        case Sent(q, _) => Count(AccountIDs(q.accounts), id)
  }

  /** Each user in the log was recorded once, as succeeded or as failed. */
  lemma {:induction false} EachIsRecordedOnce(log: seq<Event>, id: string)
    ensures Recorded(ReportOf(log), id) == Logged(log, id)
  {
    if log != [] {
      var n := |log| - 1;
      EachIsRecordedOnce(log[..n], id);
      var before := ReportOf(log[..n]);
      match log[n]
      case Refused(x, message) =>
        FailedIDsOneMore(before.failed, ImportError(x, "TRANSLATION_ERROR", message));
        CountOneMore(FailedIDs(before.failed), x, id);
      case Sent(q, r) =>
        ResponseRecordsAll(q.accounts, r, id);
        CountAppend(before.succeeded, SucceededIn(q.accounts, r), id);
        FailedIDsAppend(before.failed, FailedIn(q.accounts, r));
        CountAppend(FailedIDs(before.failed), FailedIDs(FailedIn(q.accounts, r)), id);
    }
  }

  lemma {:induction false} WhereMembers(ids: seq<string>, outcomes: seq<Option<ImportError>>, failed: bool, id: string)
    requires |ids| == |outcomes|
    ensures id in Where(ids, outcomes, failed) <==> exists i :: 0 <= i < |ids| && ids[i] == id && outcomes[i].Some? == failed
  {
    if ids != [] {
      WhereMembers(ids[..|ids| - 1], outcomes[..|ids| - 1], failed, id);
    }
  }

  /** An index is rejected if an entry has it, with the message of the last such entry. */
  lemma {:induction false} RejectedByItsEntries(errors: seq<(int, string)>, i: int)
    ensures Rejected(errors, i).Some? <==> exists k :: 0 <= k < |errors| && errors[k].0 == i
    ensures forall k :: LastEntry(errors, i, k) ==> Rejected(errors, i) == Some(errors[k].1)
  {
    if errors != [] {
      var n := |errors| - 1;
      RejectedByItsEntries(errors[..n], i);
      forall k | LastEntry(errors, i, k)
        ensures Rejected(errors, i) == Some(errors[k].1)
      {
        if k < n {
          assert LastEntry(errors[..n], i, k);
        }
      }
      if errors[n].0 != i && Rejected(errors[..n], i).Some? {
        var k :| 0 <= k < n && errors[..n][k].0 == i;
        assert errors[k].0 == i;
      }
    }
  }

  /** The k-th entry is the last with index i. */
  predicate LastEntry(errors: seq<(int, string)>, i: int, k: int) {
    0 <= k < |errors| && errors[k].0 == i && forall l :: k < l < |errors| ==> errors[l].0 != i
  }

  /** A rejected index fails the account there and no other; the rest succeed. */
  lemma {:induction false} IndexesAreAttributedRight(accounts: seq<Account>, r: Response, i: nat)
    requires i < |accounts| && forall j, k :: 0 <= j < k < |accounts| ==> accounts[j].sourceID != accounts[k].sourceID
    ensures accounts[i].sourceID in SucceededIn(accounts, r) <==>
              r.Answered? && forall k :: 0 <= k < |r.errors| ==> r.errors[k].0 != i
    ensures accounts[i].sourceID in FailedIDs(FailedIn(accounts, r)) <==>
              r.RequestFailed? || exists k :: 0 <= k < |r.errors| && r.errors[k].0 == i
  {
    ErrorsAreWhere(AccountIDs(accounts), Outcomes(accounts, r));
    WhereMembers(AccountIDs(accounts), Outcomes(accounts, r), false, accounts[i].sourceID);
    WhereMembers(AccountIDs(accounts), Outcomes(accounts, r), true, accounts[i].sourceID);
    assert AccountIDs(accounts)[i] == accounts[i].sourceID;
    if r.Answered? {
      RejectedByItsEntries(r.errors, i);
    }
  }

  /** Each account has its place in the report on its request, after those of
      the accounts before it: with the message of the last entry of its index
      and the code that starts it, or as succeeded. */
  lemma {:induction false} AccountInFull(accounts: seq<Account>, r: Response, i: nat)
    requires i < |accounts|
    ensures var id, failed, succeeded := accounts[i].sourceID, |FailedIn(accounts[..i], r)|, |SucceededIn(accounts[..i], r)|;
            match r
            case RequestFailed(message) =>
              failed < |FailedIn(accounts, r)| && FailedIn(accounts, r)[failed] == ImportError(id, "REQUEST_ERROR", message)
            case Answered(errors) =>
              && ((forall k :: 0 <= k < |errors| ==> errors[k].0 != i) ==>
                    succeeded < |SucceededIn(accounts, r)| && SucceededIn(accounts, r)[succeeded] == id)
              && (forall k :: LastEntry(errors, i, k) ==>
                    failed < |FailedIn(accounts, r)| && FailedIn(accounts, r)[failed] == ImportError(id, ErrorCode(errors[k].1), errors[k].1))
  {
    OutcomeInPlace(accounts, r, i);
    if r.Answered? {
      RejectedByItsEntries(r.errors, i);
    }
  }

  lemma {:induction false} OutcomeInPlace(accounts: seq<Account>, r: Response, i: nat)
    requires i < |accounts|
    ensures var err, failed, succeeded := ErrorOf(accounts[i].sourceID, r, i), |FailedIn(accounts[..i], r)|, |SucceededIn(accounts[..i], r)|;
            if err.Some? then failed < |FailedIn(accounts, r)| && FailedIn(accounts, r)[failed] == err.value
            else succeeded < |SucceededIn(accounts, r)| && SucceededIn(accounts, r)[succeeded] == accounts[i].sourceID
  {
    var n := |accounts| - 1;
    OutcomesPrefix(accounts, r, n);
    assert accounts[..n + 1] == accounts;
    if i < n {
      OutcomeInPlace(accounts[..n], r, i);
      assert accounts[..n][..i] == accounts[..i];
    }
  }

  /** A succeeded account's target ID is its local ID, if no later one has its source ID. */
  lemma {:induction false} AccountHasItsLocalID(accounts: seq<Account>, r: Response, i: nat)
    requires i < |accounts| && forall k :: i < k < |accounts| ==> accounts[k].sourceID != accounts[i].sourceID
    requires r.Answered? && forall k :: 0 <= k < |r.errors| ==> r.errors[k].0 != i
    ensures accounts[i].sourceID in TargetIDsIn(accounts, r) && TargetIDsIn(accounts, r)[accounts[i].sourceID] == accounts[i].localID
  {
    var n := |accounts| - 1;
    RejectedByItsEntries(r.errors, i);
    if i < n {
      AccountHasItsLocalID(accounts[..n], r, i);
    }
  }

  lemma {:induction false} ReportOneMore(log: seq<Event>, e: Event)
    ensures var before := ReportOf(log);
            ReportOf(log + [e])
            == match e
               case Refused(id, message) => before.(failed := before.failed + [ImportError(id, "TRANSLATION_ERROR", message)])
               case Sent(q, r) =>
                 ImportReport(before.succeeded + SucceededIn(q.accounts, r), before.failed + FailedIn(q.accounts, r),
                              before.targetIDs + TargetIDsIn(q.accounts, r), before.skipped)
  {
    assert (log + [e])[..|log|] == log;
  }

  /** The report is put together in the order of the log. */
  lemma {:induction false} ReportFollowsLog(log: seq<Event>, j: nat)
    requires j < |log|
    ensures var before, r := ReportOf(log[..j]), ReportOf(log);
            match log[j]
            case Refused(id, message) => before.failed + [ImportError(id, "TRANSLATION_ERROR", message)] <= r.failed
            case Sent(q, response) =>
              before.succeeded + SucceededIn(q.accounts, response) <= r.succeeded && before.failed + FailedIn(q.accounts, response) <= r.failed
  {
    var n := |log| - 1;
    if j < n {
      ReportFollowsLog(log[..n], j);
      assert log[..n][..j] == log[..j];
    }
  }

  /** A recorded target ID is the one the last request with one for its user gave it. */
  lemma {:induction false} TargetIDsFollowLog(log: seq<Event>, j: nat, id: string)
    requires j < |log| && log[j].Sent? && id in TargetIDsIn(log[j].request.accounts, log[j].response)
    requires forall k :: j < k < |log| && log[k].Sent? ==> id !in TargetIDsIn(log[k].request.accounts, log[k].response)
    ensures id in ReportOf(log).targetIDs
    ensures ReportOf(log).targetIDs[id] == TargetIDsIn(log[j].request.accounts, log[j].response)[id]
  {
    var n := |log| - 1;
    if j < n {
      TargetIDsFollowLog(log[..n], j, id);
    }
  }

  lemma {:induction false} FirstWordIs(s: string, k: nat)
    requires k <= |s| && (forall i :: 0 <= i < k ==> IsWordChar(s[i])) && (k < |s| ==> !IsWordChar(s[k]))
    ensures FirstWord(s) == s[..k]
  {
    if k > 0 {
      FirstWordIs(s[1..], k - 1);
      assert s[..k] == [s[0]] + s[1..][..k - 1];
    }
  }

  /** A message's code is its first word, k characters long, if that is of capitals,
      digits and single underscores between them, with one at least, and starts with a capital. */
  lemma {:induction false} ErrorCodeIs(message: string, k: nat)
    requires k <= |message|
    requires forall i :: 0 <= i < k ==> var c := message[i]; 'A' <= c <= 'Z' || 'a' <= c <= 'z' || '0' <= c <= '9' || c == '_'
    requires k < |message| ==> var c := message[k]; !('A' <= c <= 'Z' || 'a' <= c <= 'z' || '0' <= c <= '9' || c == '_')
    ensures var code :=
              && k > 0 && 'A' <= message[0] <= 'Z' && message[k - 1] != '_' && (exists i :: 0 <= i < k && message[i] == '_')
              && (forall i :: 0 <= i < k ==> !('a' <= message[i] <= 'z'))
              && (forall i :: 0 <= i < k - 1 && message[i] == '_' ==> message[i + 1] != '_');
            ErrorCode(message) == if code then message[..k] else "IMPORT_ERROR"
  {
    FirstWordIs(message, k);
    var w := message[..k];
    assert '_' in w <==> exists i :: 0 <= i < k && message[i] == '_' by {
      if i :| 0 <= i < k && message[i] == '_' {
        assert w[i] == '_';
      }
    }
    LetterByLetter(message, k);
  }

  lemma {:induction false} LetterByLetter(message: string, k: nat)
    requires k <= |message|
    ensures var w := message[..k];
            && ((forall i :: 0 <= i < |w| ==> !('a' <= w[i] <= 'z')) <==> forall i :: 0 <= i < k ==> !('a' <= message[i] <= 'z'))
            && ((forall i :: 0 <= i < |w| - 1 ==> w[i] == '_' ==> w[i + 1] != '_')
                <==> forall i :: 0 <= i < k - 1 && message[i] == '_' ==> message[i + 1] != '_')
  {
    var w := message[..k];
    assert forall i :: 0 <= i < k ==> w[i] == message[i];
    if forall i :: 0 <= i < |w| - 1 ==> w[i] == '_' ==> w[i + 1] != '_' {
      forall i | 0 <= i < k - 1 && message[i] == '_'
        ensures message[i + 1] != '_'
      {
        assert w[i] == '_';
      }
    }
    if forall i :: 0 <= i < k ==> !('a' <= message[i] <= 'z') {
      forall i | 0 <= i < |w|
        ensures !('a' <= w[i] <= 'z')
      {
        assert w[i] == message[i];
      }
    }
  }

  /** An account read is among those of its configuration, after those read before it. */
  lemma {:induction false} AccountAt(users: seq<User>, i: nat)
    requires i < |users| && users[i].Translated?
    ensures var a := users[i].account;
            var at := |AccountsOf(users[..i], a.params)|;
            at < |AccountsOf(users, a.params)| && AccountsOf(users, a.params)[at] == a
  {
    var n := |users| - 1;
    if i < n {
      AccountAt(users[..n], i);
      assert users[..n][..i] == users[..i];
    }
  }

  lemma {:induction false} SentAt(log: seq<Event>, p: Params, at: nat) returns (j: nat, x: nat)
    requires at < |SentOf(log, p)|
    ensures j < |log| && log[j].Sent? && log[j].request.params == p
    ensures x < |log[j].request.accounts| && log[j].request.accounts[x] == SentOf(log, p)[at] && |SentOf(log[..j], p)| + x == at
  {
    var n := |log| - 1;
    if at < |SentOf(log[..n], p)| {
      j, x := SentAt(log[..n], p, at);
      assert log[..n][..j] == log[..j];
    } else {
      j, x := n, at - |SentOf(log[..n], p)|;
    }
  }

  /** Each account read was sent, in a request of its configuration, after as
      many accounts of that as were read before it. */
  lemma {:induction false} EachAccountIsSent(log: seq<Event>, users: seq<User>, i: nat) returns (j: nat, x: nat)
    requires forall p: Params :: SentOf(log, p) == AccountsOf(users, p)
    requires i < |users| && users[i].Translated?
    ensures j < |log| && log[j].Sent? && log[j].request.params == users[i].account.params
    ensures x < |log[j].request.accounts| && log[j].request.accounts[x] == users[i].account
    ensures |SentOf(log[..j], users[i].account.params)| + x == |AccountsOf(users[..i], users[i].account.params)|
  {
    var p := users[i].account.params;
    AccountAt(users, i);
    assert SentOf(log, p) == AccountsOf(users, p);
    j, x := SentAt(log, p, |AccountsOf(users[..i], p)|);
  }

  // The users waiting in batches.

  type Batches = map<Params, seq<Account>>

  function Pending(batches: Batches, p: Params): seq<Account> {
    if p in batches then batches[p] else []
  }

  predicate Homogeneous(batches: Batches) {
    forall p :: p in batches ==> |batches[p]| <= BATCH_SIZE && forall i :: 0 <= i < |batches[p]| ==> batches[p][i].params == p
  }

  predicate Roomy(batches: Batches) {
    forall p :: p in batches ==> |batches[p]| < BATCH_SIZE
  }

  predicate DistinctParams(order: seq<Params>) {
    forall i, j :: 0 <= i < j < |order| ==> order[i] != order[j]
  }

  function Sum(order: seq<Params>, count: Params -> nat): nat {
    if order == [] then 0 else Sum(order[..|order| - 1], count) + count(order[|order| - 1])
  }

  lemma {:induction false} SumElsewhere(order: seq<Params>, count: Params -> nat, count': Params -> nat, p: Params)
    requires p !in order && forall q :: q != p ==> count(q) == count'(q)
    ensures Sum(order, count) == Sum(order, count')
  {
    if order != [] {
      SumElsewhere(order[..|order| - 1], count, count', p);
    }
  }

  lemma {:induction false} SumWith(order: seq<Params>, count: Params -> nat, count': Params -> nat, p: Params)
    requires DistinctParams(order) && p in order && forall q :: q != p ==> count(q) == count'(q)
    ensures Sum(order, count') + count(p) == Sum(order, count) + count'(p)
  {
    var n := |order| - 1;
    if order[n] == p {
      assert p !in order[..n];
      SumElsewhere(order[..n], count, count', p);
    } else {
      SumWith(order[..n], count, count', p);
    }
  }

  /** How often a user waits in the batch of a configuration. */
  function WaitingIn(batches: Batches, id: string): Params -> nat {
    p => Count(AccountIDs(Pending(batches, p)), id)
  }

  /** How often a user waits in the batches of the configurations. */
  function Waiting(order: seq<Params>, batches: Batches, id: string): nat {
    Sum(order, WaitingIn(batches, id))
  }

  /** Of a configuration, the accounts sent and then those waiting are the accounts read, in order. */
  predicate InOrderOf(log: seq<Event>, batches: Batches, read: seq<User>, p: Params) {
    SentOf(log, p) + Pending(batches, p) == AccountsOf(read, p)
  }

  ghost predicate InOrder(log: seq<Event>, batches: Batches, read: seq<User>) {
    forall p: Params :: InOrderOf(log, batches, read, p)
  }

  /** Each mention of a user read is in the log, or waits in a batch. */
  predicate CountedOf(log: seq<Event>, order: seq<Params>, batches: Batches, read: seq<User>, id: string) {
    Logged(log, id) + Waiting(order, batches, id) == Count(UserIDs(read), id)
  }

  ghost predicate Counted(log: seq<Event>, order: seq<Params>, batches: Batches, read: seq<User>) {
    forall id: string :: CountedOf(log, order, batches, read, id)
  }

  /** The rejected entries by index, the last message of each. */
  method IndexErrors(errors: seq<(int, string)>) returns (rejected: map<int, string>)
    ensures forall i: int :: i in rejected <==> Rejected(errors, i).Some?
    ensures forall i: int :: i in rejected ==> Rejected(errors, i) == Some(rejected[i])
  {
    rejected := map[];
    for k := 0 to |errors|
      invariant forall i: int :: i in rejected <==> Rejected(errors[..k], i).Some?
      invariant forall i: int :: i in rejected ==> Rejected(errors[..k], i) == Some(rejected[i])
    {
      assert errors[..k + 1][..k] == errors[..k];
      rejected := rejected[errors[k].0 := errors[k].1];
    }
    assert errors[..|errors|] == errors;
  }

  lemma {:induction false} OutcomesPrefix(accounts: seq<Account>, r: Response, n: nat)
    requires n < |accounts|
    ensures var err := ErrorOf(accounts[n].sourceID, r, n);
            && FailedIn(accounts[..n + 1], r) == FailedIn(accounts[..n], r) + (if err.Some? then [err.value] else [])
            && SucceededIn(accounts[..n + 1], r) == SucceededIn(accounts[..n], r) + (if err.None? then [accounts[n].sourceID] else [])
            && TargetIDsIn(accounts[..n + 1], r)
               == if err.None? then TargetIDsIn(accounts[..n], r)[accounts[n].sourceID := accounts[n].localID]
                  else TargetIDsIn(accounts[..n], r)
  {
    assert accounts[..n + 1][..n] == accounts[..n];
    assert Outcomes(accounts[..n + 1], r)[..n] == Outcomes(accounts[..n], r);
    assert AccountIDs(accounts[..n + 1])[..n] == AccountIDs(accounts[..n]);
  }

  /** flush's loops over the batch's sources. */
  method Tally(accounts: seq<Account>, r: Response)
    returns (succeeded: seq<string>, failed: seq<ImportError>, targetIDs: map<string, string>)
    ensures succeeded == SucceededIn(accounts, r) && failed == FailedIn(accounts, r) && targetIDs == TargetIDsIn(accounts, r)
  {
    succeeded, failed, targetIDs := [], [], map[];
    var rejected := map[];
    if r.Answered? {
      rejected := IndexErrors(r.errors);
    }
    for i := 0 to |accounts|
      invariant succeeded == SucceededIn(accounts[..i], r) && failed == FailedIn(accounts[..i], r)
      invariant targetIDs == TargetIDsIn(accounts[..i], r)
    {
      OutcomesPrefix(accounts, r, i);
      var id := accounts[i].sourceID;
      if r.RequestFailed? {
        failed := failed + [ImportError(id, "REQUEST_ERROR", r.message)];
      } else if i in rejected {
        failed := failed + [ImportError(id, ErrorCode(rejected[i]), rejected[i])];
      } else {
        succeeded := succeeded + [id];
        targetIDs := targetIDs[id := accounts[i].localID];
      }
    }
    assert accounts[..|accounts|] == accounts;
  }

  class Importer {
    var order: seq<Params>
    var batches: Batches
    var report: ImportReport
    var log: seq<Event>
    ghost var read: seq<User>
    // What may stop the import, and what is answered to it.
    const done: nat -> bool                             // whether the context is done, when it is looked at
    const payload: (Params, seq<Account>) -> Option<seq<Option<nat>>>    // what import.payload answers for a batch
    const respond: (nat, Request) -> Response           // to a request, by its place in the log
    var looks: nat
    ghost var interrupted: bool                         // the context was done at a look

    constructor (done: nat -> bool, payload: (Params, seq<Account>) -> Option<seq<Option<nat>>>, respond: (nat, Request) -> Response)
      ensures this.done == done && this.payload == payload && this.respond == respond
      ensures Valid() && read == [] && log == [] && batches == map[] && looks == 0 && !interrupted
    {
      this.done, this.payload, this.respond := done, payload, respond;
      order, batches, report := [], map[], EMPTY_REPORT;
      log, read, looks, interrupted := [], [], 0, false;
    }

    /** Whether the context is done. */
    method Done() returns (cancelled: bool)
      modifies `looks, `interrupted
      ensures looks == old(looks) + 1 && cancelled == done(old(looks)) && interrupted == (old(interrupted) || cancelled)
    {
      cancelled := done(looks);
      looks, interrupted := looks + 1, interrupted || cancelled;
    }

    /** No answer for a batch, or not one for each of its accounts. */
    predicate PayloadFails(p: Params, accounts: seq<Account>) {
      var answers := payload(p, accounts);
      answers.None? || |answers.value| != |accounts|
    }

    /** Why the import stops: the context was done, or a payload of a batch failed. */
    ghost predicate Stops(err: Error)
      reads `batches, `interrupted
    {
      match err
      case Cancelled => interrupted
      case PayloadFailed => exists p :: p in batches && batches[p] != [] && PayloadFails(p, batches[p])
      case ReadFailed => false
    }

    ghost predicate Valid()
      reads this
    {
      && DistinctParams(order) && (forall p: Params :: p in order <==> p in batches) && Homogeneous(batches)
      && AllWellFormed(log) && report == ReportOf(log)
      && InOrder(log, batches, read) && Counted(log, order, batches, read)
    }

    /** A user that can't be translated. */
    method Refuse(id: string, message: string)
      requires Valid()
      modifies `report, `log, `read
      ensures Valid() && read == old(read) + [Untranslatable(id, message)]
      ensures log == old(log) + [Refused(id, message)]
    {
      RefusalKeepsBooks(log, order, batches, read, id, message);
      OneMoreWellFormed(log, Refused(id, message));
      ReportOneMore(log, Refused(id, message));
      report := report.(failed := report.failed + [ImportError(id, "TRANSLATION_ERROR", message)]);
      read := read + [Untranslatable(id, message)];
      log := log + [Refused(id, message)];
    }

    /** An account joins the batch of its configuration. */
    method Append(a: Account)
      requires Valid() && Roomy(batches)
      modifies `order, `batches, `read
      ensures Valid() && read == old(read) + [Translated(a)]
      ensures a.params in batches && |batches[a.params]| > 0
      ensures forall p :: p in batches && p != a.params ==> |batches[p]| < BATCH_SIZE
    {
      var p := a.params;
      if p !in batches {
        order := order + [p];
        assert order[..|order| - 1] == old(order);
      }
      var b := Pending(batches, p) + [a];
      ghost var was := batches;
      batches := batches[p := b];
      read := read + [Translated(a)];
      AccountKeepsBooks(log, old(order), was, order, old(read), a);
    }

    /** flush, for one configuration's batch: a request that fails fails its
        accounts, unless the context is done. */
    method Flush(p: Params) returns (err: Option<Error>)
      requires Valid() && p in batches && |batches[p]| > 0 && !interrupted && AllAnswered(log)
      modifies `batches, `report, `log, `looks, `interrupted
      ensures Valid() && AllAnswered(log)
      ensures err.None? ==>
                && batches == old(batches)[p := []]
                && !PayloadFails(p, old(batches)[p])
                && var q := Request(p, old(batches)[p], Payloads(old(batches)[p], payload(p, old(batches)[p]).value));
                   log == old(log) + [Sent(q, respond(|old(log)|, q))]
      ensures err.Some? ==> batches == old(batches) && log == old(log) && Stops(err.value)
      ensures err == Some(PayloadFailed) <==> PayloadFails(p, old(batches)[p])
      ensures err == Some(Cancelled) <==> interrupted
    {
      if PayloadFails(p, batches[p]) {
        return Some(PayloadFailed);
      }
      var payloads := Payloads(batches[p], payload(p, batches[p]).value);
      var response := respond(|log|, Request(p, batches[p], payloads));
      if response.RequestFailed? {
        var cancelled := Done();
        if cancelled {
          return Some(Cancelled);
        }
      }
      OneMoreAnswered(log, Sent(Request(p, batches[p], payloads), response));
      Record(p, payloads, response);
      return None;
    }

    method Record(p: Params, payloads: seq<nat>, response: Response)
      requires Valid() && p in batches && |batches[p]| > 0 && |payloads| == |batches[p]|
      modifies `batches, `report, `log
      ensures Valid() && batches == old(batches)[p := []]
      ensures log == old(log) + [Sent(Request(p, old(batches)[p], payloads), response)]
    {
      var accounts := batches[p];
      ghost var sent := Sent(Request(p, accounts, payloads), response);
      RequestKeepsBooks(log, order, batches, read, p, payloads, response);
      OneMoreWellFormed(log, sent);
      ReportOneMore(log, sent);
      var succeeded, failed, targetIDs := Tally(accounts, response);
      report := ImportReport(report.succeeded + succeeded, report.failed + failed, report.targetIDs + targetIDs, report.skipped);
      batches := batches[p := []];
      log := log + [Sent(Request(p, accounts, payloads), response)];
    }

    /** One user of the stream. */
    method Take(u: User) returns (err: Option<Error>)
      requires Valid() && Roomy(batches) && AllFull(log) && AllAnswered(log) && !interrupted
      modifies `order, `batches, `report, `log, `read, `looks, `interrupted
      ensures Valid() && read == old(read) + [u] && AllFull(log) && AllAnswered(log)
      ensures err.None? ==> Roomy(batches)
      ensures err.Some? ==> Stops(err.value)
      ensures err == Some(Cancelled) <==> interrupted
    {
      match u {
        case Untranslatable(id, message) =>
          OneMoreFull(log, Refused(id, message));
          OneMoreAnswered(log, Refused(id, message));
          Refuse(id, message);
        case Translated(a) =>
          err := TakeAccount(a);
          return;
      }
      err := None;
    }

    method TakeAccount(a: Account) returns (err: Option<Error>)
      requires Valid() && Roomy(batches) && AllFull(log) && AllAnswered(log) && !interrupted
      modifies `order, `batches, `report, `log, `read, `looks, `interrupted
      ensures Valid() && read == old(read) + [Translated(a)] && AllFull(log) && AllAnswered(log)
      ensures err.None? ==> Roomy(batches)
      ensures err.Some? ==> Stops(err.value)
      ensures err == Some(Cancelled) <==> interrupted
    {
      Append(a);
      err := FlushIfFull(a.params);
    }

    method FlushIfFull(p: Params) returns (err: Option<Error>)
      requires Valid() && AllFull(log) && AllAnswered(log) && !interrupted
      requires p in batches && |batches[p]| > 0 && forall q :: q in batches && q != p ==> |batches[q]| < BATCH_SIZE
      modifies `batches, `report, `log, `looks, `interrupted
      ensures Valid() && AllFull(log) && AllAnswered(log)
      ensures err.None? ==> Roomy(batches)
      ensures err.Some? ==> Stops(err.value)
      ensures err == Some(Cancelled) <==> interrupted
    {
      err := None;
      if |batches[p]| == BATCH_SIZE {
        ghost var before := log;
        err := Flush(p);
        if err.None? {
          OneMoreFull(before, log[|before|]);
        }
      }
    }

    /** The log has the payloads of the requests and the answers given to them. */
    predicate AllAnswered(log: seq<Event>) {
      forall i :: 0 <= i < |log| ==> AnsweredAt(log, i)
    }

    predicate AnsweredAt(log: seq<Event>, i: nat)
      requires i < |log|
    {
      log[i].Sent? ==>
        var q := log[i].request;
        && log[i].response == respond(i, q)
        && !PayloadFails(q.params, q.accounts) && q.payloads == Payloads(q.accounts, payload(q.params, q.accounts).value)
    }

    lemma {:induction false} OneMoreAnswered(log: seq<Event>, e: Event)
      requires AllAnswered(log) && AnsweredAt(log + [e], |log|)
      ensures AllAnswered(log + [e])
    {
      forall i | 0 <= i < |log + [e]|
        ensures AnsweredAt(log + [e], i)
      {
        if i < |log| {
          assert AnsweredAt(log, i);
        }
      }
    }

    /** The batches left, in the order their configurations came up. */
    method FlushAll() returns (err: Option<Error>)
      requires Valid() && AllFull(log) && AllAnswered(log) && !interrupted
      modifies `batches, `report, `log, `looks, `interrupted
      ensures Valid() && FullButLast(log) && AllAnswered(log)
      ensures err.None? ==> forall p :: p in batches ==> batches[p] == []
      ensures err.Some? ==> Stops(err.value)
      ensures err == Some(Cancelled) <==> interrupted
    {
      for k := 0 to |order|
        invariant Valid() && order == old(order) && !interrupted && FullButLast(log) && AllAnswered(log)
        invariant forall i :: 0 <= i < k ==> batches[order[i]] == []
        invariant ShortOnesAreOf(log, order, k)
      {
        err := FlushLast(k);
        if err.Some? {
          return;
        }
      }
      err := None;
    }

    /** The last batch of the k-th configuration. */
    method FlushLast(k: nat) returns (err: Option<Error>)
      requires Valid() && AllAnswered(log) && !interrupted && k < |order|
      requires FullButLast(log) && ShortOnesAreOf(log, order, k)
      modifies `batches, `report, `log, `looks, `interrupted
      ensures Valid() && AllAnswered(log) && FullButLast(log)
      ensures err.None? ==> ShortOnesAreOf(log, order, k + 1) && batches == old(batches)[order[k] := []]
      ensures err.Some? ==> Stops(err.value)
      ensures err == Some(Cancelled) <==> interrupted
    {
      err := None;
      if |batches[order[k]]| > 0 {
        ghost var before := log;
        err := Flush(order[k]);
        if err.None? {
          OneMoreMayBeShort(before, order, k, log[|before|]);
        }
      }
    }

    /** Import, over the users the reader delivers and the error after them.
        Without an error, each user is recorded exactly once, and the accounts
        of each configuration were sent once, in order, in requests of their own,
        all of them full but the last. Only the reader, the context or a payload
        that fails ends it on an error. */
    method Import(users: seq<User>, end: Option<Error>) returns (err: Option<Error>)
      requires Valid() && read == [] && log == [] && batches == map[] && !interrupted
      modifies this
      ensures Valid() && FullButLast(log) && AllAnswered(log)
      ensures err.Some? ==> Stops(err.value) || (err == end && read == users)
      ensures interrupted ==> err == Some(Cancelled)
      ensures err.None? ==> read == users && end.None?
      ensures err.None? ==> forall id: string :: Recorded(report, id) == Count(UserIDs(users), id)
      ensures err.None? ==> forall p: Params :: SentOf(log, p) == AccountsOf(users, p)
    {
      for i := 0 to |users|
        invariant Valid() && Roomy(batches) && read == users[..i] && AllFull(log) && AllAnswered(log) && !interrupted
      {
        var cancelled := Done();
        if cancelled {
          return Some(Cancelled);
        }
        err := Take(users[i]);
        assert users[..i + 1] == users[..i] + [users[i]];
        if err.Some? {
          return;
        }
      }
      var cancelled := Done();
      if cancelled {
        return Some(Cancelled);
      }
      if end.Some? {
        return end;
      }
      err := FlushAll();
      if err.None? {
        assert read == users;
        Finished();
      }
    }

    lemma Finished()
      requires Valid() && forall p :: p in batches ==> batches[p] == []
      ensures forall id: string :: Recorded(report, id) == Count(UserIDs(read), id)
      ensures forall p: Params :: SentOf(log, p) == AccountsOf(read, p)
    {
      forall id: string
        ensures Recorded(report, id) == Count(UserIDs(read), id)
      {
        EachIsRecordedOnce(log, id);
        NobodyWaits(order, batches, id);
        assert CountedOf(log, order, batches, read, id);
      }
      forall p: Params
        ensures SentOf(log, p) == AccountsOf(read, p)
      {
        assert InOrderOf(log, batches, read, p);
      }
    }
  }

  lemma {:induction false} NobodyWaits(order: seq<Params>, batches: Batches, id: string)
    requires forall p :: p in batches ==> batches[p] == []
    ensures Waiting(order, batches, id) == 0
  {
    if order != [] {
      NobodyWaits(order[..|order| - 1], batches, id);
    }
  }

  // What one event changes for one configuration, and for one user.

  lemma RefusalOf(log: seq<Event>, batches: Batches, read: seq<User>, x: string, message: string, p: Params)
    requires InOrderOf(log, batches, read, p)
    ensures InOrderOf(log + [Refused(x, message)], batches, read + [Untranslatable(x, message)], p)
  {
    var after, more := log + [Refused(x, message)], read + [Untranslatable(x, message)];
    assert after[..|log|] == log && more[..|read|] == read;
  }

  lemma OneMoreRead(read: seq<User>, u: User, id: string)
    ensures Count(UserIDs(read + [u]), id) == Count(UserIDs(read), id) + (if IDOf(u) == id then 1 else 0)
  {
    assert UserIDs(read + [u]) == UserIDs(read) + [IDOf(u)];
    CountOneMore(UserIDs(read), IDOf(u), id);
  }

  lemma RefusalCounts(log: seq<Event>, order: seq<Params>, batches: Batches, read: seq<User>, x: string, message: string, id: string)
    requires CountedOf(log, order, batches, read, id)
    ensures CountedOf(log + [Refused(x, message)], order, batches, read + [Untranslatable(x, message)], id)
  {
    assert (log + [Refused(x, message)])[..|log|] == log;
    OneMoreRead(read, Untranslatable(x, message), id);
  }

  lemma RefusalKeepsBooks(log: seq<Event>, order: seq<Params>, batches: Batches, read: seq<User>, x: string, message: string)
    requires InOrder(log, batches, read) && Counted(log, order, batches, read)
    ensures InOrder(log + [Refused(x, message)], batches, read + [Untranslatable(x, message)])
    ensures Counted(log + [Refused(x, message)], order, batches, read + [Untranslatable(x, message)])
  {
    forall p: Params
      ensures InOrderOf(log + [Refused(x, message)], batches, read + [Untranslatable(x, message)], p)
    {
      assert InOrderOf(log, batches, read, p);
      RefusalOf(log, batches, read, x, message, p);
    }
    forall id: string
      ensures CountedOf(log + [Refused(x, message)], order, batches, read + [Untranslatable(x, message)], id)
    {
      assert CountedOf(log, order, batches, read, id);
      RefusalCounts(log, order, batches, read, x, message, id);
    }
  }

  lemma AccountOf(log: seq<Event>, batches: Batches, read: seq<User>, a: Account, p: Params)
    requires InOrderOf(log, batches, read, p)
    ensures InOrderOf(log, batches[a.params := Pending(batches, a.params) + [a]], read + [Translated(a)], p)
  {
    assert (read + [Translated(a)])[..|read|] == read;
    if p == a.params {
      assert SentOf(log, p) + (Pending(batches, p) + [a]) == SentOf(log, p) + Pending(batches, p) + [a];
    }
  }

  lemma OneMoreWaits(order: seq<Params>, batches: Batches, order': seq<Params>, a: Account, id: string)
    requires DistinctParams(order) && (a.params in order <==> a.params in batches)
    requires order' == if a.params in batches then order else order + [a.params]
    ensures Waiting(order', batches[a.params := Pending(batches, a.params) + [a]], id)
            == Waiting(order, batches, id) + (if a.sourceID == id then 1 else 0)
  {
    var before := Pending(batches, a.params);
    var after := batches[a.params := before + [a]];
    assert AccountIDs(before + [a]) == AccountIDs(before) + [a.sourceID];
    CountOneMore(AccountIDs(before), a.sourceID, id);
    var count, count' := WaitingIn(batches, id), WaitingIn(after, id);
    if a.params in batches {
      SumWith(order, count, count', a.params);
    } else {
      SumElsewhere(order, count, count', a.params);
      assert order'[..|order'| - 1] == order;
    }
  }

  lemma AccountCounts(log: seq<Event>, order: seq<Params>, batches: Batches, order': seq<Params>, read: seq<User>, a: Account, id: string)
    requires DistinctParams(order) && (a.params in order <==> a.params in batches)
    requires order' == if a.params in batches then order else order + [a.params]
    requires CountedOf(log, order, batches, read, id)
    ensures CountedOf(log, order', batches[a.params := Pending(batches, a.params) + [a]], read + [Translated(a)], id)
  {
    OneMoreWaits(order, batches, order', a, id);
    OneMoreRead(read, Translated(a), id);
  }

  lemma AccountKeepsBooks(log: seq<Event>, order: seq<Params>, batches: Batches, order': seq<Params>, read: seq<User>, a: Account)
    requires DistinctParams(order) && (a.params in order <==> a.params in batches)
    requires order' == if a.params in batches then order else order + [a.params]
    requires InOrder(log, batches, read) && Counted(log, order, batches, read)
    ensures var after := batches[a.params := Pending(batches, a.params) + [a]];
            InOrder(log, after, read + [Translated(a)]) && Counted(log, order', after, read + [Translated(a)])
  {
    var after := batches[a.params := Pending(batches, a.params) + [a]];
    forall p: Params
      ensures InOrderOf(log, after, read + [Translated(a)], p)
    {
      assert InOrderOf(log, batches, read, p);
      AccountOf(log, batches, read, a, p);
    }
    forall id: string
      ensures CountedOf(log, order', after, read + [Translated(a)], id)
    {
      assert CountedOf(log, order, batches, read, id);
      AccountCounts(log, order, batches, order', read, a, id);
    }
  }

  lemma RequestOf(log: seq<Event>, batches: Batches, read: seq<User>, p: Params, payloads: seq<nat>, r: Response, q: Params)
    requires p in batches && InOrderOf(log, batches, read, q)
    ensures InOrderOf(log + [Sent(Request(p, batches[p], payloads), r)], batches[p := []], read, q)
  {
    assert (log + [Sent(Request(p, batches[p], payloads), r)])[..|log|] == log;
  }

  lemma RequestCounts(log: seq<Event>, order: seq<Params>, batches: Batches, read: seq<User>, p: Params, payloads: seq<nat>, r: Response, id: string)
    requires DistinctParams(order) && p in order && p in batches && CountedOf(log, order, batches, read, id)
    ensures CountedOf(log + [Sent(Request(p, batches[p], payloads), r)], order, batches[p := []], read, id)
  {
    assert (log + [Sent(Request(p, batches[p], payloads), r)])[..|log|] == log;
    SumWith(order, WaitingIn(batches, id), WaitingIn(batches[p := []], id), p);
  }

  lemma RequestKeepsBooks(log: seq<Event>, order: seq<Params>, batches: Batches, read: seq<User>, p: Params, payloads: seq<nat>, r: Response)
    requires DistinctParams(order) && p in order && p in batches
    requires InOrder(log, batches, read) && Counted(log, order, batches, read)
    ensures InOrder(log + [Sent(Request(p, batches[p], payloads), r)], batches[p := []], read)
    ensures Counted(log + [Sent(Request(p, batches[p], payloads), r)], order, batches[p := []], read)
  {
    var after, left := log + [Sent(Request(p, batches[p], payloads), r)], batches[p := []];
    forall q: Params
      ensures InOrderOf(after, left, read, q)
    {
      assert InOrderOf(log, batches, read, q);
      RequestOf(log, batches, read, p, payloads, r, q);
    }
    forall id: string
      ensures CountedOf(after, order, left, read, id)
    {
      assert CountedOf(log, order, batches, read, id);
      RequestCounts(log, order, batches, read, p, payloads, r, id);
    }
  }
}
