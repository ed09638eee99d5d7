/** The reader that hands an import its users, prepared in batches. */
module PreparedReader {

  import opened Options
  import opened Sequences

  /** A read error: the end of the stream, a record that can't be read, or a failed preparation. */
  datatype ReadError = EOF | Unreadable(line: nat) | Unprepared(batch: nat)

  /** A line of the stream. */
  datatype Line<U> = Good(user: U) | Bad

  /** What Applier.prepare makes of a batch: kept users, their fields, and skipped users. */
  datatype Prepared<U, F> = Ready(users: seq<U>, fields: seq<F>, skipped: seq<U>) | Failed

  /** The Applier: its batch size, how it prepares each batch, told by its number, and a user's source ID. */
  datatype Applier<!U, !F> = Applier(batch: nat, prepare: (nat, seq<U>) -> Prepared<U, F>, sourceID: U -> string)

  /** Each of the users, in order, is kept, maybe changed, or skipped. */
  ghost predicate Accounts<U>(sourceID: U -> string, users: seq<U>, kept: seq<U>, skipped: seq<U>) {
    if users == [] then kept == [] && skipped == []
    else
      || (kept != [] && sourceID(kept[0]) == sourceID(users[0]) && Accounts(sourceID, users[1..], kept[1..], skipped))
      || (skipped != [] && skipped[0] == users[0] && Accounts(sourceID, users[1..], kept, skipped[1..]))
  }

  /** Fields stay aligned with users, and no user of a batch goes missing. */
  ghost predicate Sound<U(!new), F(!new)>(a: Applier<U, F>) {
    && a.batch >= 1
    && forall i: nat, us: seq<U> ::
         var p := a.prepare(i, us);
         p.Ready? ==> |p.users| == |p.fields| && Accounts(a.sourceID, us, p.users, p.skipped)
  }

  /** What a reader comes to: the users with their fields, those skipped, and the error after them. */
  datatype Delivery<U, F> = Delivery(out: seq<(U, F)>, skipped: seq<U>, err: ReadError)

  function Zip<U, F>(us: seq<U>, fs: seq<F>): (ps: seq<(U, F)>)
    requires |us| == |fs|
    ensures |ps| == |us| && forall i :: 0 <= i < |ps| ==> ps[i] == (us[i], fs[i])
  {
    seq(|us|, i requires 0 <= i < |us| => (us[i], fs[i]))
  }

  /** The users before the first unreadable line. */
  function Readable<U>(lines: seq<Line<U>>): seq<U> {
    if lines == [] || lines[0].Bad? then [] else [lines[0].user] + Readable(lines[1..])
  }

  /** The error that follows them; n lines came before. */
  function EndOf<U>(lines: seq<Line<U>>, n: nat): ReadError {
    if lines == [] then EOF else if lines[0].Bad? then Unreadable(n) else EndOf(lines[1..], n + 1)
  }

  /** What consecutive batches of users come to, the first one number i, with err after them. */
  ghost function Deliver<U(!new), F(!new)>(a: Applier<U, F>, i: nat, users: seq<U>, err: ReadError): Delivery<U, F>
    requires Sound(a)
    decreases |users|
  {
    if users == [] then Delivery([], [], err)
    else
      var n := Min(a.batch, |users|);
      match a.prepare(i, users[..n])
      case Failed => Delivery([], [], Unprepared(i))
      case Ready(us, fs, skipped) =>
        var rest := Deliver(a, i + 1, users[n..], err);
        Delivery(Zip(us, fs) + rest.out, skipped + rest.skipped, rest.err)
  }

  /** The CMF reader: an unreadable line is an error, and the next read goes on after it. */
  class Source<U(!new)> {
    const lines: seq<Line<U>>
    var pos: nat

    constructor (lines: seq<Line<U>>)
      ensures this.lines == lines && pos == 0
    {
      this.lines, pos := lines, 0;
    }

    ghost predicate Valid()
      reads this
    {
      pos <= |lines|
    }

    ghost function Ahead(): seq<U>
      requires Valid()
      reads this
    {
      Readable(lines[pos..])
    }

    ghost function End(): ReadError
      requires Valid()
      reads this
    {
      EndOf(lines[pos..], pos)
    }

    method ReadUser() returns (u: Option<U>, err: ReadError)
      requires Valid()
      modifies this`pos
      ensures Valid() && pos >= old(pos)
      ensures u.Some? <==> old(Ahead()) != []
      ensures u.Some? ==> old(pos) < |lines| && pos == old(pos) + 1 && old(Ahead()) == [u.value] + Ahead() && old(End()) == End()
      ensures u.None? ==> err == old(End())
    {
      err := EOF;
      if pos == |lines| {
        return None, EOF;
      }
      var line := lines[pos];
      assert lines[pos..][1..] == lines[pos + 1..];
      pos := pos + 1;
      if line.Bad? {
        return None, Unreadable(pos - 1);
      }
      u := Some(line.user);
    }
  }

  class Reader<U(!new), F(!new)> {
    const source: Source<U>
    const a: Applier<U, F>
    var users: seq<U>
    var fields: seq<F>
    var pos: nat
    var err: Option<ReadError>
    var skipped: seq<U>
    var calls: nat
    ghost var delivered: seq<(U, F)>
    ghost const whole: Delivery<U, F>

    constructor (source: Source<U>, a: Applier<U, F>)
      requires Sound(a) && source.Valid()
      ensures Valid() && this.source == source && this.a == a
      ensures delivered == [] && skipped == []
      ensures whole == Deliver(a, 0, source.Ahead(), source.End())
    {
      this.source, this.a := source, a;
      users, fields, pos, err, skipped := [], [], 0, None, [];
      calls, delivered := 0, [];
      whole := Deliver(a, 0, source.Ahead(), source.End());
    }

    /** The prepared users waiting. */
    ghost function Waiting(): seq<(U, F)>
      requires |users| == |fields| && pos <= |users|
      reads this
    {
      Zip(users[pos..], fields[pos..])
    }

    /** What the batches still to be read come to. */
    ghost function Rest(): Delivery<U, F>
      requires Sound(a) && source.Valid()
      reads this, source
    {
      if err.Some? then Delivery([], [], err.value) else Deliver(a, calls, source.Ahead(), source.End())
    }

    /** Delivered, waiting and unread users are, in order, those of the whole input. */
    ghost predicate Valid()
      reads this, source
    {
      && Sound(a) && source.Valid() && |users| == |fields| && pos <= |users|
      && delivered + (Waiting() + Rest().out) == whole.out
      && skipped + Rest().skipped == whole.skipped
      && Rest().err == whole.err
    }

    /** Reads up to a batch of users, and the error after them if there are no more. */
    method ReadRaw() returns (raw: seq<U>)
      requires Valid() && err.None?
      modifies source`pos, this`err
      ensures source.Valid() && Sound(a)
      ensures raw == old(source.Ahead())[..Min(a.batch, |old(source.Ahead())|)]
      ensures err.None? ==> source.Ahead() == old(source.Ahead())[|raw|..] && source.End() == old(source.End())
      ensures err.Some? ==> err.value == old(source.End()) && |raw| == |old(source.Ahead())|
      ensures raw != [] ==> source.pos > old(source.pos)
      ensures raw == [] ==> err.Some?
    {
      raw := [];
      while |raw| < a.batch && err.None?
        invariant source.Valid() && Sound(a) && source.pos >= old(source.pos)
        invariant |raw| <= a.batch && |raw| <= |old(source.Ahead())| && raw == old(source.Ahead())[..|raw|]
        invariant err.None? ==> source.Ahead() == old(source.Ahead())[|raw|..] && source.End() == old(source.End())
        invariant err.Some? ==> err.value == old(source.End()) && |raw| == |old(source.Ahead())|
        invariant raw != [] ==> source.pos > old(source.pos)
        decreases a.batch - |raw|, err.None?
      {
        var u, e := source.ReadUser();
        if u.None? {
          err := Some(e);
          break;
        }
        raw := raw + [u.value];
      }
    }

    /** Takes over a prepared batch, or the error preparing it; it was batch number calls - 1. */
    method Take(p: Prepared<U, F>)
      requires Sound(a) && source.Valid() && calls > 0
      requires p.Ready? ==> |p.users| == |p.fields| && delivered + (Zip(p.users, p.fields) + Rest().out) == whole.out
      requires p.Ready? ==> skipped + (p.skipped + Rest().skipped) == whole.skipped && Rest().err == whole.err
      requires p.Failed? ==> delivered == whole.out && skipped == whole.skipped && whole.err == Unprepared(calls - 1)
      modifies `users, `fields, `pos, `err, `skipped
      ensures Valid() && old(skipped) <= skipped
      ensures p.Failed? ==> err == Some(whole.err) && pos == |users|
      ensures p.Ready? ==> err == old(err)
    {
      match p
      case Failed =>
        users, fields, pos, err := [], [], 0, Some(Unprepared(calls - 1));
      case Ready(us, fs, sk) =>
        users, fields, pos := us, fs, 0;
        skipped := skipped + sk;
        assert users[0..] == users && fields[0..] == fields;
        assert delivered + (Waiting() + Rest().out) == delivered + (Zip(us, fs) + Rest().out);
    }

    /** Reads one more batch and prepares it; false if an error came before any user. */
    method Fill() returns (ok: bool)
      requires Valid() && err.None? && pos == |users|
      modifies this, source`pos
      ensures Valid() && delivered == old(delivered) && old(skipped) <= skipped
      ensures !ok ==> err.Some? && pos == |users|
      ensures ok ==> source.pos > old(source.pos)
    {
      ghost var ahead, end := source.Ahead(), source.End();
      ghost var d := Rest();
      assert delivered + d.out == whole.out;
      var raw := ReadRaw();
      if raw == [] {
        assert delivered + (Waiting() + Rest().out) == whole.out;
        return false;
      }
      var p := a.prepare(calls, raw);
      calls := calls + 1;
      assert Rest() == Deliver(a, calls, ahead[|raw|..], end);
      if p.Ready? {
        assert d.out == Zip(p.users, p.fields) + Rest().out;
        Take(p);
        return true;
      }
      Take(p);
      return false;
    }

    /** Skips batches that leave no user; true if one now waits, else the error is kept. */
    method Next() returns (ok: bool)
      requires Valid()
      modifies this, source`pos
      ensures Valid() && delivered == old(delivered) && old(skipped) <= skipped
      ensures ok ==> pos < |users|
      ensures !ok ==> err.Some? && pos == |users|
    {
      while pos == |users|
        invariant Valid() && delivered == old(delivered) && old(skipped) <= skipped
        decreases |source.lines| - source.pos
      {
        if err.Some? {
          return false;
        }
        var filled := Fill();
        if !filled {
          return false;
        }
      }
      return true;
    }

    method TakeOne() returns (u: (U, F))
      requires Valid() && pos < |users|
      modifies `pos, `delivered
      ensures Valid() && delivered == old(delivered) + [u]
    {
      u := (users[pos], fields[pos]);
      assert Waiting() == [u] + Zip(users[pos + 1..], fields[pos + 1..]);
      assert delivered + ([u] + Zip(users[pos + 1..], fields[pos + 1..]) + Rest().out)
          == delivered + [u] + (Zip(users[pos + 1..], fields[pos + 1..]) + Rest().out);
      pos := pos + 1;
      delivered := delivered + [u];
    }

    /** The next user with its fields; or the error of the whole input, once
        every user before it was delivered or skipped, and then every time. */
    method ReadUser() returns (u: Option<(U, F)>, e: Option<ReadError>)
      requires Valid()
      modifies this, source`pos
      ensures Valid() && old(skipped) <= skipped
      ensures u.Some? <==> e.None?
      ensures u.Some? ==> delivered == old(delivered) + [u.value]
      ensures u.None? ==> delivered == old(delivered) == whole.out && skipped == whole.skipped && e == Some(whole.err)
    {
      var ok := Next();
      if !ok {
        assert Waiting() == [];
        return None, err;
      }
      var next := TakeOne();
      return Some(next), None;
    }

    /** The users left of the batch, or of the next one that has any. */
    method ReadBatch() returns (us: seq<(U, F)>, e: Option<ReadError>)
      requires Valid()
      modifies this, source`pos
      ensures Valid() && old(skipped) <= skipped
      ensures us == [] <==> e.Some?
      ensures e.None? ==> delivered == old(delivered) + us
      ensures e.Some? ==> delivered == old(delivered) == whole.out && skipped == whole.skipped && e == Some(whole.err)
    {
      var ok := Next();
      if !ok {
        assert Waiting() == [];
        return [], err;
      }
      us, e := [], None;
      ghost var waiting := Waiting();
      ghost var from := pos;
      while pos < |users|
        invariant from <= pos <= |users| && |users| == |fields|
        invariant us == waiting[..pos - from]
        modifies `pos
      {
        us := us + [(users[pos], fields[pos])];
        pos := pos + 1;
      }
      assert us == waiting;
      assert Waiting() == [];
      assert delivered + (waiting + Rest().out) == delivered + us + ([] + Rest().out);
      delivered := delivered + us;
    }
  }

  function Users<U, F>(out: seq<(U, F)>): (us: seq<U>)
    ensures |us| == |out| && forall i :: 0 <= i < |us| ==> us[i] == out[i].0
  {
    seq(|out|, i requires 0 <= i < |out| => out[i].0)
  }

  lemma {:induction false} AccountsAppend<U>(sourceID: U -> string, users: seq<U>, kept: seq<U>, skipped: seq<U>,
                                             users': seq<U>, kept': seq<U>, skipped': seq<U>)
    requires Accounts(sourceID, users, kept, skipped) && Accounts(sourceID, users', kept', skipped')
    ensures Accounts(sourceID, users + users', kept + kept', skipped + skipped')
    decreases |users|
  {
    if users == [] {
      assert users + users' == users' && kept + kept' == kept' && skipped + skipped' == skipped';
    } else {
      assert (users + users')[1..] == users[1..] + users';
      if kept != [] && sourceID(kept[0]) == sourceID(users[0]) && Accounts(sourceID, users[1..], kept[1..], skipped) {
        AccountsAppend(sourceID, users[1..], kept[1..], skipped, users', kept', skipped');
        assert (kept + kept')[1..] == kept[1..] + kept';
      } else {
        AccountsAppend(sourceID, users[1..], kept, skipped[1..], users', kept', skipped');
        assert (skipped + skipped')[1..] == skipped[1..] + skipped';
      }
    }
  }

  lemma DeliverStep<U(!new), F(!new)>(a: Applier<U, F>, i: nat, users: seq<U>, err: ReadError)
    requires Sound(a) && users != []
    ensures var n, d := Min(a.batch, |users|), Deliver(a, i, users, err);
            var p, rest := a.prepare(i, users[..n]), Deliver(a, i + 1, users[n..], err);
            && 0 < n <= |users|
            && (p.Failed? ==> d == Delivery([], [], Unprepared(i)))
            && (p.Ready? ==> |p.users| == |p.fields| && Accounts(a.sourceID, users[..n], p.users, p.skipped)
                             && d == Delivery(Zip(p.users, p.fields) + rest.out, p.skipped + rest.skipped, rest.err))
  {
  }

  /** The batch of users that starts at the n-th. */
  function BatchAt<U>(users: seq<U>, n: nat, batch: nat): seq<U>
    requires n <= |users|
  {
    users[n..][..Min(batch, |users| - n)]
  }

  lemma BatchAccounts<U, F>(sourceID: U -> string, users: seq<U>, b: nat, m: nat, us: seq<U>, fs: seq<F>, skipped: seq<U>,
                            out: seq<(U, F)>, skipped': seq<U>)
    requires b + m <= |users| && |us| == |fs|
    requires Accounts(sourceID, users[..b], us, skipped) && Accounts(sourceID, users[b..][..m], Users(out), skipped')
    ensures Accounts(sourceID, users[..b + m], Users(Zip(us, fs) + out), skipped + skipped')
  {
    AccountsAppend(sourceID, users[..b], us, skipped, users[b..][..m], Users(out), skipped');
    assert users[..b + m] == users[..b] + users[b..][..m];
    assert Users(Zip(us, fs) + out) == us + Users(out);
  }

  /** d accounts for the first n users: all of them, or all that came before
      the batch whose preparation failed. */
  ghost predicate AccountsFor<U(!new), F(!new)>(a: Applier<U, F>, users: seq<U>, err: ReadError, d: Delivery<U, F>, n: nat) {
    && n <= |users|
    && Accounts(a.sourceID, users[..n], Users(d.out), d.skipped)
    && (if d.err.Unprepared? then n < |users| && a.prepare(d.err.batch, BatchAt(users, n, a.batch)) == Failed
        else d.err == err && n == |users|)
  }

  lemma OneMoreBatch<U(!new), F(!new)>(a: Applier<U, F>, users: seq<U>, err: ReadError, b: nat, p: Prepared<U, F>,
                                       rest: Delivery<U, F>, m: nat)
    requires b <= |users| && p.Ready? && |p.users| == |p.fields| && Accounts(a.sourceID, users[..b], p.users, p.skipped)
    requires AccountsFor(a, users[b..], err, rest, m)
    ensures AccountsFor(a, users, err, Delivery(Zip(p.users, p.fields) + rest.out, p.skipped + rest.skipped, rest.err), b + m)
  {
    BatchAccounts(a.sourceID, users, b, m, p.users, p.fields, p.skipped, rest.out, rest.skipped);
    assert users[b + m..] == users[b..][m..];
  }

  lemma {:induction false} DeliveryAccounts<U(!new), F(!new)>(a: Applier<U, F>, i: nat, users: seq<U>, err: ReadError)
    returns (n: nat)
    requires Sound(a) && !err.Unprepared?
    ensures AccountsFor(a, users, err, Deliver(a, i, users, err), n)
    decreases |users|
  {
    if users == [] {
      return 0;
    }
    DeliverStep(a, i, users, err);
    var b := Min(a.batch, |users|);
    var p := a.prepare(i, users[..b]);
    if p.Failed? {
      assert users[0..] == users;
      return 0;
    }
    var m := DeliveryAccounts(a, i + 1, users[b..], err);
    OneMoreBatch(a, users, err, b, p, Deliver(a, i + 1, users[b..], err), m);
    return b + m;
  }

  /** Delivered and skipped users account for the input. */
  lemma {:induction false} NoUserIsLost<U(!new), F(!new)>(a: Applier<U, F>, users: seq<U>, err: ReadError)
    requires Sound(a) && !err.Unprepared?
    ensures exists n :: AccountsFor(a, users, err, Deliver(a, 0, users, err), n)
  {
    var n := DeliveryAccounts(a, 0, users, err);
  }

  /** What becomes of a user prepared alone. */
  datatype Fate<U, F> = Kept(user: U, field: F) | Skipped | Fatal

  /** p with one more user. */
  function Then<U, F>(p: Prepared<U, F>, u: U, fate: Fate<U, F>): Prepared<U, F> {
    match p
    case Failed => Failed
    case Ready(us, fs, skipped) =>
      match fate
      case Fatal => Failed
      case Skipped => Ready(us, fs, skipped + [u])
      case Kept(v, f) => Ready(us + [v], fs + [f], skipped)
  }

  /** Users prepared one after the other. */
  function Alone<U, F>(fate: U -> Fate<U, F>, users: seq<U>): (p: Prepared<U, F>)
    ensures p.Ready? ==> |p.users| == |p.fields|
  {
    if users == [] then Ready([], [], [])
    else
      var u := users[|users| - 1];
      Then(Alone(fate, users[..|users| - 1]), u, fate(u))
  }

  function Joined<U, F>(p: Prepared<U, F>, q: Prepared<U, F>): Prepared<U, F> {
    if p.Failed? || q.Failed? then Failed else Ready(p.users + q.users, p.fields + q.fields, p.skipped + q.skipped)
  }

  lemma JoinedThen<U, F>(p: Prepared<U, F>, q: Prepared<U, F>, u: U, fate: Fate<U, F>)
    ensures Joined(p, Then(q, u, fate)) == Then(Joined(p, q), u, fate)
  {
  }

  lemma {:induction false} AloneAppend<U, F>(fate: U -> Fate<U, F>, us: seq<U>, vs: seq<U>)
    ensures Alone(fate, us + vs) == Joined(Alone(fate, us), Alone(fate, vs))
  {
    if vs == [] {
      assert us + vs == us;
    } else {
      var n := |vs| - 1;
      AloneAppend(fate, us, vs[..n]);
      assert (us + vs)[..|us + vs| - 1] == us + vs[..n];
      JoinedThen(Alone(fate, us), Alone(fate, vs[..n]), vs[n], fate(vs[n]));
    }
  }

  /** d is what p came to, with the error after it. */
  ghost predicate Gives<U, F>(d: Delivery<U, F>, p: Prepared<U, F>, err: ReadError) {
    p.Ready? && |p.users| == |p.fields| && d == Delivery(Zip(p.users, p.fields), p.skipped, err)
  }

  lemma GivesMore<U, F>(p: Prepared<U, F>, d: Delivery<U, F>, q: Prepared<U, F>, err: ReadError)
    requires p.Ready? && |p.users| == |p.fields| && Gives(d, q, err)
    ensures Gives(Delivery(Zip(p.users, p.fields) + d.out, p.skipped + d.skipped, d.err), Joined(p, q), err)
  {
  }

  /** What a batch comes to if its users are prepared one by one, but batches may be refused. */
  function AloneUnless<U, F>(refused: seq<U> -> bool, fate: U -> Fate<U, F>, batch: seq<U>): Prepared<U, F> {
    if refused(batch) then Failed else Alone(fate, batch)
  }

  /** The batches, the first one number i, are prepared that way. */
  ghost predicate PerUser<U(!new), F(!new)>(a: Applier<U, F>, i: nat, batches: seq<seq<U>>, fate: U -> Fate<U, F>, refused: seq<U> -> bool) {
    forall k: nat :: k < |batches| ==> a.prepare(i + k, batches[k]) == AloneUnless(refused, fate, batches[k])
  }

  /** d is what the users of the batches come to alone, with err after them; or
      what those before the j-th batch do, if that is the first that is refused
      or has a fatal user. */
  ghost predicate Refines<U(!new), F(!new)>(batches: seq<seq<U>>, i: nat, err: ReadError, fate: U -> Fate<U, F>, refused: seq<U> -> bool,
                                            d: Delivery<U, F>, j: nat)
  {
    && j <= |batches|
    && (forall k: nat :: k < j ==> AloneUnless(refused, fate, batches[k]).Ready?)
    && Gives(d, Alone(fate, Concat(batches[..j])), if j < |batches| then Unprepared(i + j) else err)
    && (j < |batches| ==> AloneUnless(refused, fate, batches[j]).Failed?)
  }

  lemma BatchBefore<U(!new), F(!new)>(batch: seq<U>, batches: seq<seq<U>>, i: nat, err: ReadError, fate: U -> Fate<U, F>,
                                      refused: seq<U> -> bool, p: Prepared<U, F>, rest: Delivery<U, F>, j: nat)
    requires p == AloneUnless(refused, fate, batch) && p.Ready? && |p.users| == |p.fields|
    requires Refines(batches, i + 1, err, fate, refused, rest, j)
    ensures Refines([batch] + batches, i, err, fate, refused,
                    Delivery(Zip(p.users, p.fields) + rest.out, p.skipped + rest.skipped, rest.err), j + 1)
  {
    var all := [batch] + batches;
    assert all[..j + 1] == [batch] + batches[..j];
    ConcatOneBefore(batch, batches[..j]);
    AloneAppend(fate, batch, Concat(batches[..j]));
    GivesMore(p, rest, Alone(fate, Concat(batches[..j])), rest.err);
    assert forall k: nat :: 0 < k < |all| ==> all[k] == batches[k - 1];
  }

  /** Then the reader delivers what the plain reader reads, each user prepared
      alone, whatever the batches, with the same error after them. Only if a
      batch is refused or has a fatal user does it stop early, before that batch. */
  lemma {:induction false} RefinesPlainReader<U(!new), F(!new)>(a: Applier<U, F>, i: nat, users: seq<U>, err: ReadError,
                                                                fate: U -> Fate<U, F>, refused: seq<U> -> bool)
    returns (j: nat)
    requires Sound(a) && PerUser(a, i, Cut(users, a.batch), fate, refused)
    ensures Refines(Cut(users, a.batch), i, err, fate, refused, Deliver(a, i, users, err), j)
    decreases |users|
  {
    if users == [] {
      return 0;
    }
    DeliverStep(a, i, users, err);
    var n := Min(a.batch, |users|);
    var batches, later := Cut(users, a.batch), Cut(users[n..], a.batch);
    assert batches == [users[..n]] + later && batches[0] == users[..n];
    assert a.prepare(i + 0, batches[0]) == AloneUnless(refused, fate, batches[0]);
    if a.prepare(i, users[..n]).Failed? {
      assert batches[..0] == [];
      return 0;
    }
    LaterPerUser(a, i, users[..n], later, fate, refused);
    j := RefinesPlainReader(a, i + 1, users[n..], err, fate, refused);
    BatchBefore(users[..n], later, i, err, fate, refused, a.prepare(i, users[..n]), Deliver(a, i + 1, users[n..], err), j);
    j := j + 1;
  }

  lemma LaterPerUser<U(!new), F(!new)>(a: Applier<U, F>, i: nat, batch: seq<U>, later: seq<seq<U>>, fate: U -> Fate<U, F>, refused: seq<U> -> bool)
    requires PerUser(a, i, [batch] + later, fate, refused)
    ensures PerUser(a, i + 1, later, fate, refused)
  {
    var all := [batch] + later;
    forall k: nat | k < |later|
      ensures a.prepare(i + 1 + k, later[k]) == AloneUnless(refused, fate, later[k])
    {
      assert all[k + 1] == later[k];
      assert a.prepare(i + (k + 1), all[k + 1]) == AloneUnless(refused, fate, all[k + 1]);
    }
  }

  /** All batches come to something exactly if all users do, and no batch is refused. */
  lemma {:induction false} AllBatchesReady<U(!new), F(!new)>(batches: seq<seq<U>>, fate: U -> Fate<U, F>, refused: seq<U> -> bool)
    ensures (forall k: nat :: k < |batches| ==> AloneUnless(refused, fate, batches[k]).Ready?)
            <==> Alone(fate, Concat(batches)).Ready? && forall k: nat :: k < |batches| ==> !refused(batches[k])
  {
    if batches != [] {
      var n := |batches| - 1;
      AllBatchesReady(batches[..n], fate, refused);
      AloneAppend(fate, Concat(batches[..n]), batches[n]);
      assert forall k: nat :: k < n ==> batches[..n][k] == batches[k];
    }
  }

  /** So the batches do not matter, and the reader gives each user prepared alone,
      exactly if no user is fatal and no batch refused. */
  lemma BatchesDoNotMatterExactly<U(!new), F(!new)>(batches: seq<seq<U>>, i: nat, err: ReadError, fate: U -> Fate<U, F>,
                                                    refused: seq<U> -> bool, d: Delivery<U, F>, j: nat)
    requires Refines(batches, i, err, fate, refused, d, j) && !err.Unprepared?
    ensures Gives(d, Alone(fate, Concat(batches)), err)
            <==> Alone(fate, Concat(batches)).Ready? && forall k: nat :: k < |batches| ==> !refused(batches[k])
  {
    AllBatchesReady(batches, fate, refused);
    assert batches[..|batches|] == batches;
  }
}
