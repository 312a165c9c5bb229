/**
 The stored Google credentials of the company and of each client account.

 Both repositories guard a token refresh by a version number: the refresh read a version, asks
 the provider for new tokens, and writes them only if the row still has that version. Reads,
 writes and the re-read after a successful write are separate steps of concurrent callers.
 */
module GoogleConnection {
  import opened Wrappers
  import opened Text

  datatype Status = Connected | ReconnectRequired | Error | Disconnected

  /** The company row accepts a refresh only while connected, a client's row while in any active status. */
  datatype Form = Company | Account

  datatype Row = Row(
    id: string,
    owner: string,  // the connection key of the company row, the client account of a client's row
    status: Status,
    tokenVersion: int,
    access: Option<string>,
    refresh: Option<string>,
    expiresAt: Option<int>,
    tokenType: Option<string>,
    scopes: Option<string>,
    lastRefreshedAt: Option<int>,
    reconnectRequiredAt: Option<int>,
    disconnectedAt: Option<int>,
    lastError: Option<string>)

  /** New tokens from the provider; a part that is None is left as stored. */
  datatype Tokens = Tokens(
    access: string,
    refresh: Option<string>,
    expiresAt: int,
    tokenType: Option<Option<string>>,
    scopes: Option<string>)

  // ---- The conditional writes ----

  predicate AcceptsRefresh(form: Form, status: Status) {
    match form
    case Company => status == Connected
    case Account => status != Disconnected
  }

  predicate RefreshMatches(form: Form, row: Row, id: string, owner: string, expected: int) {
    row.id == id && row.owner == owner && row.tokenVersion == expected && AcceptsRefresh(form, row.status)
  }

  function Refreshed(row: Row, tokens: Tokens, now: int): Row {
    row.(access := Some(tokens.access),
         refresh := if tokens.refresh.Some? then tokens.refresh else row.refresh,
         expiresAt := Some(tokens.expiresAt),
         tokenType := if tokens.tokenType.Some? then tokens.tokenType.value else row.tokenType,
         scopes := if tokens.scopes.Some? then tokens.scopes else row.scopes,
         tokenVersion := row.tokenVersion + 1,
         lastRefreshedAt := Some(now),
         status := Connected,
         reconnectRequiredAt := None,
         disconnectedAt := None,
         lastError := None)
  }

  predicate MarkMatches(row: Row, id: string, owner: string, expected: int) {
    row.id == id && row.owner == owner && row.tokenVersion == expected && row.status == Connected
  }

  function Marked(row: Row, error: string, now: int): Row {
    row.(status := ReconnectRequired, reconnectRequiredAt := Some(now), lastError := Some(error),
         tokenVersion := row.tokenVersion + 1)
  }

  /** The mark of a client's row has no guard and keeps the version. */
  function PlainMarked(row: Row, error: string, now: int): Row {
    row.(status := ReconnectRequired, reconnectRequiredAt := Some(now), lastError := Some(error))
  }

  function MarkText(error: Option<string>): string {
    if error.Some? && Trim(error.value) != "" then Trim(error.value) else "Reconnect required."
  }

  function Wiped(row: Row, now: int): Row {
    row.(access := None, refresh := None, expiresAt := None, tokenType := None, status := Disconnected,
         disconnectedAt := Some(now), reconnectRequiredAt := None, lastError := None,
         tokenVersion := row.tokenVersion + 1)
  }

  // ---- Concurrent callers ----

  datatype Reason = NotFound | StaleVersion | IsDisconnected

  type Outcome = Result<int, Reason>

  /** What a refresh reports: it reads the row again, whatever happened since its write. */
  function Report(row: Option<Row>, wrote: bool): Outcome {
    if row.None? then Err(NotFound)
    else if wrote then Ok(row.value.tokenVersion)
    else if row.value.status == Disconnected then Err(IsDisconnected)
    else Err(StaleVersion)
  }

  datatype Kind = ByRefresh | ByMark | ByPlainMark | ByWipe | ByOthers

  /**
   One write. For a refresh or a guarded mark, `from` is the row its caller had read, when `readAt` writes had
   happened.
   */
  datatype Write = Write(kind: Kind, readAt: nat, from: Row, before: Row, after: Row)

  datatype Caller = Idle
                  | HasRead(from: Row, readAt: nat)
                  | Attempted(expected: int, wrote: bool)
                  | Reported(expected: int, outcome: Outcome)

  datatype State = State(row: Option<Row>, callers: map<nat, Caller>, log: seq<Write>)

  /**
   `TryMark` is the company's guarded mark and `PlainMark` the mark of a client's row, both by a caller
   whose refresh the provider turned down. `Others` is any other writer of the row, among them a
   reconnect; it never lowers the version.
   */
  datatype Event = Read(c: nat)
                 | TryRefresh(c: nat, tokens: Tokens, now: int)
                 | ReRead(c: nat)
                 | TryMark(c: nat, error: string, now: int)
                 | PlainMark(c: nat, error: string, now: int)
                 | Wipe(now: int)
                 | Others(after: Row)
                 | Delete

  function CallerOf(s: State, c: nat): Caller {
    if c in s.callers then s.callers[c] else Idle
  }

  predicate Enabled(s: State, e: Event, form: Form) {
    match e
    case Read(c) => CallerOf(s, c).Idle? || CallerOf(s, c).Reported?
    case TryRefresh(c, _, _) => CallerOf(s, c).HasRead?
    case ReRead(c) => CallerOf(s, c).Attempted?
    case TryMark(c, _, _) => form == Company && CallerOf(s, c).HasRead?
    case PlainMark(c, _, _) => form == Account && CallerOf(s, c).HasRead?
    case Wipe(_) => s.row.Some?
    case Others(after) =>
      s.row.Some? && after.id == s.row.value.id && after.owner == s.row.value.owner
      && s.row.value.tokenVersion <= after.tokenVersion
    case Delete => s.row.Some?
  }

  function Put(s: State, kind: Kind, readAt: nat, from: Row, after: Row): State
    requires s.row.Some?
  {
    s.(row := Some(after), log := s.log + [Write(kind, readAt, from, s.row.value, after)])
  }

  function Step(s: State, e: Event, form: Form): State
    requires Enabled(s, e, form)
  {
    match e
    case Read(c) =>
      s.(callers := s.callers[c := if s.row.Some? then HasRead(s.row.value, |s.log|) else Idle])
    case TryRefresh(c, tokens, now) =>
      var HasRead(from, readAt) := CallerOf(s, c);
      var matched := s.row.Some? && RefreshMatches(form, s.row.value, from.id, from.owner, from.tokenVersion);
      var s' := s.(callers := s.callers[c := Attempted(from.tokenVersion, matched)]);
      if matched then Put(s', ByRefresh, readAt, from, Refreshed(s.row.value, tokens, now)) else s'
    case ReRead(c) =>
      var Attempted(expected, wrote) := CallerOf(s, c);
      s.(callers := s.callers[c := Reported(expected, Report(s.row, wrote))])
    case TryMark(c, error, now) =>
      var HasRead(from, readAt) := CallerOf(s, c);
      var s' := s.(callers := s.callers[c := Idle]);
      if s.row.Some? && MarkMatches(s.row.value, from.id, from.owner, from.tokenVersion) then
        Put(s', ByMark, readAt, from, Marked(s.row.value, error, now))
      else s'
    case PlainMark(c, error, now) =>
      var HasRead(from, _) := CallerOf(s, c);
      var s' := s.(callers := s.callers[c := Idle]);
      if s.row.Some? && s.row.value.id == from.id && s.row.value.owner == from.owner then
        Put(s', ByPlainMark, |s.log|, s.row.value, PlainMarked(s.row.value, error, now))
      else s'
    case Wipe(now) => Put(s, ByWipe, |s.log|, s.row.value, Wiped(s.row.value, now))
    case Others(after) => Put(s, ByOthers, |s.log|, s.row.value, after)
    case Delete => s.(row := None)
  }

  predicate IsRun(states: seq<State>, events: seq<Event>, form: Form) {
    && |states| == |events| + 1
    && states[0].callers == map[] && states[0].log == []
    && forall i | 0 <= i < |events| ::
         Enabled(states[i], events[i], form) && states[i + 1] == Step(states[i], events[i], form)
  }

  // ---- The history of writes ----

  predicate Raises(w: Write) { w.before.tokenVersion < w.after.tokenVersion }

  predicate SameRow(a: Row, b: Row) { a.id == b.id && a.owner == b.owner }

  /** Each write starts from the row the one before it left, keeps its identity, and never lowers the version. */
  predicate Chained(log: seq<Write>, row: Option<Row>) {
    && (forall i | 0 < i < |log| :: log[i].before == log[i - 1].after)
    && (forall i | 0 <= i < |log| :: log[i].before.tokenVersion <= log[i].after.tokenVersion)
    && (forall i | 0 <= i < |log| :: SameRow(log[i].before, log[i].after))
    && (log != [] && row.Some? ==> log[|log| - 1].after == row.value)
  }

  /** Between the read a refresh or a mark was computed from and its write, no write raised the version. */
  predicate Fenced(log: seq<Write>, i: nat)
    requires i < |log|
  {
    && log[i].readAt <= i
    && log[i].from == log[log[i].readAt].before
    && log[i].from.tokenVersion == log[i].before.tokenVersion
    && forall k | log[i].readAt <= k < i :: !Raises(log[k])
  }

  /** What a caller that has read still knows: the row it read is the one `readAt` writes had produced. */
  predicate ReadFrom(s: State, caller: Caller) {
    match caller
    case HasRead(from, readAt) =>
      && readAt <= |s.log|
      && (if readAt < |s.log| then s.log[readAt].before == from else s.row.Some? ==> s.row.value == from)
    case Attempted(expected, wrote) =>
      wrote && s.row.Some? ==> expected + 1 <= s.row.value.tokenVersion
    case Reported(expected, outcome) =>
      outcome.Ok? ==> expected + 1 <= outcome.value
    case Idle => true
  }

  /** What each kind of write requires of the row and does to its version. */
  predicate Lawful(w: Write, form: Form) {
    match w.kind
    case ByRefresh => Bumps(w) && AcceptsRefresh(form, w.before.status) && w.after.status == Connected
    case ByMark => Bumps(w) && form == Company && w.before.status == Connected && w.after.status == ReconnectRequired
    case ByPlainMark => w.after.tokenVersion == w.before.tokenVersion && form == Account
        && w.after.status == ReconnectRequired
    case ByWipe => Bumps(w) && w.after.status == Disconnected
    case ByOthers => true
  }

  predicate Bumps(w: Write) { w.after.tokenVersion == w.before.tokenVersion + 1 }

  ghost predicate Inv(s: State, form: Form) {
    && Chained(s.log, s.row)
    && (forall c | c in s.callers :: ReadFrom(s, s.callers[c]))
    && (forall i | 0 <= i < |s.log| :: Fenced(s.log, i))
    && (forall i | 0 <= i < |s.log| :: Lawful(s.log[i], form))
  }

  lemma {:induction false} VersionsAscend(log: seq<Write>, row: Option<Row>, i: nat, j: nat)
    requires Chained(log, row) && i <= j < |log|
    ensures log[i].before.tokenVersion <= log[j].before.tokenVersion
    ensures i < j ==> log[i].after.tokenVersion <= log[j].before.tokenVersion
    decreases j - i
  {
    if i < j {
      VersionsAscend(log, row, i + 1, j);
    }
  }

  /** A write whose caller's version still stands is fenced. */
  lemma PutIsFenced(s: State, kind: Kind, readAt: nat, from: Row, after: Row)
    requires s.row.Some? && Chained(s.log, s.row) && ReadFrom(s, HasRead(from, readAt))
    requires from.tokenVersion == s.row.value.tokenVersion
    ensures Fenced(Put(s, kind, readAt, from, after).log, |s.log|)
  {
    var log := Put(s, kind, readAt, from, after).log;
    forall k | readAt <= k < |s.log| ensures !Raises(log[k]) {
      VersionsAscend(s.log, s.row, readAt, k);
      VersionsAscend(s.log, s.row, k, |s.log| - 1);
    }
  }

  lemma PutKeepsInv(s: State, form: Form, kind: Kind, readAt: nat, from: Row, after: Row)
    requires Inv(s, form) && s.row.Some? && ReadFrom(s, HasRead(from, readAt))
    requires from.tokenVersion == s.row.value.tokenVersion <= after.tokenVersion
    requires SameRow(s.row.value, after) && Lawful(Write(kind, readAt, from, s.row.value, after), form)
    ensures Inv(Put(s, kind, readAt, from, after), form)
  {
    var s' := Put(s, kind, readAt, from, after);
    PutIsFenced(s, kind, readAt, from, after);
    forall i | 0 <= i < |s'.log| ensures Fenced(s'.log, i) {
      if i < |s.log| { assert Fenced(s.log, i); }
    }
    forall c | c in s'.callers ensures ReadFrom(s', s'.callers[c]) {
      assert ReadFrom(s, s.callers[c]);
    }
  }

  lemma CallerKeepsInv(s: State, form: Form, c: nat, caller: Caller)
    requires Inv(s, form) && ReadFrom(s, caller)
    ensures Inv(s.(callers := s.callers[c := caller]), form)
  {
    var s' := s.(callers := s.callers[c := caller]);
    forall d | d in s'.callers ensures ReadFrom(s', s'.callers[d]) {
      if d != c { assert ReadFrom(s, s.callers[d]); }
      assert ReadFrom(s, s'.callers[d]);
    }
  }

  lemma RefreshKeepsInv(s: State, e: Event, form: Form)
    requires Inv(s, form) && e.TryRefresh? && Enabled(s, e, form)
    ensures Inv(Step(s, e, form), form)
  {
    var caller, s' := CallerOf(s, e.c), Step(s, e, form);
    assert ReadFrom(s, caller);
    if CallerOf(s', e.c).wrote {
      PutKeepsInv(s, form, ByRefresh, caller.readAt, caller.from, s'.row.value);
      CallerKeepsInv(Put(s, ByRefresh, caller.readAt, caller.from, s'.row.value), form, e.c, s'.callers[e.c]);
    } else {
      CallerKeepsInv(s, form, e.c, s'.callers[e.c]);
    }
  }

  lemma MarkKeepsInv(s: State, e: Event, form: Form)
    requires Inv(s, form) && e.TryMark? && Enabled(s, e, form)
    ensures Inv(Step(s, e, form), form)
  {
    var caller := CallerOf(s, e.c);
    assert ReadFrom(s, caller);
    if s.row.Some? && MarkMatches(s.row.value, caller.from.id, caller.from.owner, caller.from.tokenVersion) {
      var after := Marked(s.row.value, e.error, e.now);
      PutKeepsInv(s, form, ByMark, caller.readAt, caller.from, after);
      CallerKeepsInv(Put(s, ByMark, caller.readAt, caller.from, after), form, e.c, Idle);
    } else {
      CallerKeepsInv(s, form, e.c, Idle);
    }
  }

  lemma PlainMarkKeepsInv(s: State, e: Event, form: Form)
    requires Inv(s, form) && e.PlainMark? && Enabled(s, e, form)
    ensures Inv(Step(s, e, form), form)
  {
    if s.row.Some? && SameRow(s.row.value, CallerOf(s, e.c).from) {
      var after := PlainMarked(s.row.value, e.error, e.now);
      PutKeepsInv(s, form, ByPlainMark, |s.log|, s.row.value, after);
      CallerKeepsInv(Put(s, ByPlainMark, |s.log|, s.row.value, after), form, e.c, Idle);
    } else {
      CallerKeepsInv(s, form, e.c, Idle);
    }
  }

  lemma StepKeepsInv(s: State, e: Event, form: Form)
    requires Inv(s, form) && Enabled(s, e, form)
    ensures Inv(Step(s, e, form), form)
  {
    match e {
      case Read(c) =>
        CallerKeepsInv(s, form, c, if s.row.Some? then HasRead(s.row.value, |s.log|) else Idle);
      case TryRefresh(_, _, _) => RefreshKeepsInv(s, e, form);
      case ReRead(c) =>
        assert ReadFrom(s, CallerOf(s, c));
        CallerKeepsInv(s, form, c, Step(s, e, form).callers[c]);
      case TryMark(_, _, _) => MarkKeepsInv(s, e, form);
      case PlainMark(_, _, _) => PlainMarkKeepsInv(s, e, form);
      case Wipe(now) => PutKeepsInv(s, form, ByWipe, |s.log|, s.row.value, Wiped(s.row.value, now));
      case Others(after) => PutKeepsInv(s, form, ByOthers, |s.log|, s.row.value, after);
      case Delete =>
        forall c | c in s.callers ensures ReadFrom(Step(s, e, form), s.callers[c]) {
          assert ReadFrom(s, s.callers[c]);
        }
    }
  }

  lemma {:induction false} RunKeepsInv(states: seq<State>, events: seq<Event>, form: Form, n: nat)
    requires IsRun(states, events, form) && n < |states|
    ensures Inv(states[n], form)
  {
    if n > 0 {
      RunKeepsInv(states, events, form, n - 1);
      StepKeepsInv(states[n - 1], events[n - 1], form);
    }
  }

  // ---- What every schedule of callers obeys ----

  /**
   A refresh that took effect was computed from a row whose version no later write had raised:
   since its read there was no other refresh, no guarded mark and no disconnect.
   */
  lemma RefreshIsFenced(states: seq<State>, events: seq<Event>, form: Form, n: nat, i: nat, k: nat)
    requires IsRun(states, events, form) && n < |states| && i < |states[n].log|
    requires var w := states[n].log[i]; w.kind == ByRefresh && w.readAt <= k < i
    ensures !Raises(states[n].log[k])
    ensures states[n].log[k].kind == ByOthers || states[n].log[k].kind == ByPlainMark
  {
    RunKeepsInv(states, events, form, n);
    assert Fenced(states[n].log, i);
    assert !Raises(states[n].log[k]);
    assert Lawful(states[n].log[k], form);
  }

  /** When every write since its read raises the version, a refresh replaces exactly the row it was computed from. */
  lemma RefreshReplacesWhatItRead(states: seq<State>, events: seq<Event>, form: Form, n: nat, i: nat)
    requires IsRun(states, events, form) && n < |states| && i < |states[n].log|
    requires states[n].log[i].kind == ByRefresh
    requires forall k | states[n].log[i].readAt <= k < i :: Raises(states[n].log[k])
    ensures states[n].log[i].from == states[n].log[i].before
  {
    RunKeepsInv(states, events, form, n);
    var readAt := states[n].log[i].readAt;
    assert Fenced(states[n].log, i);
    var first := states[n].log[readAt];
    assert Raises(first) || readAt == i;
  }

  lemma {:induction false} QuietWritesKeepVersion(log: seq<Write>, row: Option<Row>, i: nat, j: nat)
    requires Chained(log, row) && i <= j < |log|
    ensures log[j].after.tokenVersion == log[i].before.tokenVersion <==> forall k | i <= k <= j :: !Raises(log[k])
    decreases j
  {
    VersionsAscend(log, row, i, j);
    if i < j {
      QuietWritesKeepVersion(log, row, i, j - 1);
    }
  }

  lemma {:induction false} IdentityStays(log: seq<Write>, row: Option<Row>, i: nat, j: nat)
    requires Chained(log, row) && i <= j < |log|
    ensures SameRow(log[i].before, log[j].after)
    decreases j
  {
    assert SameRow(log[j].before, log[j].after);
    if i < j {
      IdentityStays(log, row, i, j - 1);
    }
  }

  /**
   An in-flight refresh matches exactly when the row still accepts one and no write since its read raised the
   version.
   */
  lemma RefreshMatchesExactly(states: seq<State>, events: seq<Event>, form: Form, n: nat, c: nat)
    requires IsRun(states, events, form) && n < |states| && states[n].row.Some? && CallerOf(states[n], c).HasRead?
    ensures var HasRead(from, readAt) := CallerOf(states[n], c);
            var row := states[n].row.value;
            && readAt <= |states[n].log|
            && (RefreshMatches(form, row, from.id, from.owner, from.tokenVersion)
                <==> AcceptsRefresh(form, row.status)
                     && forall k | readAt <= k < |states[n].log| :: !Raises(states[n].log[k]))
  {
    RunKeepsInv(states, events, form, n);
    var s := states[n];
    assert ReadFrom(s, CallerOf(s, c));
    var readAt := CallerOf(s, c).readAt;
    if readAt < |s.log| {
      QuietWritesKeepVersion(s.log, s.row, readAt, |s.log| - 1);
      IdentityStays(s.log, s.row, readAt, |s.log| - 1);
    }
  }

  /** With no write since its read that raised the version, a refresh of a connected row takes effect. */
  lemma UndisturbedRefreshWrites(
      states: seq<State>, events: seq<Event>, form: Form, n: nat, c: nat, tokens: Tokens, now: int)
    requires IsRun(states, events, form) && n < |states| && CallerOf(states[n], c).HasRead?
    requires states[n].row.Some? && states[n].row.value.status == Connected
    requires forall k | CallerOf(states[n], c).readAt <= k < |states[n].log| :: !Raises(states[n].log[k])
    ensures var s, s' := states[n], Step(states[n], TryRefresh(c, tokens, now), form);
            && s'.row.Some? && s'.row.value.status == Connected
            && s'.row.value.tokenVersion == s.row.value.tokenVersion + 1
            && CallerOf(s', c) == Attempted(s.row.value.tokenVersion, true)
  {
    RefreshMatchesExactly(states, events, form, n, c);
    RunKeepsInv(states, events, form, n);
    var s := states[n];
    assert ReadFrom(s, CallerOf(s, c));
    var readAt := CallerOf(s, c).readAt;
    if readAt < |s.log| { QuietWritesKeepVersion(s.log, s.row, readAt, |s.log| - 1); }
  }

  /**
   A reconnect mark on a client's row survives a refresh in flight exactly when a write since the refresh's read
   raised the version.
   */
  lemma MarkSurvivesExactly(states: seq<State>, events: seq<Event>, n: nat, c: nat, tokens: Tokens, now: int)
    requires IsRun(states, events, Account) && n < |states| && CallerOf(states[n], c).HasRead?
    requires states[n].row.Some? && states[n].row.value.status == ReconnectRequired
    ensures var HasRead(from, readAt) := CallerOf(states[n], c);
            var after := Step(states[n], TryRefresh(c, tokens, now), Account).row.value;
            && readAt <= |states[n].log|
            && (after.status == ReconnectRequired
              <==> exists k :: readAt <= k < |states[n].log| && Raises(states[n].log[k]))
  {
    RefreshMatchesExactly(states, events, Account, n, c);
  }

  /** At most one write leaves any given version. */
  lemma OneWriterLeavesAVersion(states: seq<State>, events: seq<Event>, form: Form, n: nat, i: nat, j: nat)
    requires IsRun(states, events, form) && n < |states| && i < |states[n].log| && j < |states[n].log|
    requires Raises(states[n].log[i]) && Raises(states[n].log[j])
    requires states[n].log[i].before.tokenVersion == states[n].log[j].before.tokenVersion
    ensures i == j
  {
    RunKeepsInv(states, events, form, n);
    if i < j {
      VersionsAscend(states[n].log, states[n].row, i, j);
    } else if j < i {
      VersionsAscend(states[n].log, states[n].row, j, i);
    }
  }

  /**
   Refreshes, guarded marks and wipes raise the version by one, from the row the previous write left; the mark
   of a client's row keeps it.
   */
  lemma EveryGuardedWriteRaises(states: seq<State>, events: seq<Event>, form: Form, n: nat, i: nat)
    requires IsRun(states, events, form) && n < |states| && i < |states[n].log|
    ensures var w := states[n].log[i];
            && (w.kind in {ByRefresh, ByMark, ByWipe} ==> w.after.tokenVersion == w.before.tokenVersion + 1)
            && (w.kind == ByPlainMark ==> form == Account && w.after.tokenVersion == w.before.tokenVersion)
            && (0 < i ==> w.before == states[n].log[i - 1].after)
  {
    RunKeepsInv(states, events, form, n);
    assert Lawful(states[n].log[i], form);
  }

  /** A refresh that reports success names a version above the one it expected, its own or a later one. */
  lemma ReportedVersion(states: seq<State>, events: seq<Event>, form: Form, n: nat, c: nat)
    requires IsRun(states, events, form) && n < |states| && CallerOf(states[n], c).Reported?
    requires CallerOf(states[n], c).outcome.Ok?
    ensures CallerOf(states[n], c).expected + 1 <= CallerOf(states[n], c).outcome.value
  {
    RunKeepsInv(states, events, form, n);
    assert ReadFrom(states[n], CallerOf(states[n], c));
  }

  // ---- The credentials are those of the last writes ----

  datatype Credentials = Credentials(
    access: Option<string>, refresh: Option<string>, expiresAt: Option<int>,
    tokenType: Option<string>, scopes: Option<string>)

  function Held(row: Row): Credentials {
    Credentials(row.access, row.refresh, row.expiresAt, row.tokenType, row.scopes)
  }

  /** What the provider gave takes the place of what was held; what it left out stays. */
  function Renewed(held: Credentials, tokens: Tokens): Credentials {
    match tokens
    case Tokens(access, refresh, expiresAt, tokenType, scopes) =>
      Credentials(
        Some(access),
        (match refresh case Some(_) => refresh case None => held.refresh),
        Some(expiresAt),
        (match tokenType case Some(given) => given case None => held.tokenType),
        (match scopes case Some(_) => scopes case None => held.scopes))
  }

  /** The credentials, from the history of effective writes: the last rotation, unless a wipe came after it. */
  function Expected(states: seq<State>, events: seq<Event>, m: nat, n: nat): Credentials
    requires |states| == |events| + 1 && m <= n < |states| && states[m].row.Some?
  {
    if m == n then Held(states[m].row.value)
    else
      var before := Expected(states, events, m, n - 1);
      var wrote := |states[n].log| > |states[n - 1].log|;
      match events[n - 1]
      case TryRefresh(_, tokens, _) => if wrote then Renewed(before, tokens) else before
      case Wipe(_) => Credentials(None, None, None, None, before.scopes)
      case Others(after) => Held(after)
      case _ => before
  }

  lemma StepHolds(s: State, e: Event, form: Form)
    requires Enabled(s, e, form) && Step(s, e, form).row.Some?
    ensures var s' := Step(s, e, form);
            && s.row.Some?
            && Held(s'.row.value) ==
               match e
               case TryRefresh(_, tokens, _) =>
                 if |s'.log| > |s.log| then Renewed(Held(s.row.value), tokens) else Held(s.row.value)
               case Wipe(_) => Credentials(None, None, None, None, s.row.value.scopes)
               case Others(after) => Held(after)
               case _ => Held(s.row.value)
  {
  }

  /** The row holds the last access token and the last refresh token the provider rotated, since the last wipe. */
  lemma {:induction false} CredentialsAreLastWritten(states: seq<State>, events: seq<Event>, form: Form, m: nat, n: nat)
    requires IsRun(states, events, form) && m <= n < |states| && states[n].row.Some?
    ensures states[m].row.Some? && Held(states[n].row.value) == Expected(states, events, m, n)
  {
    if m < n {
      StepHolds(states[n - 1], events[n - 1], form);
      CredentialsAreLastWritten(states, events, form, m, n - 1);
    }
  }

  predicate Clean(row: Row) {
    row.status == Disconnected ==> row.access == None && row.refresh == None
  }

  predicate OnlyGuarded(events: seq<Event>) {
    forall i | 0 <= i < |events| :: !events[i].Others?
  }

  predicate Off(s: State) { s.row.Some? && s.row.value.status == Disconnected }

  /** A write that leaves `Disconnected` on its own account, and one that brings it. */
  predicate Reopens(w: Write) { w.kind == ByPlainMark || (w.kind == ByOthers && w.after.status != Disconnected) }

  predicate Closes(w: Write) { w.kind == ByWipe || (w.kind == ByOthers && w.after.status == Disconnected) }

  /** Every write from `from` on that reopens the row has one after it that closes it. */
  predicate ClosedAgain(log: seq<Write>, from: nat) {
    forall i | from <= i < |log| && Reopens(log[i]) :: exists j | i < j < |log| :: Closes(log[j])
  }

  /** With no other writer, a disconnected row holds no token, in either form. */
  lemma {:induction false} DisconnectedHoldsNoToken(states: seq<State>, events: seq<Event>, form: Form, m: nat, n: nat)
    requires IsRun(states, events, form) && OnlyGuarded(events) && m <= n < |states|
    requires states[m].row.Some? ==> Clean(states[m].row.value)
    ensures states[n].row.Some? ==> states[m].row.Some? && Clean(states[n].row.value)
  {
    if m < n {
      DisconnectedHoldsNoToken(states, events, form, m, n - 1);
      assert !events[n - 1].Others?;
    }
  }

  lemma AppendClosedAgain(log: seq<Write>, w: Write, from: nat)
    requires from <= |log|
    ensures ClosedAgain(log + [w], from) <==> Closes(w) || (!Reopens(w) && ClosedAgain(log, from))
  {
    var longer := log + [w];
    if Closes(w) {
      assert longer[|log|] == w;
    } else if Reopens(w) {
      assert Reopens(longer[|log|]);
    } else {
      AppendNeutral(log, w, from);
    }
  }

  lemma AppendNeutral(log: seq<Write>, w: Write, from: nat)
    requires from <= |log| && !Closes(w) && !Reopens(w)
    ensures ClosedAgain(log + [w], from) <==> ClosedAgain(log, from)
  {
    var longer := log + [w];
    if ClosedAgain(longer, from) {
      forall i | from <= i < |log| && Reopens(log[i]) ensures exists j | i < j < |log| :: Closes(log[j]) {
        assert Reopens(longer[i]);
        var j :| i < j < |longer| && Closes(longer[j]);
        assert Closes(log[j]);
      }
    }
    if ClosedAgain(log, from) {
      forall i | from <= i < |longer| && Reopens(longer[i]) ensures exists j | i < j < |longer| :: Closes(longer[j]) {
        assert Reopens(log[i]);
        var j :| i < j < |log| && Closes(log[j]);
        assert Closes(longer[j]);
      }
    }
  }

  lemma StepTurns(s: State, e: Event, form: Form)
    requires Inv(s, form) && Enabled(s, e, form) && Step(s, e, form).row.Some?
    ensures s.row.Some? && Turns(s, Step(s, e, form))
  {
    StepKeepsInv(s, e, form);
    var s' := Step(s, e, form);
    if |s'.log| > |s.log| { assert Lawful(s'.log[|s.log|], form); }
  }

  /** From `t` to `u` nothing was written, or one write was, and it decided. */
  predicate Turns(t: State, u: State) {
    || (u.log == t.log && u.row == t.row)
    || (|u.log| == |t.log| + 1 && u.log == t.log + [u.log[|t.log|]]
        && (Off(u) <==> Closes(u.log[|t.log|]) || (!Reopens(u.log[|t.log|]) && Off(t))))
  }

  lemma RunTurns(states: seq<State>, events: seq<Event>, form: Form, n: nat)
    requires IsRun(states, events, form) && 0 < n < |states| && states[n].row.Some?
    ensures states[n - 1].row.Some? && Turns(states[n - 1], states[n])
  {
    RunKeepsInv(states, events, form, n - 1);
    StepTurns(states[n - 1], events[n - 1], form);
  }

  lemma TurnKeepsClosedAgain(t: State, u: State, from: nat)
    requires Turns(t, u) && from <= |t.log| && (Off(t) <==> ClosedAgain(t.log, from))
    ensures Off(u) <==> ClosedAgain(u.log, from)
  {
    if u.log != t.log { AppendClosedAgain(t.log, u.log[|t.log|], from); }
  }

  /**
   A disconnected row is disconnected later on exactly if everything that reopened it was followed by something
   that closed it.
   */
  lemma {:induction false} DisconnectedExactly(states: seq<State>, events: seq<Event>, form: Form, m: nat, n: nat)
    requires IsRun(states, events, form) && m <= n < |states| && Off(states[m]) && states[n].row.Some?
    ensures |states[m].log| <= |states[n].log|
    ensures Off(states[n]) <==> ClosedAgain(states[n].log, |states[m].log|)
  {
    if m < n {
      RunTurns(states, events, form, n);
      DisconnectedExactly(states, events, form, m, n - 1);
      TurnKeepsClosedAgain(states[n - 1], states[n], |states[m].log|);
    }
  }

  predicate NoneReopens(log: seq<Write>, from: nat) { forall i | from <= i < |log| :: !Reopens(log[i]) }

  lemma TurnKeepsNoneReopens(t: State, u: State, from: nat)
    requires Turns(t, u) && from <= |t.log|
    ensures NoneReopens(u.log, from) ==> NoneReopens(t.log, from)
    ensures NoneReopens(t.log, from) && Off(t) ==> (Off(u) <==> NoneReopens(u.log, from))
  {
    assert forall i | 0 <= i < |t.log| :: u.log[i] == t.log[i];
    if |u.log| > |t.log| {
      var w := u.log[|t.log|];
      assert Closes(w) ==> !Reopens(w);
    }
  }

  /** It stays disconnected all along exactly if nothing reopened it: no mark of a client's row, no other writer. */
  lemma {:induction false} StaysDisconnectedExactly(states: seq<State>, events: seq<Event>, form: Form, m: nat, n: nat)
    requires IsRun(states, events, form) && m <= n < |states| && Off(states[m]) && states[n].row.Some?
    ensures |states[m].log| <= |states[n].log|
    ensures (forall k | m <= k <= n :: Off(states[k])) <==> NoneReopens(states[n].log, |states[m].log|)
  {
    if m < n {
      RunTurns(states, events, form, n);
      StaysDisconnectedExactly(states, events, form, m, n - 1);
      TurnKeepsNoneReopens(states[n - 1], states[n], |states[m].log|);
    }
  }

  lemma {:induction false} OthersAreEvents(states: seq<State>, events: seq<Event>, form: Form, n: nat)
    requires IsRun(states, events, form) && OnlyGuarded(events) && n < |states|
    ensures forall i | 0 <= i < |states[n].log| :: states[n].log[i].kind != ByOthers
  {
    if n > 0 {
      OthersAreEvents(states, events, form, n - 1);
      assert !events[n - 1].Others?;
    }
  }

  /** So with no other writer the company's row, once disconnected, stays disconnected. */
  lemma DisconnectWins(states: seq<State>, events: seq<Event>, m: nat, n: nat)
    requires IsRun(states, events, Company) && OnlyGuarded(events) && m <= n < |states|
    requires Off(states[m]) && states[n].row.Some?
    ensures Off(states[n])
  {
    OthersAreEvents(states, events, Company, n);
    RunKeepsInv(states, events, Company, n);
    assert forall i | 0 <= i < |states[n].log| :: Lawful(states[n].log[i], Company);
    StaysDisconnectedExactly(states, events, Company, m, n);
  }

  /** A client's row may not: a mark by a caller that read before the disconnect takes it to reconnect_required. */
  lemma AccountMarkReopens(row: Row, error: string, wipedAt: int, now: int)
      returns (states: seq<State>, events: seq<Event>)
    ensures IsRun(states, events, Account) && OnlyGuarded(events) && |events| == 3
    ensures states[0].row == Some(row) && Off(states[2])
    ensures states[3].row.Some? && states[3].row.value.status == ReconnectRequired
  {
    events := [Read(0), Wipe(wipedAt), PlainMark(0, error, now)];
    var s0 := State(Some(row), map[], []);
    var s1 := Step(s0, events[0], Account);
    var s2 := Step(s1, events[1], Account);
    states := [s0, s1, s2, Step(s2, events[2], Account)];
  }

  /**
   In the company form an in-flight refresh never undoes a reconnect mark: only a wipe or another writer leaves
   it.
   */
  lemma CompanyKeepsReconnectRequired(states: seq<State>, events: seq<Event>, n: nat, i: nat)
    requires IsRun(states, events, Company) && n < |states| && i < |states[n].log|
    requires states[n].log[i].before.status == ReconnectRequired
    ensures states[n].log[i].kind == ByWipe || states[n].log[i].kind == ByOthers
  {
    RunKeepsInv(states, events, Company, n);
    assert Lawful(states[n].log[i], Company);
  }

  /**
   In the account form it may: of two refreshes in flight one is turned down and marks the row, the other sets
   it back to connected.
   */
  lemma AccountRefreshUndoesAMark(row: Row, tokens: Tokens, error: string, now: int)
      returns (states: seq<State>, events: seq<Event>)
    requires row.status == Connected
    ensures IsRun(states, events, Account) && OnlyGuarded(events) && |events| == 4
    ensures states[0].row == Some(row)
    ensures states[3].row.Some? && states[3].row.value.status == ReconnectRequired
    ensures states[4].row.Some? && states[4].row.value.status == Connected
  {
    events := [Read(0), Read(1), PlainMark(1, error, now), TryRefresh(0, tokens, now)];
    var s0 := State(Some(row), map[], []);
    var s1 := Step(s0, events[0], Account);
    var s2 := Step(s1, events[1], Account);
    var s3 := Step(s2, events[2], Account);
    states := [s0, s1, s2, s3, Step(s3, events[3], Account)];
  }

  // ---- The stored row, updated in place ----

  class ConnectionRow {
    const id: string
    const owner: string
    var status: Status
    var tokenVersion: int
    var access: Option<string>
    var refresh: Option<string>
    var expiresAt: Option<int>
    var tokenType: Option<string>
    var scopes: Option<string>
    var lastRefreshedAt: Option<int>
    var reconnectRequiredAt: Option<int>
    var disconnectedAt: Option<int>
    var lastError: Option<string>

    function Value(): Row
      reads this
    {
      Row(id, owner, status, tokenVersion, access, refresh, expiresAt, tokenType, scopes,
          lastRefreshedAt, reconnectRequiredAt, disconnectedAt, lastError)
    }

    constructor (row: Row)
      ensures Value() == row
    {
      id, owner, status, tokenVersion := row.id, row.owner, row.status, row.tokenVersion;
      access, refresh, expiresAt, tokenType := row.access, row.refresh, row.expiresAt, row.tokenType;
      scopes, lastRefreshedAt := row.scopes, row.lastRefreshedAt;
      reconnectRequiredAt, disconnectedAt, lastError := row.reconnectRequiredAt, row.disconnectedAt, row.lastError;
    }

    method MarkConnected(now: int)
      modifies this
      ensures Value() ==
          old(Value()).(tokenVersion := old(tokenVersion) + 1, lastRefreshedAt := Some(now), status := Connected,
                                       reconnectRequiredAt := None, disconnectedAt := None, lastError := None)
    {
      tokenVersion, lastRefreshedAt, status := tokenVersion + 1, Some(now), Connected;
      reconnectRequiredAt, disconnectedAt, lastError := None, None, None;
    }

    /** The conditional update of a refresh; `count` is the number of rows it changed. */
    method RefreshWhere(form: Form, rowId: string, rowOwner: string, expected: int, tokens: Tokens, now: int)
        returns (count: nat)
      modifies this
      ensures count == if RefreshMatches(form, old(Value()), rowId, rowOwner, expected) then 1 else 0
      ensures Value() == if count == 1 then Refreshed(old(Value()), tokens, now) else old(Value())
    {
      if id != rowId || owner != rowOwner || tokenVersion != expected || !AcceptsRefresh(form, status) {
        return 0;
      }
      access, expiresAt := Some(tokens.access), Some(tokens.expiresAt);
      refresh := if tokens.refresh.Some? then tokens.refresh else refresh;
      tokenType := if tokens.tokenType.Some? then tokens.tokenType.value else tokenType;
      scopes := if tokens.scopes.Some? then tokens.scopes else scopes;
      MarkConnected(now);
      count := 1;
    }

    method MarkReconnectRequiredIfCurrent(rowId: string, rowOwner: string, expected: int, error: string, now: int)
        returns (ok: bool)
      modifies this
      ensures ok == MarkMatches(old(Value()), rowId, rowOwner, expected)
      ensures Value() == if ok then Marked(old(Value()), error, now) else old(Value())
    {
      if id != rowId || owner != rowOwner || tokenVersion != expected || status != Connected {
        return false;
      }
      status := ReconnectRequired;
      reconnectRequiredAt := Some(now);
      lastError := Some(error);
      tokenVersion := tokenVersion + 1;
      ok := true;
    }

    /** The mark of a client's row: found by identity alone, and its text defaulted. */
    method MarkReconnectRequired(inputId: string, inputOwner: string, error: Option<string>, now: int)
        returns (found: bool)
      modifies this
      ensures found
          <==> Trim(inputId) != "" && Trim(inputOwner) != "" && Trim(inputId) == id && Trim(inputOwner) == owner
      ensures Value() == if found then PlainMarked(old(Value()), MarkText(error), now) else old(Value())
    {
      var rowId, rowOwner := Trim(inputId), Trim(inputOwner);
      if rowId == "" || rowOwner == "" || id != rowId || owner != rowOwner {
        return false;
      }
      status, reconnectRequiredAt, lastError := ReconnectRequired, Some(now), Some(MarkText(error));
      found := true;
    }

    method WipeCredentials(now: int)
      modifies this
      ensures Value() == Wiped(old(Value()), now)
    {
      access, refresh, expiresAt, tokenType := None, None, None, None;
      status := Disconnected;
      disconnectedAt := Some(now);
      reconnectRequiredAt, lastError := None, None;
      tokenVersion := tokenVersion + 1;
    }

    /** A whole refresh with nobody in between, on identifiers already trimmed. */
    method CompareAndSet(form: Form, rowId: string, rowOwner: string, expected: int, tokens: Tokens, now: int)
        returns (outcome: Outcome)
      modifies this
      ensures outcome.Ok?
          <==> rowId != "" && rowOwner != "" && RefreshMatches(form, old(Value()), rowId, rowOwner, expected)
      ensures outcome.Ok? ==> outcome.value == expected + 1
      ensures Value() == if outcome.Ok? then Refreshed(old(Value()), tokens, now) else old(Value())
      ensures outcome == Err(NotFound) <==> rowId == "" || rowOwner == "" || rowId != id || rowOwner != owner
      ensures outcome == Err(IsDisconnected) <==> outcome != Err(NotFound) && old(status) == Disconnected
    {
      if rowId == "" || rowOwner == "" {
        return Err(NotFound);
      }
      var count := RefreshWhere(form, rowId, rowOwner, expected, tokens, now);
      if id != rowId || owner != rowOwner {
        return Err(NotFound);
      }
      outcome := Report(Some(Value()), count == 1);
    }

    /** It succeeds exactly when the row matches, and reports the next version. */
    method CompareAndSetTokens(form: Form, inputId: string, inputOwner: string, expected: int, tokens: Tokens, now: int)
      returns (outcome: Outcome)
      modifies this
      ensures outcome.Ok? <==> Trim(inputId) != "" && Trim(inputOwner) != ""
                               && RefreshMatches(form, old(Value()), Trim(inputId), Trim(inputOwner), expected)
      ensures outcome.Ok? ==> outcome.value == expected + 1
      ensures Value() == if outcome.Ok? then Refreshed(old(Value()), tokens, now) else old(Value())
      ensures outcome == Err(NotFound) <==>
              Trim(inputId) == "" || Trim(inputOwner) == "" || Trim(inputId) != id || Trim(inputOwner) != owner
      ensures outcome == Err(IsDisconnected) <==> outcome != Err(NotFound) && old(status) == Disconnected
    {
      outcome := CompareAndSet(form, Trim(inputId), Trim(inputOwner), expected, tokens, now);
    }
  }
}
