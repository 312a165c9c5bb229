/**
 The fulfillment outbox: workers claim a row by one conditional update, and later mark its result
 by updates that carry no guard at all. A row left in processing for more than 15 minutes may be
 claimed again.

 What the updates give by themselves, and what they give only to workers that keep to a
 discipline, are separated here; each clause of the discipline has a run that breaks without it.
 */
module FulfillmentOutbox {
  import opened Wrappers

  const STALE_PROCESSING_MS := 15 * 60 * 1000
  const DEFAULT_RETRY_MS := 60_000

  datatype Status = Pending | Enqueued | Processing | Completed | RetryableFailure | TerminalFailure

  datatype Row = Row(
    status: Status,
    attemptCount: nat,
    availableAt: int,
    enqueuedAt: Option<int>,
    processingAt: Option<int>,
    completedAt: Option<int>,
    lastError: Option<string>)

  // ---- The updates ----

  predicate Claimable(row: Row, now: int) {
    || (row.status in {Pending, Enqueued, RetryableFailure} && row.availableAt <= now)
    || (row.status == Processing && row.processingAt.Some? && row.processingAt.value < now - STALE_PROCESSING_MS)
  }

  function Claimed(row: Row, now: int): Row {
    row.(status := Processing, processingAt := Some(now), attemptCount := row.attemptCount + 1)
  }

  /** The unguarded marks. */
  datatype Mark = MarkEnqueued
                | MarkCompleted
                | MarkRetryable(error: string, retryAfterMs: Option<int>)
                | MarkTerminal(error: string)

  function RetryDelay(m: Mark): int
    requires m.MarkRetryable?
  {
    if m.retryAfterMs.Some? then m.retryAfterMs.value else DEFAULT_RETRY_MS
  }

  function Marked(row: Row, m: Mark, now: int): Row {
    match m
    case MarkEnqueued => row.(status := Enqueued, enqueuedAt := Some(now))
    case MarkCompleted => row.(status := Completed, completedAt := Some(now))
    case MarkRetryable(error, _) =>
      row.(status := RetryableFailure, lastError := Some(error), availableAt := now + RetryDelay(m))
    case MarkTerminal(error) => row.(status := TerminalFailure, lastError := Some(error), completedAt := Some(now))
  }

  /** A new row, as the upsert creates it; on an existing row the upsert changes nothing. */
  function Fresh(now: int): Row { Row(Pending, 0, now, None, None, None, None) }

  function Upserted(row: Option<Row>, now: int): Option<Row> {
    if row.Some? then row else Some(Fresh(now))
  }

  // ---- Workers and runs ----

  datatype Entry = WasClaimed(worker: nat, at: int) | WasMarked(mark: Mark, at: int)

  /**
   `holders` are the workers busy with the row, with the instant each claimed it. `created` is the instant
   the row was created, and `log` every write since.
   */
  datatype State = State(row: Option<Row>, now: int, holders: map<nat, int>, created: Option<int>, log: seq<Entry>)

  /**
   `Abandon` is a worker that stops for good without marking. `DoMark` by no holder is the queue's or a
   stranger's.
   */
  datatype Event = Tick(ms: nat) | Upsert | Claim(worker: nat) | DoMark(worker: nat, mark: Mark) | Abandon(worker: nat)

  function Step(s: State, e: Event): State {
    match e
    case Tick(ms) => s.(now := s.now + ms)
    case Upsert =>
      s.(row := Upserted(s.row, s.now), created := if s.row.Some? then s.created else Some(s.now))
    case Claim(worker) =>
      if s.row.Some? && Claimable(s.row.value, s.now) then
        s.(row := Some(Claimed(s.row.value, s.now)), holders := s.holders[worker := s.now],
           log := s.log + [WasClaimed(worker, s.now)])
      else s
    case DoMark(worker, mark) =>
      if s.row.Some? then
        s.(row := Some(Marked(s.row.value, mark, s.now)),
           holders := if mark.MarkEnqueued? then s.holders else s.holders - {worker},
           log := s.log + [WasMarked(mark, s.now)])
      else s
    case Abandon(worker) => s.(holders := s.holders - {worker})
  }

  function Start(now: int): State { State(None, now, map[], None, []) }

  function Run(now: int, events: seq<Event>): State {
    if events == [] then Start(now) else Step(Run(now, events[..|events| - 1]), events[|events| - 1])
  }

  // ---- What holds of every run, disciplined or not ----

  function Claims(log: seq<Entry>): nat {
    if log == [] then 0 else Claims(log[..|log| - 1]) + if log[|log| - 1].WasClaimed? then 1 else 0
  }

  /** The row agrees with the last entry of the log, when that is a claim; claims in a row are far apart. */
  predicate Recorded(s: State) {
    && (s.row.None? ==> s.log == [])
    && (s.row.Some? ==> s.row.value.attemptCount == Claims(s.log))
    && (forall i | 0 <= i < |s.log| && s.log[i].WasClaimed? :: s.log[i].at <= s.now)
    && (s.row.Some? && s.log != [] && s.log[|s.log| - 1].WasClaimed? ==>
          s.row.value.status == Processing && s.row.value.processingAt == Some(s.log[|s.log| - 1].at))
    && (forall i | 0 < i < |s.log| && s.log[i - 1].WasClaimed? && s.log[i].WasClaimed? ::
          s.log[i - 1].at + STALE_PROCESSING_MS < s.log[i].at)
  }

  lemma ClaimsAppend(log: seq<Entry>, entry: Entry)
    ensures Claims(log + [entry]) == Claims(log) + if entry.WasClaimed? then 1 else 0
  {
    assert (log + [entry])[..|log|] == log;
  }

  lemma ClaimKeepsRecorded(s: State, e: Event)
    requires Recorded(s) && e.Claim?
    ensures Recorded(Step(s, e))
  {
    ClaimsAppend(s.log, WasClaimed(e.worker, s.now));
  }

  lemma MarkKeepsRecorded(s: State, e: Event)
    requires Recorded(s) && e.DoMark?
    ensures Recorded(Step(s, e))
  {
    ClaimsAppend(s.log, WasMarked(e.mark, s.now));
  }

  lemma {:induction false} RunIsRecorded(now: int, events: seq<Event>)
    ensures Recorded(Run(now, events))
  {
    if events != [] {
      RunIsRecorded(now, events[..|events| - 1]);
      var s, e := Run(now, events[..|events| - 1]), events[|events| - 1];
      if e.Claim? { ClaimKeepsRecorded(s, e); } else if e.DoMark? { MarkKeepsRecorded(s, e); }
    }
  }

  /** Whatever the workers do, attemptCount is the number of successful claims. */
  lemma AttemptsAreClaims(now: int, events: seq<Event>)
    requires Run(now, events).row.Some?
    ensures Run(now, events).row.value.attemptCount == Claims(Run(now, events).log)
  {
    RunIsRecorded(now, events);
  }

  lemma {:induction false} ClaimsSpread(s: State, i: nat, j: nat)
    requires Recorded(s) && i < j < |s.log|
    requires forall k | i <= k <= j :: s.log[k].WasClaimed?
    ensures s.log[i].at + STALE_PROCESSING_MS < s.log[j].at
    decreases j
  {
    assert s.log[j - 1].at + STALE_PROCESSING_MS < s.log[j].at;
    if i < j - 1 {
      ClaimsSpread(s, i, j - 1);
    }
  }

  /** Whatever the workers do, two claims with no mark between them are more than 15 minutes apart. */
  lemma UnmarkedClaimsAreFarApart(now: int, events: seq<Event>, i: nat, j: nat)
    requires i < j < |Run(now, events).log|
    requires forall k | i <= k <= j :: Run(now, events).log[k].WasClaimed?
    ensures Run(now, events).log[i].at + STALE_PROCESSING_MS < Run(now, events).log[j].at
  {
    RunIsRecorded(now, events);
    ClaimsSpread(Run(now, events), i, j);
  }

  // ---- What the log says about the row ----

  function StatusAfter(e: Entry): Status {
    match e
    case WasClaimed(_, _) => Processing
    case WasMarked(MarkEnqueued, _) => Enqueued
    case WasMarked(MarkCompleted, _) => Completed
    case WasMarked(MarkRetryable(_, _), _) => RetryableFailure
    case WasMarked(MarkTerminal(_), _) => TerminalFailure
  }

  function Last(log: seq<Entry>): Entry
    requires log != []
  {
    log[|log| - 1]
  }

  predicate IsRetry(e: Entry) { e.WasMarked? && e.mark.MarkRetryable? }

  predicate IsFailure(e: Entry) { e.WasMarked? && (e.mark.MarkRetryable? || e.mark.MarkTerminal?) }

  predicate IsEnqueued(e: Entry) { e.WasMarked? && e.mark.MarkEnqueued? }

  predicate IsFinalMark(e: Entry) { e.WasMarked? && (e.mark.MarkCompleted? || e.mark.MarkTerminal?) }

  /** The instant a retryable mark asks to wait for: its own delay, or a minute. */
  function WaitsUntil(e: Entry): int
    requires IsRetry(e)
  {
    e.at + if e.mark.retryAfterMs.Some? then e.mark.retryAfterMs.value else 60_000
  }

  /** From the history alone: when the row is available. Only a retryable mark moves it. */
  function AvailableFrom(created: int, log: seq<Entry>): int {
    if log == [] then created
    else if IsRetry(Last(log)) then WaitsUntil(Last(log))
    else AvailableFrom(created, log[..|log| - 1])
  }

  /** The instant of the last entry of a kind. */
  function LastAt(log: seq<Entry>, kind: Entry -> bool): Option<int> {
    if log == [] then None else if kind(Last(log)) then Some(Last(log).at) else LastAt(log[..|log| - 1], kind)
  }

  function LastError(log: seq<Entry>): Option<string> {
    if log == [] then None
    else if IsFailure(Last(log)) then Some(Last(log).mark.error)
    else LastError(log[..|log| - 1])
  }

  /** Field by field, the row is what its history says. */
  predicate Mirrors(s: State) {
    match s.row
    case None => s.log == [] && s.created == None
    case Some(row) =>
      && s.created.Some?
      && row.status == (if s.log == [] then Pending else StatusAfter(Last(s.log)))
      && row.availableAt == AvailableFrom(s.created.value, s.log)
      && row.processingAt == LastAt(s.log, (e: Entry) => e.WasClaimed?)
      && row.enqueuedAt == LastAt(s.log, IsEnqueued)
      && row.completedAt == LastAt(s.log, IsFinalMark)
      && row.lastError == LastError(s.log)
      && (row.status == Pending || row.status == Processing ==> row.availableAt <= s.now)
  }

  lemma StepKeepsMirrors(s: State, e: Event)
    requires Mirrors(s)
    ensures Mirrors(Step(s, e))
  {
  }

  /** Of every run, disciplined or not. */
  lemma {:induction false} RunMirrors(now: int, events: seq<Event>)
    ensures Mirrors(Run(now, events))
  {
    if events != [] {
      RunMirrors(now, events[..|events| - 1]);
      StepKeepsMirrors(Run(now, events[..|events| - 1]), events[|events| - 1]);
    }
  }

  /** A mark after which the row may be claimed again. */
  predicate Opens(e: Entry) { e.WasMarked? && (e.mark.MarkEnqueued? || e.mark.MarkRetryable?) }

  /**
   Nobody wrote yet, or the last claim is over 15 minutes old, or the last mark opened the row and its time has
   come.
   */
  predicate Open(s: State)
    requires s.created.Some?
  {
    || s.log == []
    || (Last(s.log).WasClaimed? && Last(s.log).at + 900_000 < s.now)
    || (Opens(Last(s.log)) && AvailableFrom(s.created.value, s.log) <= s.now)
  }

  /** Exactly when a claim succeeds, in every run, from its history alone. */
  lemma ClaimSucceedsExactly(now: int, events: seq<Event>)
    requires Run(now, events).row.Some?
    ensures var s := Run(now, events); s.created.Some? && (Claimable(s.row.value, s.now) <==> Open(s))
  {
    RunMirrors(now, events);
  }

  lemma {:induction false} HoldersHaveARow(now: int, events: seq<Event>)
    ensures Run(now, events).holders != map[] ==> Run(now, events).row.Some?
  {
    if events != [] { HoldersHaveARow(now, events[..|events| - 1]); }
  }

  /** Exactly when a claim gives the row a second holder, in every run. */
  lemma SecondHolderExactly(now: int, events: seq<Event>, h: nat, w: nat)
    requires h in Run(now, events).holders && w !in Run(now, events).holders
    ensures var s := Run(now, events); var s' := Step(s, Claim(w));
            s.row.Some? && s.created.Some? && (h in s'.holders && w in s'.holders <==> Open(s))
  {
    HoldersHaveARow(now, events);
    ClaimSucceedsExactly(now, events);
  }

  /** Every claim after a retryable mark comes after its delay, unless another retryable mark came between. */
  predicate Waited(log: seq<Entry>) {
    forall i, j | 0 <= i < j < |log| && IsRetry(log[i]) && log[j].WasClaimed? ::
      (exists k | i < k < j :: IsRetry(log[k])) || WaitsUntil(log[i]) <= log[j].at
  }

  lemma {:induction false} AvailableAfterRetry(created: int, log: seq<Entry>, i: nat)
    requires i < |log| && IsRetry(log[i]) && forall k | i < k < |log| :: !IsRetry(log[k])
    ensures AvailableFrom(created, log) == WaitsUntil(log[i])
  {
    if i < |log| - 1 { AvailableAfterRetry(created, log[..|log| - 1], i); }
  }

  lemma StepKeepsWaited(s: State, e: Event)
    requires Mirrors(s) && Waited(s.log)
    ensures Waited(Step(s, e).log)
  {
    var log := Step(s, e).log;
    forall i, j | 0 <= i < j < |log| && IsRetry(log[i]) && log[j].WasClaimed?
      ensures (exists k | i < k < j :: IsRetry(log[k])) || WaitsUntil(log[i]) <= log[j].at
    {
      if j < |s.log| {
        assert log[i] == s.log[i] && log[j] == s.log[j];
        if k :| i < k < j && IsRetry(s.log[k]) { assert IsRetry(log[k]); }
      } else if forall k | i < k < j :: !IsRetry(log[k]) {
        assert forall k | i <= k < j :: s.log[k] == log[k];
        AvailableAfterRetry(s.created.value, s.log, i);
      }
    }
  }

  /** In every run, no claim after a retryable mark succeeds before its delay is over. */
  lemma {:induction false} RetriesWait(now: int, events: seq<Event>)
    ensures Waited(Run(now, events).log)
  {
    if events != [] {
      RetriesWait(now, events[..|events| - 1]);
      RunMirrors(now, events[..|events| - 1]);
      StepKeepsWaited(Run(now, events[..|events| - 1]), events[|events| - 1]);
    }
  }

  // ---- The discipline ----

  predicate Final(status: Status) { status == Completed || status == TerminalFailure }

  /** Every worker is done with the row, by a mark or by giving up, within 15 minutes of its claim. */
  predicate Prompt(s: State, e: Event) {
    e.Tick? ==> forall w | w in s.holders :: s.now + e.ms <= s.holders[w] + STALE_PROCESSING_MS
  }

  /** A result is marked only by a worker that holds the row. */
  predicate OwnResult(s: State, e: Event) {
    e.DoMark? && !e.mark.MarkEnqueued? ==> e.worker in s.holders
  }

  /** Enqueued is marked only on a row waiting to be claimed. */
  predicate EnqueuesWaiting(s: State, e: Event) {
    e.DoMark? && e.mark.MarkEnqueued? && s.row.Some? ==> s.row.value.status in {Pending, Enqueued, RetryableFailure}
  }

  predicate Disciplined(now: int, events: seq<Event>) {
    events == [] ||
    (var before := events[..|events| - 1];
     var s, e := Run(now, before), events[|events| - 1];
     Disciplined(now, before) && Prompt(s, e) && OwnResult(s, e) && EnqueuesWaiting(s, e))
  }

  predicate Held(s: State, worker: nat)
    requires worker in s.holders
  {
    && s.row.Some? && s.row.value.status == Processing
    && s.row.value.processingAt == Some(s.holders[worker])
    && s.now <= s.holders[worker] + STALE_PROCESSING_MS
  }

  ghost predicate Inv(s: State) {
    && (forall w | w in s.holders :: Held(s, w))
    && (forall v, w | v in s.holders && w in s.holders :: v == w)
    && (s.row.None? ==> s.log == [])
    && (forall i | 0 <= i < |s.log| - 1 :: !IsFinalMark(s.log[i]))
    && (s.row.Some? ==> (Final(s.row.value.status) <==> s.log != [] && IsFinalMark(s.log[|s.log| - 1])))
  }

  lemma StepKeepsInv(s: State, e: Event)
    requires Inv(s) && Prompt(s, e) && OwnResult(s, e) && EnqueuesWaiting(s, e)
    ensures Inv(Step(s, e))
  {
    var s' := Step(s, e);
    forall w | w in s'.holders ensures Held(s', w) {
      if w in s.holders { assert Held(s, w); }
    }
    forall i | 0 <= i < |s'.log| - 1 ensures !IsFinalMark(s'.log[i]) {
      assert s'.log[i] == s.log[i];
      if e.DoMark? && e.worker in s.holders { assert Held(s, e.worker); }
    }
  }

  lemma {:induction false} DisciplinedRunKeepsInv(now: int, events: seq<Event>)
    requires Disciplined(now, events)
    ensures Inv(Run(now, events))
  {
    if events != [] {
      DisciplinedRunKeepsInv(now, events[..|events| - 1]);
      StepKeepsInv(Run(now, events[..|events| - 1]), events[|events| - 1]);
    }
  }

  /** In a disciplined run the row never has two holders, and its only holder is the one its claim names. */
  lemma OneHolder(now: int, events: seq<Event>, v: nat, w: nat)
    requires Disciplined(now, events)
    requires v in Run(now, events).holders && w in Run(now, events).holders
    ensures v == w && Held(Run(now, events), v)
  {
    DisciplinedRunKeepsInv(now, events);
  }

  /**
   In a disciplined run a completed or failed row is never claimed or marked again: its final mark is the last
   write.
   */
  lemma FinalIsLast(now: int, events: seq<Event>, i: nat)
    requires Disciplined(now, events) && i < |Run(now, events).log| && IsFinalMark(Run(now, events).log[i])
    ensures i == |Run(now, events).log| - 1
    ensures Run(now, events).row.Some? && Final(Run(now, events).row.value.status)
  {
    DisciplinedRunKeepsInv(now, events);
  }

  predicate IsCompletion(e: Entry) { e.WasMarked? && e.mark.MarkCompleted? }

  function Completions(log: seq<Entry>): nat {
    if log == [] then 0
    else Completions(log[..|log| - 1]) + if IsCompletion(log[|log| - 1]) then 1 else 0
  }

  lemma {:induction false} NoCompletions(log: seq<Entry>)
    requires forall i | 0 <= i < |log| :: !IsFinalMark(log[i])
    ensures Completions(log) == 0
  {
    if log != [] {
      NoCompletions(log[..|log| - 1]);
    }
  }

  /** In a disciplined run the row completes at most once. */
  lemma CompletesAtMostOnce(now: int, events: seq<Event>)
    requires Disciplined(now, events)
    ensures Completions(Run(now, events).log) <= 1
  {
    DisciplinedRunKeepsInv(now, events);
    var log := Run(now, events).log;
    if log != [] {
      NoCompletions(log[..|log| - 1]);
    }
  }

  // ---- When the discipline is broken ----

  /**
   Exactly which single step leaves a held row to a second claim, after a disciplined run: a worker
   that overstays, an enqueued mark on the held row, or another worker's failure mark without delay.
   */
  lemma ExposedExactly(now: int, events: seq<Event>, e: Event, h: nat)
    requires Disciplined(now, events) && h in Run(now, events).holders && h in Step(Run(now, events), e).holders
    ensures var s := Run(now, events); var s' := Step(s, e);
            && s.row.Some? && s'.row.Some?
            && (Claimable(s'.row.value, s'.now) <==>
                || !Prompt(s, e)
                || !EnqueuesWaiting(s, e)
                || (e.DoMark? && e.worker != h && e.mark.MarkRetryable? && RetryDelay(e.mark) <= 0))
  {
    var s := Run(now, events);
    DisciplinedRunKeepsInv(now, events);
    RunMirrors(now, events);
    assert Held(s, h);
    assert forall w | w in s.holders :: w == h;
  }

  /** Exactly which step opens a completed or failed row to a claim, in every run. */
  lemma FinalOpensExactly(now: int, events: seq<Event>, e: Event)
    requires IsFinal(Run(now, events))
    ensures var s := Run(now, events); var s' := Step(s, e);
            s'.row.Some?
            && (Claimable(s'.row.value, s'.now) <==>
                e.DoMark? && ((e.mark.MarkEnqueued? && s.row.value.availableAt <= s.now)
                              || (e.mark.MarkRetryable? && RetryDelay(e.mark) <= 0)))
  {
  }

  /** The run of the first `n` events. */
  function Prefix(now: int, events: seq<Event>, n: nat): State
    requires n <= |events|
  {
    Run(now, events[..n])
  }

  lemma PrefixStep(now: int, events: seq<Event>, n: nat)
    requires 0 < n <= |events|
    ensures Prefix(now, events, n) == Step(Prefix(now, events, n - 1), events[n - 1])
  {
    assert events[..n][..n - 1] == events[..n - 1];
  }

  predicate IsFinal(s: State) { s.row.Some? && Final(s.row.value.status) }

  predicate NoneOpens(log: seq<Entry>, from: nat) { forall i | from <= i < |log| :: !Opens(log[i]) }

  lemma FinalStep(s: State, e: Event, from: nat)
    requires Mirrors(s) && IsFinal(s) && from <= |s.log| && NoneOpens(s.log, from)
    ensures |s.log| <= |Step(s, e).log|
    ensures IsFinal(Step(s, e)) <==> NoneOpens(Step(s, e).log, from)
  {
    var s' := Step(s, e);
    if |s'.log| > |s.log| { assert s'.log[|s.log|] == Last(s'.log); }
  }

  lemma LogGrows(s: State, e: Event, from: nat)
    ensures |s.log| <= |Step(s, e).log|
    ensures NoneOpens(Step(s, e).log, from) ==> NoneOpens(s.log, from)
  {
    assert forall i | 0 <= i < |s.log| :: Step(s, e).log[i] == s.log[i];
  }

  /** Exactly when a completed or failed row stays so, in every run: nobody marks it enqueued or retryable. */
  lemma {:induction false} StaysFinalExactly(now: int, events: seq<Event>, m: nat, n: nat)
    requires m <= n <= |events| && IsFinal(Prefix(now, events, m))
    ensures |Prefix(now, events, m).log| <= |Prefix(now, events, n).log|
    ensures (forall k | m <= k <= n :: IsFinal(Prefix(now, events, k)))
       <==> NoneOpens(Prefix(now, events, n).log, |Prefix(now, events, m).log|)
  {
    RunMirrors(now, events[..m]);
    if m == n {
      assert NoneOpens(Prefix(now, events, n).log, |Prefix(now, events, m).log|);
    } else {
      var from := |Prefix(now, events, m).log|;
      StaysFinalExactly(now, events, m, n - 1);
      PrefixStep(now, events, n);
      RunMirrors(now, events[..n - 1]);
      LogGrows(Prefix(now, events, n - 1), events[n - 1], from);
      if NoneOpens(Prefix(now, events, n - 1).log, from) {
        FinalStep(Prefix(now, events, n - 1), events[n - 1], from);
      }
    }
  }

  // ---- Each clause of the discipline is needed ----

  predicate TwoHolders(s: State) { exists v, w :: v in s.holders && w in s.holders && v != w }

  lemma Append(now: int, events: seq<Event>, e: Event)
    ensures Run(now, events + [e]) == Step(Run(now, events), e)
    ensures Disciplined(now, events + [e]) <==>
            Disciplined(now, events) && Prompt(Run(now, events), e) && OwnResult(Run(now, events), e)
            && EnqueuesWaiting(Run(now, events), e)
  {
    assert (events + [e])[..|events + [e]| - 1] == events;
  }

  /** A row created and claimed at time `now` by worker 1. */
  lemma ClaimedOnce(now: int)
    ensures var events := [Upsert, Claim(1)];
            && Disciplined(now, events)
            && Run(now, events)
               == State(Some(Claimed(Fresh(now), now)), now, map[1 := now], Some(now), [WasClaimed(1, now)])
  {
    Append(now, [], Upsert);
    Append(now, [Upsert], Claim(1));
    assert [] + [Upsert] == [Upsert] && [Upsert] + [Claim(1)] == [Upsert, Claim(1)];
  }

  /** One millisecond too long: a disciplined prefix, one late tick, and a second claim give the row two holders. */
  lemma PromptIsNeeded(now: int)
    ensures var events := [Upsert, Claim(1)];
            var late := Tick(STALE_PROCESSING_MS + 1);
            && Disciplined(now, events) && !Prompt(Run(now, events), late)
            && TwoHolders(Run(now, events + [late] + [Claim(2)]))
  {
    ClaimedOnce(now);
    var events, late := [Upsert, Claim(1)], Tick(STALE_PROCESSING_MS + 1);
    Append(now, events, late);
    Append(now, events + [late], Claim(2));
    var s := Run(now, events);
    assert 1 in s.holders && s.holders[1] == now;
    var s' := Run(now, events + [late] + [Claim(2)]);
    assert 1 in s'.holders && 2 in s'.holders;
  }

  /**
   The queue marks a row enqueued after handing it to a worker: if that worker has claimed it already, a second
   claim succeeds.
   */
  lemma EnqueuesWaitingIsNeeded(now: int)
    ensures var events := [Upsert, Claim(1)];
            var mark := DoMark(9, MarkEnqueued);
            && Disciplined(now, events) && !EnqueuesWaiting(Run(now, events), mark)
            && TwoHolders(Run(now, events + [mark] + [Claim(2)]))
  {
    ClaimedOnce(now);
    var events, mark := [Upsert, Claim(1)], DoMark(9, MarkEnqueued);
    Append(now, events, mark);
    Append(now, events + [mark], Claim(2));
    var s' := Run(now, events + [mark] + [Claim(2)]);
    assert 1 in s'.holders && 2 in s'.holders;
  }

  /** A row created, claimed by worker 1 and completed by it. */
  lemma CompletedOnce(now: int)
    ensures var events := [Upsert, Claim(1), DoMark(1, MarkCompleted)];
            && Disciplined(now, events)
            && Run(now, events)
               == State(Some(Marked(Claimed(Fresh(now), now), MarkCompleted, now)), now, map[], Some(now),
                                         [WasClaimed(1, now), WasMarked(MarkCompleted, now)])
  {
    ClaimedOnce(now);
    Append(now, [Upsert, Claim(1)], DoMark(1, MarkCompleted));
    assert [Upsert, Claim(1)] + [DoMark(1, MarkCompleted)] == [Upsert, Claim(1), DoMark(1, MarkCompleted)];
  }

  /**
   A worker whose completion is stored but reported to it as an error marks a failure: the completed
   row can be claimed again a minute later.
   */
  lemma OwnResultIsNeeded(now: int)
    ensures var events := [Upsert, Claim(1), DoMark(1, MarkCompleted)];
            var late := DoMark(1, MarkRetryable("error", None));
            && Disciplined(now, events) && !OwnResult(Run(now, events), late)
            && var s := Run(now, events + [late] + [Tick(DEFAULT_RETRY_MS)]);
            s.row.Some? && Claimable(s.row.value, s.now)
  {
    CompletedOnce(now);
    var events, late := [Upsert, Claim(1), DoMark(1, MarkCompleted)], DoMark(1, MarkRetryable("error", None));
    Append(now, events, late);
    Append(now, events + [late], Tick(DEFAULT_RETRY_MS));
  }

  /** The queue marks a completed row enqueued: it is claimed and completed a second time. */
  lemma EnqueuedAgainCompletesTwice(now: int)
    ensures var events := [Upsert, Claim(1), DoMark(1, MarkCompleted)];
            var mark := DoMark(9, MarkEnqueued);
            && Disciplined(now, events) && !EnqueuesWaiting(Run(now, events), mark)
            && Completions(Run(now, events + [mark] + [Claim(2)] + [DoMark(2, MarkCompleted)]).log) == 2
  {
    CompletedOnce(now);
    var events, mark := [Upsert, Claim(1), DoMark(1, MarkCompleted)], DoMark(9, MarkEnqueued);
    Append(now, events, mark);
    Append(now, events + [mark], Claim(2));
    Append(now, events + [mark] + [Claim(2)], DoMark(2, MarkCompleted));
    TwoCompletions([WasClaimed(1, now), WasMarked(MarkCompleted, now)], now);
  }

  lemma TwoCompletions(log: seq<Entry>, now: int)
    requires log == [WasClaimed(1, now), WasMarked(MarkCompleted, now)]
    ensures Completions(log + [WasMarked(MarkEnqueued, now)] + [WasClaimed(2, now)] + [WasMarked(MarkCompleted, now)])
         == 2
  {
    assert log == [] + [WasClaimed(1, now)] + [WasMarked(MarkCompleted, now)];
    CompletionsAppend([], WasClaimed(1, now));
    CompletionsAppend([] + [WasClaimed(1, now)], WasMarked(MarkCompleted, now));
    CompletionsAppend(log, WasMarked(MarkEnqueued, now));
    CompletionsAppend(log + [WasMarked(MarkEnqueued, now)], WasClaimed(2, now));
    CompletionsAppend(log + [WasMarked(MarkEnqueued, now)] + [WasClaimed(2, now)], WasMarked(MarkCompleted, now));
  }

  lemma CompletionsAppend(log: seq<Entry>, entry: Entry)
    ensures Completions(log + [entry]) == Completions(log) + if IsCompletion(entry) then 1 else 0
  {
    assert (log + [entry])[..|log|] == log;
  }

  // ---- The stored row, updated in place ----

  class OutboxRow {
    var status: Status
    var attemptCount: nat
    var availableAt: int
    var enqueuedAt: Option<int>
    var processingAt: Option<int>
    var completedAt: Option<int>
    var lastError: Option<string>

    function Value(): Row
      reads this
    {
      Row(status, attemptCount, availableAt, enqueuedAt, processingAt, completedAt, lastError)
    }

    constructor CreatePending(now: int)
      ensures Value() == Fresh(now)
    {
      status, attemptCount, availableAt := Pending, 0, now;
      enqueuedAt, processingAt, completedAt, lastError := None, None, None, None;
    }

    /** Returns the row after the claim, or None when the conditional update matched nothing. */
    method ClaimForProcessing(now: int) returns (claimed: Option<Row>)
      modifies this
      ensures claimed.Some? <==> Claimable(old(Value()), now)
      ensures Value() == if claimed.Some? then Claimed(old(Value()), now) else old(Value())
      ensures claimed.Some? ==> claimed.value == Value()
    {
      var staleBefore := now - STALE_PROCESSING_MS;
      var open := (status == Pending || status == Enqueued || status == RetryableFailure) && availableAt <= now;
      var stale := status == Processing && processingAt.Some? && processingAt.value < staleBefore;
      if !open && !stale {
        return None;
      }
      status := Processing;
      processingAt := Some(now);
      attemptCount := attemptCount + 1;
      claimed := Some(Value());
    }

    method MarkAsEnqueued(now: int)
      modifies this
      ensures Value() == Marked(old(Value()), MarkEnqueued, now)
    {
      status, enqueuedAt := Enqueued, Some(now);
    }

    method MarkAsCompleted(now: int)
      modifies this
      ensures Value() == Marked(old(Value()), MarkCompleted, now)
    {
      status, completedAt := Completed, Some(now);
    }

    method MarkAsRetryable(error: string, retryAfterMs: Option<int>, now: int)
      modifies this
      ensures Value() == Marked(old(Value()), MarkRetryable(error, retryAfterMs), now)
    {
      availableAt := now + if retryAfterMs.Some? then retryAfterMs.value else DEFAULT_RETRY_MS;
      status, lastError := RetryableFailure, Some(error);
    }

    method MarkAsTerminal(error: string, now: int)
      modifies this
      ensures Value() == Marked(old(Value()), MarkTerminal(error), now)
    {
      status, lastError, completedAt := TerminalFailure, Some(error), Some(now);
    }
  }
}
