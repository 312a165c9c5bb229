/**
 The idempotent allocation of a lead to an order. A call looks its key up, and if it finds nothing
 runs one transaction that creates the allocation and counts it on the order; a call that loses
 the race on the unique key looks the key up again. Calls interleave between these steps.
 */
module LeadAllocation {
  import opened Wrappers
  import opened Text

  datatype Input = Input(sourceLead: string, order: string, client: string, policyVersion: string, reasons: string,
    candidates: int, key: string)

  /** Every text the call stores or looks up, trimmed. */
  function Normalized(input: Input): Input {
    Input(Trim(input.sourceLead), Trim(input.order), Trim(input.client), Trim(input.policyVersion),
          input.reasons, input.candidates, Trim(input.key))
  }

  datatype Allocation = Allocation(request: Input, proposedAt: int)

  /** The two tables: allocations by idempotency key, and each order's proposedQuantity. */
  datatype Tables = Tables(allocations: map<string, Allocation>, proposed: map<string, int>)

  datatype TxResult = Committed | UniqueViolation | OrderMissing

  function TxOutcome(t: Tables, input: Input): TxResult {
    if input.key in t.allocations then UniqueViolation
    else if input.order !in t.proposed then OrderMissing
    else Committed
  }

  /** The two writes of the transaction. */
  function Counted(t: Tables, key: string, row: Allocation): Tables
    requires row.request.order in t.proposed
  {
    Tables(t.allocations[key := row], t.proposed[row.request.order := t.proposed[row.request.order] + 1])
  }

  /** The transaction: both writes, or neither. */
  function Tx(t: Tables, input: Input, now: int): Tables {
    if TxOutcome(t, input) == Committed then Counted(t, input.key, Allocation(input, now)) else t
  }

  // ---- Concurrent calls ----

  datatype Failure = LeadIsolated | DatabaseError

  /** What a call returned: an allocation with the `created` flag, or the error it threw. */
  type Outcome = Result<(Allocation, bool), Failure>

  datatype Call = NotStarted
                | Missed(input: Input)
                | Admitted(input: Input)
                | Raced(input: Input)
                | Returned(input: Input, outcome: Outcome)

  /** `creators` is the history of created rows: the call that created the row of each key. */
  datatype State = State(tables: Tables, calls: map<nat, Call>, creators: map<string, nat>)

  datatype Event = Look(c: nat, input: Input)
                 | CheckLead(c: nat, isolated: bool)
                 | Transact(c: nat, now: int)
                 | LookAgain(c: nat)

  function CallOf(s: State, c: nat): Call {
    if c in s.calls then s.calls[c] else NotStarted
  }

  predicate Enabled(s: State, e: Event) {
    match e
    case Look(c, _) => CallOf(s, c).NotStarted?
    case CheckLead(c, _) => CallOf(s, c).Missed?
    case Transact(c, _) => CallOf(s, c).Admitted?
    case LookAgain(c) => CallOf(s, c).Raced?
  }

  function Step(s: State, e: Event): State
    requires Enabled(s, e)
  {
    match e
    case Look(c, raw) =>
      var input := Normalized(raw);
      s.(calls := s.calls[c :=
        if input.key in s.tables.allocations then Returned(input, Ok((s.tables.allocations[input.key], false)))
        else Missed(input)])
    case CheckLead(c, isolated) =>
      var input := CallOf(s, c).input;
      s.(calls := s.calls[c := if isolated then Returned(input, Err(LeadIsolated)) else Admitted(input)])
    case Transact(c, now) =>
      var input := CallOf(s, c).input;
      (match TxOutcome(s.tables, input)
       case Committed =>
         State(Tx(s.tables, input, now), s.calls[c := Returned(input, Ok((Allocation(input, now), true)))],
           s.creators[input.key := c])
       case UniqueViolation => s.(calls := s.calls[c := Raced(input)])
       case OrderMissing => s.(calls := s.calls[c := Returned(input, Err(DatabaseError))]))
    case LookAgain(c) =>
      var input := CallOf(s, c).input;
      s.(calls := s.calls[c := Returned(input,
        if input.key in s.tables.allocations then Ok((s.tables.allocations[input.key], false))
        else Err(DatabaseError))])
  }

  predicate IsRun(states: seq<State>, events: seq<Event>) {
    && |states| == |events| + 1
    && states[0].calls == map[] && states[0].creators == map[]
    && forall i | 0 <= i < |events| :: Enabled(states[i], events[i]) && states[i + 1] == Step(states[i], events[i])
  }

  // ---- Conservation ----

  /** The rows of `order` in the table. */
  function RowsFor(t: Tables, order: string): set<string> {
    set k | k in t.allocations && t.allocations[k].request.order == order
  }

  /** From `t` to `u`, an order's quantity moves with its rows, no stored row changes, and no order comes or goes. */
  predicate Conserved(t: Tables, u: Tables, order: string) {
    && u.proposed.Keys == t.proposed.Keys
    && (order in t.proposed ==> u.proposed[order] - t.proposed[order] == |RowsFor(u, order)| - |RowsFor(t, order)|)
    && (forall k | k in t.allocations :: k in u.allocations && u.allocations[k] == t.allocations[k])
  }

  lemma RowsGrow(t: Tables, key: string, row: Allocation, order: string)
    requires key !in t.allocations && row.request.order in t.proposed
    ensures RowsFor(Counted(t, key, row), order) ==
            if row.request.order == order then RowsFor(t, order) + {key} else RowsFor(t, order)
    ensures key !in RowsFor(t, order)
  {
    var u := Counted(t, key, row);
    forall k ensures k in RowsFor(u, order) <==> k in RowsFor(t, order) || (k == key && row.request.order == order) {
    }
  }

  lemma CountedConserves(t: Tables, key: string, row: Allocation, order: string)
    requires key !in t.allocations && row.request.order in t.proposed
    ensures Conserved(t, Counted(t, key, row), order)
  {
    RowsGrow(t, key, row, order);
  }

  lemma TxConserves(t: Tables, input: Input, now: int, order: string)
    ensures Conserved(t, Tx(t, input, now), order)
  {
    if TxOutcome(t, input) == Committed {
      CountedConserves(t, input.key, Allocation(input, now), order);
    }
  }

  lemma StepConserves(s: State, e: Event, order: string)
    requires Enabled(s, e)
    ensures Conserved(s.tables, Step(s, e).tables, order)
  {
    if e.Transact? {
      TxConserves(s.tables, CallOf(s, e.c).input, e.now, order);
    }
  }

  /** Under every interleaving each order's proposedQuantity grows by exactly the number of rows created for it. */
  lemma {:induction false} QuantityCountsRows(states: seq<State>, events: seq<Event>, n: nat, order: string)
    requires IsRun(states, events) && n < |states| && order in states[0].tables.proposed
    ensures order in states[n].tables.proposed
    ensures states[n].tables.proposed[order] - states[0].tables.proposed[order]
            == |RowsFor(states[n].tables, order)| - |RowsFor(states[0].tables, order)|
  {
    if n > 0 {
      QuantityCountsRows(states, events, n - 1, order);
      StepConserves(states[n - 1], events[n - 1], order);
    }
  }

  // ---- One creator per key, one allocation per key ----

  predicate CreatedBy(call: Call) { call.Returned? && call.outcome.Ok? && call.outcome.value.1 }

  /** What a call's progress says about the table and the history. */
  predicate Agrees(s: State, c: nat) {
    match CallOf(s, c)
    case Returned(input, Ok((allocation, created))) =>
      && input.key in s.tables.allocations && s.tables.allocations[input.key] == allocation
      && (created ==> input.key in s.creators && s.creators[input.key] == c)
    case Raced(input) => input.key in s.tables.allocations
    case _ => true
  }

  predicate CreatorReturned(s: State, key: string)
    requires key in s.creators
  {
    var call := CallOf(s, s.creators[key]);
    CreatedBy(call) && call.input.key == key
  }

  ghost predicate Inv(s: State, initial: Tables) {
    && (forall c: nat :: Agrees(s, c))
    && (forall k | k in s.creators :: CreatorReturned(s, k))
    && (forall k :: k in s.creators <==> k in s.tables.allocations && k !in initial.allocations)
    && (forall k | k in initial.allocations :: k in s.tables.allocations)
  }

  predicate Commits(s: State, e: Event)
    requires Enabled(s, e)
  {
    e.Transact? && TxOutcome(s.tables, CallOf(s, e.c).input) == Committed
  }

  /** A step is one call's own, and only a commit writes. */
  lemma StepIsLocal(s: State, e: Event)
    requires Enabled(s, e)
    ensures forall c: nat | c != e.c :: CallOf(Step(s, e), c) == CallOf(s, c)
    ensures !Commits(s, e) ==> Step(s, e).tables == s.tables && Step(s, e).creators == s.creators
  {
  }

  lemma CommitWrites(s: State, e: Event)
    requires Enabled(s, e) && Commits(s, e)
    ensures var input, s' := CallOf(s, e.c).input, Step(s, e);
            && input.key !in s.tables.allocations
            && s'.tables.allocations == s.tables.allocations[input.key := Allocation(input, e.now)]
            && s'.creators == s.creators[input.key := e.c]
            && CallOf(s', e.c) == Returned(input, Ok((Allocation(input, e.now), true)))
  {
  }

  lemma WaitingWrites(s: State, e: Event)
    requires Enabled(s, e) && !Commits(s, e)
    ensures Agrees(s, e.c) ==> Agrees(Step(s, e), e.c)
    ensures !CreatedBy(CallOf(s, e.c)) && !CreatedBy(CallOf(Step(s, e), e.c))
  {
  }

  lemma StepKeepsAgrees(s: State, e: Event, initial: Tables, c: nat)
    requires Inv(s, initial) && Enabled(s, e)
    ensures Agrees(Step(s, e), c)
  {
    assert Agrees(s, c) && Agrees(s, e.c);
    StepIsLocal(s, e);
    if Commits(s, e) { CommitWrites(s, e); } else { WaitingWrites(s, e); }
  }

  lemma StepKeepsCreators(s: State, e: Event, initial: Tables)
    requires Inv(s, initial) && Enabled(s, e)
    ensures var s' := Step(s, e);
            && (forall k | k in s'.creators :: CreatorReturned(s', k))
            && (forall k :: k in s'.creators <==> k in s'.tables.allocations && k !in initial.allocations)
            && (forall k | k in initial.allocations :: k in s'.tables.allocations)
  {
    var s' := Step(s, e);
    StepIsLocal(s, e);
    if Commits(s, e) { CommitWrites(s, e); }
    forall k | k in s'.creators ensures CreatorReturned(s', k) {
      if !Commits(s, e) { WaitingWrites(s, e); }
      if k in s.creators { assert CreatorReturned(s, k); }
    }
  }

  lemma StepKeepsInv(s: State, e: Event, initial: Tables)
    requires Inv(s, initial) && Enabled(s, e)
    ensures Inv(Step(s, e), initial)
  {
    StepKeepsCreators(s, e, initial);
    forall c: nat ensures Agrees(Step(s, e), c) {
      StepKeepsAgrees(s, e, initial, c);
    }
  }

  lemma {:induction false} RunKeepsInv(states: seq<State>, events: seq<Event>, n: nat)
    requires IsRun(states, events) && n < |states|
    ensures Inv(states[n], states[0].tables)
  {
    if n > 0 {
      RunKeepsInv(states, events, n - 1);
      StepKeepsInv(states[n - 1], events[n - 1], states[0].tables);
    }
  }

  /** Every row that appears was reported as created by a call with its key, and by no second call. */
  lemma OneCreatorPerKey(states: seq<State>, events: seq<Event>, n: nat, key: string)
    requires IsRun(states, events) && n < |states|
    ensures key in states[n].tables.allocations && key !in states[0].tables.allocations <==>
            exists c: nat :: CreatedBy(CallOf(states[n], c)) && CallOf(states[n], c).input.key == key
    ensures forall c: nat, d: nat | CreatedBy(CallOf(states[n], c)) && CreatedBy(CallOf(states[n], d))
                           && CallOf(states[n], c).input.key == CallOf(states[n], d).input.key == key :: c == d
  {
    RunKeepsInv(states, events, n);
    var s := states[n];
    forall c: nat | CreatedBy(CallOf(s, c)) && CallOf(s, c).input.key == key
      ensures key in s.creators && s.creators[key] == c
    {
      assert Agrees(s, c);
    }
    if key in s.creators {
      assert CreatorReturned(s, key);
    }
  }

  /** All calls of a key that do not fail return the same allocation, the stored one, for good. */
  lemma {:induction false} SameAllocationForAll(states: seq<State>, events: seq<Event>, m: nat, n: nat, c: nat, d: nat)
    requires IsRun(states, events) && m <= n < |states|
    requires CallOf(states[m], c).Returned? && CallOf(states[m], c).outcome.Ok?
    requires CallOf(states[n], d).Returned? && CallOf(states[n], d).outcome.Ok?
    requires CallOf(states[m], c).input.key == CallOf(states[n], d).input.key
    ensures CallOf(states[m], c).outcome.value.0 == CallOf(states[n], d).outcome.value.0
  {
    RunKeepsInv(states, events, m);
    RunKeepsInv(states, events, n);
    assert Agrees(states[m], c) && Agrees(states[n], d);
    RowsAreFinal(states, events, m, n, CallOf(states[m], c).input.key);
  }

  lemma {:induction false} RowsAreFinal(states: seq<State>, events: seq<Event>, m: nat, n: nat, key: string)
    requires IsRun(states, events) && m <= n < |states| && key in states[m].tables.allocations
    ensures key in states[n].tables.allocations
        && states[n].tables.allocations[key] == states[m].tables.allocations[key]
  {
    if m < n {
      RowsAreFinal(states, events, m, n - 1, key);
      StepConserves(states[n - 1], events[n - 1], "");
    }
  }

  /** Losing the race is never an error: the second look always finds the winner's row. */
  lemma RacingNeverFails(states: seq<State>, events: seq<Event>, n: nat)
    requires IsRun(states, events) && n < |events| && events[n].LookAgain?
    ensures var key := CallOf(states[n], events[n].c).input.key;
            && key in states[n].tables.allocations
            && CallOf(states[n + 1], events[n].c).outcome == Ok((states[n].tables.allocations[key], false))
  {
    RunKeepsInv(states, events, n);
    assert Agrees(states[n], events[n].c);
  }

  // ---- What a caller gets for what it passed ----

  /** Every row is stored under its own key. */
  predicate OwnKeys(t: Tables) { forall k | k in t.allocations :: t.allocations[k].request.key == k }

  lemma {:induction false} RunKeepsOwnKeys(states: seq<State>, events: seq<Event>, n: nat)
    requires IsRun(states, events) && n < |states| && OwnKeys(states[0].tables)
    ensures OwnKeys(states[n].tables)
  {
    if n > 0 {
      RunKeepsOwnKeys(states, events, n - 1);
      StepIsLocal(states[n - 1], events[n - 1]);
      if Commits(states[n - 1], events[n - 1]) { CommitWrites(states[n - 1], events[n - 1]); }
    }
  }

  /** The request holds what the caller passed, text by text, trimmed. */
  predicate HoldsInput(request: Input, raw: Input) {
    && request.sourceLead == Trim(raw.sourceLead)
    && request.order == Trim(raw.order)
    && request.client == Trim(raw.client)
    && request.policyVersion == Trim(raw.policyVersion)
    && request.key == Trim(raw.key)
    && request.reasons == raw.reasons
    && request.candidates == raw.candidates
  }

  /** A row a call created holds the call's request. */
  predicate CreatesOwn(call: Call) { CreatedBy(call) ==> call.outcome.value.0.request == call.input }

  predicate WorksOn(call: Call, request: Input) {
    !call.NotStarted? && call.input == request && CreatesOwn(call)
  }

  lemma LookStarts(s: State, c: nat, raw: Input)
    requires Enabled(s, Look(c, raw))
    ensures WorksOn(CallOf(Step(s, Look(c, raw)), c), Normalized(raw))
  {
  }

  lemma StepKeepsRequest(s: State, e: Event, c: nat, request: Input)
    requires Enabled(s, e) && WorksOn(CallOf(s, c), request)
    ensures WorksOn(CallOf(Step(s, e), c), request)
  {
    if c != e.c { StepIsLocal(s, e); }
  }

  lemma {:induction false} CallKeepsRequest(
      states: seq<State>, events: seq<Event>, m: nat, n: nat, c: nat, request: Input)
    requires IsRun(states, events) && m <= n < |states| && WorksOn(CallOf(states[m], c), request)
    ensures WorksOn(CallOf(states[n], c), request)
  {
    if m < n {
      CallKeepsRequest(states, events, m, n - 1, c, request);
      StepKeepsRequest(states[n - 1], events[n - 1], c, request);
    }
  }

  /** A call that has started works on its own input, and a row it created holds it. */
  lemma CallServesItsInput(states: seq<State>, events: seq<Event>, k: nat, n: nat, c: nat, raw: Input)
    requires IsRun(states, events) && k < n < |states| && events[k] == Look(c, raw)
    ensures var call := CallOf(states[n], c); !call.NotStarted? && HoldsInput(call.input, raw) && CreatesOwn(call)
  {
    LookStarts(states[k], c, raw);
    CallKeepsRequest(states, events, k + 1, n, c, Normalized(raw));
  }

  /** A call told that it created gets a row with its own input, and any successful call a row with its own key. */
  lemma AnswerMatchesInput(states: seq<State>, events: seq<Event>, k: nat, n: nat, c: nat, raw: Input)
    requires IsRun(states, events) && k < n < |states| && events[k] == Look(c, raw) && OwnKeys(states[0].tables)
    requires CallOf(states[n], c).Returned? && CallOf(states[n], c).outcome.Ok?
    ensures var (allocation, created) := CallOf(states[n], c).outcome.value;
            && allocation.request.key == Trim(raw.key)
            && (created ==> HoldsInput(allocation.request, raw))
  {
    CallServesItsInput(states, events, k, n, c, raw);
    RunKeepsInv(states, events, n);
    RunKeepsOwnKeys(states, events, n);
    assert Agrees(states[n], c);
  }

  /** So two calls get the same row only if they passed the same key, up to white space around it. */
  lemma SameRowSameKey(
      states: seq<State>, events: seq<Event>, k: nat, l: nat, n: nat, c: nat, d: nat, raw: Input, raw': Input)
    requires IsRun(states, events) && k < n < |states| && l < n && OwnKeys(states[0].tables)
    requires events[k] == Look(c, raw) && events[l] == Look(d, raw')
    requires CallOf(states[n], c).Returned? && CallOf(states[n], c).outcome.Ok?
    requires CallOf(states[n], d).Returned? && CallOf(states[n], d).outcome.Ok?
    ensures CallOf(states[n], c).outcome.value.0 == CallOf(states[n], d).outcome.value.0
       <==> Trim(raw.key) == Trim(raw'.key)
  {
    AnswerMatchesInput(states, events, k, n, c, raw);
    AnswerMatchesInput(states, events, l, n, d, raw');
    CallServesItsInput(states, events, k, n, c, raw);
    CallServesItsInput(states, events, l, n, d, raw');
    if Trim(raw.key) == Trim(raw'.key) { SameAllocationForAll(states, events, n, n, c, d); }
  }

  /** The lead of the call was found isolated. */
  predicate FoundIsolated(events: seq<Event>, n: nat, c: nat)
    requires n <= |events|
  {
    exists k | 0 <= k < n :: events[k] == CheckLead(c, true)
  }

  /** Why a call failed: its lead was isolated, or its order is not there. */
  predicate Excused(s: State, events: seq<Event>, n: nat, c: nat)
    requires n <= |events|
  {
    match CallOf(s, c)
    case Returned(_, Err(LeadIsolated)) => FoundIsolated(events, n, c)
    case Returned(input, Err(DatabaseError)) => input.order !in s.tables.proposed
    case _ => true
  }

  lemma StepExcused(s: State, e: Event, initial: Tables, c: nat)
    requires Inv(s, initial) && Enabled(s, e)
    ensures match CallOf(Step(s, e), c)
            case Returned(_, Err(LeadIsolated)) => CallOf(Step(s, e), c) == CallOf(s, c) || e == CheckLead(c, true)
            case Returned(input, Err(DatabaseError)) =>
              CallOf(Step(s, e), c) == CallOf(s, c) || input.order !in s.tables.proposed
            case _ => true
  {
    assert Agrees(s, c);
    if c != e.c { StepIsLocal(s, e); }
  }

  lemma {:induction false} FailuresAreExcused(states: seq<State>, events: seq<Event>, n: nat, c: nat)
    requires IsRun(states, events) && n < |states|
    ensures Excused(states[n], events, n, c)
  {
    if n > 0 {
      var s, e := states[n - 1], events[n - 1];
      FailuresAreExcused(states, events, n - 1, c);
      RunKeepsInv(states, events, n - 1);
      StepExcused(s, e, states[0].tables, c);
      StepConserves(s, e, "");
      if FoundIsolated(events, n - 1, c) { assert FoundIsolated(events, n, c); }
    }
  }

  /** A call fails only for the isolation of its lead, or because the order it named is not there. */
  lemma FailsOnlyForCause(states: seq<State>, events: seq<Event>, k: nat, n: nat, c: nat, raw: Input)
    requires IsRun(states, events) && k < n < |states| && events[k] == Look(c, raw)
    requires CallOf(states[n], c).Returned? && CallOf(states[n], c).outcome.Err?
    ensures FoundIsolated(events, n, c) || Trim(raw.order) !in states[n].tables.proposed
  {
    FailuresAreExcused(states, events, n, c);
    CallServesItsInput(states, events, k, n, c, raw);
  }

  // ---- The stored tables, updated in place ----

  class Database {
    var allocations: map<string, Allocation>
    var proposed: map<string, int>

    function Value(): Tables
      reads this
    {
      Tables(allocations, proposed)
    }

    constructor (t: Tables)
      ensures Value() == t
    {
      allocations, proposed := t.allocations, t.proposed;
    }

    /** The transaction: the row is inserted first, and taken back if the order cannot be counted. */
    method Transact(input: Input, now: int) returns (result: TxResult)
      modifies this
      ensures result == TxOutcome(old(Value()), input)
      ensures Value() == Tx(old(Value()), input, now)
    {
      if input.key in allocations {
        return UniqueViolation;
      }
      var saved := allocations;
      allocations := allocations[input.key := Allocation(input, now)];
      if input.order !in proposed {
        allocations := saved;
        return OrderMissing;
      }
      proposed := proposed[input.order := proposed[input.order] + 1];
      result := Committed;
    }

    method FindByKey(key: string) returns (found: Option<Allocation>)
      ensures found == if key in allocations then Some(allocations[key]) else None
    {
      found := if key in allocations then Some(allocations[key]) else None;
    }

    /**
     A whole call with nobody in between. Calling it again with the same key changes nothing and returns the
     same row.
     */
    method CreateShadowIdempotent(raw: Input, isolated: bool, now: int) returns (outcome: Outcome)
      modifies this
      ensures var t, input := old(Value()), Normalized(raw);
              if input.key in t.allocations then outcome == Ok((t.allocations[input.key], false)) && Value() == t
              else if isolated then outcome == Err(LeadIsolated) && Value() == t
              else if input.order !in t.proposed then outcome == Err(DatabaseError) && Value() == t
              else && outcome == Ok((Allocation(input, now), true))
                   && Value() == Tx(t, input, now)
                   && input.key in allocations && allocations[input.key] == outcome.value.0
    {
      var input := Normalized(raw);
      var existing := FindByKey(input.key);
      if existing.Some? {
        return Ok((existing.value, false));
      }
      if isolated {
        return Err(LeadIsolated);
      }
      var result := Transact(input, now);
      match result {
        case Committed => outcome := Ok((Allocation(input, now), true));
        case OrderMissing => outcome := Err(DatabaseError);
        case UniqueViolation =>
          var raced := FindByKey(input.key);
          match raced {
            case Some(allocation) => outcome := Ok((allocation, false));
            case None => outcome := Err(DatabaseError);
          }
      }
    }
  }
}
