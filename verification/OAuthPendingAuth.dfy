/**
 The one-shot OAuth state row. A callback looks the row up, consumes it with one conditional
 update, and reads it again; callbacks with the same state interleave freely. The client form binds the row
 to a tenant; the company form has no tenant.
 */
module OAuthPendingAuth {
  import opened Wrappers
  import opened Text

  datatype Form = Client | Company

  /** `tenant` is empty in the company form. */
  datatype Row = Row(id: string, tenant: string, stateHash: string, verifier: string, expiresAt: int,
    consumedAt: Option<int>)

  datatype Input = Input(stateHash: string, tenant: string, now: int)

  datatype Reason = NotFound | TenantMismatch | Expired | AlreadyConsumed

  type Outcome = Result<Row, Reason>

  /** The input as the repository uses it: the client form trims both parts. */
  function Normalized(form: Form, input: Input): Input {
    match form
    case Client => Input(Trim(input.stateHash), Trim(input.tenant), input.now)
    case Company => input.(tenant := "")
  }

  predicate Usable(form: Form, input: Input) {
    form == Client ==> input.stateHash != "" && input.tenant != ""
  }

  predicate Found(form: Form, row: Option<Row>, input: Input) {
    Usable(form, input) && row.Some? && row.value.stateHash == input.stateHash
  }

  predicate Bound(form: Form, row: Row, input: Input) { form == Client ==> row.tenant == input.tenant }

  /** The checks made on a row that was read, in their order; None means they all pass. */
  function Refusal(form: Form, row: Option<Row>, input: Input): Option<Reason> {
    if !Found(form, row, input) then Some(NotFound)
    else if !Bound(form, row.value, input) then Some(TenantMismatch)
    else if row.value.consumedAt.Some? then Some(AlreadyConsumed)
    else if row.value.expiresAt <= input.now then Some(Expired)
    else None
  }

  /** The conditional update's own guard, evaluated by the database at the moment of the update. */
  predicate Consumable(form: Form, row: Option<Row>, input: Input) {
    Found(form, row, input) && Bound(form, row.value, input) && row.value.consumedAt.None?
      && input.now < row.value.expiresAt
  }

  function Consumed(row: Row, now: int): Row { row.(consumedAt := Some(now)) }

  /** What a callback answers from its last read. */
  function Settle(form: Form, row: Option<Row>, input: Input, updated: bool): Outcome {
    if updated then
      if row.Some? then Ok(row.value) else Err(NotFound)
    else if form == Company then Err(AlreadyConsumed)
    else
      var refusal := Refusal(form, row, input);
      Err(if refusal.Some? then refusal.value else AlreadyConsumed)
  }

  /** The verifier is blanked; the client form's update also requires the row to be consumed. */
  predicate WipeMatches(form: Form, row: Option<Row>, id: string, tenant: string) {
    && row.Some? && row.value.id == id
    && (form == Client ==> row.value.tenant == tenant && row.value.consumedAt.Some?)
  }

  function Wiped(row: Row): Row { row.(verifier := "") }

  // ---- Concurrent callbacks ----

  datatype Call = NotStarted
                | Checked(input: Input)
                | Tried(input: Input, updated: bool)
                | Done(input: Input, outcome: Outcome)

  /** A successful consumption. */
  datatype Success = Success(call: nat, input: Input)

  datatype State = State(row: Option<Row>, calls: map<nat, Call>, log: seq<Success>)

  /** `Wipe` names the call on whose behalf the verifier is wiped. */
  datatype Event = Look(c: nat, input: Input)
                 | TryConsume(c: nat)
                 | ReRead(c: nat)
                 | Wipe(c: nat, id: string, tenant: string)
                 | Delete

  function CallOf(s: State, c: nat): Call {
    if c in s.calls then s.calls[c] else NotStarted
  }

  /** The company callback wipes the verifier of the row it was just handed; a client's row may be named by anyone. */
  predicate MayWipe(form: Form, s: State, c: nat, id: string) {
    form == Company ==> CallOf(s, c).Done? && CallOf(s, c).outcome.Ok? && CallOf(s, c).outcome.value.id == id
  }

  predicate Enabled(s: State, e: Event, form: Form) {
    match e
    case Look(c, _) => CallOf(s, c).NotStarted?
    case TryConsume(c) => CallOf(s, c).Checked?
    case ReRead(c) => CallOf(s, c).Tried?
    case Wipe(c, id, _) => MayWipe(form, s, c, id)
    case Delete => true
  }

  function Step(s: State, e: Event, form: Form): State
    requires Enabled(s, e, form)
  {
    match e
    case Look(c, raw) =>
      var input := Normalized(form, raw);
      var refusal := Refusal(form, s.row, input);
      s.(calls := s.calls[c := if refusal.Some? then Done(input, Err(refusal.value)) else Checked(input)])
    case TryConsume(c) =>
      var input := CallOf(s, c).input;
      if Consumable(form, s.row, input) then
        State(Some(Consumed(s.row.value, input.now)), s.calls[c := Tried(input, true)], s.log + [Success(c, input)])
      else
        s.(calls := s.calls[c := Tried(input, false)])
    case ReRead(c) =>
      var Tried(input, updated) := CallOf(s, c);
      s.(calls := s.calls[c := Done(input, Settle(form, s.row, input, updated))])
    case Wipe(_, id, tenant) =>
      if WipeMatches(form, s.row, id, tenant) then s.(row := Some(Wiped(s.row.value))) else s
    case Delete => s.(row := None)
  }

  predicate IsRun(states: seq<State>, events: seq<Event>, form: Form) {
    && |states| == |events| + 1
    && states[0].calls == map[] && states[0].log == []
    && forall i | 0 <= i < |events| ::
         Enabled(states[i], events[i], form) && states[i + 1] == Step(states[i], events[i], form)
  }

  // ---- The invariant ----

  predicate Passes(form: Form, row: Row, input: Input) {
    row.stateHash == input.stateHash && Usable(form, input) && Bound(form, row, input) && input.now < row.expiresAt
  }

  /** A refusal is true of the row, if the row still exists. */
  predicate Truthful(form: Form, row: Row, input: Input, reason: Reason) {
    match reason
    case NotFound => row.stateHash != input.stateHash || !Usable(form, input)
    case TenantMismatch => !Bound(form, row, input)
    case AlreadyConsumed => row.consumedAt.Some?
    case Expired => row.expiresAt <= input.now
  }

  predicate Won(s: State, c: nat, input: Input) {
    s.log == [Success(c, input)]
  }

  predicate CallOk(s: State, c: nat, form: Form) {
    match CallOf(s, c)
    case NotStarted => true
    case Checked(input) => s.row.Some? ==> Passes(form, s.row.value, input)
    case Tried(input, updated) =>
      if updated then Won(s, c, input)
      else s.row.Some? ==> Passes(form, s.row.value, input) && s.row.value.consumedAt.Some?
    case Done(input, Ok(row)) => Won(s, c, input) && Passes(form, row, input) && row.consumedAt == Some(input.now)
                                 && (s.row.Some? ==> s.row.value.consumedAt.Some?)
    case Done(input, Err(reason)) => s.row.Some? ==> Truthful(form, s.row.value, input, reason)
  }

  predicate RowOk(s: State, form: Form) {
    && |s.log| <= 1
    && (s.row.Some? && s.log != [] ==>
          s.row.value.consumedAt == Some(s.log[0].input.now) && Passes(form, s.row.value, s.log[0].input))
  }

  ghost predicate Inv(s: State, form: Form) {
    RowOk(s, form) && forall c :: CallOk(s, c, form)
  }

  lemma StepKeepsRowOk(s: State, e: Event, form: Form)
    requires Inv(s, form) && Enabled(s, e, form)
    ensures RowOk(Step(s, e, form), form)
  {
    if e.TryConsume? {
      assert CallOk(s, e.c, form);
    }
  }

  lemma OtherCallsKept(s: State, e: Event, form: Form, c: nat)
    requires Enabled(s, e, form)
    requires e.Look? || e.TryConsume? || e.ReRead? ==> c != e.c
    ensures CallOf(Step(s, e, form), c) == CallOf(s, c)
  {
  }

  lemma RefusalIsTruthful(form: Form, row: Row, input: Input)
    ensures match Refusal(form, Some(row), input)
            case None => Passes(form, row, input)
            case Some(reason) => Truthful(form, row, input, reason)
  {
  }

  /** What a callback answers after its update is true of the row. */
  lemma SettlesTruly(s: State, form: Form, c: nat)
    requires RowOk(s, form) && CallOf(s, c).Tried? && CallOk(s, c, form)
    ensures var Tried(input, updated) := CallOf(s, c);
            match Settle(form, s.row, input, updated)
            case Ok(row) => Won(s, c, input) && Passes(form, row, input) && row.consumedAt == Some(input.now)
                            && (s.row.Some? ==> s.row.value.consumedAt.Some?)
            case Err(reason) => s.row.Some? ==> Truthful(form, s.row.value, input, reason)
  {
    if s.row.Some? { RefusalIsTruthful(form, s.row.value, CallOf(s, c).input); }
  }

  lemma StepKeepsCallOk(s: State, e: Event, form: Form, c: nat)
    requires Inv(s, form) && Enabled(s, e, form)
    ensures CallOk(Step(s, e, form), c, form)
  {
    assert CallOk(s, c, form);
    match e {
      case Look(d, raw) =>
        if c != d { OtherCallsKept(s, e, form, c); }
        else if s.row.Some? { RefusalIsTruthful(form, s.row.value, Normalized(form, raw)); }
      case TryConsume(d) =>
        assert CallOk(s, d, form);
        if c != d { OtherCallsKept(s, e, form, c); }
      case ReRead(d) =>
        if c != d { OtherCallsKept(s, e, form, c); } else { SettlesTruly(s, form, c); }
      case _ => OtherCallsKept(s, e, form, c);
    }
  }

  lemma {:induction false} RunKeepsInv(states: seq<State>, events: seq<Event>, form: Form, n: nat)
    requires IsRun(states, events, form) && n < |states|
    ensures Inv(states[n], form)
  {
    if n > 0 {
      RunKeepsInv(states, events, form, n - 1);
      StepKeepsRowOk(states[n - 1], events[n - 1], form);
      forall c ensures CallOk(states[n], c, form) {
        StepKeepsCallOk(states[n - 1], events[n - 1], form, c);
      }
    }
  }

  // ---- What every schedule of callbacks obeys ----

  /** At most one callback ever succeeds. */
  lemma ConsumedAtMostOnce(states: seq<State>, events: seq<Event>, form: Form, n: nat, c: nat, d: nat)
    requires IsRun(states, events, form) && n < |states|
    requires CallOf(states[n], c).Done? && CallOf(states[n], c).outcome.Ok?
    requires CallOf(states[n], d).Done? && CallOf(states[n], d).outcome.Ok?
    ensures c == d
  {
    RunKeepsInv(states, events, form, n);
    assert CallOk(states[n], c, form);
    assert CallOk(states[n], d, form);
  }

  // ---- What a callback is told, in terms of what it passed ----

  /** The state the row is looked up by. */
  function StateGiven(form: Form, raw: Input): string { if form == Client then Trim(raw.stateHash) else raw.stateHash }

  predicate BlankGiven(form: Form, raw: Input) {
    form == Client && (Trim(raw.stateHash) == "" || Trim(raw.tenant) == "")
  }

  predicate OtherTenant(form: Form, row: Row, raw: Input) { form == Client && row.tenant != Trim(raw.tenant) }

  /** Whether a reason is true of the row. */
  predicate TrueReason(form: Form, row: Row, raw: Input, reason: Reason) {
    match reason
    case NotFound => BlankGiven(form, raw) || row.stateHash != StateGiven(form, raw)
    case TenantMismatch => OtherTenant(form, row, raw)
    case AlreadyConsumed => row.consumedAt.Some?
    case Expired => row.expiresAt <= raw.now
  }

  /** The reason a callback is refused for when nobody interferes: the first true one in this order. */
  function Answer(form: Form, row: Row, raw: Input): Option<Reason> {
    if TrueReason(form, row, raw, NotFound) then Some(NotFound)
    else if TrueReason(form, row, raw, TenantMismatch) then Some(TenantMismatch)
    else if TrueReason(form, row, raw, AlreadyConsumed) then Some(AlreadyConsumed)
    else if TrueReason(form, row, raw, Expired) then Some(Expired)
    else None
  }

  lemma RefusalIsAnswer(form: Form, row: Row, raw: Input)
    ensures Refusal(form, Some(row), Normalized(form, raw)) == Answer(form, row, raw)
  {
  }

  predicate WorksOn(call: Call, input: Input) { !call.NotStarted? && call.input == input }

  lemma {:induction false} CallKeepsInput(
      states: seq<State>, events: seq<Event>, form: Form, m: nat, n: nat, c: nat, input: Input)
    requires IsRun(states, events, form) && m <= n < |states| && WorksOn(CallOf(states[m], c), input)
    ensures WorksOn(CallOf(states[n], c), input)
  {
    if m < n { CallKeepsInput(states, events, form, m, n - 1, c, input); }
  }

  lemma CallServesItsInput(states: seq<State>, events: seq<Event>, form: Form, k: nat, n: nat, c: nat, raw: Input)
    requires IsRun(states, events, form) && k < n < |states| && events[k] == Look(c, raw)
    ensures WorksOn(CallOf(states[n], c), Normalized(form, raw))
  {
    CallKeepsInput(states, events, form, k + 1, n, c, Normalized(form, raw));
  }

  /**
   The callback that succeeds passed the row's state and, in the client form, its tenant, strictly before
   expiry, and is handed the row consumed at its own instant.
   */
  lemma SuccessIsBoundAndFresh(states: seq<State>, events: seq<Event>, form: Form, k: nat, n: nat, c: nat, raw: Input)
    requires IsRun(states, events, form) && k < n < |states| && events[k] == Look(c, raw)
    requires CallOf(states[n], c).Done? && CallOf(states[n], c).outcome.Ok?
    ensures var row := CallOf(states[n], c).outcome.value;
            && !BlankGiven(form, raw) && row.stateHash == StateGiven(form, raw) && !OtherTenant(form, row, raw)
            && raw.now < row.expiresAt
            && row.consumedAt == Some(raw.now)
  {
    RunKeepsInv(states, events, form, n);
    assert CallOk(states[n], c, form);
    CallServesItsInput(states, events, form, k, n, c, raw);
  }

  /** Every refusal is true of the row; in particular a replay is told so only when the row really is consumed. */
  lemma RefusalsAreTruthful(states: seq<State>, events: seq<Event>, form: Form, k: nat, n: nat, c: nat, raw: Input)
    requires IsRun(states, events, form) && k < n < |states| && events[k] == Look(c, raw) && states[n].row.Some?
    requires CallOf(states[n], c).Done? && CallOf(states[n], c).outcome.Err?
    ensures TrueReason(form, states[n].row.value, raw, CallOf(states[n], c).outcome.error)
  {
    RunKeepsInv(states, events, form, n);
    assert CallOk(states[n], c, form);
    CallServesItsInput(states, events, form, k, n, c, raw);
  }

  /** Of the callbacks that passed the check, the first to update a stored row consumes it. */
  lemma FirstUpdateConsumes(states: seq<State>, events: seq<Event>, form: Form, n: nat, c: nat)
    requires IsRun(states, events, form) && n < |events| && events[n] == TryConsume(c)
    requires states[n].row.Some? && states[n].row.value.consumedAt.None?
    ensures var input := CallOf(states[n], c).input;
            && CallOf(states[n + 1], c) == Tried(input, true)
            && states[n + 1].row == Some(states[n].row.value.(consumedAt := Some(input.now)))
  {
    RunKeepsInv(states, events, form, n);
    assert CallOk(states[n], c, form);
  }

  /** A callback's three steps with nobody in between. */
  function PlayAlone(s: State, c: nat, raw: Input, form: Form): State
    requires CallOf(s, c).NotStarted?
  {
    var s1 := Step(s, Look(c, raw), form);
    var s2 := if CallOf(s1, c).Checked? then Step(s1, TryConsume(c), form) else s1;
    if CallOf(s2, c).Tried? then Step(s2, ReRead(c), form) else s2
  }

  /** It succeeds exactly when no reason is true of the row, and is told the first true one otherwise. */
  lemma PlayedAlone(s: State, c: nat, raw: Input, form: Form)
    requires CallOf(s, c).NotStarted? && s.row.Some?
    ensures var s' := PlayAlone(s, c, raw, form);
            && CallOf(s', c).Done?
            && match Answer(form, s.row.value, raw)
               case None =>
                 && s'.row == Some(s.row.value.(consumedAt := Some(raw.now)))
                 && CallOf(s', c).outcome == Ok(s.row.value.(consumedAt := Some(raw.now)))
               case Some(reason) => s'.row == s.row && CallOf(s', c).outcome == Err(reason)
  {
    RefusalIsAnswer(form, s.row.value, raw);
  }

  /** The consumed time never changes, and neither do the row's identity, tenant, state and expiry. */
  lemma {:induction false} ConsumedTimeIsFinal(states: seq<State>, events: seq<Event>, form: Form, m: nat, n: nat)
    requires IsRun(states, events, form) && m <= n < |states| && states[n].row.Some?
    ensures states[m].row.Some?
    ensures var before, after := states[m].row.value, states[n].row.value;
            && (before.consumedAt.Some? ==> after.consumedAt == before.consumedAt)
            && after.(consumedAt := None, verifier := "") == before.(consumedAt := None, verifier := "")
  {
    if m < n {
      ConsumedTimeIsFinal(states, events, form, m, n - 1);
    }
  }

  /** While the row is unconsumed its verifier is the one it was created with. */
  lemma {:induction false} VerifierSurvivesUntilConsumed(states: seq<State>, events: seq<Event>, form: Form, n: nat)
    requires IsRun(states, events, form) && n < |states|
    requires states[n].row.Some? && states[n].row.value.consumedAt.None?
    ensures states[0].row.Some? && states[n].row.value.verifier == states[0].row.value.verifier
  {
    if n > 0 {
      VerifierSurvivesUntilConsumed(states, events, form, n - 1);
      if events[n - 1].Wipe? {
        RunKeepsInv(states, events, form, n - 1);
        assert CallOk(states[n - 1], events[n - 1].c, form);
      }
    }
  }

  /** A row consumed during the run was consumed by exactly one callback, which is in the history. */
  lemma {:induction false} ConsumptionHasAnAuthor(states: seq<State>, events: seq<Event>, form: Form, n: nat)
    requires IsRun(states, events, form) && n < |states|
    requires states[0].row.Some? && states[0].row.value.consumedAt.None?
    requires states[n].row.Some? && states[n].row.value.consumedAt.Some?
    ensures |states[n].log| == 1 && states[n].row.value.consumedAt == Some(states[n].log[0].input.now)
  {
    RunKeepsInv(states, events, form, n);
    if n > 0 && states[n - 1].row.Some? && states[n - 1].row.value.consumedAt.Some? {
      ConsumptionHasAnAuthor(states, events, form, n - 1);
    }
  }

  // ---- The stored row, updated in place ----

  class PendingRow {
    const id: string
    const tenant: string
    const stateHash: string
    const expiresAt: int
    var verifier: string
    var consumedAt: Option<int>

    function Value(): Row
      reads this
    {
      Row(id, tenant, stateHash, verifier, expiresAt, consumedAt)
    }

    constructor (row: Row)
      ensures Value() == row
    {
      id, tenant, stateHash, expiresAt := row.id, row.tenant, row.stateHash, row.expiresAt;
      verifier, consumedAt := row.verifier, row.consumedAt;
    }

    method ConsumeWhere(form: Form, input: Input) returns (count: nat)
      modifies this`consumedAt
      ensures count == if Consumable(form, Some(old(Value())), input) then 1 else 0
      ensures Value() == if count == 1 then Consumed(old(Value()), input.now) else old(Value())
    {
      if !Found(form, Some(Value()), input) || (form == Client && tenant != input.tenant)
         || consumedAt.Some? || expiresAt <= input.now {
        return 0;
      }
      consumedAt := Some(input.now);
      count := 1;
    }

    method WipeVerifierWhere(form: Form, rowId: string, rowTenant: string) returns (count: nat)
      modifies this`verifier
      ensures count == if WipeMatches(form, Some(old(Value())), rowId, rowTenant) then 1 else 0
      ensures Value() == if count == 1 then Wiped(old(Value())) else old(Value())
    {
      if id != rowId || (form == Client && (tenant != rowTenant || consumedAt.None?)) {
        return 0;
      }
      verifier := "";
      count := 1;
    }

    /** A whole callback with nobody in between: it consumes the row exactly when no reason against it is true. */
    method ConsumeOnce(form: Form, raw: Input) returns (outcome: Outcome)
      modifies this`consumedAt
      ensures match Answer(form, old(Value()), raw)
              case None => Value() == old(Value()).(consumedAt := Some(raw.now)) && outcome == Ok(Value())
              case Some(reason) => Value() == old(Value()) && outcome == Err(reason)
    {
      RefusalIsAnswer(form, Value(), raw);
      var input := Normalized(form, raw);
      var refusal := Refusal(form, Some(Value()), input);
      if refusal.Some? {
        return Err(refusal.value);
      }
      var count := ConsumeWhere(form, input);
      outcome := Settle(form, Some(Value()), input, count == 1);
    }
  }
}
