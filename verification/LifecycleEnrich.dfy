/**
 Filling the state of a lifecycle event from its optional blocks and from defaults of its event name.
 The code reassigns one state object through six blocks, each of which looks at what the earlier ones
 left. What it computes is stated here field by field, without that object: every block makes offers
 for a field, and the first offer the field's value on arrival is open to is taken.
 */
module LifecycleEnrich {
  import opened Wrappers
  import opened Text

  datatype Field = LeadType | LifecycleStage | LeadStatus | AppointmentStatus | AgentDisposition
                 | PolicyStatus | AiStatus | RoutingStatus | DeadLeadFlag

  datatype Value = Null | Str(s: string) | Bool(b: bool)

  /** An undefined field is absent. */
  type State = map<Field, Value>

  datatype Entry = Entry(field: Field, value: Option<Value>)

  datatype Appointment = Appointment(
    appointmentStatus: Option<string>, status: Option<string>,
    appointmentStartTime: Option<string>, scheduledAt: Option<string>,
    bookingSource: Option<string>, source: Option<string>, aiBooked: Option<Value>)

  datatype Direction = Inbound | Outbound

  datatype Call = Call(outcome: Option<string>, direction: Option<Direction>)

  /** A null policy status reads as none. */
  datatype Policy = Policy(policyStatus: Option<string>, status: Option<string>)

  datatype Ai = Ai(outcome: Option<string>, booked: Option<bool>, failureReason: Option<string>)

  datatype Disposition = Disposition(code: Option<string>)

  /** The event names with an entry in the table of defaults, and one for the names without. */
  datatype Event = AppointmentSet | AppointmentConfirmed | AppointmentShowed | AppointmentNoShow | NoShow
                 | AppointmentCancelled | AppointmentRescheduled | ContactReplied | FirstResponse
                 | AiResponded | AiEngaged | AiBooked | AiBookingFailed
                 | CallAttemptLogged | CallConnected | CallNoAnswer | DispositionLogged | FollowUpNeeded
                 | QuoteGiven | Sold | SaleLogged | BadNumber | Dnc | DeadLead | PolicyIssued | LeadCreated
                 | Undefaulted

  /** `Rest` stands for the parts of the payload that are only passed on. */
  datatype Payload<Rest> = Payload(
    event: Event, state: State, appointment: Option<Appointment>, call: Option<Call>,
    policy: Option<Policy>, ai: Option<Ai>, disposition: Option<Disposition>,
    attribution: Option<map<string, string>>, rest: Rest)

  // ---- Values ----

  function Get(state: State, f: Field): Option<Value> { if f in state then Some(state[f]) else None }

  predicate Nullish(v: Option<Value>) { v.None? || v.value.Null? }

  predicate Falsy(v: Option<Value>) { Nullish(v) || v.value == Str("") || v.value == Bool(false) }

  /** What a merge fills: nothing, null, or white space only. */
  predicate Blank(v: Option<Value>) { Nullish(v) || (v.value.Str? && AllSpace(v.value.s)) }

  /** A text is white space only exactly when trimming leaves nothing of it. */
  lemma AllSpaceTrims(s: string)
    ensures AllSpace(s) <==> Trim(s) == ""
  {
    var t := TrimStart(s);
    if t != "" { assert t[0] == s[SkipSpaces(s, 0)]; }
  }

  function PickStr(v: Option<string>): (r: Option<string>)
    ensures r.Some? ==> !AllSpace(r.value)
  {
    if v.Some? then Picked(v.value, Trim(v.value)) else None
  }

  function Picked(s: string, trimmed: string): (r: Option<string>)
    requires trimmed == Trim(s)
    ensures r.Some? ==> !AllSpace(r.value)
  {
    if trimmed == "" then None
    else
      TrimIsTrimmed(s);
      assert !IsSpace(trimmed[0]);
      Some(trimmed)
  }

  function AsValue(s: Option<string>): Option<Value> { if s.None? then None else Some(Str(s.value)) }

  function OrElse<T>(a: Option<T>, b: Option<T>): Option<T> { if a.Some? then a else b }

  /** Lower case as far as a comparison with plain letters can see: dotted capital I becomes i and a combining dot. */
  function LowerCase(s: string): string {
    if s == "" then ""
    else (if s[0] == '\U{0130}' then ['i', '\U{0307}'] else [Text.Lower(s[0])]) + LowerCase(s[1..])
  }

  predicate PickTruthyFlag(v: Option<Value>) {
    v.Some? && (v.value == Bool(true)
                || (v.value.Str? && LowerCase(Trim(v.value.s)) in ["true", "1", "yes"]))
  }

  // ---- Merging ----

  function Put(state: State, entry: Entry): State {
    if Nullish(entry.value) || !Blank(Get(state, entry.field)) then state
    else state[entry.field := entry.value.value]
  }

  function Merged(state: State, patch: seq<Entry>): State {
    if patch == [] then state else Put(Merged(state, patch[..|patch| - 1]), patch[|patch| - 1])
  }

  lemma MergeOne(state: State, entry: Entry)
    ensures Merged(state, [entry]) == Put(state, entry)
  {
    assert [entry][..0] == [];
  }

  lemma MergeTwo(state: State, a: Entry, b: Entry)
    ensures Merged(state, [a, b]) == Put(Put(state, a), b)
  {
    assert [a, b][..1] == [a];
    MergeOne(state, a);
  }

  method MergeState(base: State, patch: seq<Entry>) returns (out: State)
    ensures out == Merged(base, patch)
    ensures |patch| == 1 ==> out == Put(base, patch[0])
    ensures |patch| == 2 ==> out == Put(Put(base, patch[0]), patch[1])
  {
    out := base;
    for i := 0 to |patch|
      invariant out == Merged(base, patch[..i])
    {
      assert patch[..i + 1][..i] == patch[..i];
      var entry := patch[i];
      if Nullish(entry.value) { continue; }
      if Blank(Get(out, entry.field)) {
        out := out[entry.field := entry.value.value];
      }
    }
    assert patch[..|patch|] == patch;
    if |patch| == 1 { MergeOne(base, patch[0]); }
    if |patch| == 2 { MergeTwo(base, patch[0], patch[1]); }
  }

  // ---- What each field may be filled from ----

  /** Which blank values an offer is for. */
  datatype Gate = Blanks | Falsies | Missings

  datatype Offer = Offer(gate: Gate, value: Value)

  predicate Admits(gate: Gate, v: Option<Value>) {
    Blank(v) && (gate.Falsies? ==> Falsy(v)) && (gate.Missings? ==> Nullish(v))
  }

  function Offered(gate: Gate, s: Option<string>): seq<Offer> {
    if s.None? then [] else [Offer(gate, Str(s.value))]
  }

  function When(c: bool, gate: Gate, s: string): seq<Offer> {
    if c then [Offer(gate, Str(s))] else []
  }

  predicate ScheduledFor(a: Appointment) { PickStr(a.appointmentStartTime).Some? || PickStr(a.scheduledAt).Some? }

  predicate BookedByAi(a: Appointment) {
    var from := OrElse(PickStr(a.bookingSource), PickStr(a.source));
    from.Some? && Occurs("ai", LowerCase(from.value))
  }

  function ApptStatusOf(a: Appointment): Option<string> { OrElse(PickStr(a.appointmentStatus), PickStr(a.status)) }

  function AppointmentOffers(a: Appointment, f: Field): seq<Offer> {
    match f
    case AppointmentStatus => Offered(Blanks, ApptStatusOf(a))
    case LifecycleStage => When(ScheduledFor(a), Falsies, "APPOINTMENT_SET")
    case AiStatus =>
      When(BookedByAi(a), Falsies, "booked_by_ai") + When(PickTruthyFlag(a.aiBooked), Falsies, "booked_by_ai")
    case _ => []
  }

  function CallOffers(c: Call, f: Field): seq<Offer> {
    match f
    case AgentDisposition => Offered(Missings, PickStr(c.outcome))
    case LifecycleStage => When(c.direction == Some(Outbound), Falsies, "ATTEMPTING_CONTACT")
    case _ => []
  }

  predicate LegacyIssued(p: Policy) {
    var legacy := PickStr(p.status);
    legacy.Some? && LowerCase(legacy.value) == "issued"
  }

  function PolicyOffers(p: Policy, f: Field): seq<Offer> {
    match f
    case PolicyStatus =>
      Offered(Blanks, PickStr(p.policyStatus)) + When(LegacyIssued(p), Falsies, "ISSUED")
    case _ => []
  }

  function AiStatusOf(a: Ai): Option<string> { StatusByBooking(a, "booked_by_bot", "not_booked") }

  function StatusByBooking(a: Ai, booked: string, notBooked: string): Option<string> {
    OrElse(PickStr(a.outcome),
           if a.booked == Some(true) then Some(booked)
           else if a.booked == Some(false) then Some(notBooked)
           else PickStr(a.failureReason))
  }

  function AiOffers(a: Ai, f: Field): seq<Offer> {
    match f
    case AiStatus => Offered(Missings, AiStatusOf(a))
    case LifecycleStage => When(a.booked == Some(true), Missings, "APPOINTMENT_SET")
    case AppointmentStatus => When(a.booked == Some(true), Missings, "Scheduled")
    case _ => []
  }

  /** The fixed values of the table of defaults, named by the field they are for. */
  datatype Default = DeadLeadTrue
                   | StageSet | StageShowed | StageFollowUp | StageEngaged | StageContact
                   | StageReview | StageSold | StageBadNumber | StageDnc | StageDead
                   | StageIssued | StageNew | StatusSet | StatusConfirmed | StatusShowed
                   | StatusNoShow | StatusCancelled | StatusReschedule | StatusScheduled | AgentShowed
                   | AgentNoAnswer | AgentFollowUp | AgentSold | AgentBadNumber | AgentDnc
                   | PolicyQuoteSent | PolicyAppStarted | PolicyIssuedNow | AiEngagedNow | AiBookedByBot
                   | AiFailed

  function FieldOf(d: Default): Field {
    match d
    case DeadLeadTrue => DeadLeadFlag
    case StageSet => LifecycleStage
    case StageShowed => LifecycleStage
    case StageFollowUp => LifecycleStage
    case StageEngaged => LifecycleStage
    case StageContact => LifecycleStage
    case StageReview => LifecycleStage
    case StageSold => LifecycleStage
    case StageBadNumber => LifecycleStage
    case StageDnc => LifecycleStage
    case StageDead => LifecycleStage
    case StageIssued => LifecycleStage
    case StageNew => LifecycleStage
    case StatusSet => AppointmentStatus
    case StatusConfirmed => AppointmentStatus
    case StatusShowed => AppointmentStatus
    case StatusNoShow => AppointmentStatus
    case StatusCancelled => AppointmentStatus
    case StatusReschedule => AppointmentStatus
    case StatusScheduled => AppointmentStatus
    case AgentShowed => AgentDisposition
    case AgentNoAnswer => AgentDisposition
    case AgentFollowUp => AgentDisposition
    case AgentSold => AgentDisposition
    case AgentBadNumber => AgentDisposition
    case AgentDnc => AgentDisposition
    case PolicyQuoteSent => PolicyStatus
    case PolicyAppStarted => PolicyStatus
    case PolicyIssuedNow => PolicyStatus
    case AiEngagedNow => AiStatus
    case AiBookedByBot => AiStatus
    case AiFailed => AiStatus
  }

  function Worth(d: Default): Value {
    match d
    case DeadLeadTrue => Bool(true)
    case StageSet => Str("APPOINTMENT_SET")
    case StageShowed => Str("APPOINTMENT_SHOWED")
    case StageFollowUp => Str("FOLLOW_UP")
    case StageEngaged => Str("AI_ENGAGED")
    case StageContact => Str("ATTEMPTING_CONTACT")
    case StageReview => Str("POLICY_REVIEW")
    case StageSold => Str("SOLD")
    case StageBadNumber => Str("BAD_NUMBER")
    case StageDnc => Str("DNC")
    case StageDead => Str("DEAD")
    case StageIssued => Str("ISSUED")
    case StageNew => Str("NEW")
    case StatusSet => Str("SET")
    case StatusConfirmed => Str("CONFIRMED")
    case StatusShowed => Str("SHOWED")
    case StatusNoShow => Str("NO_SHOW")
    case StatusCancelled => Str("CANCELLED")
    case StatusReschedule => Str("RESCHEDULE")
    case StatusScheduled => Str("Scheduled")
    case AgentShowed => Str("SHOWED")
    case AgentNoAnswer => Str("no_answer")
    case AgentFollowUp => Str("follow_up_needed")
    case AgentSold => Str("sold")
    case AgentBadNumber => Str("bad_number")
    case AgentDnc => Str("dnc")
    case PolicyQuoteSent => Str("Quote sent")
    case PolicyAppStarted => Str("APP_STARTED")
    case PolicyIssuedNow => Str("ISSUED")
    case AiEngagedNow => Str("engaged")
    case AiBookedByBot => Str("booked_by_bot")
    case AiFailed => Str("booking_failed")
  }

  /** The table of defaults by event name. */
  function Table(event: Event): seq<Default> {
    match event
    case AppointmentSet => [StageSet, StatusSet]
    case AppointmentConfirmed => [StageSet, StatusConfirmed]
    case AppointmentShowed => [StageShowed, StatusShowed, AgentShowed]
    case AppointmentNoShow => [StageFollowUp, StatusNoShow]
    case NoShow => [StageFollowUp, StatusNoShow]
    case AppointmentCancelled => [StageFollowUp, StatusCancelled]
    case AppointmentRescheduled => [StageSet, StatusReschedule]
    case ContactReplied => [StageEngaged]
    case FirstResponse => [StageEngaged]
    case AiResponded => [StageEngaged, AiEngagedNow]
    case AiEngaged => [StageEngaged, AiEngagedNow]
    case AiBooked => [StageSet, StatusScheduled, AiBookedByBot]
    case AiBookingFailed => [AiFailed]
    case CallAttemptLogged => [StageContact]
    case CallConnected => [StageContact]
    case CallNoAnswer => [StageContact, AgentNoAnswer]
    case DispositionLogged => []
    case FollowUpNeeded => [StageFollowUp, AgentFollowUp]
    case QuoteGiven => [StageReview, PolicyQuoteSent]
    case Sold => [StageSold, AgentSold, PolicyAppStarted]
    case SaleLogged => [StageSold, AgentSold]
    case BadNumber => [StageBadNumber, AgentBadNumber]
    case Dnc => [StageDnc, AgentDnc]
    case DeadLead => [StageDead, DeadLeadTrue]
    case PolicyIssued => [StageIssued, PolicyIssuedNow]
    case LeadCreated => [StageNew]
    case Undefaulted => []
  }

  function Written(d: Default): Entry { Entry(FieldOf(d), Some(Worth(d))) }

  function Defaults(event: Event): seq<Entry> {
    var table := Table(event);
    seq(|table|, i requires 0 <= i < |table| => Written(table[i]))
  }

  function EntryOffers(entries: seq<Entry>, f: Field): seq<Offer> {
    if entries == [] then []
    else
      var last := entries[|entries| - 1];
      EntryOffers(entries[..|entries| - 1], f)
      + if last.field == f && !Nullish(last.value) then [Offer(Blanks, last.value.value)] else []
  }

  function DispositionOffers(d: Disposition, f: Field): seq<Offer> {
    if f.AgentDisposition? then Offered(Missings, PickStr(d.code)) else []
  }

  function FromAppointment(p: Payload, f: Field): seq<Offer> {
    if p.appointment.None? then [] else AppointmentOffers(p.appointment.value, f)
  }

  function FromCall(p: Payload, f: Field): seq<Offer> {
    if p.call.None? then [] else CallOffers(p.call.value, f)
  }

  function FromPolicy(p: Payload, f: Field): seq<Offer> {
    if p.policy.None? then [] else PolicyOffers(p.policy.value, f)
  }

  function FromAi(p: Payload, f: Field): seq<Offer> {
    if p.ai.None? then [] else AiOffers(p.ai.value, f)
  }

  function FromDisposition(p: Payload, f: Field): seq<Offer> {
    if p.disposition.None? then [] else DispositionOffers(p.disposition.value, f)
  }

  /** Everything a payload offers for a field, in order. None of it depends on the state. */
  function Offers(p: Payload, f: Field): seq<Offer> {
    FromAppointment(p, f)
    + FromCall(p, f)
    + FromPolicy(p, f)
    + FromAi(p, f)
    + EntryOffers(Defaults(p.event), f)
    + FromDisposition(p, f)
  }

  function Filled(v: Option<Value>, offers: seq<Offer>): Option<Value>
    decreases |offers|
  {
    if offers == [] then v
    else Filled(if Admits(offers[0].gate, v) then Some(offers[0].value) else v, offers[1..])
  }

  /** The state field by field. */
  function EnrichedState(p: Payload): (r: State)
    ensures forall f :: Get(r, f) == Filled(Get(p.state, f), Offers(p, f))
  {
    map f: Field | Filled(Get(p.state, f), Offers(p, f)).Some? :: Filled(Get(p.state, f), Offers(p, f)).value
  }

  function Enriched(p: Payload): Payload {
    p.(state := EnrichedState(p), attribution := Some(if p.attribution.Some? then p.attribution.value else map[]))
  }

  lemma {:induction false} FilledInTwo(v: Option<Value>, a: seq<Offer>, b: seq<Offer>)
    ensures Filled(v, a + b) == Filled(Filled(v, a), b)
    decreases |a|
  {
    if a == [] {
      assert a + b == b;
    } else {
      assert (a + b)[1..] == a[1..] + b;
      FilledInTwo(if Admits(a[0].gate, v) then Some(a[0].value) else v, a[1..], b);
    }
  }

  // ---- The blocks ----

  /** `after` is `before` with the offers `added` to field `f` taken, and nothing else changed. */
  predicate Takes(before: State, after: State, f: Field, added: seq<Offer>) {
    && Get(after, f) == Filled(Get(before, f), added)
    && forall g: Field | g != f :: Get(after, g) == Get(before, g)
  }

  lemma PutTakes(state: State, f: Field, gate: Gate, value: Option<Value>)
    requires !Nullish(value)
    requires gate.Falsies? ==> Falsy(Get(state, f))
    requires gate.Missings? ==> Nullish(Get(state, f))
    ensures Takes(state, Put(state, Entry(f, value)), f, [Offer(gate, value.value)])
  {
  }

  lemma NoneTaken(state: State, f: Field, offers: seq<Offer>)
    requires |offers| <= 1 && forall o | o in offers :: !Admits(o.gate, Get(state, f))
    ensures Takes(state, state, f, offers)
  {
  }

  lemma PutOwn(state: State, f: Field)
    ensures Put(state, Entry(f, Get(state, f))) == state
  {
  }

  /**
   The three shapes of a merge in the blocks: the block's value or else the field's own, a value if the field is
   falsy, the field's own value unless it is missing.
   */
  lemma PutOrOwn(state: State, f: Field, s: Option<string>)
    ensures Takes(state, Put(state, Entry(f, OrElse(AsValue(s), Get(state, f)))), f, Offered(Blanks, s))
  {
    PutOwn(state, f);
    if s.Some? { PutTakes(state, f, Blanks, AsValue(s)); }
  }

  lemma PutIfFalsy(state: State, f: Field, c: bool, s: string)
    ensures var after := if c && Falsy(Get(state, f)) then Put(state, Entry(f, Some(Str(s)))) else state;
            Takes(state, after, f, When(c, Falsies, s))
  {
    if c && Falsy(Get(state, f)) {
      PutTakes(state, f, Falsies, Some(Str(s)));
    } else {
      NoneTaken(state, f, When(c, Falsies, s));
    }
  }

  lemma PutOwnOr(state: State, f: Field, s: Option<string>)
    ensures Takes(state, Put(state, Entry(f, OwnOr(state, f, AsValue(s)))), f, Offered(Missings, s))
  {
    PutOwn(state, f);
    if s.Some? && Nullish(Get(state, f)) {
      PutTakes(state, f, Missings, AsValue(s));
    } else {
      NoneTaken(state, f, Offered(Missings, s));
    }
  }

  function OwnOr(state: State, f: Field, v: Option<Value>): Option<Value> {
    if Nullish(Get(state, f)) then v else Get(state, f)
  }

  lemma TakesBoth(a: State, b: State, c: State, f: Field, first: seq<Offer>, second: seq<Offer>)
    requires Takes(a, b, f, first) && Takes(b, c, f, second)
    ensures Takes(a, c, f, first + second)
  {
    FilledInTwo(Get(a, f), first, second);
  }

  /** The recurring step of the blocks: a value for a field that is still falsy. */
  method FillFalsy(base: State, f: Field, c: bool, s: string) returns (state: State)
    ensures Takes(base, state, f, When(c, Falsies, s))
  {
    state := base;
    if c && Falsy(Get(state, f)) {
      state := MergeState(state, [Entry(f, Some(Str(s)))]);
    }
    PutIfFalsy(base, f, c, s);
  }

  /** And the other one: a value for a field that is missing, beside the field's own value. */
  method FillMissing(base: State, f: Field, s: Option<string>) returns (state: State)
    ensures Takes(base, state, f, Offered(Missings, s))
  {
    state := base;
    if s.Some? {
      state := MergeState(state, [Entry(f, OwnOr(state, f, AsValue(s)))]);
    }
    PutOwnOr(base, f, s);
  }

  method FillFalsyTwice(base: State, f: Field, c: bool, d: bool, s: string) returns (state: State)
    ensures Takes(base, state, f, When(c, Falsies, s) + When(d, Falsies, s))
  {
    var once := FillFalsy(base, f, c, s);
    state := FillFalsy(once, f, d, s);
    TakesBoth(base, once, state, f, When(c, Falsies, s), When(d, Falsies, s));
  }

  method ApplyAppointment(base: State, a: Appointment) returns (state: State)
    ensures forall f :: Get(state, f) == Filled(Get(base, f), AppointmentOffers(a, f))
  {
    state := ApplySchedule(base, a);
    state := FillFalsyTwice(state, AiStatus, BookedByAi(a), PickTruthyFlag(a.aiBooked), "booked_by_ai");
  }

  method ApplySchedule(base: State, a: Appointment) returns (state: State)
    ensures Get(state, AppointmentStatus) == Filled(Get(base, AppointmentStatus), Offered(Blanks, ApptStatusOf(a)))
    ensures Get(state, LifecycleStage) ==
        Filled(Get(base, LifecycleStage), When(ScheduledFor(a), Falsies, "APPOINTMENT_SET"))
    ensures forall f: Field | f != AppointmentStatus && f != LifecycleStage :: Get(state, f) == Get(base, f)
  {
    state := MergeState(base, ScheduleEntries(base, ApptStatusOf(a), ScheduledFor(a), "APPOINTMENT_SET"));
  }

  function ScheduleEntries(base: State, apptStatus: Option<string>, hasSchedule: bool, stage: string): (r: seq<Entry>)
    ensures |r| == 2
  {
    [Entry(AppointmentStatus, OrElse(AsValue(apptStatus), Get(base, AppointmentStatus))),
     Entry(LifecycleStage, if hasSchedule && Falsy(Get(base, LifecycleStage)) then Some(Str(stage))
       else Get(base, LifecycleStage))]
  }

  method ApplyCall(base: State, c: Call) returns (state: State)
    ensures forall f :: Get(state, f) == Filled(Get(base, f), CallOffers(c, f))
  {
    state := FillMissing(base, AgentDisposition, PickStr(c.outcome));
    state := FillFalsy(state, LifecycleStage, c.direction == Some(Outbound), "ATTEMPTING_CONTACT");
  }

  method FillPolicy(base: State, picked: Option<string>, issued: bool, s: string) returns (state: State)
    ensures Takes(base, state, PolicyStatus, Offered(Blanks, picked) + When(issued, Falsies, s))
  {
    var once := MergeState(base, [Entry(PolicyStatus, OrElse(AsValue(picked), Get(base, PolicyStatus)))]);
    PutOrOwn(base, PolicyStatus, picked);
    state := FillFalsy(once, PolicyStatus, issued, s);
    TakesBoth(base, once, state, PolicyStatus, Offered(Blanks, picked), When(issued, Falsies, s));
  }

  method ApplyPolicy(base: State, p: Policy) returns (state: State)
    ensures forall f :: Get(state, f) == Filled(Get(base, f), PolicyOffers(p, f))
  {
    state := FillPolicy(base, PickStr(p.policyStatus), LegacyIssued(p), "ISSUED");
  }

  method ApplyAi(base: State, a: Ai) returns (state: State)
    ensures forall f :: Get(state, f) == Filled(Get(base, f), AiOffers(a, f))
  {
    state := FillMissing(base, AiStatus, AiStatusOf(a));
    if a.booked == Some(true) {
      ghost var before := state;
      var entries := BookedEntries(state, "APPOINTMENT_SET", "Scheduled");
      state := MergeState(state, entries);
      BookedTakes(before, "APPOINTMENT_SET", "Scheduled");
    }
  }

  function BookedEntries(base: State, stage: string, status: string): (r: seq<Entry>)
    ensures |r| == 2
  {
    [Entry(LifecycleStage, OwnOr(base, LifecycleStage, Some(Str(stage)))),
     Entry(AppointmentStatus, OwnOr(base, AppointmentStatus, Some(Str(status))))]
  }

  lemma BookedTakes(base: State, stage: string, status: string)
    ensures var entries := BookedEntries(base, stage, status);
      var one := Put(base, entries[0]);
      && Takes(base, one, LifecycleStage, When(true, Missings, stage))
      && Takes(one, Put(one, entries[1]), AppointmentStatus, When(true, Missings, status))
  {
    var one := Put(base, BookedEntries(base, stage, status)[0]);
    PutOwnOr(base, LifecycleStage, Some(stage));
    PutOwnOr(one, AppointmentStatus, Some(status));
  }

  /** Entry by entry, a merge of defaults takes their offers. */
  lemma {:induction false} MergeTakesOffers(state: State, patch: seq<Entry>, f: Field)
    ensures Get(Merged(state, patch), f) == Filled(Get(state, f), EntryOffers(patch, f))
  {
    if patch != [] {
      var rest, last := patch[..|patch| - 1], patch[|patch| - 1];
      MergeTakesOffers(state, rest, f);
      var added := if last.field == f && !Nullish(last.value) then [Offer(Blanks, last.value.value)] else [];
      FilledInTwo(Get(state, f), EntryOffers(rest, f), added);
    }
  }

  method ApplyDisposition(base: State, d: Disposition) returns (state: State)
    ensures forall f :: Get(state, f) == Filled(Get(base, f), DispositionOffers(d, f))
  {
    state := base;
    if d.code.Some? && d.code.value != "" {
      state := FillMissing(base, AgentDisposition, PickStr(d.code));
    }
  }

  method Enrich<Rest>(payload: Payload<Rest>) returns (out: Payload<Rest>)
    ensures out == Enriched(payload)
  {
    var state := payload.state;
    if payload.appointment.Some? { state := ApplyAppointment(state, payload.appointment.value); }
    ghost var s1 := state;
    if payload.call.Some? { state := ApplyCall(state, payload.call.value); }
    ghost var s2 := state;
    if payload.policy.Some? { state := ApplyPolicy(state, payload.policy.value); }
    ghost var s3 := state;
    if payload.ai.Some? { state := ApplyAi(state, payload.ai.value); }
    ghost var s4 := state;
    state := MergeState(state, Defaults(payload.event));
    ghost var s5 := state;
    if payload.disposition.Some? { state := ApplyDisposition(state, payload.disposition.value); }
    forall f: Field ensures Get(state, f) == Get(EnrichedState(payload), f) {
      MergeTakesOffers(s4, Defaults(payload.event), f);
      BlocksTakeOffers(payload, f, Get(s1, f), Get(s2, f), Get(s3, f), Get(s4, f), Get(s5, f), Get(state, f));
    }
    SameState(state, EnrichedState(payload));
    var attribution := if payload.attribution.Some? then payload.attribution else Some(map[]);
    out := payload.(state := state, attribution := attribution);
  }

  lemma SameState(a: State, b: State)
    requires forall f: Field :: Get(a, f) == Get(b, f)
    ensures a == b
  {
    assert forall f: Field :: (f in a <==> Get(a, f).Some?) && (f in b <==> Get(b, f).Some?);
    assert forall f: Field | f in a :: a[f] == Get(a, f).value && b[f] == Get(b, f).value;
  }

  /** What one block after the other makes of one field. */
  lemma BlocksTakeOffers<Rest>(p: Payload<Rest>, f: Field, v1: Option<Value>, v2: Option<Value>, v3: Option<Value>,
      v4: Option<Value>, v5: Option<Value>, v6: Option<Value>)
    requires v1 ==
        Filled(Get(p.state, f), FromAppointment(p, f))
    requires v2 == Filled(v1, FromCall(p, f))
    requires v3 == Filled(v2, FromPolicy(p, f))
    requires v4 == Filled(v3, FromAi(p, f))
    requires v5 == Filled(v4, EntryOffers(Defaults(p.event), f))
    requires v6 == Filled(v5, FromDisposition(p, f))
    ensures v6 == Filled(Get(p.state, f), Offers(p, f))
  {
    var v0 := Get(p.state, f);
    var o1 := FromAppointment(p, f);
    var o2 := FromCall(p, f);
    var o3 := FromPolicy(p, f);
    var o4 := FromAi(p, f);
    var o5 := EntryOffers(Defaults(p.event), f);
    var o6 := FromDisposition(p, f);
    FilledInSix(v0, o1, o2, o3, o4, o5, o6);
  }

  lemma FilledInSix(v: Option<Value>, a: seq<Offer>, b: seq<Offer>, c: seq<Offer>, d: seq<Offer>, e: seq<Offer>,
      f: seq<Offer>)
    ensures Filled(v, a + b + c + d + e + f) == Filled(Filled(Filled(Filled(Filled(Filled(v, a), b), c), d), e), f)
  {
    FilledInTwo(v, a + b + c + d + e, f);
    FilledInTwo(v, a + b + c + d, e);
    FilledInTwo(v, a + b + c, d);
    FilledInTwo(v, a + b, c);
    FilledInTwo(v, a, b);
  }

  // ---- Enriching twice ----

  predicate Solid(offers: seq<Offer>) { forall o | o in offers :: !Blank(Some(o.value)) }

  lemma VisibleIsSolid(gate: Gate, s: Option<string>)
    requires s.Some? ==> !AllSpace(s.value)
    ensures Solid(Offered(gate, s))
  {
  }

  lemma PickedIsSolid(gate: Gate, s: Option<string>)
    ensures Solid(Offered(gate, PickStr(s)))
  {
    VisibleIsSolid(gate, PickStr(s));
  }

  lemma LetterIsSolid(c: bool, gate: Gate, s: string)
    requires s != "" && ('A' <= s[0] <= 'Z' || 'a' <= s[0] <= 'z')
    ensures Solid(When(c, gate, s))
  {
    assert !IsSpace(s[0]);
  }

  lemma AppointmentOffersSolid(a: Appointment, f: Field)
    ensures Solid(AppointmentOffers(a, f))
  {
    if f.LifecycleStage? {
      LetterIsSolid(ScheduledFor(a), Falsies, "APPOINTMENT_SET");
    } else if f.AiStatus? {
      LetterIsSolid(BookedByAi(a), Falsies, "booked_by_ai");
      LetterIsSolid(PickTruthyFlag(a.aiBooked), Falsies, "booked_by_ai");
    }
  }

  lemma CallOffersSolid(c: Call, f: Field)
    ensures Solid(CallOffers(c, f))
  {
    if f.AgentDisposition? {
      PickedIsSolid(Missings, c.outcome);
    } else if f.LifecycleStage? {
      LetterIsSolid(c.direction == Some(Outbound), Falsies, "ATTEMPTING_CONTACT");
    }
  }

  lemma PolicyOffersSolid(p: Policy, f: Field)
    ensures Solid(PolicyOffers(p, f))
  {
    if f.PolicyStatus? {
      PickedIsSolid(Blanks, p.policyStatus);
      LetterIsSolid(LegacyIssued(p), Falsies, "ISSUED");
    }
  }

  lemma LetterIsVisible(s: string)
    requires s != "" && ('A' <= s[0] <= 'Z' || 'a' <= s[0] <= 'z')
    ensures !AllSpace(s)
  {
    assert !IsSpace(s[0]);
  }

  lemma AiStatusSolid(a: Ai)
    ensures Solid(Offered(Missings, AiStatusOf(a)))
  {
    LetterIsVisible("booked_by_bot");
    LetterIsVisible("not_booked");
  }

  lemma AiOffersSolid(a: Ai, f: Field)
    ensures Solid(AiOffers(a, f))
  {
    if f.AiStatus? {
      AiStatusSolid(a);
    } else if f.LifecycleStage? {
      LetterIsSolid(a.booked == Some(true), Missings, "APPOINTMENT_SET");
    } else if f.AppointmentStatus? {
      LetterIsSolid(a.booked == Some(true), Missings, "Scheduled");
    }
  }

  predicate LetterFirst(v: Value) {
    !v.Null? && (v.Str? ==> v.s != "" && ('A' <= v.s[0] <= 'Z' || 'a' <= v.s[0] <= 'z'))
  }

  lemma StagesStartWithLetters(d: Default)
    requires FieldOf(d) == LifecycleStage
    ensures LetterFirst(Worth(d))
  {
  }

  lemma OthersStartWithLetters(d: Default)
    requires FieldOf(d) != LifecycleStage
    ensures LetterFirst(Worth(d))
  {
  }

  lemma DefaultsStartWithLetters(event: Event)
    ensures forall entry | entry in Defaults(event) :: entry.value.Some? && LetterFirst(entry.value.value)
  {
    forall i | 0 <= i < |Table(event)| ensures LetterFirst(Worth(Table(event)[i])) {
      var d := Table(event)[i];
      if FieldOf(d) == LifecycleStage { StagesStartWithLetters(d); } else { OthersStartWithLetters(d); }
    }
  }

  lemma {:induction false} EntryOffersSolid(entries: seq<Entry>, f: Field)
    requires forall entry | entry in entries :: entry.value.Some? && LetterFirst(entry.value.value)
    ensures Solid(EntryOffers(entries, f))
  {
    if entries != [] {
      EntryOffersSolid(entries[..|entries| - 1], f);
      var last := entries[|entries| - 1];
      assert last in entries && LetterFirst(last.value.value);
      if last.value.value.Str? { assert !IsSpace(last.value.value.s[0]); }
    }
  }

  lemma SixSolid(a: seq<Offer>, b: seq<Offer>, c: seq<Offer>, d: seq<Offer>, e: seq<Offer>, f: seq<Offer>)
    requires Solid(a) && Solid(b) && Solid(c) && Solid(d) && Solid(e) && Solid(f)
    ensures Solid(a + b + c + d + e + f)
  {
  }

  lemma DefaultOffersSolid(event: Event, f: Field)
    ensures Solid(EntryOffers(Defaults(event), f))
  {
    DefaultsStartWithLetters(event);
    EntryOffersSolid(Defaults(event), f);
  }

  lemma OffersAreSolid(p: Payload, f: Field)
    ensures Solid(Offers(p, f))
  {
    if p.appointment.Some? { AppointmentOffersSolid(p.appointment.value, f); }
    if p.call.Some? { CallOffersSolid(p.call.value, f); }
    if p.policy.Some? { PolicyOffersSolid(p.policy.value, f); }
    if p.ai.Some? { AiOffersSolid(p.ai.value, f); }
    DefaultOffersSolid(p.event, f);
    if p.disposition.Some? { PickedIsSolid(Missings, p.disposition.value.code); }
    SixSolid(FromAppointment(p, f),
             FromCall(p, f),
             FromPolicy(p, f),
             FromAi(p, f),
             EntryOffers(Defaults(p.event), f),
             FromDisposition(p, f));
  }

  /** The first offer that is open to a value, each judged by that same value. */
  function FirstAdmitted(v: Option<Value>, offers: seq<Offer>): (r: Option<Value>)
    ensures r.Some? ==> exists o | o in offers :: Admits(o.gate, v) && r == Some(o.value)
    ensures r.None? <==> forall o | o in offers :: !Admits(o.gate, v)
  {
    if offers == [] then None
    else if Admits(offers[0].gate, v) then Some(offers[0].value)
    else FirstAdmitted(v, offers[1..])
  }

  lemma {:induction false} FirstOfferWins(v: Option<Value>, offers: seq<Offer>)
    requires Solid(offers)
    ensures Filled(v, offers) == OrElse(FirstAdmitted(v, offers), v)
    decreases |offers|
  {
    if offers != [] {
      assert offers[0] in offers && forall o | o in offers[1..] :: o in offers;
      if Admits(offers[0].gate, v) {
        var taken := Some(offers[0].value);
        FirstOfferWins(taken, offers[1..]);
      } else {
        FirstOfferWins(v, offers[1..]);
      }
    }
  }

  /** The value on arrival decides: it stays unless some offer is open to it, and then the first such offer is final. */
  lemma ArrivalDecides(p: Payload, f: Field)
    ensures Get(Enriched(p).state, f) == OrElse(FirstAdmitted(Get(p.state, f), Offers(p, f)), Get(p.state, f))
  {
    OffersAreSolid(p, f);
    FirstOfferWins(Get(p.state, f), Offers(p, f));
  }

  /** Enrichment only fills. */
  lemma EnrichFillsOnly(p: Payload, f: Field)
    ensures !Blank(Get(p.state, f)) ==> Get(Enriched(p).state, f) == Get(p.state, f)
    ensures Get(Enriched(p).state, f) != Get(p.state, f) ==> !Blank(Get(Enriched(p).state, f))
  {
    ArrivalDecides(p, f);
    OffersAreSolid(p, f);
  }

  /** A missing field takes the first offer of all. */
  lemma MissingTakesFirst(p: Payload, f: Field)
    requires Nullish(Get(p.state, f)) && Offers(p, f) != []
    ensures Get(Enriched(p).state, f) == Some(Offers(p, f)[0].value)
  {
    ArrivalDecides(p, f);
  }

  /** A field is blank afterwards exactly if it was blank and no offer was open to its very kind of blank. */
  lemma BlankAfterwards(p: Payload, f: Field)
    ensures Blank(Get(Enriched(p).state, f))
       <==> Blank(Get(p.state, f)) && forall o | o in Offers(p, f) :: !Admits(o.gate, Get(p.state, f))
  {
    ArrivalDecides(p, f);
    OffersAreSolid(p, f);
  }

  /** Enriching what is enriched changes nothing. */
  lemma EnrichIsIdempotent(p: Payload)
    ensures Enriched(Enriched(p)) == Enriched(p)
  {
    var once := Enriched(p);
    forall f: Field ensures Get(EnrichedState(once), f) == Get(once.state, f) {
      assert Offers(once, f) == Offers(p, f);
      ArrivalDecides(p, f);
      ArrivalDecides(once, f);
      OffersAreSolid(p, f);
    }
    SameState(EnrichedState(once), once.state);
  }
}
