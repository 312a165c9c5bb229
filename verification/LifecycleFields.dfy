/**
 What each state field holds after enrichment, from its value on arrival and the payload alone.
 */
module LifecycleFields {
  import opened Wrappers
  import opened Text
  import opened LifecycleEnrich

  /** A text that is more than white space. */
  predicate Visible(s: Option<string>) { s.Some? && Trim(s.value) != "" }

  predicate Scheduled(p: Payload) {
    && p.appointment.Some?
    && (Visible(p.appointment.value.appointmentStartTime) || Visible(p.appointment.value.scheduledAt))
  }

  predicate OutboundCall(p: Payload) { p.call.Some? && p.call.value.direction == Some(Outbound) }

  predicate AiSaysBooked(p: Payload) { p.ai.Some? && p.ai.value.booked == Some(true) }

  /** The table read the other way: which events give a field which value. */
  function StageBy(e: Event): Option<Default> {
    match e
    case AppointmentSet | AppointmentConfirmed | AppointmentRescheduled | AiBooked => Some(StageSet)
    case AppointmentShowed => Some(StageShowed)
    case AppointmentNoShow | NoShow | AppointmentCancelled | FollowUpNeeded => Some(StageFollowUp)
    case ContactReplied | FirstResponse | AiResponded | AiEngaged => Some(StageEngaged)
    case CallAttemptLogged | CallConnected | CallNoAnswer => Some(StageContact)
    case QuoteGiven => Some(StageReview)
    case Sold | SaleLogged => Some(StageSold)
    case BadNumber => Some(StageBadNumber)
    case Dnc => Some(StageDnc)
    case DeadLead => Some(StageDead)
    case PolicyIssued => Some(StageIssued)
    case LeadCreated => Some(StageNew)
    case _ => None
  }

  function StatusBy(e: Event): Option<Default> {
    match e
    case AppointmentSet => Some(StatusSet)
    case AppointmentConfirmed => Some(StatusConfirmed)
    case AppointmentShowed => Some(StatusShowed)
    case AppointmentNoShow | NoShow => Some(StatusNoShow)
    case AppointmentCancelled => Some(StatusCancelled)
    case AppointmentRescheduled => Some(StatusReschedule)
    case AiBooked => Some(StatusScheduled)
    case _ => None
  }

  function AgentBy(e: Event): Option<Default> {
    match e
    case AppointmentShowed => Some(AgentShowed)
    case CallNoAnswer => Some(AgentNoAnswer)
    case FollowUpNeeded => Some(AgentFollowUp)
    case Sold | SaleLogged => Some(AgentSold)
    case BadNumber => Some(AgentBadNumber)
    case Dnc => Some(AgentDnc)
    case _ => None
  }

  function PolicyBy(e: Event): Option<Default> {
    match e
    case QuoteGiven => Some(PolicyQuoteSent)
    case Sold => Some(PolicyAppStarted)
    case PolicyIssued => Some(PolicyIssuedNow)
    case _ => None
  }

  function AiBy(e: Event): Option<Default> {
    match e
    case AiResponded | AiEngaged => Some(AiEngagedNow)
    case AiBooked => Some(AiBookedByBot)
    case AiBookingFailed => Some(AiFailed)
    case _ => None
  }

  function ByEvent(e: Event, f: Field): Option<Default> {
    match f
    case LifecycleStage => StageBy(e)
    case AppointmentStatus => StatusBy(e)
    case AgentDisposition => AgentBy(e)
    case PolicyStatus => PolicyBy(e)
    case AiStatus => AiBy(e)
    case DeadLeadFlag => if e.DeadLead? then Some(DeadLeadTrue) else None
    case _ => None
  }

  function ByDefault(e: Event, f: Field): Option<Value> {
    var d := ByEvent(e, f);
    if d.None? then None else Some(Worth(d.value))
  }

  /** No list of the table has two defaults for one field, or more than three in all. */
  lemma TableIsShort(e: Event)
    ensures |Table(e)| <= 3
    ensures forall i, j | 0 <= i < j < |Table(e)| :: FieldOf(Table(e)[i]) != FieldOf(Table(e)[j])
  {
  }

  lemma ListedIsGiven(e: Event, i: nat)
    requires i < |Table(e)|
    ensures ByEvent(e, FieldOf(Table(e)[i])) == Some(Table(e)[i])
  {
    TableIsShort(e);
    if i == 0 { FirstIsGiven(e); } else { OthersAreGiven(e, i); }
  }

  lemma FirstIsGiven(e: Event)
    requires Table(e) != []
    ensures ByEvent(e, FieldOf(Table(e)[0])) == Some(Table(e)[0])
  {
  }

  lemma OthersAreGiven(e: Event, i: nat)
    requires 0 < i < |Table(e)|
    ensures ByEvent(e, FieldOf(Table(e)[i])) == Some(Table(e)[i])
  {
  }

  lemma GivenIsListed(e: Event, f: Field)
    ensures ByEvent(e, f).Some? ==> FieldOf(ByEvent(e, f).value) == f && ByEvent(e, f).value in Table(e)
  {
    StageIsListed(e);
    StatusIsListed(e);
    AgentIsListed(e);
    PolicyAndAiAreListed(e);
  }

  lemma StageIsListed(e: Event)
    ensures StageBy(e).Some? ==> FieldOf(StageBy(e).value) == LifecycleStage && StageBy(e).value in Table(e)
  {
  }

  lemma StatusIsListed(e: Event)
    ensures StatusBy(e).Some? ==> FieldOf(StatusBy(e).value) == AppointmentStatus && StatusBy(e).value in Table(e)
  {
  }

  lemma AgentIsListed(e: Event)
    ensures AgentBy(e).Some? ==> FieldOf(AgentBy(e).value) == AgentDisposition && AgentBy(e).value in Table(e)
  {
  }

  lemma PolicyAndAiAreListed(e: Event)
    ensures PolicyBy(e).Some? ==> FieldOf(PolicyBy(e).value) == PolicyStatus && PolicyBy(e).value in Table(e)
    ensures AiBy(e).Some? ==> FieldOf(AiBy(e).value) == AiStatus && AiBy(e).value in Table(e)
  {
  }

  function AsOffers(v: Option<Value>): seq<Offer> { if v.None? then [] else [Offer(Blanks, v.value)] }

  lemma {:induction false} NoEntryNoOffer(entries: seq<Entry>, f: Field)
    requires forall i | 0 <= i < |entries| :: entries[i].field != f
    ensures EntryOffers(entries, f) == []
  {
    if entries != [] { NoEntryNoOffer(entries[..|entries| - 1], f); }
  }

  lemma {:induction false} OneEntryOneOffer(entries: seq<Entry>, f: Field, k: nat)
    requires k < |entries| && entries[k].field == f && !Nullish(entries[k].value)
    requires forall i | 0 <= i < |entries| && i != k :: entries[i].field != f
    ensures EntryOffers(entries, f) == AsOffers(entries[k].value)
  {
    if k == |entries| - 1 {
      NoEntryNoOffer(entries[..k], f);
    } else {
      OneEntryOneOffer(entries[..|entries| - 1], f, k);
    }
  }

  lemma DefaultIsOffered(e: Event, f: Field)
    ensures EntryOffers(Defaults(e), f) == AsOffers(ByDefault(e, f))
  {
    TableIsShort(e);
    if i: nat :| i < |Table(e)| && FieldOf(Table(e)[i]) == f {
      ListedIsGiven(e, i);
      DefaultsStartWithLetters(e);
      assert Defaults(e)[i] in Defaults(e);
      OneEntryOneOffer(Defaults(e), f, i);
    } else {
      GivenIsListed(e, f);
      NoEntryNoOffer(Defaults(e), f);
    }
  }

  lemma {:induction false} FirstInTwo(v: Option<Value>, a: seq<Offer>, b: seq<Offer>)
    ensures FirstAdmitted(v, a + b) == OrElse(FirstAdmitted(v, a), FirstAdmitted(v, b))
    decreases |a|
  {
    if a == [] {
      assert a + b == b;
    } else {
      assert (a + b)[1..] == a[1..] + b;
      FirstInTwo(v, a[1..], b);
    }
  }

  lemma ElseChain(r: Option<Value>, a: Option<Value>, b: Option<Value>, c: Option<Value>, d: Option<Value>,
      e: Option<Value>, f: Option<Value>, v: Option<Value>)
    requires r == OrElse(OrElse(OrElse(OrElse(OrElse(a, b), c), d), e), f)
    ensures OrElse(r, v) == OrElse(a, OrElse(b, OrElse(c, OrElse(d, OrElse(e, OrElse(f, v))))))
  {
  }

  lemma FirstOfAll(v: Option<Value>, offers: seq<Offer>, a: seq<Offer>, b: seq<Offer>, c: seq<Offer>, d: seq<Offer>,
      e: seq<Offer>, f: seq<Offer>)
    requires offers == a + b + c + d + e + f
    ensures OrElse(FirstAdmitted(v, offers), v)
         == OrElse(FirstAdmitted(v, a), OrElse(FirstAdmitted(v, b), OrElse(FirstAdmitted(v, c),
            OrElse(FirstAdmitted(v, d), OrElse(FirstAdmitted(v, e), OrElse(FirstAdmitted(v, f), v))))))
  {
    FirstInTwo(v, a, b);
    FirstInTwo(v, a + b, c);
    FirstInTwo(v, a + b + c, d);
    FirstInTwo(v, a + b + c + d, e);
    FirstInTwo(v, a + b + c + d + e, f);
    ElseChain(FirstAdmitted(v, offers), FirstAdmitted(v, a), FirstAdmitted(v, b), FirstAdmitted(v, c),
              FirstAdmitted(v, d), FirstAdmitted(v, e), FirstAdmitted(v, f), v);
  }

  /** Block by block, what the value on arrival is replaced with. */
  lemma BlocksDecide(p: Payload, f: Field)
    ensures var v := Get(p.state, f);
      Get(Enriched(p).state, f)
        == OrElse(FirstAdmitted(v, FromAppointment(p, f)),
           OrElse(FirstAdmitted(v, FromCall(p, f)),
           OrElse(FirstAdmitted(v, FromPolicy(p, f)),
           OrElse(FirstAdmitted(v, FromAi(p, f)),
           OrElse(FirstAdmitted(v, AsOffers(ByDefault(p.event, f))),
           OrElse(FirstAdmitted(v, FromDisposition(p, f)),
                  v))))))
  {
    var v := Get(p.state, f);
    ArrivalDecides(p, f);
    DefaultIsOffered(p.event, f);
    FirstOfAll(v, Offers(p, f), FromAppointment(p, f), FromCall(p, f), FromPolicy(p, f), FromAi(p, f),
               AsOffers(ByDefault(p.event, f)), FromDisposition(p, f));
  }

  lemma FirstOfWhen(v: Option<Value>, c: bool, gate: Gate, s: string)
    ensures FirstAdmitted(v, When(c, gate, s)) == if c && Admits(gate, v) then Some(Str(s)) else None
  {
  }

  lemma FirstOfDefault(p: Payload, v: Option<Value>, f: Field)
    ensures FirstAdmitted(v, AsOffers(ByDefault(p.event, f))) == if Blank(v) then ByDefault(p.event, f) else None
  {
  }

  lemma FirstOfPicked(v: Option<Value>, gate: Gate, s: Option<string>)
    ensures FirstAdmitted(v, Offered(gate, PickStr(s)))
         == if Visible(s) && Admits(gate, v) then Some(Str(Trim(s.value))) else None
  {
  }

  lemma StageByAppointment(v: Option<Value>, p: Payload)
    ensures FirstAdmitted(v, FromAppointment(p, LifecycleStage))
         == if Blank(v) && Falsy(v) && Scheduled(p) then Some(Str("APPOINTMENT_SET")) else None
  {
    if p.appointment.Some? { FirstOfWhen(v, ScheduledFor(p.appointment.value), Falsies, "APPOINTMENT_SET"); }
  }

  lemma StageByCall(v: Option<Value>, p: Payload)
    ensures FirstAdmitted(v, FromCall(p, LifecycleStage))
         == if Blank(v) && Falsy(v) && OutboundCall(p) then Some(Str("ATTEMPTING_CONTACT")) else None
  {
    FirstOfWhen(v, OutboundCall(p), Falsies, "ATTEMPTING_CONTACT");
  }

  lemma StageByAi(v: Option<Value>, p: Payload)
    ensures FirstAdmitted(v, FromAi(p, LifecycleStage))
         == if Nullish(v) && AiSaysBooked(p) then Some(Str("APPOINTMENT_SET")) else None
  {
    FirstOfWhen(v, AiSaysBooked(p), Missings, "APPOINTMENT_SET");
  }

  /** The lifecycle stage after enrichment, from the payload alone. */
  lemma StageExactly(p: Payload)
    ensures var v := Get(p.state, LifecycleStage);
      Get(Enriched(p).state, LifecycleStage)
        == if !Blank(v) then v
           else if Falsy(v) && Scheduled(p) then Some(Str("APPOINTMENT_SET"))
           else if Falsy(v) && OutboundCall(p) then Some(Str("ATTEMPTING_CONTACT"))
           else if Nullish(v) && AiSaysBooked(p) then Some(Str("APPOINTMENT_SET"))
           else OrElse(ByDefault(p.event, LifecycleStage), v)
  {
    var v := Get(p.state, LifecycleStage);
    BlocksDecide(p, LifecycleStage);
    StageByAppointment(v, p);
    StageByCall(v, p);
    StageByAi(v, p);
    FirstOfDefault(p, v, LifecycleStage);
  }

  /** What the appointment block says of the appointment's status. */
  function StatusReport(a: Appointment): Option<Value> {
    if Visible(a.appointmentStatus) then Some(Str(Trim(a.appointmentStatus.value)))
    else if Visible(a.status) then Some(Str(Trim(a.status.value)))
    else None
  }

  lemma StatusByAppointment(v: Option<Value>, a: Appointment)
    ensures FirstAdmitted(v, AppointmentOffers(a, AppointmentStatus)) == if Blank(v) then StatusReport(a) else None
  {
    FirstOfPicked(v, Blanks, a.appointmentStatus);
    FirstOfPicked(v, Blanks, a.status);
  }

  lemma StatusByAi(v: Option<Value>, p: Payload)
    ensures FirstAdmitted(v, FromAi(p, AppointmentStatus))
         == if Nullish(v) && AiSaysBooked(p) then Some(Str("Scheduled")) else None
  {
    FirstOfWhen(v, AiSaysBooked(p), Missings, "Scheduled");
  }

  lemma AppointmentStatusExactly(p: Payload)
    ensures var v := Get(p.state, AppointmentStatus);
      Get(Enriched(p).state, AppointmentStatus)
        == if !Blank(v) then v
           else if p.appointment.Some? && StatusReport(p.appointment.value).Some? then StatusReport(p.appointment.value)
           else if Nullish(v) && AiSaysBooked(p) then Some(Str("Scheduled"))
           else OrElse(ByDefault(p.event, AppointmentStatus), v)
  {
    var v := Get(p.state, AppointmentStatus);
    BlocksDecide(p, AppointmentStatus);
    if p.appointment.Some? { StatusByAppointment(v, p.appointment.value); }
    StatusByAi(v, p);
    FirstOfDefault(p, v, AppointmentStatus);
  }

  lemma AgentByCall(v: Option<Value>, p: Payload)
    ensures FirstAdmitted(v, FromCall(p, AgentDisposition))
         == if Nullish(v) && p.call.Some? && Visible(p.call.value.outcome)
            then Some(Str(Trim(p.call.value.outcome.value))) else None
  {
    if p.call.Some? { FirstOfPicked(v, Missings, p.call.value.outcome); }
  }

  lemma AgentByCode(v: Option<Value>, p: Payload)
    ensures FirstAdmitted(v, FromDisposition(p, AgentDisposition))
         == if Nullish(v) && p.disposition.Some? && Visible(p.disposition.value.code)
            then Some(Str(Trim(p.disposition.value.code.value))) else None
  {
    if p.disposition.Some? { FirstOfPicked(v, Missings, p.disposition.value.code); }
  }

  lemma AgentDispositionExactly(p: Payload)
    ensures var v := Get(p.state, AgentDisposition);
      Get(Enriched(p).state, AgentDisposition)
        == if !Blank(v) then v
           else if Nullish(v) && p.call.Some? && Visible(p.call.value.outcome)
             then Some(Str(Trim(p.call.value.outcome.value)))
           else if ByDefault(p.event, AgentDisposition).Some? then ByDefault(p.event, AgentDisposition)
           else if Nullish(v) && p.disposition.Some? && Visible(p.disposition.value.code)
             then Some(Str(Trim(p.disposition.value.code.value)))
           else v
  {
    var v := Get(p.state, AgentDisposition);
    BlocksDecide(p, AgentDisposition);
    AgentByCall(v, p);
    FirstOfDefault(p, v, AgentDisposition);
    AgentByCode(v, p);
  }

  /** `t` is `word`, in small letters or capitals. */
  predicate Spells(t: string, word: string) {
    && |t| == |word|
    && forall i | 0 <= i < |t| :: t[i] == word[i] || ('A' <= t[i] <= 'Z' && t[i] + ('a' - 'A') == word[i])
  }

  predicate PlainWord(word: string) { forall c | c in word :: '0' <= c <= '9' || 'a' <= c <= 'z' }

  lemma {:induction false} LowerSpells(t: string, word: string)
    requires PlainWord(word)
    ensures LowerCase(t) == word <==> Spells(t, word)
  {
    if t != "" {
      var rest := LowerCase(t[1..]);
      if t[0] == '\U{0130}' {
        assert LowerCase(t)[1] == '\U{0307}';
        if word != "" { assert word[0] in word; }
        if |word| > 1 { assert word[1] in word; }
      } else {
        assert LowerCase(t) == [Text.Lower(t[0])] + rest;
        if word != "" {
          assert forall c | c in word[1..] :: c in word;
          LowerSpells(t[1..], word[1..]);
          assert word == [word[0]] + word[1..] && word[0] in word;
          if LowerCase(t) == word { assert LowerCase(t)[1..] == rest; }
          if Spells(t, word) {
            forall i | 0 <= i < |t[1..]| ensures t[1..][i] == t[i + 1] && word[1..][i] == word[i + 1] { }
            assert Spells(t[1..], word[1..]);
          }
          if Spells(t[1..], word[1..]) && |t| == |word| {
            forall i | 0 < i < |t| ensures t[i] == t[1..][i - 1] && word[i] == word[1..][i - 1] { }
          }
        }
      }
    }
  }

  /** A legacy policy status says issued. */
  predicate SaysIssued(policy: Policy) { Visible(policy.status) && Spells(Trim(policy.status.value), "issued") }

  lemma IssuedExactly(policy: Policy)
    ensures LegacyIssued(policy) <==> SaysIssued(policy)
  {
    var word := "issued";
    assert PlainWord(word);
    if Visible(policy.status) { LowerSpells(Trim(policy.status.value), word); }
  }

  lemma PolicyStatusExactly(p: Payload)
    ensures var v := Get(p.state, PolicyStatus);
      Get(Enriched(p).state, PolicyStatus)
        == if !Blank(v) then v
           else if p.policy.Some? && Visible(p.policy.value.policyStatus)
             then Some(Str(Trim(p.policy.value.policyStatus.value)))
           else if Falsy(v) && p.policy.Some? && SaysIssued(p.policy.value) then Some(Str("ISSUED"))
           else OrElse(ByDefault(p.event, PolicyStatus), v)
  {
    var v := Get(p.state, PolicyStatus);
    BlocksDecide(p, PolicyStatus);
    FirstOfDefault(p, v, PolicyStatus);
    if p.policy.Some? { FirstOfPolicy(v, p.policy.value); }
  }

  lemma FirstOfPolicy(v: Option<Value>, policy: Policy)
    ensures FirstAdmitted(v, PolicyOffers(policy, PolicyStatus))
         == if Blank(v) && Visible(policy.policyStatus) then Some(Str(Trim(policy.policyStatus.value)))
            else if Blank(v) && Falsy(v) && SaysIssued(policy) then Some(Str("ISSUED"))
            else None
  {
    FirstInTwo(v, Offered(Blanks, PickStr(policy.policyStatus)), When(LegacyIssued(policy), Falsies, "ISSUED"));
    FirstOfPicked(v, Blanks, policy.policyStatus);
    FirstOfWhen(v, LegacyIssued(policy), Falsies, "ISSUED");
    IssuedExactly(policy);
  }

  /** The letters a and i side by side, small or capital; a dotted capital I counts. */
  predicate SaysAi(s: string) {
    exists i: nat | i + 1 < |s| :: AiHere(s[i], s[i + 1])
  }

  predicate AiHere(c: char, d: char) { (c == 'a' || c == 'A') && (d == 'i' || d == 'I' || d == '\U{0130}') }

  lemma {:induction false} LowerSaysAi(s: string)
    ensures Occurs("ai", LowerCase(s)) <==> SaysAi(s)
  {
    if s != "" {
      var rest, low := s[1..], LowerCase(s[1..]);
      LowerSaysAi(rest);
      var head := if s[0] == '\U{0130}' then ['i', '\U{0307}'] else [Text.Lower(s[0])];
      assert LowerCase(s) == head + low;
      AiInFront(head, low);
      if rest != "" {
        assert rest[0] == s[1];
        assert low[0] == (if rest[0] == '\U{0130}' then 'i' else Text.Lower(rest[0]));
      }
      SaysAiInFront(s);
    }
  }

  lemma AiInFront(head: string, low: string)
    requires 1 <= |head| <= 2 && (|head| == 2 ==> head == ['i', '\U{0307}'])
    ensures Occurs("ai", head + low)
       <==> Occurs("ai", low) || (|head| == 1 && head[0] == 'a' && low != "" && low[0] == 'i')
  {
    var text := head + low;
    if i: nat :| i <= |text| && At(text, "ai", i) {
      AtMeansEqual(text, "ai", i);
      if i >= |head| { AtBehind(head, low, "ai", i); } else { assert text[i] == 'a' && text[i + 1] == 'i'; }
    }
    if |head| == 1 && head[0] == 'a' && low != "" && low[0] == 'i' {
      AtMeansEqual(text, "ai", 0);
      assert At(text, "ai", 0);
    }
    if Occurs("ai", low) {
      assert text[|head|..] == low;
      OccursInRest("ai", text, |head|);
    }
  }

  lemma SaysAiInFront(s: string)
    requires s != ""
    ensures SaysAi(s) <==> SaysAi(s[1..]) || (|s| > 1 && AiHere(s[0], s[1]))
  {
    if i: nat :| i + 1 < |s| && AiHere(s[i], s[i + 1]) && i > 0 {
      assert s[1..][i - 1] == s[i] && s[1..][i - 1 + 1] == s[i + 1];
      assert AiHere(s[1..][i - 1], s[1..][i - 1 + 1]);
    }
    if SaysAi(s[1..]) {
      var i: nat :| i + 1 < |s[1..]| && AiHere(s[1..][i], s[1..][i + 1]);
      assert AiHere(s[i + 1], s[i + 1 + 1]);
    }
  }

  /** The appointment names an AI as its source, or flags one as the booker. */
  predicate AiBookedIt(a: Appointment) {
    || (if Visible(a.bookingSource) then SaysAi(Trim(a.bookingSource.value))
        else Visible(a.source) && SaysAi(Trim(a.source.value)))
    || a.aiBooked == Some(Bool(true))
    || (a.aiBooked.Some? && a.aiBooked.value.Str? && SaysYes(Trim(a.aiBooked.value.s)))
  }

  predicate SaysYes(t: string) { Spells(t, "true") || Spells(t, "1") || Spells(t, "yes") }

  lemma YesExactly(t: string)
    ensures LowerCase(t) in ["true", "1", "yes"] <==> SaysYes(t)
  {
    LowerSpells(t, "true");
    LowerSpells(t, "1");
    LowerSpells(t, "yes");
  }

  lemma AiBookedExactly(a: Appointment)
    ensures BookedByAi(a) || PickTruthyFlag(a.aiBooked) <==> AiBookedIt(a)
  {
    if Visible(a.bookingSource) { LowerSaysAi(Trim(a.bookingSource.value)); }
    if Visible(a.source) { LowerSaysAi(Trim(a.source.value)); }
    if a.aiBooked.Some? && a.aiBooked.value.Str? { YesExactly(Trim(a.aiBooked.value.s)); }
  }

  /** What the AI block says of the AI status. */
  function AiReport(a: Ai, booked: string, notBooked: string): Option<Value> {
    if Visible(a.outcome) then Some(Str(Trim(a.outcome.value)))
    else if a.booked == Some(true) then Some(Str(booked))
    else if a.booked == Some(false) then Some(Str(notBooked))
    else if Visible(a.failureReason) then Some(Str(Trim(a.failureReason.value)))
    else None
  }

  lemma ReportIsStatus(v: Option<Value>, a: Ai, booked: string, notBooked: string)
    ensures FirstAdmitted(v, Offered(Missings, StatusByBooking(a, booked, notBooked)))
         == if Nullish(v) then AiReport(a, booked, notBooked) else None
  {
  }

  lemma FirstOfAppointmentAi(v: Option<Value>, a: Appointment)
    ensures FirstAdmitted(v, AppointmentOffers(a, AiStatus))
         == if Blank(v) && Falsy(v) && AiBookedIt(a) then Some(Str("booked_by_ai")) else None
  {
    AiBookedExactly(a);
    var named, flagged := When(BookedByAi(a), Falsies, "booked_by_ai"),
                          When(PickTruthyFlag(a.aiBooked), Falsies, "booked_by_ai");
    FirstInTwo(v, named, flagged);
    FirstOfWhen(v, BookedByAi(a), Falsies, "booked_by_ai");
    FirstOfWhen(v, PickTruthyFlag(a.aiBooked), Falsies, "booked_by_ai");
  }

  lemma AiByReport(v: Option<Value>, p: Payload)
    ensures FirstAdmitted(v, FromAi(p, AiStatus))
         == if Nullish(v) && p.ai.Some? then AiReport(p.ai.value, "booked_by_bot", "not_booked") else None
  {
    if p.ai.Some? { ReportIsStatus(v, p.ai.value, "booked_by_bot", "not_booked"); }
  }

  lemma AiByAppointment(v: Option<Value>, p: Payload)
    ensures FirstAdmitted(v, FromAppointment(p, AiStatus))
         == if Blank(v) && Falsy(v) && p.appointment.Some? && AiBookedIt(p.appointment.value)
            then Some(Str("booked_by_ai")) else None
  {
    if p.appointment.Some? { FirstOfAppointmentAi(v, p.appointment.value); }
  }

  lemma AiStatusExactly(p: Payload)
    ensures var v := Get(p.state, AiStatus);
      Get(Enriched(p).state, AiStatus)
        == if !Blank(v) then v
           else if Falsy(v) && p.appointment.Some? && AiBookedIt(p.appointment.value) then Some(Str("booked_by_ai"))
           else if Nullish(v) && p.ai.Some? && AiReport(p.ai.value, "booked_by_bot", "not_booked").Some?
             then AiReport(p.ai.value, "booked_by_bot", "not_booked")
           else OrElse(ByDefault(p.event, AiStatus), v)
  {
    var v := Get(p.state, AiStatus);
    BlocksDecide(p, AiStatus);
    AiByAppointment(v, p);
    AiByReport(v, p);
    FirstOfDefault(p, v, AiStatus);
  }

  /** The flag comes from the event alone, and three fields from nowhere. */
  lemma RestExactly(p: Payload, f: Field)
    requires f in {DeadLeadFlag, LeadType, LeadStatus, RoutingStatus}
    ensures var v := Get(p.state, f);
      Get(Enriched(p).state, f)
        == if f.DeadLeadFlag? && p.event.DeadLead? && Blank(v) then Some(Bool(true)) else v
  {
    BlocksDecide(p, f);
    FirstOfDefault(p, Get(p.state, f), f);
  }
}
