/**
 The login-failure limiter with attempts in flight. The login checks the limit, awaits the token,
 and only then records a failure or clears the address; other attempts run in between, each with a
 later reading of the clock. How far a limit is overrun depends on how many are in flight at once.
 */
module MetaReviewerInFlight {
  import opened Windows
  import opened MetaReviewerRateLimit

  /**
   `inFlight` are the attempts that passed the check and have not finished, with their addresses. The
   rest is history: all failures; those stored in each address's bucket and all failures of each
   address, since its last clear; and the failures that a full map left unstored.
   */
  datatype State = State(
    table: Table, clock: int, inFlight: map<nat, string>,
    total: seq<Entry>, stored: map<string, seq<Entry>>, failed: map<string, seq<Entry>>, unstored: seq<Entry>)

  /** `Abandon` is an attempt that ends without recording or clearing, as when its await throws. */
  datatype Event = Begin(a: nat, key: string, now: int)
                 | Fail(a: nat, now: int)
                 | Succeed(a: nat, now: int)
                 | Abandon(a: nat, now: int)

  /** The clock does not go back, and no address is named like the shared bucket. */
  predicate Enabled(s: State, e: Event) {
    && s.clock <= e.now
    && match e
       case Begin(a, key, _) => a !in s.inFlight && key != GLOBAL_KEY
       case _ => e.a in s.inFlight
  }

  function LogOf(logs: map<string, seq<Entry>>, key: string): seq<Entry> {
    if key in logs then logs[key] else []
  }

  /** The instant the shared window opened in which something happened that left this map. */
  function SharedStart(t: Table, now: int): int {
    if GLOBAL_KEY in t then t[GLOBAL_KEY].resetAt - WINDOW_MS else now
  }

  /** A failure without a bucket of its own counts in the window of the shared bucket. */
  function ExtendUnstored(log: seq<Entry>, t: Table, now: int): seq<Entry> {
    var start := SharedStart(t, now);
    log + [Entry(now, start, if log != [] && Last(log).start == start then Last(log).rank + 1 else 1)]
  }

  function RecordFailed(s: State, key: string, now: int): State {
    var t := Record(s.table, key, now);
    var stored := Extend(LogOf(s.stored, key), now, key in Live(s.table, key, now));
    var unstored := ExtendUnstored(s.unstored, t, now);
    s.(table := t, clock := now,
       total := Extend(s.total, now, GLOBAL_KEY in Live(s.table, GLOBAL_KEY, now)),
       stored := if key in t then s.stored[key := stored] else s.stored,
       unstored := if key in t then s.unstored else unstored,
       failed := s.failed[key := LogOf(s.failed, key) + [Last(if key in t then stored else unstored)]])
  }

  function Cleared(s: State, key: string): State {
    s.(table := s.table - {key}, stored := s.stored - {key}, failed := s.failed - {key})
  }

  function Step(s: State, e: Event): State
    requires Enabled(s, e)
  {
    match e
    case Begin(a, key, now) =>
      s.(table := Checked(s.table, key, now), clock := now,
         inFlight := if Limited(s.table, key, now) then s.inFlight else s.inFlight[a := key])
    case Fail(a, now) => RecordFailed(s, s.inFlight[a], now).(inFlight := s.inFlight - {a})
    case Succeed(a, now) =>
      Cleared(s.(clock := now, inFlight := s.inFlight - {a}), s.inFlight[a])
    case Abandon(a, now) => s.(clock := now, inFlight := s.inFlight - {a})
  }

  predicate IsRun(states: seq<State>, events: seq<Event>) {
    && |states| == |events| + 1
    && states[0] == State(map[], states[0].clock, map[], [], map[], map[], [])
    && forall i | 0 <= i < |events| :: Enabled(states[i], events[i]) && states[i + 1] == Step(states[i], events[i])
  }

  /** Never more than `most` attempts at once. */
  predicate AtMost(states: seq<State>, most: nat) {
    forall i | 0 <= i < |states| :: |states[i].inFlight| <= most
  }

  // ---- The attempts in flight ----

  function Waiting(inFlight: map<nat, string>, key: string): set<nat> {
    set a | a in inFlight && inFlight[a] == key
  }

  lemma InFlightSize(m: map<nat, string>, a: nat, key: string)
    ensures |m - {a}| == if a in m then |m| - 1 else |m|
    ensures |m[a := key]| == if a in m then |m| else |m| + 1
  {
    assert (m - {a}).Keys == m.Keys - {a} && m[a := key].Keys == m.Keys + {a};
    assert |m.Keys| == |m| && |(m - {a}).Keys| == |m - {a}| && |m[a := key].Keys| == |m[a := key]|;
  }

  lemma WaitingWithout(m: map<nat, string>, a: nat, key: string)
    requires a in m
    ensures |Waiting(m - {a}, key)| == |Waiting(m, key)| - if m[a] == key then 1 else 0
  {
    assert Waiting(m - {a}, key) == if m[a] == key then Waiting(m, key) - {a} else Waiting(m, key);
  }

  lemma WaitingWith(m: map<nat, string>, a: nat, k: string, key: string)
    requires a !in m
    ensures |Waiting(m[a := k], key)| == |Waiting(m, key)| + if k == key then 1 else 0
  {
    assert Waiting(m[a := k], key) == if k == key then Waiting(m, key) + {a} else Waiting(m, key);
  }

  lemma WaitingIsSome(m: map<nat, string>, key: string)
    ensures |Waiting(m, key)| <= |m|
  {
    assert Waiting(m, key) <= m.Keys;
    SubsetSize(Waiting(m, key), m.Keys);
    assert |m.Keys| == |m|;
  }

  lemma {:induction false} SubsetSize(a: set<nat>, b: set<nat>)
    requires a <= b
    ensures |a| <= |b|
  {
    if a != {} {
      var x :| x in a;
      SubsetSize(a - {x}, b - {x});
    }
  }

  // ---- The shared bucket ----

  /** The most one window can hold: the last attempt within the limit, and all that were in flight beside it. */
  function WindowLimit(limit: nat, most: nat): nat
    requires 1 <= limit
  {
    limit + most - 1
  }

  /** Once the shared bucket is spent, what its window holds and what is in flight stay within the limit of a window. */
  predicate GlobalInFlight(t: Table, clock: int, total: seq<Entry>, waiting: nat, most: nat) {
    && Windowed(total, WINDOW_MS, WindowLimit(GLOBAL_MAX_FAILURES, most))
    && PastOnly(total, clock)
    && (if GLOBAL_KEY in t then
          var b := t[GLOBAL_KEY];
          && total != [] && Last(total).start + WINDOW_MS == b.resetAt
          && (b.failures == Last(total).rank || GLOBAL_MAX_FAILURES <= b.failures)
          && (GLOBAL_MAX_FAILURES <= b.failures ==>
                Last(total).rank + waiting <= WindowLimit(GLOBAL_MAX_FAILURES, most))
        else Over(total, clock))
  }

  /**
   What a failure leaves of the shared bucket, whatever it finds; if it is left unstored itself, that bucket is
   spent.
   */
  lemma RecordedShared(t: Table, key: string, now: int)
    requires Fits(t) && key != GLOBAL_KEY
    ensures var t1, t' := Live(t, GLOBAL_KEY, now), Record(t, key, now);
            && GLOBAL_KEY in t'
            && t'[GLOBAL_KEY].resetAt == (if GLOBAL_KEY in t1 then t1[GLOBAL_KEY].resetAt else now + WINDOW_MS)
            && (|| t'[GLOBAL_KEY].failures == Failures(t, GLOBAL_KEY, now) + 1
                || GLOBAL_MAX_FAILURES <= t'[GLOBAL_KEY].failures)
            && Failures(t, GLOBAL_KEY, now) < t'[GLOBAL_KEY].failures
            && (key !in t' ==> GLOBAL_MAX_FAILURES <= t'[GLOBAL_KEY].failures)
  {
    GlobalBumpIsStored(t, now);
    var t2 := Bump(t, GLOBAL_KEY, now);
    var t3 := Live(t2, key, now);
    assert Live(t3, GLOBAL_KEY, now) == t3;
  }

  /** A look at the map keeps the invariant. */
  lemma GlobalLook(t: Table, clock: int, total: seq<Entry>, waiting: nat, most: nat, key: string, now: int)
    requires GlobalInFlight(t, clock, total, waiting, most) && clock <= now
    ensures GlobalInFlight(Live(t, key, now), now, total, waiting, most)
  {
  }

  lemma GlobalFailure(t: Table, clock: int, total: seq<Entry>, waiting: nat, most: nat, key: string, now: int)
    requires Fits(t) && GlobalInFlight(t, clock, total, waiting, most) && clock <= now && key != GLOBAL_KEY
    requires 1 <= waiting <= most
    ensures var total' := Extend(total, now, GLOBAL_KEY in Live(t, GLOBAL_KEY, now));
            GlobalInFlight(Record(t, key, now), now, total', waiting - 1, most)
  {
    RecordedShared(t, key, now);
    GlobalLook(t, clock, total, waiting, most, GLOBAL_KEY, now);
    ExtendKeepsWindowed(total, WINDOW_MS, WindowLimit(GLOBAL_MAX_FAILURES, most), now,
                        GLOBAL_KEY in Live(t, GLOBAL_KEY, now));
  }

  // ---- The bucket of an address ----

  /** The same of an address: `waiting` are its own attempts in flight, and its history is what its buckets stored. */
  predicate KeyInFlight(t: Table, clock: int, log: seq<Entry>, waiting: nat, most: nat, key: string) {
    && Windowed(log, WINDOW_MS, WindowLimit(MAX_FAILURES, most))
    && PastOnly(log, clock)
    && (if key in t then
          && log != [] && Last(log).start + WINDOW_MS == t[key].resetAt
          && t[key].failures == Last(log).rank
          && (MAX_FAILURES <= t[key].failures ==> Last(log).rank + waiting <= WindowLimit(MAX_FAILURES, most))
        else Over(log, clock))
  }

  lemma KeyLook(t: Table, clock: int, log: seq<Entry>, waiting: nat, most: nat, key: string, looked: string, now: int)
    requires KeyInFlight(t, clock, log, waiting, most, key) && clock <= now
    ensures KeyInFlight(Live(t, looked, now), now, log, waiting, most, key)
  {
  }

  /** A bump keeps every other address's bucket. */
  lemma BumpedOther(t: Table, key: string, now: int, other: string)
    requires other != key && other != GLOBAL_KEY
    ensures var t' := Bump(t, key, now);
            (other in t' <==> other in t) && (other in t ==> t'[other] == t[other])
  {
  }

  /** What a failure leaves of its own bucket and of the others. */
  lemma RecordedOwn(t: Table, key: string, now: int)
    requires Fits(t) && key != GLOBAL_KEY
    ensures var t1, t' := Live(t, key, now), Record(t, key, now);
            if key in t1 then key in t' && t'[key] == t1[key].(failures := t1[key].failures + 1)
            else key in t' ==> t'[key] == Bucket(1, now + WINDOW_MS)
  {
    BumpedOther(t, GLOBAL_KEY, now, key);
  }

  lemma RecordedOther(t: Table, key: string, now: int, other: string)
    requires other != key && other != GLOBAL_KEY
    ensures var t' := Record(t, key, now);
            (other in t' <==> other in t) && (other in t ==> t'[other] == t[other])
  {
    BumpedOther(t, GLOBAL_KEY, now, other);
    BumpedOther(Bump(t, GLOBAL_KEY, now), key, now, other);
  }

  lemma KeyFailure(t: Table, clock: int, log: seq<Entry>, waiting: nat, most: nat, key: string, now: int)
    requires Fits(t) && KeyInFlight(t, clock, log, waiting, most, key) && clock <= now && key != GLOBAL_KEY
    requires 1 <= waiting <= most
    ensures var t' := Record(t, key, now);
            var log' := if key in t' then Extend(log, now, key in Live(t, key, now)) else log;
            KeyInFlight(t', now, log', waiting - 1, most, key)
  {
    RecordedOwn(t, key, now);
    KeyLook(t, clock, log, waiting, most, key, key, now);
    if key in Record(t, key, now) {
      ExtendKeepsWindowed(log, WINDOW_MS, WindowLimit(MAX_FAILURES, most), now, key in Live(t, key, now));
    }
  }

  // ---- The failures that are left unstored ----

  /** While the shared window in which one was left unstored lasts, nobody is admitted. */
  predicate UnstoredInFlight(t: Table, clock: int, log: seq<Entry>, waiting: nat, most: nat) {
    && Inside(log, WINDOW_MS, most)
    && PastOnly(log, clock)
    && (log != [] ==>
          if GLOBAL_KEY !in t then Last(log).start + WINDOW_MS <= clock
          else if Last(log).start + WINDOW_MS == t[GLOBAL_KEY].resetAt then
            GLOBAL_MAX_FAILURES <= t[GLOBAL_KEY].failures && Last(log).rank + waiting <= most
          else Last(log).start + WINDOW_MS <= t[GLOBAL_KEY].resetAt - WINDOW_MS)
  }

  lemma UnstoredLook(t: Table, clock: int, log: seq<Entry>, waiting: nat, most: nat, key: string, now: int)
    requires UnstoredInFlight(t, clock, log, waiting, most) && clock <= now
    ensures UnstoredInFlight(Live(t, key, now), now, log, waiting, most)
  {
  }

  lemma UnstoredFailure(t: Table, clock: int, log: seq<Entry>, waiting: nat, most: nat, key: string, now: int)
    requires Fits(t) && UnstoredInFlight(t, clock, log, waiting, most) && clock <= now && key != GLOBAL_KEY
    requires GLOBAL_KEY in t ==> t[GLOBAL_KEY].resetAt - WINDOW_MS <= clock
    requires 1 <= waiting <= most
    ensures var t' := Record(t, key, now);
            var log' := if key in t' then log else ExtendUnstored(log, t', now);
            UnstoredInFlight(t', now, log', waiting - 1, most)
  {
    RecordedShared(t, key, now);
    UnstoredLook(t, clock, log, waiting, most, GLOBAL_KEY, now);
    var t' := Record(t, key, now);
    if key !in t' { JoinUnstored(t', log, now, most); }
  }

  lemma JoinUnstored(t: Table, log: seq<Entry>, now: int, most: nat)
    requires Inside(log, WINDOW_MS, most) && PastOnly(log, now) && GLOBAL_KEY in t && 1 <= most
    requires t[GLOBAL_KEY].resetAt - WINDOW_MS <= now < t[GLOBAL_KEY].resetAt
    requires log != [] ==>
      if Last(log).start + WINDOW_MS == t[GLOBAL_KEY].resetAt then Last(log).rank < most
      else Last(log).start + WINDOW_MS <= t[GLOBAL_KEY].resetAt - WINDOW_MS
    ensures Inside(ExtendUnstored(log, t, now), WINDOW_MS, most)
  {
    var longer := ExtendUnstored(log, t, now);
    forall i | 0 < i < |longer| ensures Joins(longer[i - 1], longer[i], WINDOW_MS) {
      if i < |log| { assert Joins(log[i - 1], log[i], WINDOW_MS); }
    }
  }

  // ---- The invariant ----

  predicate KeyTracked(s: State, most: nat, key: string) {
    KeyInFlight(s.table, s.clock, LogOf(s.stored, key), |Waiting(s.inFlight, key)|, most, key)
  }

  ghost predicate Tracked(s: State, most: nat) {
    && Fits(s.table)
    && GlobalInFlight(s.table, s.clock, s.total, |s.inFlight|, most)
    && UnstoredInFlight(s.table, s.clock, s.unstored, |s.inFlight|, most)
    && (forall key :: key != GLOBAL_KEY ==> KeyTracked(s, most, key))
    && forall a | a in s.inFlight :: s.inFlight[a] != GLOBAL_KEY
  }

  lemma CheckKeeps(s: State, most: nat, key: string, now: int)
    requires Tracked(s, most) && s.clock <= now
    ensures Tracked(s.(table := Checked(s.table, key, now), clock := now), most)
  {
    CheckedKeepsFits(s.table, key, now);
    var t1 := Live(s.table, GLOBAL_KEY, now);
    GlobalLook(s.table, s.clock, s.total, |s.inFlight|, most, GLOBAL_KEY, now);
    GlobalLook(t1, now, s.total, |s.inFlight|, most, key, now);
    UnstoredLook(s.table, s.clock, s.unstored, |s.inFlight|, most, GLOBAL_KEY, now);
    UnstoredLook(t1, now, s.unstored, |s.inFlight|, most, key, now);
    var s' := s.(table := Checked(s.table, key, now), clock := now);
    forall k | k != GLOBAL_KEY ensures KeyTracked(s', most, k) {
      assert KeyTracked(s, most, k);
      KeyLook(s.table, s.clock, LogOf(s.stored, k), |Waiting(s.inFlight, k)|, most, k, GLOBAL_KEY, now);
      KeyLook(t1, now, LogOf(s.stored, k), |Waiting(s.inFlight, k)|, most, k, key, now);
    }
  }

  lemma AdmitKeepsKey(s: State, most: nat, a: nat, key: string, k: string)
    requires KeyTracked(s, most, k) && a !in s.inFlight
    requires key in s.table ==> s.table[key].failures < MAX_FAILURES
    ensures KeyTracked(s.(inFlight := s.inFlight[a := key]), most, k)
  {
    WaitingWith(s.inFlight, a, key, k);
  }

  /** An attempt is admitted only while neither its own limit nor the shared one is spent. */
  lemma AdmitKeeps(s: State, most: nat, a: nat, key: string)
    requires Tracked(s, most) && a !in s.inFlight && key != GLOBAL_KEY
    requires GLOBAL_KEY in s.table ==> s.table[GLOBAL_KEY].failures < GLOBAL_MAX_FAILURES
    requires key in s.table ==> s.table[key].failures < MAX_FAILURES
    ensures Tracked(s.(inFlight := s.inFlight[a := key]), most)
  {
    var s' := s.(inFlight := s.inFlight[a := key]);
    forall k | k != GLOBAL_KEY ensures KeyTracked(s', most, k) {
      AdmitKeepsKey(s, most, a, key, k);
    }
  }

  lemma BeginKeeps(s: State, e: Event, most: nat)
    requires Tracked(s, most) && e.Begin? && Enabled(s, e)
    ensures Tracked(Step(s, e), most)
  {
    CheckKeeps(s, most, e.key, e.now);
    if !Limited(s.table, e.key, e.now) {
      UnlimitedAdmits(s.table, e.key, e.now);
      AdmitKeeps(s.(table := Checked(s.table, e.key, e.now), clock := e.now), most, e.a, e.key);
    }
  }

  lemma FailKeepsKey(s: State, e: Event, most: nat, key: string)
    requires Tracked(s, most) && e.Fail? && Enabled(s, e) && |s.inFlight| <= most && key != GLOBAL_KEY
    ensures KeyTracked(Step(s, e), most, key)
  {
    assert KeyTracked(s, most, key);
    var own := s.inFlight[e.a];
    WaitingWithout(s.inFlight, e.a, key);
    if key == own {
      WaitingIsSome(s.inFlight, key);
      assert e.a in Waiting(s.inFlight, key);
      KeyFailure(s.table, s.clock, LogOf(s.stored, key), |Waiting(s.inFlight, key)|, most, key, e.now);
    } else {
      RecordedOther(s.table, own, e.now, key);
    }
  }

  lemma FailKeeps(s: State, e: Event, most: nat)
    requires Tracked(s, most) && e.Fail? && Enabled(s, e) && |s.inFlight| <= most
    ensures Tracked(Step(s, e), most)
  {
    var key := s.inFlight[e.a];
    InFlightSize(s.inFlight, e.a, "");
    RecordKeepsFits(s.table, key, e.now);
    GlobalFailure(s.table, s.clock, s.total, |s.inFlight|, most, key, e.now);
    UnstoredFailure(s.table, s.clock, s.unstored, |s.inFlight|, most, key, e.now);
    forall k | k != GLOBAL_KEY ensures KeyTracked(Step(s, e), most, k) {
      FailKeepsKey(s, e, most, k);
    }
  }

  /** An attempt that ends leaves less in flight. */
  lemma LeaveKeeps(s: State, most: nat, a: nat, now: int)
    requires Tracked(s, most) && a in s.inFlight && s.clock <= now
    ensures Tracked(s.(clock := now, inFlight := s.inFlight - {a}), most)
  {
    var s' := s.(clock := now, inFlight := s.inFlight - {a});
    InFlightSize(s.inFlight, a, "");
    forall k | k != GLOBAL_KEY ensures KeyTracked(s', most, k) {
      assert KeyTracked(s, most, k);
      WaitingWithout(s.inFlight, a, k);
    }
  }

  lemma ClearKeepsShared(s: State, most: nat, key: string)
    requires Tracked(s, most) && key != GLOBAL_KEY
    ensures var t := s.table - {key};
            && Fits(t)
            && GlobalInFlight(t, s.clock, s.total, |s.inFlight|, most)
            && UnstoredInFlight(t, s.clock, s.unstored, |s.inFlight|, most)
  {
    RemoveSize(s.table, key);
  }

  lemma ClearKeepsKey(s: State, most: nat, key: string, k: string)
    requires KeyTracked(s, most, k)
    ensures KeyTracked(Cleared(s, key), most, k)
  {
    assert LogOf(Cleared(s, key).stored, k) == if k == key then [] else LogOf(s.stored, k);
  }

  lemma ClearKeeps(s: State, most: nat, key: string)
    requires Tracked(s, most) && key != GLOBAL_KEY
    ensures Tracked(Cleared(s, key), most)
  {
    ClearKeepsShared(s, most, key);
    forall k | k != GLOBAL_KEY ensures KeyTracked(Cleared(s, key), most, k) {
      ClearKeepsKey(s, most, key, k);
    }
  }

  lemma EndKeeps(s: State, e: Event, most: nat)
    requires Tracked(s, most) && (e.Succeed? || e.Abandon?) && Enabled(s, e)
    ensures Tracked(Step(s, e), most)
  {
    LeaveKeeps(s, most, e.a, e.now);
    if e.Succeed? {
      ClearKeeps(s.(clock := e.now, inFlight := s.inFlight - {e.a}), most, s.inFlight[e.a]);
    }
  }

  lemma {:induction false} RunIsTracked(states: seq<State>, events: seq<Event>, most: nat, n: nat)
    requires IsRun(states, events) && 1 <= most && AtMost(states, most) && n < |states|
    ensures Tracked(states[n], most)
  {
    if n == 0 {
      forall k | k != GLOBAL_KEY ensures KeyTracked(states[0], most, k) {
      }
    } else {
      RunIsTracked(states, events, most, n - 1);
      match events[n - 1] {
        case Begin(_, _, _) => BeginKeeps(states[n - 1], events[n - 1], most);
        case Fail(_, _) => FailKeeps(states[n - 1], events[n - 1], most);
        case _ => EndKeeps(states[n - 1], events[n - 1], most);
      }
    }
  }

  // ---- The bounds ----

  /** With at most `most` attempts in flight, any 15-minute interval holds at most 61 + 2 * most recorded failures. */
  lemma InFlightBound(states: seq<State>, events: seq<Event>, most: nat, n: nat, from: int)
    requires IsRun(states, events) && 1 <= most && AtMost(states, most) && n < |states|
    ensures CountIn(states[n].total, from, WINDOW_MS) <= 2 * GLOBAL_MAX_FAILURES - 3 + 2 * most
  {
    RunIsTracked(states, events, most, n);
    SlidingBound(states[n].total, WINDOW_MS, WindowLimit(GLOBAL_MAX_FAILURES, most), from);
  }

  /** And any one window holds at most 31 + most: the limit is overrun by the other attempts in flight, and no more. */
  lemma WindowBound(states: seq<State>, events: seq<Event>, most: nat, n: nat, start: int)
    requires IsRun(states, events) && 1 <= most && AtMost(states, most) && n < |states|
    ensures CountStartedAt(states[n].total, start) <= GLOBAL_MAX_FAILURES - 1 + most
  {
    RunIsTracked(states, events, most, n);
    WindowHolds(states[n].total, WINDOW_MS, WindowLimit(GLOBAL_MAX_FAILURES, most), start);
  }

  /** At most 2 * most failures in any interval are left unstored, all addresses together. */
  lemma UnstoredBound(states: seq<State>, events: seq<Event>, most: nat, n: nat, from: int)
    requires IsRun(states, events) && 1 <= most && AtMost(states, most) && n < |states|
    ensures CountIn(states[n].unstored, from, WINDOW_MS) <= 2 * most
  {
    RunIsTracked(states, events, most, n);
    InsideBound(states[n].unstored, WINDOW_MS, most, from);
  }

  lemma CountAppend(log: seq<Entry>, e: Entry, from: int)
    ensures CountIn(log + [e], from, WINDOW_MS) ==
            CountIn(log, from, WINDOW_MS) + if from <= e.at < from + WINDOW_MS then 1 else 0
  {
    assert (log + [e])[..|log|] == log;
  }

  /** Every failure of an address is stored in its bucket or among the unstored. */
  predicate Divided(s: State, key: string, from: int) {
    Within(LogOf(s.failed, key), LogOf(s.stored, key), s.unstored, from)
  }

  predicate Within(failed: seq<Entry>, stored: seq<Entry>, unstored: seq<Entry>, from: int) {
    CountIn(failed, from, WINDOW_MS) <= CountIn(stored, from, WINDOW_MS) + CountIn(unstored, from, WINDOW_MS)
  }

  lemma OneMoreWithin(failed: seq<Entry>, stored: seq<Entry>, unstored: seq<Entry>, e: Entry, from: int)
    requires Within(failed, stored, unstored, from)
    ensures Within(failed + [e], stored + [e], unstored, from)
    ensures Within(failed + [e], stored, unstored + [e], from)
    ensures Within(failed, stored, unstored + [e], from)
  {
    CountAppend(failed, e, from);
    CountAppend(stored, e, from);
    CountAppend(unstored, e, from);
  }

  lemma ExtendIsAppend(log: seq<Entry>, now: int, continues: bool)
    ensures Extend(log, now, continues) == log + [Last(Extend(log, now, continues))]
  {
  }

  lemma FailDivides(s: State, own: string, now: int, key: string, from: int)
    requires Divided(s, key, from)
    ensures Divided(RecordFailed(s, own, now), key, from)
  {
    var s' := RecordFailed(s, own, now);
    var failed, stored := LogOf(s.failed, key), LogOf(s.stored, key);
    if own in s'.table {
      ExtendIsAppend(LogOf(s.stored, own), now, own in Live(s.table, own, now));
      if own == key { OneMoreWithin(failed, stored, s.unstored, Last(LogOf(s'.stored, own)), from); }
    } else {
      OneMoreWithin(failed, stored, s.unstored, Last(s'.unstored), from);
    }
  }

  lemma {:induction false} RunDivides(states: seq<State>, events: seq<Event>, n: nat, key: string, from: int)
    requires IsRun(states, events) && n < |states|
    ensures Divided(states[n], key, from)
  {
    if n > 0 {
      RunDivides(states, events, n - 1, key, from);
      var s, e := states[n - 1], events[n - 1];
      if e.Fail? {
        FailDivides(s, s.inFlight[e.a], e.now, key, from);
      }
    }
  }

  /**
   With at most `most` attempts in flight, an address fails at most 13 + 4 * most times in any 15-minute
   interval since its last clear.
   */
  lemma AddressBound(states: seq<State>, events: seq<Event>, most: nat, n: nat, key: string, from: int)
    requires IsRun(states, events) && 1 <= most && AtMost(states, most) && n < |states| && key != GLOBAL_KEY
    ensures CountIn(LogOf(states[n].failed, key), from, WINDOW_MS) <= 2 * MAX_FAILURES - 3 + 4 * most
  {
    RunIsTracked(states, events, most, n);
    assert KeyTracked(states[n], most, key);
    RunDivides(states, events, n, key, from);
    UnstoredBound(states, events, most, n, from);
    SlidingBound(LogOf(states[n].stored, key), WINDOW_MS, WindowLimit(MAX_FAILURES, most), from);
  }
}
