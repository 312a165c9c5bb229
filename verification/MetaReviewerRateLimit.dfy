/**
 The login-failure limiter of the Meta reviewer form: one map of buckets, expired lazily, capped
 at MAX_KEYS entries, with one shared bucket across every address.

 `Limiter` is the value-level specification; the class `Buckets` updates the map in place the way
 the process does, and every method is proved against the specification.
 */
module MetaReviewerRateLimit {
  import opened Wrappers
  import opened Windows

  const WINDOW_MS := 15 * 60 * 1000
  const MAX_FAILURES := 8
  const GLOBAL_MAX_FAILURES := 32
  const MAX_KEYS := 4096
  const GLOBAL_KEY := "__global__"

  datatype Bucket = Bucket(failures: nat, resetAt: int)

  type Table = map<string, Bucket>

  // ---- The map operations ----

  /** What a lookup of `key` leaves in the map: an expired bucket is deleted when it is looked at. */
  function Live(t: Table, key: string, now: int): Table {
    if key in t && t[key].resetAt <= now then t - {key} else t
  }

  function Failures(t: Table, key: string, now: int): nat {
    var live := Live(t, key, now);
    if key in live then live[key].failures else 0
  }

  predicate GlobalSpent(t: Table, now: int) {
    Failures(t, GLOBAL_KEY, now) >= GLOBAL_MAX_FAILURES
  }

  predicate Limited(t: Table, key: string, now: int) {
    var t1 := Live(t, GLOBAL_KEY, now);
    var t2 := Live(t1, key, now);
    || GlobalSpent(t, now)
    || (key !in t2 && |t2| >= MAX_KEYS)
    || Failures(t2, key, now) >= MAX_FAILURES
  }

  /** The map after the limit was checked: the shared bucket, then the address's own, may have been dropped. */
  function Checked(t: Table, key: string, now: int): Table {
    var t1 := Live(t, GLOBAL_KEY, now);
    if GlobalSpent(t, now) then t1 else Live(t1, key, now)
  }

  function Max(a: nat, b: nat): nat { if a < b then b else a }

  /** The branch of a full map: nothing is stored and the shared bucket, if live, is saturated. */
  function Saturate(t: Table, now: int): Table {
    var t1 := Live(t, GLOBAL_KEY, now);
    if GLOBAL_KEY in t1 then
      t1[GLOBAL_KEY := t1[GLOBAL_KEY].(failures := Max(t1[GLOBAL_KEY].failures, GLOBAL_MAX_FAILURES))]
    else t1
  }

  function Bump(t: Table, key: string, now: int): Table {
    var t1 := Live(t, key, now);
    if key in t1 then t1[key := t1[key].(failures := t1[key].failures + 1)]
    else if |t1| >= MAX_KEYS then Saturate(t1, now)
    else t1[key := Bucket(1, now + WINDOW_MS)]
  }

  function Record(t: Table, key: string, now: int): Table {
    var t1 := Bump(t, GLOBAL_KEY, now);
    if key == GLOBAL_KEY then t1 else Bump(t1, key, now)
  }

  // ---- Runs ----

  /**
   The map together with the history of what was recorded, in total and by address, and the shared
   windows, named by their first instant, in which a failure was left unstored.
   */
  datatype Limiter = Limiter(
    table: Table, clock: int, total: seq<Entry>, perKey: map<string, seq<Entry>>, shut: set<int>)

  /** `Guarded` records a failure unless limited; `Unguarded` records it whatever the limit says. */
  datatype Op = Check(key: string, now: int)
              | Guarded(key: string, now: int)
              | Unguarded(key: string, now: int)
              | Clear(key: string)

  function Last(log: seq<Entry>): Entry requires log != [] { log[|log| - 1] }

  function KeyLog(s: Limiter, key: string): seq<Entry> {
    if key in s.perKey then s.perKey[key] else []
  }

  /** One recorded failure. It counts in the history even when a full map leaves it unstored. */
  function Fail(s: Limiter, key: string, now: int): Limiter {
    var total := Extend(s.total, now, GLOBAL_KEY in Live(s.table, GLOBAL_KEY, now));
    Limiter(
      Record(s.table, key, now),
      now,
      total,
      s.perKey[key := Extend(KeyLog(s, key), now, key in Live(s.table, key, now))],
      if key in Record(s.table, key, now) then s.shut else s.shut + {Last(total).start})
  }

  function Step(s: Limiter, op: Op): Limiter {
    match op
    case Check(key, now) => s.(table := Checked(s.table, key, now), clock := now)
    case Guarded(key, now) =>
      var s1 := s.(table := Checked(s.table, key, now), clock := now);
      if Limited(s.table, key, now) then s1 else Fail(s1, key, now)
    case Unguarded(key, now) => Fail(s, key, now)
    case Clear(key) => s.(table := s.table - {key}, perKey := s.perKey - {key})
  }

  function Start(clock: int): Limiter { Limiter(map[], clock, [], map[], {}) }

  function Run(clock: int, ops: seq<Op>): Limiter {
    if ops == [] then Start(clock) else Step(Run(clock, ops[..|ops| - 1]), ops[|ops| - 1])
  }

  /** The clock never goes back, and the shared bucket is never cleared. */
  predicate Allowed(s: Limiter, op: Op) {
    if op.Clear? then op.key != GLOBAL_KEY else s.clock <= op.now
  }

  predicate Timely(clock: int, ops: seq<Op>) {
    ops == [] ||
    (Timely(clock, ops[..|ops| - 1]) && Allowed(Run(clock, ops[..|ops| - 1]), ops[|ops| - 1]))
  }

  predicate AllGuarded(ops: seq<Op>) {
    forall i | 0 <= i < |ops| :: !ops[i].Unguarded?
  }

  // ---- The map never outgrows its cap, and never shuts the shared bucket out ----

  predicate Fits(t: Table) {
    |t| <= MAX_KEYS && (GLOBAL_KEY in t || |t| < MAX_KEYS)
  }

  lemma RemoveSize(t: Table, key: string)
    ensures |t - {key}| == if key in t then |t| - 1 else |t|
  {
    assert (t - {key}).Keys == t.Keys - {key};
    assert |t.Keys| == |t| && |(t - {key}).Keys| == |t - {key}|;
  }

  lemma InsertSize(t: Table, key: string, b: Bucket)
    ensures |t[key := b]| == if key in t then |t| else |t| + 1
  {
    assert t[key := b].Keys == t.Keys + {key};
    assert |t.Keys| == |t| && |t[key := b].Keys| == |t[key := b]|;
  }

  lemma LiveKeepsFits(t: Table, key: string, now: int)
    requires Fits(t)
    ensures Fits(Live(t, key, now))
    ensures GLOBAL_KEY in Live(t, GLOBAL_KEY, now) || |Live(t, GLOBAL_KEY, now)| < MAX_KEYS
  {
    RemoveSize(t, key);
    RemoveSize(t, GLOBAL_KEY);
  }

  /** The shared bump never takes the full-map branch, so afterwards the shared bucket is live. */
  lemma GlobalBumpIsStored(t: Table, now: int)
    requires Fits(t)
    ensures var t1 := Live(t, GLOBAL_KEY, now); GLOBAL_KEY in t1 || |t1| < MAX_KEYS
    ensures var t2 := Bump(t, GLOBAL_KEY, now);
            && |t2| <= MAX_KEYS
            && GLOBAL_KEY in t2
            && now < t2[GLOBAL_KEY].resetAt
            && t2[GLOBAL_KEY].failures == Failures(t, GLOBAL_KEY, now) + 1
  {
    LiveKeepsFits(t, GLOBAL_KEY, now);
    var t1 := Live(t, GLOBAL_KEY, now);
    InsertSize(t1, GLOBAL_KEY, Bump(t, GLOBAL_KEY, now)[GLOBAL_KEY]);
  }

  lemma RecordKeepsFits(t: Table, key: string, now: int)
    requires Fits(t)
    ensures Fits(Record(t, key, now))
  {
    GlobalBumpIsStored(t, now);
    var t2 := Bump(t, GLOBAL_KEY, now);
    if key != GLOBAL_KEY {
      var t3 := Live(t2, key, now);
      LiveKeepsFits(t2, key, now);
      var b := if key in t3 then t3[key].(failures := t3[key].failures + 1) else Bucket(1, now + WINDOW_MS);
      InsertSize(t3, key, b);
      assert Live(t3, GLOBAL_KEY, now) == t3;
      InsertSize(t3, GLOBAL_KEY, t3[GLOBAL_KEY].(failures := Max(t3[GLOBAL_KEY].failures, GLOBAL_MAX_FAILURES)));
    }
  }

  /** Over every run, guarded or not, the map holds at most MAX_KEYS buckets and has room for the shared one. */
  lemma {:induction false} TableFits(clock: int, ops: seq<Op>)
    requires Timely(clock, ops)
    ensures Fits(Run(clock, ops).table)
  {
    if ops != [] {
      var before := ops[..|ops| - 1];
      TableFits(clock, before);
      var s, op := Run(clock, before), ops[|ops| - 1];
      match op {
        case Clear(key) => RemoveSize(s.table, key);
        case Unguarded(key, now) => RecordKeepsFits(s.table, key, now);
        case Check(key, now) => CheckedKeepsFits(s.table, key, now);
        case Guarded(key, now) =>
          CheckedKeepsFits(s.table, key, now);
          RecordKeepsFits(Checked(s.table, key, now), key, now);
      }
    }
  }

  lemma CheckedKeepsFits(t: Table, key: string, now: int)
    requires Fits(t)
    ensures Fits(Checked(t, key, now))
  {
    LiveKeepsFits(t, GLOBAL_KEY, now);
    LiveKeepsFits(Live(t, GLOBAL_KEY, now), key, now);
  }

  // ---- What the buckets say about the history ----

  /** The window of the last event is over at `clock`. */
  predicate Over(log: seq<Entry>, clock: int) {
    log != [] ==> Last(log).start + WINDOW_MS <= clock
  }

  predicate PastOnly(log: seq<Entry>, clock: int) {
    log != [] ==> Last(log).at <= clock
  }

  predicate GlobalTracked(s: Limiter) {
    && Windowed(s.total, WINDOW_MS, GLOBAL_MAX_FAILURES) && InTime(s.total, WINDOW_MS)
    && PastOnly(s.total, s.clock)
    && (if GLOBAL_KEY in s.table then
          var b := s.table[GLOBAL_KEY];
          && s.total != [] && Last(s.total).start + WINDOW_MS == b.resetAt
           && (if Last(s.total).start in s.shut then GLOBAL_MAX_FAILURES <= b.failures
               else b.failures == Last(s.total).rank)
        else Over(s.total, s.clock))
    && forall start | start in s.shut :: s.total != [] && start <= Last(s.total).start
  }

  /** While `log`'s last window lasts, the shared bucket is saturated: every attempt is limited. */
  predicate ShutUntilOver(t: Table, log: seq<Entry>) {
    && log != [] && GLOBAL_KEY in t
    && GLOBAL_MAX_FAILURES <= t[GLOBAL_KEY].failures
    && Last(log).start + WINDOW_MS <= t[GLOBAL_KEY].resetAt
  }

  predicate KeyTracked(s: Limiter, key: string) {
    var log := KeyLog(s, key);
    && Windowed(log, WINDOW_MS, MAX_FAILURES) && InTime(log, WINDOW_MS)
    && PastOnly(log, s.clock)
    && (if key in s.table then
          && log != [] && Last(log).start + WINDOW_MS == s.table[key].resetAt
          && s.table[key].failures == Last(log).rank
        else Over(log, s.clock) || ShutUntilOver(s.table, log))
  }

  ghost predicate Tracked(s: Limiter) {
    && Fits(s.table)
    && GlobalTracked(s)
    && forall key :: key != GLOBAL_KEY ==> KeyTracked(s, key)
  }

  lemma PruneKeepsTracked(s: Limiter, key: string, now: int)
    requires Tracked(s) && s.clock <= now
    ensures Tracked(s.(table := Live(s.table, key, now), clock := now))
  {
    var s' := s.(table := Live(s.table, key, now), clock := now);
    LiveKeepsFits(s.table, key, now);
    forall k | k != GLOBAL_KEY ensures KeyTracked(s', k) {
      assert KeyTracked(s, k);
      assert KeyLog(s', k) == KeyLog(s, k);
    }
  }

  lemma CheckKeepsTracked(s: Limiter, key: string, now: int)
    requires Tracked(s) && s.clock <= now
    ensures Tracked(s.(table := Checked(s.table, key, now), clock := now))
  {
    PruneKeepsTracked(s, GLOBAL_KEY, now);
    var s1 := s.(table := Live(s.table, GLOBAL_KEY, now), clock := now);
    PruneKeepsTracked(s1, key, now);
    assert s1.(table := Live(s1.table, key, now), clock := now).table == Live(s1.table, key, now);
  }

  /** What a caller that was not limited knows about the map it is about to record into. */
  predicate Admits(t: Table, key: string, now: int) {
    && (GLOBAL_KEY in t ==> now < t[GLOBAL_KEY].resetAt && t[GLOBAL_KEY].failures < GLOBAL_MAX_FAILURES)
    && (key in t ==> now < t[key].resetAt && t[key].failures < MAX_FAILURES)
    && (key !in t ==> |t| < MAX_KEYS)
  }

  lemma UnlimitedAdmits(t: Table, key: string, now: int)
    requires !Limited(t, key, now)
    ensures Admits(Checked(t, key, now), key, now)
  {
  }

  /** What an admitted failure leaves of the shared bucket; it is spent if the failure is left unstored. */
  lemma RecordedShared(t: Table, key: string, now: int)
    requires Fits(t) && Admits(t, key, now)
    ensures var t' := Record(t, key, now);
            && GLOBAL_KEY in t'
            && (if GLOBAL_KEY in t then t'[GLOBAL_KEY].resetAt == t[GLOBAL_KEY].resetAt
                else t'[GLOBAL_KEY].resetAt == now + WINDOW_MS)
            && (if key in t' then t'[GLOBAL_KEY].failures == (if GLOBAL_KEY in t then t[GLOBAL_KEY].failures else 0) + 1
                else GLOBAL_MAX_FAILURES <= t'[GLOBAL_KEY].failures && GLOBAL_KEY !in t)
  {
    GlobalBumpIsStored(t, now);
    var t1 := Bump(t, GLOBAL_KEY, now);
    InsertSize(t, GLOBAL_KEY, t1[GLOBAL_KEY]);
    assert Live(t, GLOBAL_KEY, now) == t && Live(t1, key, now) == t1 && Live(t1, GLOBAL_KEY, now) == t1;
  }

  lemma FailKeepsGlobalTracked(s: Limiter, key: string, now: int)
    requires Tracked(s) && s.clock == now && Admits(s.table, key, now)
    ensures Fits(Record(s.table, key, now)) && GlobalTracked(Fail(s, key, now))
  {
    RecordKeepsFits(s.table, key, now);
    RecordedShared(s.table, key, now);
    assert Live(s.table, GLOBAL_KEY, now) == s.table;
    ExtendKeepsWindowed(s.total, WINDOW_MS, GLOBAL_MAX_FAILURES, now, GLOBAL_KEY in s.table);
    ExtendInTime(s.total, WINDOW_MS, now, GLOBAL_KEY in s.table);
  }

  /** What an admitted failure leaves of the address's bucket; an unstored one saturates the shared bucket anew. */
  lemma RecordedBucket(t: Table, key: string, now: int)
    requires Fits(t) && Admits(t, key, now) && key != GLOBAL_KEY
    ensures var t' := Record(t, key, now);
            if key in t then key in t' && t'[key] == t[key].(failures := t[key].failures + 1)
            else || (key in t' && t'[key] == Bucket(1, now + WINDOW_MS))
                 || (key !in t' && GLOBAL_KEY in t' && GLOBAL_MAX_FAILURES <= t'[GLOBAL_KEY].failures
                     && t'[GLOBAL_KEY].resetAt == now + WINDOW_MS)
  {
    GlobalBumpIsStored(t, now);
    assert Live(t, GLOBAL_KEY, now) == t;
    var t1 := Bump(t, GLOBAL_KEY, now);
    InsertSize(t, GLOBAL_KEY, t1[GLOBAL_KEY]);
    assert Live(t1, key, now) == t1;
    assert Live(t1, GLOBAL_KEY, now) == t1;
  }

  /** The address's own history: its bucket follows it, or the shared bucket is saturated for as long. */
  lemma FailKeepsOwnTracked(s: Limiter, key: string, now: int)
    requires Tracked(s) && s.clock == now && Admits(s.table, key, now) && key != GLOBAL_KEY
    ensures KeyTracked(Fail(s, key, now), key)
  {
    assert KeyTracked(s, key);
    RecordedBucket(s.table, key, now);
    var log := KeyLog(s, key);
    var s' := Fail(s, key, now);
    assert Live(s.table, key, now) == s.table;
    ExtendKeepsWindowed(log, WINDOW_MS, MAX_FAILURES, now, key in s.table);
    assert KeyLog(s', key) == Extend(log, now, key in s.table);
    assert s'.table == Record(s.table, key, now);
    assert PastOnly(KeyLog(s', key), s'.clock);
  }

  lemma FailKeepsOtherTracked(s: Limiter, key: string, now: int, other: string)
    requires Tracked(s) && s.clock == now && Admits(s.table, key, now)
    requires other != GLOBAL_KEY && other != key
    ensures KeyTracked(Fail(s, key, now), other)
  {
    assert KeyTracked(s, other);
    GlobalBumpIsStored(s.table, now);
    var t1 := Bump(s.table, GLOBAL_KEY, now);
    assert Live(t1, key, now) == t1;
    assert Live(t1, GLOBAL_KEY, now) == t1;
    assert KeyLog(Fail(s, key, now), other) == KeyLog(s, other);
  }

  lemma GuardedKeepsTracked(s: Limiter, key: string, now: int)
    requires Tracked(s) && s.clock <= now
    ensures Tracked(Step(s, Guarded(key, now)))
  {
    CheckKeepsTracked(s, key, now);
    if !Limited(s.table, key, now) {
      UnlimitedAdmits(s.table, key, now);
      var s1 := s.(table := Checked(s.table, key, now), clock := now);
      FailKeepsGlobalTracked(s1, key, now);
      forall k | k != GLOBAL_KEY ensures KeyTracked(Fail(s1, key, now), k) {
        if k == key { FailKeepsOwnTracked(s1, key, now); } else { FailKeepsOtherTracked(s1, key, now, k); }
      }
    }
  }

  lemma ClearKeepsTracked(s: Limiter, key: string)
    requires Tracked(s) && key != GLOBAL_KEY
    ensures Tracked(Step(s, Clear(key)))
  {
    RemoveSize(s.table, key);
    var s' := Step(s, Clear(key));
    assert GlobalTracked(s');
    forall k | k != GLOBAL_KEY ensures KeyTracked(s', k) {
      ClearKeepsKeyTracked(s, key, k);
    }
  }

  lemma ClearKeepsKeyTracked(s: Limiter, key: string, k: string)
    requires KeyTracked(s, k) && key != GLOBAL_KEY
    ensures KeyTracked(Step(s, Clear(key)), k)
  {
    if k == key {
      assert KeyLog(Step(s, Clear(key)), k) == [];
    } else {
      assert KeyLog(Step(s, Clear(key)), k) == KeyLog(s, k);
    }
  }

  lemma {:induction false} RunIsTracked(clock: int, ops: seq<Op>)
    requires Timely(clock, ops) && AllGuarded(ops)
    ensures Tracked(Run(clock, ops))
  {
    if ops == [] {
      forall k | k != GLOBAL_KEY ensures KeyTracked(Start(clock), k) {}
    } else {
      var before := ops[..|ops| - 1];
      assert AllGuarded(before);
      RunIsTracked(clock, before);
      var s, op := Run(clock, before), ops[|ops| - 1];
      match op {
        case Check(key, now) => CheckKeepsTracked(s, key, now);
        case Guarded(key, now) => GuardedKeepsTracked(s, key, now);
        case Clear(key) => ClearKeepsTracked(s, key);
        case Unguarded(_, _) => assert false;
      }
    }
  }

  // ---- Exactly when an address is limited ----

  /** The last shared window is open, and holds 32 failures or one that was left unstored. */
  predicate SharedSpent(s: Limiter, now: int) {
    && s.total != [] && now < Last(s.total).start + 900_000
    && (CountStartedAt(s.total, Last(s.total).start) >= 32 || Last(s.total).start in s.shut)
  }

  /** The last window of the address since its clear is open and holds 8 failures. */
  predicate OwnSpent(log: seq<Entry>, now: int) {
    log != [] && now < Last(log).start + 900_000 && CountStartedAt(log, Last(log).start) >= 8
  }

  /** No unexpired bucket of the address, and 4096 others without counting an expired shared one. */
  predicate NoRoom(t: Table, key: string, now: int) {
    && (key in t ==> t[key].resetAt <= now)
    && |t| - (if GLOBAL_KEY in t && t[GLOBAL_KEY].resetAt <= now then 1 else 0) - (if key in t then 1 else 0) >= 4096
  }

  lemma NoRoomExactly(t: Table, key: string, now: int)
    requires key != GLOBAL_KEY
    ensures var t2 := Live(Live(t, GLOBAL_KEY, now), key, now);
            NoRoom(t, key, now) <==> key !in t2 && |t2| >= MAX_KEYS
  {
    var t1 := Live(t, GLOBAL_KEY, now);
    RemoveSize(t, GLOBAL_KEY);
    RemoveSize(t1, key);
  }

  lemma SharedSpentExactly(s: Limiter, now: int)
    requires GlobalTracked(s) && s.clock <= now
    ensures GlobalSpent(s.table, now) <==> SharedSpent(s, now)
  {
    if s.total != [] { WindowHolds(s.total, WINDOW_MS, GLOBAL_MAX_FAILURES, Last(s.total).start); }
  }

  lemma OwnSpentExactly(s: Limiter, key: string, now: int)
    requires KeyTracked(s, key) && s.clock <= now && key != GLOBAL_KEY && !GlobalSpent(s.table, now)
    ensures Failures(Live(s.table, GLOBAL_KEY, now), key, now) >= MAX_FAILURES <==> OwnSpent(KeyLog(s, key), now)
  {
    var log := KeyLog(s, key);
    if log != [] { WindowHolds(log, WINDOW_MS, MAX_FAILURES, Last(log).start); }
  }

  /** After every guarded run, from its history alone: an address is limited for one of three reasons and no other. */
  lemma LimitedExactly(clock: int, ops: seq<Op>, key: string, now: int)
    requires Timely(clock, ops) && AllGuarded(ops) && key != GLOBAL_KEY && Run(clock, ops).clock <= now
    ensures var s := Run(clock, ops);
            Limited(s.table, key, now) <==>
              SharedSpent(s, now) || OwnSpent(KeyLog(s, key), now) || NoRoom(s.table, key, now)
  {
    var s := Run(clock, ops);
    RunIsTracked(clock, ops);
    assert KeyTracked(s, key);
    SharedSpentExactly(s, now);
    NoRoomExactly(s.table, key, now);
    if !GlobalSpent(s.table, now) {
      OwnSpentExactly(s, key, now);
      LookTwice(Live(s.table, GLOBAL_KEY, now), key, now);
    }
  }

  lemma LookTwice(t: Table, key: string, now: int)
    ensures Failures(Live(t, key, now), key, now) == Failures(t, key, now)
  {
  }

  /** The history's windows are those of its instants: nothing else about it enters. */
  lemma HistoryIsByTime(clock: int, ops: seq<Op>, log: seq<Entry>)
    requires Timely(clock, ops) && AllGuarded(ops)
    requires Windowed(log, WINDOW_MS, GLOBAL_MAX_FAILURES) && InTime(log, WINDOW_MS)
    requires var total := Run(clock, ops).total;
      |log| == |total| && forall i | 0 <= i < |log| :: log[i].at == total[i].at
    ensures log == Run(clock, ops).total
  {
    RunIsTracked(clock, ops);
    TimesDetermine(log, Run(clock, ops).total, WINDOW_MS, GLOBAL_MAX_FAILURES);
  }

  // ---- The bounds ----

  /** Over every guarded run, any 15-minute interval holds at most 63 recorded failures, all addresses together. */
  lemma GlobalBound(clock: int, ops: seq<Op>, from: int)
    requires Timely(clock, ops) && AllGuarded(ops)
    ensures CountIn(Run(clock, ops).total, from, WINDOW_MS) <= 2 * GLOBAL_MAX_FAILURES - 1
  {
    RunIsTracked(clock, ops);
    SlidingBound(Run(clock, ops).total, WINDOW_MS, GLOBAL_MAX_FAILURES, from);
  }

  /** Since its last clear, an address fails at most 15 times in any 15-minute interval, stored or not. */
  lemma KeyBound(clock: int, ops: seq<Op>, key: string, from: int)
    requires Timely(clock, ops) && AllGuarded(ops) && key != GLOBAL_KEY
    ensures CountIn(KeyLog(Run(clock, ops), key), from, WINDOW_MS) <= 2 * MAX_FAILURES - 1
  {
    RunIsTracked(clock, ops);
    assert KeyTracked(Run(clock, ops), key);
    SlidingBound(KeyLog(Run(clock, ops), key), WINDOW_MS, MAX_FAILURES, from);
  }

  // ---- When a failure is left unstored ----

  /**
   Exactly when an admitted failure is left unstored: no bucket of its own, no shared one, and room for one
   bucket only.
   */
  lemma UnstoredExactly(t: Table, key: string, now: int)
    requires Fits(t) && !Limited(t, key, now) && key != GLOBAL_KEY
    ensures var t1 := Checked(t, key, now);
            key !in Record(t1, key, now) <==> key !in t1 && GLOBAL_KEY !in t1 && |t1| == MAX_KEYS - 1
  {
    var t1 := Checked(t, key, now);
    CheckedKeepsFits(t, key, now);
    UnlimitedAdmits(t, key, now);
    GlobalBumpIsStored(t1, now);
    var t2 := Bump(t1, GLOBAL_KEY, now);
    assert Live(t1, GLOBAL_KEY, now) == t1;
    InsertSize(t1, GLOBAL_KEY, t2[GLOBAL_KEY]);
    assert Live(t2, key, now) == t2;
  }

  /** Such a failure saturates the shared bucket: it limits every address for a whole window. */
  lemma UnstoredLimitsAll(t: Table, key: string, now: int, other: string, later: int)
    requires Fits(t) && !Limited(t, key, now) && key != GLOBAL_KEY && now <= later < now + WINDOW_MS
    ensures var t' := Record(Checked(t, key, now), key, now);
            key !in t' ==> Limited(t', other, later)
  {
    CheckedKeepsFits(t, key, now);
    UnlimitedAdmits(t, key, now);
    RecordedBucket(Checked(t, key, now), key, now);
  }

  /** The name of the i-th address of the run below. */
  function Name(i: nat): string { seq(i, _ => 'x') }

  /** The map after `i` windows: one bucket for each address so far, and the shared one of the last window. */
  predicate HoldsAll(t: Table, i: nat) {
    && (forall k | k in t :: k == GLOBAL_KEY || (1 <= |k| <= i))
    && (if i == 0 then |t| == 0
        else |t| == i + 1 && GLOBAL_KEY in t && t[GLOBAL_KEY].resetAt == (i + 1) * WINDOW_MS)
  }

  lemma NamesAreNew(t: Table, i: nat, now: int)
    requires HoldsAll(t, i) && i < MAX_KEYS && now == (i + 1) * WINDOW_MS
    ensures var t1 := Checked(t, Name(i + 1), now);
            && !Limited(t, Name(i + 1), now) && Name(i + 1) != GLOBAL_KEY
            && |t1| == i && GLOBAL_KEY !in t1 && Name(i + 1) !in t1
            && forall k | k in t1 :: k in t
  {
    assert Name(i + 1)[0] == 'x' && GLOBAL_KEY[0] == '_';
    RemoveSize(t, GLOBAL_KEY);
  }

  lemma FailureFills(t: Table, key: string, i: nat, now: int)
    requires HoldsAll(t, i) && i + 1 < MAX_KEYS && now == (i + 1) * WINDOW_MS && key == Name(i + 1)
    ensures HoldsAll(Record(Checked(t, key, now), key, now), i + 1)
  {
    NamesAreNew(t, i, now);
    var t1 := Checked(t, key, now);
  }

  lemma StepFills(s: Limiter, i: nat)
    requires HoldsAll(s.table, i) && i + 1 < MAX_KEYS
    ensures var s' := Step(s, Guarded(Name(i + 1), (i + 1) * WINDOW_MS));
            HoldsAll(s'.table, i + 1) && s'.clock == (i + 1) * WINDOW_MS
  {
    FailureFills(s.table, Name(i + 1), i, (i + 1) * WINDOW_MS);
    NamesAreNew(s.table, i, (i + 1) * WINDOW_MS);
  }

  predicate FilledFrom(clock: int, ops: seq<Op>, i: nat) {
    && Timely(clock, ops) && AllGuarded(ops)
    && HoldsAll(Run(clock, ops).table, i) && Run(clock, ops).clock <= i * WINDOW_MS
  }

  /** A guarded run that leaves one bucket for each of `i` addresses, whenever the clock started. */
  ghost predicate Filled(ops: seq<Op>, i: nat) {
    forall clock | clock <= 0 :: FilledFrom(clock, ops, i)
  }

  lemma FillNextFrom(clock: int, before: seq<Op>, i: nat, next: Op)
    requires FilledFrom(clock, before, i) && i + 1 < MAX_KEYS && next == Guarded(Name(i + 1), (i + 1) * WINDOW_MS)
    ensures FilledFrom(clock, before + [next], i + 1)
  {
    StepFills(Run(clock, before), i);
  }

  lemma FillNext(before: seq<Op>, i: nat) returns (ops: seq<Op>)
    requires Filled(before, i) && i + 1 < MAX_KEYS
    ensures Filled(ops, i + 1)
  {
    var next := Guarded(Name(i + 1), (i + 1) * WINDOW_MS);
    ops := before + [next];
    var more := i + 1;
    forall clock | clock <= 0 ensures FilledFrom(clock, ops, more) {
      assert FilledFrom(clock, before, i);
      FillNextFrom(clock, before, i, next);
    }
  }

  /** One failure of a new address in each window: nobody looks at the older buckets, so none of them is swept. */
  lemma SpreadFills(i: nat) returns (ops: seq<Op>)
    requires i < MAX_KEYS
    ensures Filled(ops, i)
  {
    ops := [];
    for k := 0 to i
      invariant Filled(ops, k)
    {
      ops := FillNext(ops, k);
    }
  }

  /** Everybody is limited for a window after this failure, which is itself admitted and left unstored. */
  ghost predicate ShutsEverybodyOut(t: Table, key: string, now: int) {
    && !Limited(t, key, now)
    && key !in Record(Checked(t, key, now), key, now)
    && forall other, later | now <= later < now + WINDOW_MS ::
         Limited(Record(Checked(t, key, now), key, now), other, later)
  }

  /** A guarded run after which the next failure of a new address shuts everybody out. */
  ghost predicate EndsFull(ops: seq<Op>, key: string, now: int) {
    && Timely(0, ops) && AllGuarded(ops) && Run(0, ops).clock <= now
    && key != GLOBAL_KEY && ShutsEverybodyOut(Run(0, ops).table, key, now)
  }

  /** Guarded attempts alone reach such a map. */
  lemma FullTableIsReached() returns (ops: seq<Op>, key: string, now: int)
    ensures EndsFull(ops, key, now)
  {
    var i: nat := MAX_KEYS - 1;
    ops := SpreadFills(i);
    key, now := Name(i + 1), (i + 1) * WINDOW_MS;
    assert FilledFrom(0, ops, i);
  }

  // ---- The process's map, updated in place ----

  class Buckets {
    var buckets: map<string, Bucket>

    constructor ()
      ensures buckets == map[]
    {
      buckets := map[];
    }

    method LiveBucket(key: string, now: int) returns (bucket: Option<Bucket>)
      modifies this
      ensures buckets == Live(old(buckets), key, now)
      ensures bucket == if key in buckets then Some(buckets[key]) else None
    {
      if key !in buckets {
        return None;
      }
      if buckets[key].resetAt <= now {
        buckets := buckets - {key};
        return None;
      }
      bucket := Some(buckets[key]);
    }

    method CountFailures(key: string, now: int) returns (n: nat)
      modifies this
      ensures buckets == Live(old(buckets), key, now)
      ensures n == Failures(old(buckets), key, now)
    {
      var bucket := LiveBucket(key, now);
      n := if bucket.Some? then bucket.value.failures else 0;
    }

    method RateLimited(key: string, now: int) returns (limited: bool)
      modifies this
      ensures buckets == Checked(old(buckets), key, now)
      ensures limited == Limited(old(buckets), key, now)
    {
      var shared := CountFailures(GLOBAL_KEY, now);
      if shared >= GLOBAL_MAX_FAILURES {
        return true;
      }
      var bucket := LiveBucket(key, now);
      if bucket == None && |buckets| >= MAX_KEYS {
        return true;
      }
      var n := CountFailures(key, now);
      limited := n >= MAX_FAILURES;
    }

    method BumpBucket(key: string, now: int)
      modifies this
      ensures buckets == Bump(old(buckets), key, now)
    {
      var existing := LiveBucket(key, now);
      if existing == None {
        if |buckets| >= MAX_KEYS {
          var global := LiveBucket(GLOBAL_KEY, now);
          if global.Some? {
            var failures := Max(global.value.failures, GLOBAL_MAX_FAILURES);
            buckets := buckets[GLOBAL_KEY := global.value.(failures := failures)];
          }
          return;
        }
        buckets := buckets[key := Bucket(1, now + WINDOW_MS)];
        return;
      }
      buckets := buckets[key := existing.value.(failures := existing.value.failures + 1)];
    }

    method RecordFailure(key: string, now: int)
      modifies this
      ensures buckets == Record(old(buckets), key, now)
    {
      BumpBucket(GLOBAL_KEY, now);
      if key != GLOBAL_KEY {
        BumpBucket(key, now);
      }
    }

    method ClearFailures(key: string)
      modifies this
      ensures buckets == old(buckets) - {key}
    {
      buckets := buckets - {key};
    }

    /** Plays a whole run on the map, one call at a time, and reaches the specification's map. */
    method Play(clock: int, ops: seq<Op>)
      requires buckets == map[]
      modifies this
      ensures buckets == Run(clock, ops).table
    {
      for i := 0 to |ops|
        invariant buckets == Run(clock, ops[..i]).table
      {
        assert ops[..i + 1][..i] == ops[..i];
        match ops[i] {
          case Check(key, now) => var _ := RateLimited(key, now);
          case Guarded(key, now) =>
            var limited := RateLimited(key, now);
            if !limited {
              RecordFailure(key, now);
            }
          case Unguarded(key, now) => RecordFailure(key, now);
          case Clear(key) => ClearFailures(key);
        }
      }
      assert ops[..|ops|] == ops;
    }
  }
}
