/**
 The Redis fixed-window limiter: INCR, then PEXPIRE for the first call of a key, or PTTL and
 possibly PEXPIRE for the others. Every command is one atomic step; steps of different calls
 interleave in any order, and a call may stop for good between any two of its commands.
 */
module RedisRateLimit {
  import opened Wrappers
  import opened Windows

  /** One bucket's parameters; every call on the bucket passes the same ones. */
  datatype Config = Config(limit: nat, windowMs: nat) {
    predicate Valid() { 1 <= limit && 1 <= windowMs }
  }

  /** The Redis key: missing, or a counter with an optional expiry instant. */
  datatype Key = Absent | Present(count: nat, deadline: Option<int>)

  /** Where a call stands: the next command it will send, or what it returned. */
  datatype Call = NotStarted | NeedsExpiry(n: nat) | NeedsTtl(n: nat) | Returned(allowed: bool)

  // ---- The three commands ----

  function Incr(key: Key): (r: (Key, nat))
    ensures r.0.Present? && r.1 == r.0.count >= 1
  {
    match key
    case Absent => (Present(1, None), 1)
    case Present(count, deadline) => (Present(count + 1, deadline), count + 1)
  }

  /** PEXPIRE does nothing to a missing key. */
  function Pexpire(key: Key, now: int, windowMs: nat): Key {
    if key.Absent? then key else key.(deadline := Some(now + windowMs))
  }

  /** PTTL answers -2 for a missing key and -1 for a key without an expiry. */
  function Pttl(key: Key, now: int): int {
    match key
    case Absent => -2
    case Present(_, None) => -1
    case Present(_, Some(deadline)) => if deadline < now then 0 else deadline - now
  }

  // ---- Interleaved runs ----

  /** `log` is the history of the increments that were allowed, and `callers` the calls that sent them. */
  datatype State = State(key: Key, now: int, calls: map<nat, Call>, log: seq<Entry>, callers: seq<nat>)

  /** `Expire` is Redis dropping the key; it may happen at any moment from the deadline on. */
  datatype Event = Tick(ms: nat) | Expire | SendIncr(id: nat) | SendPttl(id: nat) | SendPexpire(id: nat)

  function CallOf(s: State, id: nat): Call {
    if id in s.calls then s.calls[id] else NotStarted
  }

  predicate Enabled(s: State, e: Event) {
    match e
    case Tick(_) => true
    case Expire => s.key.Present? && s.key.deadline.Some? && s.key.deadline.value <= s.now
    case SendIncr(id) => CallOf(s, id).NotStarted?
    case SendPttl(id) => CallOf(s, id).NeedsTtl?
    case SendPexpire(id) => CallOf(s, id).NeedsExpiry?
  }

  function Step(s: State, e: Event, cfg: Config): State
    requires Enabled(s, e)
  {
    match e
    case Tick(ms) => s.(now := s.now + ms)
    case Expire => s.(key := Absent)
    case SendIncr(id) =>
      var (key, n) := Incr(s.key);
      s.(key := key,
         calls := s.calls[id := if n == 1 then NeedsExpiry(n) else NeedsTtl(n)],
         log := if n <= cfg.limit then Extend(s.log, s.now, n != 1) else s.log,
         callers := if n <= cfg.limit then s.callers + [id] else s.callers)
    case SendPttl(id) =>
      var n := CallOf(s, id).n;
      s.(calls := s.calls[id := if Pttl(s.key, s.now) < 0 then NeedsExpiry(n) else Returned(n <= cfg.limit)])
    case SendPexpire(id) =>
      s.(key := Pexpire(s.key, s.now, cfg.windowMs),
         calls := s.calls[id := Returned(CallOf(s, id).n <= cfg.limit)])
  }

  function Start(now: int): State { State(Absent, now, map[], [], []) }

  /** `states[i]` is the state before `events[i]`, starting with no key and no call. */
  predicate IsRun(states: seq<State>, events: seq<Event>, cfg: Config) {
    && |states| == |events| + 1
    && states[0] == Start(states[0].now)
    && forall i | 0 <= i < |events| :: Enabled(states[i], events[i]) && states[i + 1] == Step(states[i], events[i], cfg)
  }

  // ---- The sliding-interval bound ----

  predicate Counted(s: State, cfg: Config) {
    && Windowed(s.log, cfg.windowMs, cfg.limit)
    && (s.log != [] ==> s.log[|s.log| - 1].at <= s.now)
    && match s.key
       case Absent => s.log != [] ==> s.log[|s.log| - 1].start + cfg.windowMs <= s.now
       case Present(count, deadline) =>
         && 1 <= count && s.log != []
         && s.log[|s.log| - 1].rank == (if count <= cfg.limit then count else cfg.limit)
         && (deadline.Some? ==> s.log[|s.log| - 1].start + cfg.windowMs <= deadline.value)
  }

  lemma StepKeepsCounted(s: State, e: Event, cfg: Config)
    requires cfg.Valid() && Counted(s, cfg) && Enabled(s, e)
    ensures Counted(Step(s, e, cfg), cfg)
  {
    if e.SendIncr? {
      var n := Incr(s.key).1;
      if n <= cfg.limit {
        ExtendKeepsWindowed(s.log, cfg.windowMs, cfg.limit, s.now, n != 1);
      }
    }
  }

  lemma {:induction false} RunIsCounted(states: seq<State>, events: seq<Event>, cfg: Config, i: nat)
    requires cfg.Valid() && IsRun(states, events, cfg) && i < |states|
    ensures Counted(states[i], cfg)
  {
    if i > 0 {
      RunIsCounted(states, events, cfg, i - 1);
      StepKeepsCounted(states[i - 1], events[i - 1], cfg);
    }
  }

  /** Under every interleaving, any interval of windowMs holds at most 2 * limit - 1 allowed increments. */
  lemma AllowedBound(states: seq<State>, events: seq<Event>, cfg: Config, i: nat, from: int)
    requires cfg.Valid() && IsRun(states, events, cfg) && i < |states|
    ensures CountIn(states[i].log, from, cfg.windowMs) <= 2 * cfg.limit - 1
  {
    RunIsCounted(states, events, cfg, i);
    SlidingBound(states[i].log, cfg.windowMs, cfg.limit, from);
  }

  /** Each lifetime of the key, named by the instant of its first INCR, allows at most `limit` calls. */
  lemma LifetimeBound(states: seq<State>, events: seq<Event>, cfg: Config, i: nat, born: int)
    requires cfg.Valid() && IsRun(states, events, cfg) && i < |states|
    ensures CountStartedAt(states[i].log, born) <= cfg.limit
  {
    RunIsCounted(states, events, cfg, i);
    WindowHolds(states[i].log, cfg.windowMs, cfg.limit, born);
  }

  // ---- Every call that was told `allowed` is in the history ----

  /** The answer a call has returned or will return. */
  predicate WillAllow(c: Call, cfg: Config) {
    match c
    case NotStarted => false
    case NeedsExpiry(n) => n <= cfg.limit
    case NeedsTtl(n) => n <= cfg.limit
    case Returned(allowed) => allowed
  }

  /** Entry and call go together: each entry has its own call, and the calls with an entry are the allowed ones. */
  ghost predicate Answered(s: State, cfg: Config) {
    && |s.callers| == |s.log|
    && (forall i, j | 0 <= i < j < |s.callers| :: s.callers[i] != s.callers[j])
    && (forall id: nat :: id in s.callers <==> WillAllow(CallOf(s, id), cfg))
  }

  lemma IncrAnswers(s: State, e: Event, cfg: Config)
    requires Enabled(s, e) && e.SendIncr? && Answered(s, cfg)
    ensures Answered(Step(s, e, cfg), cfg)
  {
    var s' := Step(s, e, cfg);
    assert e.id !in s.callers;
    forall id: nat ensures id in s'.callers <==> WillAllow(CallOf(s', id), cfg) {
      if id != e.id { assert CallOf(s', id) == CallOf(s, id); }
    }
  }

  lemma StepAnswers(s: State, e: Event, cfg: Config)
    requires Enabled(s, e) && Answered(s, cfg)
    ensures Answered(Step(s, e, cfg), cfg)
  {
    if e.SendIncr? {
      IncrAnswers(s, e, cfg);
    } else {
      var s' := Step(s, e, cfg);
      forall id: nat ensures WillAllow(CallOf(s', id), cfg) <==> WillAllow(CallOf(s, id), cfg) {
      }
    }
  }

  /** The history has exactly one entry for each call that is allowed, so the bounds above are bounds on callers. */
  lemma {:induction false} OneEntryPerAllowedCall(states: seq<State>, events: seq<Event>, cfg: Config, i: nat)
    requires IsRun(states, events, cfg) && i < |states|
    ensures Answered(states[i], cfg)
  {
    if i > 0 {
      OneEntryPerAllowedCall(states, events, cfg, i - 1);
      StepAnswers(states[i - 1], events[i - 1], cfg);
    }
  }

  // ---- An undying counter lasts only until the next call returns ----

  predicate Undying(key: Key) { key.Present? && key.deadline.None? }

  predicate Returns(s: State, e: Event, cfg: Config)
    requires Enabled(s, e)
  {
    match e
    case SendPttl(id) => CallOf(Step(s, e, cfg), id).Returned?
    case SendPexpire(_) => true
    case _ => false
  }

  /** Whichever command is a call's last, the key it leaves is missing or carries a deadline. */
  lemma LastCommandLeavesDeadline(s: State, e: Event, cfg: Config)
    requires Enabled(s, e) && Returns(s, e, cfg)
    ensures !Undying(Step(s, e, cfg).key)
  {
  }

  predicate Creates(s: State, e: Event) { e.SendIncr? && s.key.Absent? }

  /** Only the INCR that creates the key can make it undying. */
  lemma OnlyCreationIsUndying(s: State, e: Event, cfg: Config)
    requires Enabled(s, e) && !Undying(s.key) && Undying(Step(s, e, cfg).key)
    ensures Creates(s, e)
  {
  }

  /** If the key has no deadline now, then every call that returned did so before the key was created. */
  lemma {:induction false} UndyingOnlySinceCreation(states: seq<State>, events: seq<Event>, cfg: Config, k: nat, i: nat)
    requires IsRun(states, events, cfg) && k < i < |states|
    requires Returns(states[k], events[k], cfg) && Undying(states[i].key)
    ensures exists m :: k < m < i && Creates(states[m], events[m])
    decreases i
  {
    if i == k + 1 {
      LastCommandLeavesDeadline(states[k], events[k], cfg);
      assert false;
    } else if Undying(states[i - 1].key) {
      UndyingOnlySinceCreation(states, events, cfg, k, i - 1);
    } else {
      OnlyCreationIsUndying(states[i - 1], events[i - 1], cfg);
    }
  }

  // ---- A deadline stays until the key expires ----

  /** The key has this deadline, and no call is about to set another. */
  ghost predicate Settled(s: State, deadline: int) {
    && s.key.Present? && s.key.deadline == Some(deadline)
    && forall id: nat :: !CallOf(s, id).NeedsExpiry?
  }

  lemma StepKeepsSettled(s: State, e: Event, cfg: Config, deadline: int)
    requires Counted(s, cfg) && Enabled(s, e) && Settled(s, deadline) && !e.Expire?
    ensures Settled(Step(s, e, cfg), deadline)
  {
    var s' := Step(s, e, cfg);
    forall id: nat ensures !CallOf(s', id).NeedsExpiry? {
      assert !CallOf(s, id).NeedsExpiry?;
    }
  }

  /** Once the key has a deadline and no call is about to set one, that deadline stays until the key expires. */
  lemma {:induction false} DeadlineStays(states: seq<State>, events: seq<Event>, cfg: Config, m: nat, n: nat,
      deadline: int)
    requires cfg.Valid() && IsRun(states, events, cfg) && m <= n < |states| && Settled(states[m], deadline)
    requires forall i | m <= i < n :: !events[i].Expire?
    ensures Settled(states[n], deadline)
  {
    if m < n {
      DeadlineStays(states, events, cfg, m, n - 1, deadline);
      RunIsCounted(states, events, cfg, n - 1);
      StepKeepsSettled(states[n - 1], events[n - 1], cfg, deadline);
    }
  }

  // ---- What a call is told ----

  /** The number a call's own INCR would be answered now. */
  function NextNumber(key: Key): nat { if key.Present? then key.count + 1 else 1 }

  /** Whatever happens in between, a call is allowed exactly if its own INCR was within the limit. */
  lemma {:induction false} AnswerIsOfOwnIncrement(states: seq<State>, events: seq<Event>, cfg: Config, n: nat, id: nat)
    requires IsRun(states, events, cfg) && n < |states| && !CallOf(states[n], id).NotStarted?
    ensures exists k | 0 <= k < n ::
              events[k] == SendIncr(id) && Told(CallOf(states[n], id), NextNumber(states[k].key), cfg)
  {
    if CallOf(states[n - 1], id).NotStarted? {
      assert events[n - 1] == SendIncr(id);
      assert Told(CallOf(states[n], id), NextNumber(states[n - 1].key), cfg);
    } else {
      AnswerIsOfOwnIncrement(states, events, cfg, n - 1, id);
      var k :| 0 <= k < n - 1 && events[k] == SendIncr(id)
               && Told(CallOf(states[n - 1], id), NextNumber(states[k].key), cfg);
      assert Told(CallOf(states[n], id), NextNumber(states[k].key), cfg);
    }
  }

  predicate Told(c: Call, n: nat, cfg: Config) {
    match c
    case NotStarted => false
    case NeedsExpiry(m) => m == n
    case NeedsTtl(m) => m == n
    case Returned(allowed) => allowed <==> n <= cfg.limit
  }

  // ---- One call, uninterrupted ----

  /** What a whole call makes of the key, and what it answers. */
  predicate Consumed(before: Key, after: Key, now: int, cfg: Config, allowed: bool) {
    && after.Present?
    && after.count == (if before.Present? then before.count else 0) + 1
    && (allowed <==> after.count <= cfg.limit)
    && after.deadline == (if before.Present? && before.count > 0 && before.deadline.Some? then before.deadline
                          else Some(now + cfg.windowMs))
  }

  /** The commands of one call with nobody in between. */
  function PlayAlone(s: State, id: nat, cfg: Config): State
    requires CallOf(s, id).NotStarted?
  {
    var s1 := Step(s, SendIncr(id), cfg);
    var s2 := if CallOf(s1, id).NeedsTtl? then Step(s1, SendPttl(id), cfg) else s1;
    if CallOf(s2, id).NeedsExpiry? then Step(s2, SendPexpire(id), cfg) else s2
  }

  lemma PlayedAlone(s: State, id: nat, cfg: Config)
    requires CallOf(s, id).NotStarted?
    ensures var s' := PlayAlone(s, id, cfg);
            && CallOf(s', id).Returned? && Consumed(s.key, s'.key, s.now, cfg, CallOf(s', id).allowed)
            && s'.now == s.now && forall other: nat | other != id :: CallOf(s', other) == CallOf(s, other)
  {
  }

  // ---- The key in place ----

  class RedisKey {
    var key: Key
    var now: int

    method SendIncr() returns (n: nat)
      modifies this`key
      ensures (key, n) == Incr(old(key))
    {
      if key.Absent? {
        key := Present(0, None);
      }
      key := key.(count := key.count + 1);
      n := key.count;
    }

    method SendPexpire(ms: nat)
      modifies this`key
      ensures key == Pexpire(old(key), now, ms)
    {
      if key.Present? {
        key := key.(deadline := Some(now + ms));
      }
    }

    method SendPttl() returns (ttl: int)
      ensures ttl == Pttl(key, now)
    {
      if key.Absent? {
        return -2;
      }
      if key.deadline.None? {
        return -1;
      }
      ttl := if key.deadline.value < now then 0 else key.deadline.value - now;
    }

    /** The counter goes up by one, an existing deadline stays, and a missing one is set to a full window. */
    method Consume(limit: nat, windowMs: nat) returns (allowed: bool)
      modifies this`key
      ensures Consumed(old(key), key, now, Config(limit, windowMs), allowed)
    {
      var n := SendIncr();
      if n == 1 {
        SendPexpire(windowMs);
      } else {
        var ttl := SendPttl();
        if ttl < 0 {
          SendPexpire(windowMs);
        }
      }
      allowed := n <= limit;
    }
  }
}
