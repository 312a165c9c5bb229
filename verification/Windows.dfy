/**
 Logs of a fixed-window counter, and the sliding-interval bound every such log obeys.

 Both rate limiters of the system are fixed-window counters. What a caller cares about is
 how much can happen in an arbitrary interval as long as the window, wherever it starts.
 */
module Windows {

  /** One counted event: when it happened, when its window opened, its position in that window. */
  datatype Entry = Entry(at: int, start: int, rank: nat)

  /** Appends an event at `now`, either continuing the last window or opening a new one. */
  function Extend(log: seq<Entry>, now: int, continues: bool): seq<Entry> {
    if continues && log != [] then
      var last := log[|log| - 1];
      log + [Entry(now, last.start, last.rank + 1)]
    else
      log + [Entry(now, now, 1)]
  }

  /** `next` may follow `prev`: it continues the same window, or opens one at least `width` later. */
  predicate Follows(prev: Entry, next: Entry, width: int) {
    && prev.at <= next.at
    && (|| (next.start == prev.start && next.rank == prev.rank + 1)
        || (next.start == next.at && next.rank == 1 && prev.start + width <= next.start))
  }

  /** Every window of the log holds at most `limit` events and opens at least `width` after the one before. */
  predicate Windowed(log: seq<Entry>, width: int, limit: nat) {
    && (forall i | 0 <= i < |log| :: 1 <= log[i].rank <= limit && log[i].start <= log[i].at)
    && (log != [] ==> log[0].rank == 1 && log[0].start == log[0].at)
    && (forall i | 0 < i < |log| :: Follows(log[i - 1], log[i], width))
  }

  /** The number of events in the half-open interval [from, from + width). */
  function CountIn(log: seq<Entry>, from: int, width: int): nat {
    if log == [] then 0
    else
      var last := log[|log| - 1];
      CountIn(log[..|log| - 1], from, width) + if from <= last.at < from + width then 1 else 0
  }

  /** The number of events whose window opened at `start`. */
  function CountStartedAt(log: seq<Entry>, start: int): nat {
    if log == [] then 0
    else CountStartedAt(log[..|log| - 1], start) + if log[|log| - 1].start == start then 1 else 0
  }

  lemma {:induction false} NothingBefore(log: seq<Entry>, width: int, limit: nat, from: int)
    requires Windowed(log, width, limit)
    requires log != [] ==> log[|log| - 1].at < from
    ensures CountIn(log, from, width) == 0
  {
    if log != [] {
      var prefix := log[..|log| - 1];
      if prefix != [] {
        assert Follows(log[|log| - 2], log[|log| - 1], width);
      }
      NothingBefore(prefix, width, limit, from);
    }
  }

  /**
   The sharp form: when the last event is before the interval's end, what the interval holds is
   bounded by the last window's own rank, less its first event if the window opened before the
   interval, plus all but the first event of one earlier window otherwise.
   */
  lemma {:induction false} CountByLastWindow(log: seq<Entry>, width: int, limit: nat, from: int)
    requires Windowed(log, width, limit) && log != []
    requires log[|log| - 1].at < from + width
    ensures var last := log[|log| - 1];
            CountIn(log, from, width) <= if last.start < from then last.rank - 1 else last.rank + limit - 1
  {
    var last := log[|log| - 1];
    var prefix := log[..|log| - 1];
    if prefix != [] {
      assert Follows(log[|log| - 2], last, width);
      if last.rank == 1 && last.start < from {
        NothingBefore(prefix, width, limit, from);
      } else {
        CountByLastWindow(prefix, width, limit, from);
      }
    }
  }

  /** Any interval as long as a window meets at most two windows and misses the first event of the earlier one. */
  lemma {:induction false} SlidingBound(log: seq<Entry>, width: int, limit: nat, from: int)
    requires Windowed(log, width, limit) && 1 <= limit
    ensures CountIn(log, from, width) <= 2 * limit - 1
  {
    if log != [] {
      if log[|log| - 1].at < from + width {
        CountByLastWindow(log, width, limit, from);
      } else {
        SlidingBound(log[..|log| - 1], width, limit, from);
      }
    }
  }

  lemma {:induction false} LaterWindowsOpenLater(log: seq<Entry>, width: int, limit: nat, i: nat)
    requires Windowed(log, width, limit) && 0 < width && i < |log|
    ensures log[i].start <= log[|log| - 1].start
    decreases |log| - i
  {
    if i + 1 < |log| {
      assert Follows(log[i], log[i + 1], width);
      LaterWindowsOpenLater(log, width, limit, i + 1);
    }
  }

  lemma {:induction false} NoneStartedAt(log: seq<Entry>, start: int)
    requires forall i | 0 <= i < |log| :: log[i].start != start
    ensures CountStartedAt(log, start) == 0
  {
    if log != [] {
      NoneStartedAt(log[..|log| - 1], start);
    }
  }

  /** No single window holds more than `limit` events; the last one holds exactly its last rank. */
  lemma {:induction false} WindowHolds(log: seq<Entry>, width: int, limit: nat, start: int)
    requires Windowed(log, width, limit) && 0 < width
    ensures CountStartedAt(log, start) <= limit
    ensures log != [] && log[|log| - 1].start == start ==> CountStartedAt(log, start) == log[|log| - 1].rank
  {
    if log != [] {
      var last := log[|log| - 1];
      var prefix := log[..|log| - 1];
      if prefix != [] {
        assert Follows(log[|log| - 2], last, width);
      }
      if last.rank == 1 && last.start == start {
        forall i | 0 <= i < |prefix| ensures prefix[i].start != start {
          LaterWindowsOpenLater(prefix, width, limit, i);
        }
        NoneStartedAt(prefix, start);
      } else {
        WindowHolds(prefix, width, limit, start);
      }
    }
  }

  /** Every event lies in its own window. */
  predicate InTime(log: seq<Entry>, width: int) {
    forall i | 0 <= i < |log| :: log[i].at < log[i].start + width
  }

  lemma ExtendInTime(log: seq<Entry>, width: int, now: int, continues: bool)
    requires InTime(log, width) && 0 < width
    requires log != [] && continues ==> now < log[|log| - 1].start + width
    ensures InTime(Extend(log, now, continues), width)
  {
  }

  /** Such a log is determined by the instants of its events: the windows are no further information. */
  lemma {:induction false} TimesDetermine(a: seq<Entry>, b: seq<Entry>, width: int, limit: nat)
    requires Windowed(a, width, limit) && Windowed(b, width, limit) && InTime(a, width) && InTime(b, width)
    requires |a| == |b| && forall i | 0 <= i < |a| :: a[i].at == b[i].at
    ensures a == b
  {
    if a != [] {
      var m := |a| - 1;
      TimesDetermine(a[..m], b[..m], width, limit);
      if m > 0 {
        assert a[m - 1] == a[..m][m - 1] == b[..m][m - 1] == b[m - 1];
        assert Follows(a[m - 1], a[m], width) && Follows(b[m - 1], b[m], width);
      }
      assert a == a[..m] + [a[m]] && b == b[..m] + [b[m]];
    }
  }

  /** Extending a windowed log keeps it windowed when there is room, or when the last window is over. */
  lemma ExtendKeepsWindowed(log: seq<Entry>, width: int, limit: nat, now: int, continues: bool)
    requires Windowed(log, width, limit) && 1 <= limit
    requires log != [] ==> log[|log| - 1].at <= now
    requires log != [] && continues ==> log[|log| - 1].rank < limit
    requires log != [] && !continues ==> log[|log| - 1].start + width <= now
    ensures Windowed(Extend(log, now, continues), width, limit)
  {
    var longer := Extend(log, now, continues);
    forall i | 0 < i < |longer| ensures Follows(longer[i - 1], longer[i], width) {
      if i < |log| {
        assert Follows(log[i - 1], log[i], width);
      }
    }
  }

  // ---- Events inside windows that other events open ----

  /** `next` is in the window of `prev`, or in one that opens at least `width` later. */
  predicate Joins(prev: Entry, next: Entry, width: int) {
    && prev.at <= next.at
    && (|| (next.start == prev.start && next.rank == prev.rank + 1)
        || (prev.start + width <= next.start && next.rank == 1))
  }

  /** Every event is inside its window, which need not open with one, and no window holds more than `limit`. */
  predicate Inside(log: seq<Entry>, width: int, limit: nat) {
    && (forall i | 0 <= i < |log| :: 1 <= log[i].rank <= limit && log[i].start <= log[i].at < log[i].start + width)
    && (log != [] ==> log[0].rank == 1)
    && (forall i | 0 < i < |log| :: Joins(log[i - 1], log[i], width))
  }

  lemma {:induction false} NothingInside(log: seq<Entry>, width: int, limit: nat, from: int)
    requires Inside(log, width, limit)
    requires log != [] ==> log[|log| - 1].at < from
    ensures CountIn(log, from, width) == 0
  {
    if log != [] {
      var prefix := log[..|log| - 1];
      if prefix != [] {
        assert Joins(log[|log| - 2], log[|log| - 1], width);
      }
      NothingInside(prefix, width, limit, from);
    }
  }

  lemma {:induction false} CountInsideByLast(log: seq<Entry>, width: int, limit: nat, from: int)
    requires Inside(log, width, limit) && log != [] && log[|log| - 1].at < from + width
    ensures var last := log[|log| - 1];
            CountIn(log, from, width) <= if last.start <= from then last.rank else last.rank + limit
  {
    var last := log[|log| - 1];
    var prefix := log[..|log| - 1];
    if prefix != [] {
      var prev := log[|log| - 2];
      assert Joins(prev, last, width) && prev.at < prev.start + width;
      if last.start <= from && prev.start != last.start {
        NothingInside(prefix, width, limit, from);
      } else {
        CountInsideByLast(prefix, width, limit, from);
      }
    }
  }

  /** Any interval as long as a window meets at most two such windows. */
  lemma {:induction false} InsideBound(log: seq<Entry>, width: int, limit: nat, from: int)
    requires Inside(log, width, limit)
    ensures CountIn(log, from, width) <= 2 * limit
  {
    if log != [] {
      if log[|log| - 1].at < from + width {
        CountInsideByLast(log, width, limit, from);
      } else {
        InsideBound(log[..|log| - 1], width, limit, from);
      }
    }
  }
}
