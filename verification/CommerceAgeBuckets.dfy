/**
 Age buckets of aged inventory. A request names buckets; the database narrows rows by a range of
 generation instants, and each row read is classified again by its age in whole days.
 Instants are milliseconds; the age is the floor of the elapsed days, also for a row from the future.
 */
module CommerceAgeBuckets {
  import opened Wrappers
  import opened Json

  type Instant = int

  datatype Range = Range(minDaysInclusive: int, maxDaysExclusive: Option<int>)
  datatype Bucket = Bucket(key: string, range: Range, sortOrder: int)

  /** A condition on the generation instant: not after `lte` and, where given, after `gt`. */
  datatype Filter = Filter(gt: Option<Instant>, lte: Instant)

  /** The row condition of the inventory query. */
  datatype Where = NoRow | OneOf(only: Filter) | AnyOf(filters: seq<Filter>)

  const MS_PER_DAY: int := 24 * 60 * 60 * 1000

  const KEY_1_3 := "COMMERCE_1_3_MO"
  const KEY_3_6 := "COMMERCE_3_6_MO"
  const KEY_6_9 := "COMMERCE_6_9_MO"
  const KEY_9_12 := "COMMERCE_9_12_MO"
  const KEY_12_PLUS := "COMMERCE_12_MO_PLUS"
  const LEGACY_KEY := "COMMERCE_6_12_MO"

  const BUCKETS: seq<Bucket> := [
    Bucket(KEY_1_3, Range(30, Some(90)), 10),
    Bucket(KEY_3_6, Range(90, Some(180)), 20),
    Bucket(KEY_6_9, Range(180, Some(270)), 30),
    Bucket(KEY_9_12, Range(270, Some(365)), 40),
    Bucket(KEY_12_PLUS, Range(365, None), 50)]

  const LEGACY_RANGE := Range(180, Some(365))

  function AgeDays(generatedAt: Instant, evaluatedAt: Instant): int {
    (evaluatedAt - generatedAt) / MS_PER_DAY
  }

  predicate Contains(range: Range, ageDays: int) {
    range.minDaysInclusive <= ageDays && (range.maxDaysExclusive.Some? ==> ageDays < range.maxDaysExclusive.value)
  }

  predicate IsKey(key: string) { exists k | 0 <= k < |BUCKETS| :: BUCKETS[k].key == key }

  predicate IsRequestKey(key: string) { IsKey(key) || key == LEGACY_KEY }

  // ---- Classifying an age ----

  function Find(buckets: seq<Bucket>, key: string): (r: Option<Bucket>)
    ensures r.Some? ==> r.value in buckets && r.value.key == key
    ensures r.None? ==> forall k | 0 <= k < |buckets| :: buckets[k].key != key
  {
    if buckets == [] then None
    else if buckets[0].key == key then Some(buckets[0])
    else Find(buckets[1..], key)
  }

  predicate AgeInBucket(ageDays: int, key: string) {
    if key == LEGACY_KEY then Contains(LEGACY_RANGE, ageDays)
    else
      var bucket := Find(BUCKETS, key);
      bucket.Some? && Contains(bucket.value.range, ageDays)
  }

  /** A stable sort by sortOrder. */
  function Sorted(buckets: seq<Bucket>): seq<Bucket> {
    if buckets == [] then [] else Inserted(buckets[0], Sorted(buckets[1..]))
  }

  function Inserted(bucket: Bucket, sorted: seq<Bucket>): seq<Bucket> {
    if sorted == [] || bucket.sortOrder <= sorted[0].sortOrder then [bucket] + sorted
    else [sorted[0]] + Inserted(bucket, sorted[1..])
  }

  lemma {:induction false} OrderedIsSorted(buckets: seq<Bucket>)
    requires forall i, j | 0 <= i < j < |buckets| :: buckets[i].sortOrder <= buckets[j].sortOrder
    ensures Sorted(buckets) == buckets
  {
    if buckets != [] { OrderedIsSorted(buckets[1..]); }
  }

  /** The bucket an age falls in: the catalogue covers every age from day 30 without gap or overlap. */
  function BucketOf(ageDays: int): Option<string> {
    if ageDays < 30 then None
    else if ageDays < 90 then Some(KEY_1_3)
    else if ageDays < 180 then Some(KEY_3_6)
    else if ageDays < 270 then Some(KEY_6_9)
    else if ageDays < 365 then Some(KEY_9_12)
    else Some(KEY_12_PLUS)
  }

  method Resolve(ageDays: int) returns (key: Option<string>)
    ensures key == BucketOf(ageDays)
  {
    var sorted := Sorted(BUCKETS);
    OrderedIsSorted(BUCKETS);
    for i := 0 to |sorted|
      invariant forall k | 0 <= k < i :: !Contains(sorted[k].range, ageDays)
    {
      var range := sorted[i].range;
      if ageDays < range.minDaysInclusive { continue; }
      if range.maxDaysExclusive.None? || ageDays < range.maxDaysExclusive.value {
        return Some(sorted[i].key);
      }
    }
    assert !Contains(sorted[0].range, ageDays) && !Contains(sorted[1].range, ageDays)
        && !Contains(sorted[2].range, ageDays)
        && !Contains(sorted[3].range, ageDays) && !Contains(sorted[4].range, ageDays);
    return None;
  }

  lemma KeysDiffer()
    ensures forall i, j | 0 <= i < j < |BUCKETS| :: BUCKETS[i].key != BUCKETS[j].key
    ensures forall i | 0 <= i < |BUCKETS| :: BUCKETS[i].key != LEGACY_KEY
  {
    assert KEY_1_3[9] != KEY_3_6[9] && KEY_1_3[9] != KEY_6_9[9] && KEY_3_6[9] != KEY_6_9[9];
    assert KEY_9_12[9] != LEGACY_KEY[9];
  }

  lemma FoundByKey(k: nat)
    requires k < |BUCKETS|
    ensures Find(BUCKETS, BUCKETS[k].key) == Some(BUCKETS[k])
  {
    KeysDiffer();
    var bucket := Find(BUCKETS, BUCKETS[k].key).value;
    var i :| 0 <= i < |BUCKETS| && BUCKETS[i] == bucket;
    assert i == k;
  }

  /** The resolver's bucket is the only active one that contains the age, and it misses an age only if all do. */
  lemma OnlyBucketOfItsAge(ageDays: int, key: string)
    requires IsKey(key)
    ensures BucketOf(ageDays) == Some(key) <==> AgeInBucket(ageDays, key)
  {
    var k :| 0 <= k < |BUCKETS| && BUCKETS[k].key == key;
    KeysDiffer();
    FoundByKey(k);
  }

  lemma BucketIsActive(ageDays: int)
    ensures BucketOf(ageDays).Some? <==> ageDays >= 30
    ensures BucketOf(ageDays).Some? ==> IsKey(BucketOf(ageDays).value)
  {
    assert BUCKETS[0].key == KEY_1_3 && BUCKETS[1].key == KEY_3_6 && BUCKETS[2].key == KEY_6_9;
    assert BUCKETS[3].key == KEY_9_12 && BUCKETS[4].key == KEY_12_PLUS;
  }

  /** The retired key stands for exactly two of today's buckets. */
  lemma LegacyIsUnion(ageDays: int)
    ensures AgeInBucket(ageDays, LEGACY_KEY) <==> AgeInBucket(ageDays, KEY_6_9) || AgeInBucket(ageDays, KEY_9_12)
  {
    KeysDiffer();
    assert BUCKETS[2].key == KEY_6_9 && BUCKETS[3].key == KEY_9_12;
    FoundByKey(2);
    FoundByKey(3);
  }

  // ---- The database condition ----

  function RangeOf(key: string): Option<Range> {
    if key == LEGACY_KEY then Some(LEGACY_RANGE)
    else
      var bucket := Find(BUCKETS, key);
      if bucket.None? then None else Some(bucket.value.range)
  }

  function RangesOf(keys: seq<string>): seq<Range> {
    if keys == [] then []
    else
      var last := RangeOf(keys[|keys| - 1]);
      RangesOf(keys[..|keys| - 1]) + if last.None? then [] else [last.value]
  }

  function Expanded(keys: seq<string>): seq<Range> {
    if keys == [] then seq(|BUCKETS|, i requires 0 <= i < |BUCKETS| => BUCKETS[i].range) else RangesOf(keys)
  }

  method Expand(keys: seq<string>) returns (ranges: seq<Range>)
    ensures ranges == Expanded(keys)
  {
    if |keys| == 0 {
      return seq(|BUCKETS|, i requires 0 <= i < |BUCKETS| => BUCKETS[i].range);
    }
    ranges := [];
    for i := 0 to |keys|
      invariant ranges == RangesOf(keys[..i])
    {
      assert keys[..i + 1][..i] == keys[..i];
      if keys[i] == LEGACY_KEY {
        ranges := ranges + [LEGACY_RANGE];
        continue;
      }
      var bucket := Find(BUCKETS, keys[i]);
      if bucket.None? { continue; }
      ranges := ranges + [bucket.value.range];
    }
    assert keys[..|keys|] == keys;
  }

  function FilterOf(range: Range, evaluatedAt: Instant): Filter {
    Filter(
      if range.maxDaysExclusive.None? then None else Some(evaluatedAt - range.maxDaysExclusive.value * MS_PER_DAY),
      evaluatedAt - range.minDaysInclusive * MS_PER_DAY)
  }

  function FiltersOf(ranges: seq<Range>, evaluatedAt: Instant): seq<Filter> {
    seq(|ranges|, i requires 0 <= i < |ranges| => FilterOf(ranges[i], evaluatedAt))
  }

  function WhereOf(keys: seq<string>, evaluatedAt: Instant): Where {
    var filters := FiltersOf(Expanded(keys), evaluatedAt);
    if |filters| == 0 then NoRow else if |filters| == 1 then OneOf(filters[0]) else AnyOf(filters)
  }

  method BuildWhere(keys: seq<string>, evaluatedAt: Instant) returns (where: Where)
    ensures where == WhereOf(keys, evaluatedAt)
  {
    var ranges := Expand(keys);
    var filters := FiltersOf(ranges, evaluatedAt);
    if |filters| == 0 { return NoRow; }
    if |filters| == 1 { return OneOf(filters[0]); }
    return AnyOf(filters);
  }

  predicate Accepts(filter: Filter, generatedAt: Instant) {
    generatedAt <= filter.lte && (filter.gt.Some? ==> generatedAt > filter.gt.value)
  }

  predicate Selects(where: Where, generatedAt: Instant) {
    match where
    case NoRow => false
    case OneOf(only) => Accepts(only, generatedAt)
    case AnyOf(filters) => exists i | 0 <= i < |filters| :: Accepts(filters[i], generatedAt)
  }

  // ---- The check on each row read ----

  predicate Matches(bucket: Option<string>, keys: seq<string>, ageDays: int) {
    if keys == [] then bucket.Some?
    else
      || (bucket.Some? && bucket.value in keys)
      || (LEGACY_KEY in keys && (bucket == Some(KEY_6_9) || bucket == Some(KEY_9_12)))
      || (LEGACY_KEY in keys && 180 <= ageDays < 365)
  }

  // ---- The prefilter is exact ----

  lemma ElapsedDays(elapsed: int, days: int)
    ensures elapsed / MS_PER_DAY >= days <==> elapsed >= days * MS_PER_DAY
  {
  }

  lemma FilterIsExact(range: Range, generatedAt: Instant, evaluatedAt: Instant)
    ensures Accepts(FilterOf(range, evaluatedAt), generatedAt) <==> Contains(range, AgeDays(generatedAt, evaluatedAt))
  {
    ElapsedDays(evaluatedAt - generatedAt, range.minDaysInclusive);
    if range.maxDaysExclusive.Some? {
      ElapsedDays(evaluatedAt - generatedAt, range.maxDaysExclusive.value);
    }
  }

  /** Some requested range contains the age. */
  predicate Covered(ranges: seq<Range>, ageDays: int) {
    exists i | 0 <= i < |ranges| :: Contains(ranges[i], ageDays)
  }

  lemma SelectsCovered(keys: seq<string>, generatedAt: Instant, evaluatedAt: Instant)
    ensures Selects(WhereOf(keys, evaluatedAt), generatedAt)
        <==> Covered(Expanded(keys), AgeDays(generatedAt, evaluatedAt))
  {
    var ranges := Expanded(keys);
    var filters := FiltersOf(ranges, evaluatedAt);
    forall i | 0 <= i < |ranges|
      ensures Accepts(filters[i], generatedAt) <==> Contains(ranges[i], AgeDays(generatedAt, evaluatedAt))
    {
      FilterIsExact(ranges[i], generatedAt, evaluatedAt);
    }
  }

  lemma {:induction false} RangesCover(keys: seq<string>, ageDays: int)
    ensures Covered(RangesOf(keys), ageDays) <==> exists key | key in keys :: AgeInBucket(ageDays, key)
  {
    if keys != [] {
      var rest, last := keys[..|keys| - 1], keys[|keys| - 1];
      RangesCover(rest, ageDays);
      assert keys == rest + [last];
      var init, all := RangesOf(rest), RangesOf(keys);
      assert forall i | 0 <= i < |init| :: all[i] == init[i];
      if AgeInBucket(ageDays, last) { assert Contains(all[|init|], ageDays); }
    }
  }

  /**
   A request that names keys selects exactly the rows whose age lies in one of the buckets it names; an unknown
   key adds none.
   */
  lemma PrefilterIsExact(keys: seq<string>, generatedAt: Instant, evaluatedAt: Instant)
    requires keys != []
    ensures Selects(WhereOf(keys, evaluatedAt), generatedAt)
       <==> exists key | key in keys :: AgeInBucket(AgeDays(generatedAt, evaluatedAt), key)
  {
    SelectsCovered(keys, generatedAt, evaluatedAt);
    RangesCover(keys, AgeDays(generatedAt, evaluatedAt));
  }

  /** A request that names none selects exactly the rows the resolver gives a bucket. */
  lemma EmptyRequestIsExact(generatedAt: Instant, evaluatedAt: Instant)
    ensures Selects(WhereOf([], evaluatedAt), generatedAt) <==> BucketOf(AgeDays(generatedAt, evaluatedAt)).Some?
  {
    var ageDays := AgeDays(generatedAt, evaluatedAt);
    SelectsCovered([], generatedAt, evaluatedAt);
    var ranges := Expanded([]);
    assert Contains(ranges[0], ageDays) || Contains(ranges[1], ageDays) || Contains(ranges[2], ageDays)
        || Contains(ranges[3], ageDays) || Contains(ranges[4], ageDays) || ageDays < 30;
  }

  /** An unknown key never matches: the resolver gives only active keys. */
  lemma MatchesMeansInBucket(keys: seq<string>, ageDays: int)
    requires keys != []
    ensures Matches(BucketOf(ageDays), keys, ageDays) <==> exists key | key in keys :: AgeInBucket(ageDays, key)
  {
    BucketIsActive(ageDays);
    LegacyIsUnion(ageDays);
    KeysDiffer();
    if key :| key in keys && AgeInBucket(ageDays, key) && key != LEGACY_KEY {
      OnlyBucketOfItsAge(ageDays, key);
    }
    if BucketOf(ageDays).Some? { OnlyBucketOfItsAge(ageDays, BucketOf(ageDays).value); }
  }

  /**
   The two classifications agree: the row check discards for its age no row that the query selects, and the
   query hides none the check would keep.
   */
  lemma PrefilterAgreesWithRowCheck(keys: seq<string>, generatedAt: Instant, evaluatedAt: Instant)
    ensures var ageDays := AgeDays(generatedAt, evaluatedAt);
      Selects(WhereOf(keys, evaluatedAt), generatedAt) <==> Matches(BucketOf(ageDays), keys, ageDays)
  {
    if keys == [] {
      EmptyRequestIsExact(generatedAt, evaluatedAt);
    } else {
      PrefilterIsExact(keys, generatedAt, evaluatedAt);
      MatchesMeansInBucket(keys, AgeDays(generatedAt, evaluatedAt));
    }
  }

  // ---- Reading the request ----

  predicate Requests(value: Json, key: string) { value.Arr? && Str(key) in value.items && IsRequestKey(key) }

  predicate Comes(items: seq<Json>, first: string, second: string) {
    exists i | 0 <= i < |items| :: items[i] == Str(first) && Str(second) !in items[..i + 1]
  }

  /** The recognised keys of the request, each once, in the order of their first mention. */
  method ParseKeys(value: Json) returns (keys: seq<string>)
    ensures forall key :: key in keys <==> Requests(value, key)
    ensures value.Arr? ==> forall a, b | 0 <= a < b < |keys| :: Comes(value.items, keys[a], keys[b])
  {
    if !value.Arr? { return []; }
    var seen: set<string> := {};
    keys := [];
    for i := 0 to |value.items|
      invariant forall key :: key in seen <==> key in keys
      invariant forall key :: key in keys <==> Requests(Arr(value.items[..i]), key)
      invariant forall a, b | 0 <= a < b < |keys| :: Comes(value.items, keys[a], keys[b])
    {
      assert value.items[..i + 1] == value.items[..i] + [value.items[i]];
      var entry := value.items[i];
      if !entry.Str? || !IsRequestKey(entry.s) || entry.s in seen { continue; }
      assert Str(entry.s) !in value.items[..i];
      forall a | 0 <= a < |keys| ensures Comes(value.items, keys[a], entry.s) {
        assert Requests(Arr(value.items[..i]), keys[a]);
        var k :| 0 <= k < i && value.items[..i][k] == Str(keys[a]);
        assert forall j | 0 <= j <= k :: value.items[..k + 1][j] == value.items[..i][j];
      }
      seen := seen + {entry.s};
      keys := keys + [entry.s];
    }
    assert value.items[..|value.items|] == value.items;
  }
}
