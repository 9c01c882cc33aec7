/**
 * Local time and calendar buckets. An instant is its count of milliseconds since 1970; a time zone is its offset in
 * whole seconds as a function of the instant.
 */
module PeriodAnalytics {
  import opened Text
  import opened Calendar

  type Zone = int -> int

  const DAY_MS: int := 86_400_000

  /** The local wall clock at instant `t`, read as if it were UTC. */
  function Local(zone: Zone, t: int): int { t + 1000 * zone(t) }

  /** The same to the second, which is all that `zonedParts` gives. */
  function Observed(zone: Zone, t: int): int { Local(zone, t) - Local(zone, t) % 1000 }

  /** The local day of an instant. */
  function LocalDay(zone: Zone, t: int): int { Local(zone, t) / DAY_MS }

  // ---------------------------------------------------------------- local time to instant

  /** `zonedDateTimeToUtc`, for the wall clock reading `desired`. */
  method ZonedToUtc(desired: int, zone: Zone) returns (result: int)
    ensures result == Inverted(desired, zone)
  {
    result := desired;
    var index := 0;
    while index < 3
      invariant 0 <= index <= 3 && Inverted(desired, zone) == Corrected(desired, zone, result, 3 - index)
    {
      var correction := desired - Observed(zone, result);
      if correction == 0 { break; }
      result := result + correction;
      index := index + 1;
    }
  }

  /** At most `n` corrections of `r`. */
  function Corrected(desired: int, zone: Zone, r: int, n: nat): int
    decreases n
  {
    var correction := desired - Observed(zone, r);
    if n == 0 || correction == 0 then r else Corrected(desired, zone, r + correction, n - 1)
  }

  function Inverted(desired: int, zone: Zone): int { Corrected(desired, zone, desired, 3) }

  predicate WholeSecond(t: int) { t % 1000 == 0 }

  lemma WholeObserved(zone: Zone, t: int)
    requires WholeSecond(t)
    ensures Observed(zone, t) == Local(zone, t) && WholeSecond(Local(zone, t))
  {
  }

  /** One correction of a whole second leads to the desired reading less the offset found. */
  lemma CorrectionStep(desired: int, zone: Zone, r: int)
    requires WholeSecond(desired) && WholeSecond(r)
    ensures r + (desired - Observed(zone, r)) == desired - 1000 * zone(r) && WholeSecond(desired - 1000 * zone(r))
    ensures desired - Observed(zone, r) == 0 <==> Local(zone, r) == desired
  {
    WholeObserved(zone, r);
  }

  /** A result that needs no further correction is exact, whatever the zone; otherwise all corrections were used. */
  lemma {:induction false} StopsExact(desired: int, zone: Zone, r: int, n: nat)
    requires WholeSecond(desired) && WholeSecond(r) && desired == Observed(zone, Corrected(desired, zone, r, n))
    ensures Local(zone, Corrected(desired, zone, r, n)) == desired
    decreases n
  {
    CorrectionStep(desired, zone, r);
    if n > 0 && desired != Observed(zone, r) {
      StopsExact(desired, zone, desired - 1000 * zone(r), n - 1);
    } else {
      WholeObserved(zone, r);
    }
  }

  /** No more than `m` seconds from UTC. */
  ghost predicate Bounded(zone: Zone, m: int) { forall t :: -m <= zone(t) <= m }

  /** From `lo` to `hi` the offset changes at most once, at instant `c`, from `a` to `b`. */
  ghost predicate OneChange(zone: Zone, lo: int, hi: int, c: int, a: int, b: int) {
    forall t :: lo <= t <= hi ==> zone(t) == if t < c then a else b
  }

  /** Some instant shows the desired reading. */
  ghost predicate Exists(desired: int, zone: Zone) { exists t :: Local(zone, t) == desired }

  lemma ThreeCorrections(desired: int, zone: Zone)
    requires WholeSecond(desired)
    ensures var r1 := desired - 1000 * zone(desired); var r2 := desired - 1000 * zone(r1);
      Local(zone, desired) == desired ==> Inverted(desired, zone) == desired
    ensures var r1 := desired - 1000 * zone(desired); var r2 := desired - 1000 * zone(r1);
      Local(zone, desired) != desired && Local(zone, r1) == desired ==> Inverted(desired, zone) == r1
    ensures var r1 := desired - 1000 * zone(desired); var r2 := desired - 1000 * zone(r1);
      Local(zone, desired) != desired && Local(zone, r1) != desired && Local(zone, r2) == desired ==>
        Inverted(desired, zone) == r2
  {
    var r1 := desired - 1000 * zone(desired);
    var r2 := desired - 1000 * zone(r1);
    CorrectionStep(desired, zone, desired);
    CorrectionStep(desired, zone, r1);
    CorrectionStep(desired, zone, r2);
    assert Local(zone, desired) != desired ==> Inverted(desired, zone) == Corrected(desired, zone, r1, 2);
    assert Local(zone, r1) != desired ==> Corrected(desired, zone, r1, 2) == Corrected(desired, zone, r2, 1);
  }

  /** One turn on a reading with milliseconds: there is always something to correct, and they are added. */
  lemma MillisecondsAdded(desired: int, zone: Zone, r: int) returns (k: int)
    requires !WholeSecond(desired)
    ensures desired - Observed(zone, r) == desired - 1000 * k && desired != 1000 * k
  {
    k := Local(zone, r) / 1000;
  }

  /** The loop adds the milliseconds of the desired reading at every turn: with any, it is never met, in no zone. */
  lemma MillisecondsNeverExact(desired: int, zone: Zone)
    requires !WholeSecond(desired)
    ensures Local(zone, Inverted(desired, zone)) != desired
  {
    var k1 := MillisecondsAdded(desired, zone, desired);
    var r1 := desired + desired - 1000 * k1;
    var k2 := MillisecondsAdded(desired, zone, r1);
    var r2 := r1 + desired - 1000 * k2;
    var k3 := MillisecondsAdded(desired, zone, r2);
    var r3 := r2 + desired - 1000 * k3;
    assert Inverted(desired, zone) == Corrected(desired, zone, r1, 2) == Corrected(desired, zone, r2, 1) == r3;
    if Local(zone, r3) == desired { ThirdOfThousand(desired, zone(r3) - k1 - k2 - k3); }
  }

  lemma ThirdOfThousand(d: int, k: int)
    requires 3 * d == -1000 * k
    ensures d % 1000 == 0
  {
    assert k % 3 == 0;
    assert d == -1000 * (k / 3);
  }

  /**
   * With at most one change of offset in reach, the result is exact if and only if the desired reading is a whole
   * second that exists; two corrections are then enough, and the third turn finds nothing to correct.
   */
  lemma InversionExactly(desired: int, zone: Zone, m: int, c: int, a: int, b: int)
    requires Bounded(zone, m) && OneChange(zone, desired - 1000 * m, desired + 1000 * m, c, a, b)
    ensures Local(zone, Inverted(desired, zone)) == desired <==> WholeSecond(desired) && Exists(desired, zone)
  {
    if !WholeSecond(desired) {
      MillisecondsNeverExact(desired, zone);
    } else if Exists(desired, zone) {
      var t :| Local(zone, t) == desired;
      assert -m <= zone(t) <= m && -m <= zone(desired) <= m;
      var r1 := desired - 1000 * zone(desired);
      assert -m <= zone(r1) <= m;
      ThreeCorrections(desired, zone);
      OneOfTwo(desired, zone, m, c, a, b, t);
    }
  }

  lemma OneOfTwo(desired: int, zone: Zone, m: int, c: int, a: int, b: int, t: int)
    requires Bounded(zone, m) && OneChange(zone, desired - 1000 * m, desired + 1000 * m, c, a, b)
      && Local(zone, t) == desired
    ensures var r1 := desired - 1000 * zone(desired);
      Local(zone, desired) == desired || Local(zone, r1) == desired || Local(zone, desired - 1000 * zone(r1)) == desired
  {
    var r1 := desired - 1000 * zone(desired);
    assert -m <= zone(t) <= m && -m <= zone(desired) <= m && -m <= zone(r1) <= m;
    var r2 := desired - 1000 * zone(r1);
    assert zone(desired) == if desired < c then a else b;
    assert zone(t) == if t < c then a else b;
    assert zone(r1) == if r1 < c then a else b;
    assert zone(r2) == if r2 < c then a else b;
  }

  // ---------------------------------------------------------------- buckets

  datatype Bucket = ByDay | ByMonth

  /** The key text, as its numbers: a month's key has day 0. */
  datatype Key = Key(year: int, month: int, day: int)

  function DayKey(day: int): Key { Key(CivilOf(day).year, CivilOf(day).month, CivilOf(day).day) }

  function MonthKey(m: Month): Key { Key(m.year, m.month + 1, 0) }

  /** The number of an instant's bucket: its local day, or the index of its local month. */
  function NumberOf(bucket: Bucket, zone: Zone, t: int): int {
    match bucket case ByDay => LocalDay(zone, t) case ByMonth => Index(MonthOf(LocalDay(zone, t)))
  }

  function MonthAt(index: int): (m: Month)
    ensures IsMonth(m) && Index(m) == index
  {
    Month(index / 12, index % 12)
  }

  function MonthKeyAt(n: int): Key { MonthKey(MonthAt(n)) }

  /** The key of each bucket number. */
  function Keys(bucket: Bucket): int -> Key { match bucket case ByDay => DayKey case ByMonth => MonthKeyAt }

  function KeyAt(bucket: Bucket, n: int): Key { Keys(bucket)(n) }

  lemma MonthAtIndex(m: Month)
    requires IsMonth(m)
    ensures MonthAt(Index(m)) == m
  {
  }

  /** `dayKey` and `monthKey` */
  function KeyOf(bucket: Bucket, zone: Zone, t: int): Key {
    match bucket case ByDay => DayKey(LocalDay(zone, t)) case ByMonth => MonthKey(MonthOf(LocalDay(zone, t)))
  }

  /** Keys stand for bucket numbers, one to one. */
  lemma KeysFaithful(bucket: Bucket, n: int, k: int)
    ensures KeyAt(bucket, n) == KeyAt(bucket, k) <==> n == k
  {
    if bucket.ByDay? && KeyAt(bucket, n) == KeyAt(bucket, k) { CivilInjective(n, k); }
  }

  lemma KeyIsNumbered(bucket: Bucket, zone: Zone, t: int)
    ensures KeyOf(bucket, zone, t) == KeyAt(bucket, NumberOf(bucket, zone, t))
  {
    if bucket.ByMonth? { MonthAtIndex(MonthOf(LocalDay(zone, t))); }
  }

  /** How many numbers there are from `lo` to `hi`. */
  function Span(lo: int, hi: int): nat { if lo <= hi then hi - lo + 1 else 0 }

  /** The keys `key` gives from `lo` on. */
  predicate KeysFrom(keys: seq<Key>, key: int -> Key, lo: int) {
    forall i :: 0 <= i < |keys| ==> keys[i] == key(lo + i)
  }

  /** The keys `key` gives from `lo` to `hi`. */
  predicate KeysAre(keys: seq<Key>, key: int -> Key, lo: int, hi: int) {
    |keys| == Span(lo, hi) && KeysFrom(keys, key, lo)
  }

  lemma KeysGrow(keys: seq<Key>, key: int -> Key, lo: int, next: Key)
    requires KeysFrom(keys, key, lo) && next == key(lo + |keys|)
    ensures KeysFrom(keys + [next], key, lo)
  {
  }

  /** `dayKeysBetween`: the days from one local date to the other, counted with UTC dates. */
  method DayKeysBetween(from: int, to: int, zone: Zone) returns (keys: seq<Key>)
    ensures KeysAre(keys, DayKey, LocalDay(zone, from), LocalDay(zone, to - 1))
  {
    var start := CivilOf(LocalDay(zone, from));
    var end := CivilOf(LocalDay(zone, to - 1));
    CivilIsDate(LocalDay(zone, from));
    CivilIsDate(LocalDay(zone, to - 1));
    keys := DaysFrom(DayNumber(start), DayNumber(end), DayKey);
  }

  /** The cursor loop over days, with the key of each. */
  method DaysFrom(first: int, last: int, key: int -> Key) returns (keys: seq<Key>)
    ensures KeysAre(keys, key, first, last)
  {
    var cursor := first;
    keys := [];
    while cursor <= last
      invariant cursor == first + |keys| && |keys| <= Span(first, last) && KeysFrom(keys, key, first)
      decreases last - cursor
    {
      KeysGrow(keys, key, first, key(cursor));
      keys := keys + [key(cursor)];
      cursor := cursor + 1;
    }
  }

  /** `monthKeysBetween`: from the first of one month to the first of the other. */
  method MonthKeysBetween(from: int, to: int, zone: Zone) returns (keys: seq<Key>)
    ensures KeysAre(keys, MonthKeyAt, Index(MonthOf(LocalDay(zone, from))), Index(MonthOf(LocalDay(zone, to - 1))))
  {
    var cursor := MonthOf(LocalDay(zone, from));
    var last := MonthOf(LocalDay(zone, to - 1));
    keys := MonthsFrom(cursor, last);
  }

  method MonthsFrom(first: Month, last: Month) returns (keys: seq<Key>)
    requires IsMonth(first) && IsMonth(last)
    ensures KeysAre(keys, MonthKeyAt, Index(first), Index(last))
  {
    var cursor := first;
    keys := [];
    FirstDayOrder(cursor, last);
    while FirstDay(cursor) <= FirstDay(last)
      invariant IsMonth(cursor) && Index(cursor) == Index(first) + |keys|
      invariant FirstDay(cursor) <= FirstDay(last) <==> Index(cursor) <= Index(last)
      invariant |keys| <= Span(Index(first), Index(last))
      invariant KeysFrom(keys, MonthKeyAt, Index(first))
      decreases Index(last) - Index(cursor)
    {
      MonthAtIndex(cursor);
      KeysGrow(keys, MonthKeyAt, Index(first), MonthKey(cursor));
      keys := keys + [MonthKey(cursor)];
      MonthLength(cursor);
      cursor := NextMonth(cursor);
      FirstDayOrder(cursor, last);
    }
  }

  // ---------------------------------------------------------------- the sparkline

  /** `dateInPeriod`; no start means from the beginning. */
  predicate InPeriod(v: int, from: Option<int>, to: int) { (from.Some? ==> from.value <= v) && v < to }

  datatype Period = Period(from: Option<int>, to: int, bucket: Bucket)

  /** The dates of the period in bucket `n`. */
  function CountIn(values: seq<int>, p: Period, zone: Zone, n: int): nat {
    if values == [] then 0
    else CountIn(values[..|values| - 1], p, zone, n) + Hit(values[|values| - 1], p, zone, n, n)
  }

  /** 1 for a date of the period in one of the buckets `lo` to `hi`. */
  function Hit(v: int, p: Period, zone: Zone, lo: int, hi: int): nat {
    if InPeriod(v, p.from, p.to) && lo <= NumberOf(p.bucket, zone, v) <= hi then 1 else 0
  }

  /** The dates of the period in the buckets `lo` to `hi`. */
  function CountBetween(values: seq<int>, p: Period, zone: Zone, lo: int, hi: int): nat {
    if values == [] then 0
    else CountBetween(values[..|values| - 1], p, zone, lo, hi) + Hit(values[|values| - 1], p, zone, lo, hi)
  }

  /** The dates of the period. */
  function CountAll(values: seq<int>, p: Period): nat {
    if values == [] then 0
    else CountAll(values[..|values| - 1], p) + (if InPeriod(values[|values| - 1], p.from, p.to) then 1 else 0)
  }

  /** A bucket and its dates, and the charted point: the instant the bucket starts at. */
  datatype Tally = Tally(key: Key, value: nat)

  datatype Point = Point(date: int, value: nat)

  /** The wall clock reading at the start of a bucket. */
  function Midnight(key: Key): int
    requires 1 <= key.month <= 12
  {
    DayNumber(Civil(key.year, key.month, if key.day == 0 then 1 else key.day)) * DAY_MS
  }

  /** `bucketDate` */
  function BucketDate(key: Key, zone: Zone): int
    requires 1 <= key.month <= 12
  {
    Inverted(Midnight(key), zone)
  }

  /** A bucket's point lies at its local midnight, if there is one, with at most one change of offset in reach. */
  lemma BucketDateExactly(key: Key, zone: Zone, m: int, c: int, a: int, b: int)
    requires 1 <= key.month <= 12 && Bounded(zone, m)
    requires OneChange(zone, Midnight(key) - 1000 * m, Midnight(key) + 1000 * m, c, a, b)
    ensures Local(zone, BucketDate(key, zone)) == Midnight(key) <==> Exists(Midnight(key), zone)
  {
    WholeDays(DayNumber(Civil(key.year, key.month, if key.day == 0 then 1 else key.day)));
    InversionExactly(Midnight(key), zone, m, c, a, b);
  }

  lemma WholeDays(n: int)
    ensures WholeSecond(n * DAY_MS)
  {
  }

  lemma KeyMonth(bucket: Bucket, n: int)
    ensures 1 <= KeyAt(bucket, n).month <= 12
  {
    if bucket.ByDay? { CivilIsDate(n); }
  }

  /** The day key is the date on the local wall clock, the month key its year and month. */
  lemma KeyIsLocalDate(zone: Zone, t: int)
    ensures var key := KeyOf(ByDay, zone, t); var c := Civil(key.year, key.month, key.day);
      && IsDate(c)
      && DayNumber(c) * 86_400_000 <= t + 1000 * zone(t) < (DayNumber(c) + 1) * 86_400_000
      && KeyOf(ByMonth, zone, t) == Key(key.year, key.month, 0)
  {
    CivilIsDate(LocalDay(zone, t));
  }

  /** The first day of a bucket. */
  function FirstOf(bucket: Bucket, n: int): int {
    match bucket case ByDay => n case ByMonth => FirstDay(MonthAt(n))
  }

  lemma MidnightIs(bucket: Bucket, n: int)
    ensures 1 <= KeyAt(bucket, n).month <= 12 && Midnight(KeyAt(bucket, n)) == FirstOf(bucket, n) * DAY_MS
  {
    KeyMonth(bucket, n);
    if bucket.ByDay? { CivilIsDate(n); } else { FirstDate(MonthAt(n)); }
  }

  lemma FirstDate(m: Month)
    requires IsMonth(m)
    ensures DayNumber(Civil(m.year, m.month + 1, 1)) == FirstDay(m)
  {
    assert Month(m.year, m.month + 1 - 1) == m;
  }

  /** A day is in month `n` or a later one if and only if it is not before the first day of month `n`. */
  lemma MonthStarts(n: int, d: int)
    ensures Index(MonthOf(d)) >= n <==> d >= FirstDay(MonthAt(n))
  {
    var m := MonthAt(n);
    MonthLength(m);
    OnlyMonth(FirstDay(m), m);
    if d >= FirstDay(m) { MonthMonotone(FirstDay(m), d); } else { MonthBefore(m, d); }
  }

  lemma MonthBefore(m: Month, d: int)
    requires IsMonth(m) && d < FirstDay(m)
    ensures Index(MonthOf(d)) < Index(m)
  {
    InsideMonth(d);
    FirstDayOrder(m, MonthOf(d));
  }

  /** A bucket begins where the local wall clock shows its midnight: what is earlier is in an earlier bucket. */
  lemma BucketStarts(bucket: Bucket, zone: Zone, n: int, t: int)
    ensures 1 <= KeyAt(bucket, n).month <= 12
    ensures NumberOf(bucket, zone, t) >= n <==> t + 1000 * zone(t) >= Midnight(KeyAt(bucket, n))
  {
    MidnightIs(bucket, n);
    var d := LocalDay(zone, t);
    if bucket.ByMonth? { MonthStarts(n, d); }
    DayStarts(t + 1000 * zone(t), FirstOf(bucket, n));
  }

  lemma DayStarts(x: int, d: int)
    ensures x / DAY_MS >= d <==> x >= d * DAY_MS
  {
  }

  /**
   * The point of bucket `n`, where its local midnight exists, lies in bucket `n`, and nothing that the wall clock
   * shows as earlier does.
   */
  lemma PointStartsBucket(bucket: Bucket, n: int, zone: Zone, t: int)
    requires 1 <= KeyAt(bucket, n).month <= 12
    requires Local(zone, BucketDate(KeyAt(bucket, n), zone)) == Midnight(KeyAt(bucket, n))
    ensures NumberOf(bucket, zone, BucketDate(KeyAt(bucket, n), zone)) == n
    ensures t + 1000 * zone(t) < Midnight(KeyAt(bucket, n)) ==> NumberOf(bucket, zone, t) < n
  {
    var r := BucketDate(KeyAt(bucket, n), zone);
    BucketStarts(bucket, zone, n, r);
    BucketStarts(bucket, zone, n + 1, r);
    BucketStarts(bucket, zone, n, t);
    LaterMidnight(bucket, n);
  }

  lemma LaterMidnight(bucket: Bucket, n: int)
    ensures 1 <= KeyAt(bucket, n).month <= 12 && 1 <= KeyAt(bucket, n + 1).month <= 12
    ensures Midnight(KeyAt(bucket, n)) < Midnight(KeyAt(bucket, n + 1))
  {
    MidnightIs(bucket, n);
    MidnightIs(bucket, n + 1);
    if bucket.ByMonth? { FirstDayStrict(MonthAt(n), MonthAt(n + 1)); }
  }

  /** The tally of bucket `n`. */
  function TallyAt(values: seq<int>, p: Period, zone: Zone, n: int): Tally {
    Tally(KeyAt(p.bucket, n), CountIn(values, p, zone, n))
  }

  /** The tallies of the buckets `lo` to `hi`. */
  function Tallies(values: seq<int>, p: Period, zone: Zone, lo: int, hi: int): seq<Tally> {
    TalliesBy(Given(values, p, zone), lo, hi)
  }

  function Given(values: seq<int>, p: Period, zone: Zone): int -> Tally { n => TallyAt(values, p, zone, n) }

  function TalliesBy(f: int -> Tally, lo: int, hi: int): seq<Tally> {
    seq(Span(lo, hi), i requires 0 <= i => f(lo + i))
  }

  /** `Math.min` over the dates. */
  function Earliest(values: seq<int>): (m: int)
    requires values != []
    ensures m in values && forall v :: v in values ==> m <= v
  {
    if |values| == 1 then values[0]
    else
      var rest := Earliest(values[..|values| - 1]);
      assert values == values[..|values| - 1] + [values[|values| - 1]];
      if values[|values| - 1] < rest then values[|values| - 1] else rest
  }

  /** The first instant charted; None when there is nothing to chart. */
  function Start(values: seq<int>, p: Period): Option<int> {
    if p.from.Some? then p.from else if values == [] then None else Some(Earliest(values))
  }

  /** The chart from the bucket of `start` to that of the last instant of the period. */
  function Charted(values: seq<int>, p: Period, zone: Zone, start: int): seq<Tally> {
    Tallies(values, p, zone, NumberOf(p.bucket, zone, start), NumberOf(p.bucket, zone, p.to - 1))
  }

  function Sparkline(values: seq<int>, p: Period, zone: Zone): seq<Tally> {
    match Start(values, p) case None => [] case Some(start) => Charted(values, p, zone, start)
  }

  /** The counted map holds, for every key, the dates of the period with that key. */
  ghost predicate Counts(counts: map<Key, nat>, values: seq<int>, p: Period, zone: Zone) {
    CountsBy(counts, values, p, zone, Keys(p.bucket))
  }

  /** The same, for any way of naming the buckets. */
  ghost predicate CountsBy(counts: map<Key, nat>, values: seq<int>, p: Period, zone: Zone, key: int -> Key) {
    forall n :: CountIn(values, p, zone, n) == if key(n) in counts then counts[key(n)] else 0
  }

  /** `counts.set(key, (counts.get(key) ?? 0) + 1)` */
  function AddOne(counts: map<Key, nat>, key: Key): map<Key, nat> {
    counts[key := (if key in counts then counts[key] else 0) + 1]
  }

  lemma CountsStep(counts: map<Key, nat>, values: seq<int>, v: int, p: Period, zone: Zone)
    requires Counts(counts, values, p, zone)
    ensures Counts(if InPeriod(v, p.from, p.to) then AddOne(counts, KeyOf(p.bucket, zone, v))
      else counts, values + [v], p, zone)
  {
    var number := NumberOf(p.bucket, zone, v);
    KeyIsNumbered(p.bucket, zone, v);
    forall n ensures Keys(p.bucket)(n) == KeyOf(p.bucket, zone, v) <==> n == number {
      KeysFaithful(p.bucket, n, number);
    }
    CountsAdd(counts, values, v, p, zone, Keys(p.bucket), KeyOf(p.bucket, zone, v), number);
  }

  lemma CountsAdd(counts: map<Key, nat>, values: seq<int>, v: int, p: Period, zone: Zone, key: int -> Key, own: Key,
    number: int)
    requires CountsBy(counts, values, p, zone, key) && number == NumberOf(p.bucket, zone, v)
      && forall n :: key(n) == own <==> n == number
    ensures CountsBy(if InPeriod(v, p.from, p.to) then AddOne(counts, own) else counts, values + [v], p, zone, key)
  {
    assert (values + [v])[..|values|] == values;
  }

  /** The dates of the period, counted by key. */
  method CountByKey(values: seq<int>, p: Period, zone: Zone) returns (counts: map<Key, nat>)
    ensures Counts(counts, values, p, zone)
  {
    counts := map[];
    var i := 0;
    while i < |values|
      invariant i <= |values| && Counts(counts, values[..i], p, zone)
    {
      CountsStep(counts, values[..i], values[i], p, zone);
      assert values[..i] + [values[i]] == values[..i + 1];
      if InPeriod(values[i], p.from, p.to) {
        counts := AddOne(counts, KeyOf(p.bucket, zone, values[i]));
      }
      i := i + 1;
    }
    assert values[..i] == values;
  }

  method KeysBetween(bucket: Bucket, from: int, to: int, zone: Zone)
    returns (keys: seq<Key>, ghost lo: int, ghost hi: int)
    ensures lo == NumberOf(bucket, zone, from) && hi == NumberOf(bucket, zone, to - 1)
      && KeysAre(keys, Keys(bucket), lo, hi)
  {
    lo, hi := NumberOf(bucket, zone, from), NumberOf(bucket, zone, to - 1);
    if bucket.ByMonth? { keys := MonthKeysBetween(from, to, zone); } else { keys := DayKeysBetween(from, to, zone); }
  }

  /** The points of a list of tallies. */
  ghost predicate PointsOf(points: seq<Point>, tallies: seq<Tally>, zone: Zone) {
    && |points| == |tallies|
    && forall i :: 0 <= i < |tallies| ==>
      1 <= tallies[i].key.month <= 12 && points[i] == Point(BucketDate(tallies[i].key, zone), tallies[i].value)
  }

  /** `analyticsSparkline` */
  method AnalyticsSparkline(values: seq<int>, p: Period, zone: Zone) returns (points: seq<Point>)
    ensures PointsOf(points, Sparkline(values, p, zone), zone)
  {
    if values == [] && p.from.None? { return []; }
    var start := if p.from.Some? then p.from.value else Earliest(values);
    points := ChartFrom(values, p, zone, start);
  }

  method ChartFrom(values: seq<int>, p: Period, zone: Zone, start: int) returns (points: seq<Point>)
    ensures PointsOf(points, Charted(values, p, zone, start), zone)
  {
    var counts := CountByKey(values, p, zone);
    var keys, lo, hi := KeysBetween(p.bucket, start, p.to, zone);
    ChartKeys(keys, counts, values, p, zone, start, lo, hi);
    points := MapPoints(keys, counts, zone, Charted(values, p, zone, start));
  }

  lemma ChartKeys(keys: seq<Key>, counts: map<Key, nat>, values: seq<int>, p: Period, zone: Zone, start: int, lo: int,
    hi: int)
    requires KeysAre(keys, Keys(p.bucket), lo, hi) && Numbered(p, zone, start, lo, hi)
      && Counts(counts, values, p, zone)
    ensures Gives(keys, counts, Charted(values, p, zone, start))
  {
    ChartedIs(values, p, zone, start, lo, hi);
    TalliesGiven(keys, counts, values, p, zone, lo, hi);
  }

  /** The chart that starts at `start` runs from bucket `lo` to bucket `hi`. */
  predicate Numbered(p: Period, zone: Zone, start: int, lo: int, hi: int) {
    lo == NumberOf(p.bucket, zone, start) && hi == NumberOf(p.bucket, zone, p.to - 1)
  }

  lemma ChartedIs(values: seq<int>, p: Period, zone: Zone, start: int, lo: int, hi: int)
    requires Numbered(p, zone, start, lo, hi)
    ensures Charted(values, p, zone, start) == Tallies(values, p, zone, lo, hi)
  {
  }

  /** The keys and their counts are the tallies. */
  ghost predicate Gives(keys: seq<Key>, counts: map<Key, nat>, tallies: seq<Tally>) {
    |keys| == |tallies| && forall i :: 0 <= i < |keys| ==>
      1 <= keys[i].month <= 12 && tallies[i] == Tally(keys[i], if keys[i] in counts then counts[keys[i]] else 0)
  }

  lemma TalliesGiven(keys: seq<Key>, counts: map<Key, nat>, values: seq<int>, p: Period, zone: Zone, lo: int, hi: int)
    requires KeysAre(keys, Keys(p.bucket), lo, hi) && Counts(counts, values, p, zone)
    ensures Gives(keys, counts, Tallies(values, p, zone, lo, hi))
  {
    forall n ensures Counted(Given(values, p, zone)(n), Keys(p.bucket)(n), counts) {
      KeyMonth(p.bucket, n);
    }
    GivenBy(keys, counts, Keys(p.bucket), Given(values, p, zone), lo, hi);
  }

  /** A tally is a key with its count. */
  predicate Counted(t: Tally, key: Key, counts: map<Key, nat>) {
    1 <= key.month <= 12 && t == Tally(key, if key in counts then counts[key] else 0)
  }

  lemma GivenBy(keys: seq<Key>, counts: map<Key, nat>, key: int -> Key, f: int -> Tally, lo: int, hi: int)
    requires KeysAre(keys, key, lo, hi) && forall n :: Counted(f(n), key(n), counts)
    ensures Gives(keys, counts, TalliesBy(f, lo, hi))
  {
    forall i | 0 <= i < |keys| ensures Counted(TalliesBy(f, lo, hi)[i], keys[i], counts) {
      assert Counted(f(lo + i), key(lo + i), counts);
    }
  }

  /** `keys.map(...)` */
  method MapPoints(keys: seq<Key>, counts: map<Key, nat>, zone: Zone, ghost tallies: seq<Tally>)
    returns (points: seq<Point>)
    requires Gives(keys, counts, tallies)
    ensures PointsOf(points, tallies, zone)
  {
    points := [];
    var i := 0;
    while i < |keys|
      invariant i <= |keys| && PointsOf(points, tallies[..i], zone)
    {
      var date := ZonedToUtc(Midnight(keys[i]), zone);
      points := points + [Point(date, if keys[i] in counts then counts[keys[i]] else 0)];
      i := i + 1;
    }
    assert tallies[..i] == tallies;
  }

  /** The places in the list of the dates of the period that fall into bucket `n`. */
  function PlacesIn(values: seq<int>, p: Period, zone: Zone, n: int): set<int> {
    set j | 0 <= j < |values| && (p.from.Some? ==> p.from.value <= values[j]) && values[j] < p.to
      && NumberOf(p.bucket, zone, values[j]) == n
  }

  lemma {:induction false} CountIsPlaces(values: seq<int>, p: Period, zone: Zone, n: int)
    ensures CountIn(values, p, zone, n) == |PlacesIn(values, p, zone, n)|
  {
    if values != [] {
      var k := |values| - 1;
      CountIsPlaces(values[..k], p, zone, n);
      PlacesGrow(values, p, zone, n);
    } else {
      assert PlacesIn(values, p, zone, n) == {};
    }
  }

  lemma PlacesGrow(values: seq<int>, p: Period, zone: Zone, n: int)
    requires values != []
    ensures var k := |values| - 1;
      |PlacesIn(values, p, zone, n)| == |PlacesIn(values[..k], p, zone, n)| + Hit(values[k], p, zone, n, n)
  {
    var k := |values| - 1;
    var before, after := PlacesIn(values[..k], p, zone, n), PlacesIn(values, p, zone, n);
    forall j ensures j in after <==> j in before || (j == k && Hit(values[k], p, zone, n, n) == 1) {
      if 0 <= j < k { assert values[..k][j] == values[j]; }
    }
    assert k !in before;
    if Hit(values[k], p, zone, n, n) == 1 { assert after == before + {k}; } else { assert after == before; }
  }

  /** One tally for each of the buckets `lo` to `hi`, in order. */
  predicate TalliesOf(r: seq<Tally>, f: int -> Tally, lo: int, hi: int) {
    && |r| == (if lo <= hi then hi - lo + 1 else 0)
    && forall i :: 0 <= i < |r| ==> r[i] == f(lo + i)
  }

  /** How many dates of the period fall into each bucket. */
  function Placed(values: seq<int>, p: Period, zone: Zone): int -> Tally {
    n => Tally(KeyAt(p.bucket, n), |PlacesIn(values, p, zone, n)|)
  }

  lemma TalliesAre(f: int -> Tally, lo: int, hi: int)
    ensures TalliesOf(TalliesBy(f, lo, hi), f, lo, hi)
  {
  }

  lemma SameTallies(r: seq<Tally>, f: int -> Tally, g: int -> Tally, lo: int, hi: int)
    requires TalliesOf(r, f, lo, hi) && forall n :: f(n) == g(n)
    ensures TalliesOf(r, g, lo, hi)
  {
  }

  lemma GivenIsPlaced(values: seq<int>, p: Period, zone: Zone)
    ensures forall n :: Given(values, p, zone)(n) == Placed(values, p, zone)(n)
  {
    forall n ensures Given(values, p, zone)(n) == Placed(values, p, zone)(n) {
      CountIsPlaces(values, p, zone, n);
    }
  }

  /**
   * The chart begins with the bucket of the period's start, or of the least date when the period has none, ends with
   * that of its last millisecond, and gives for every bucket in between how many of the dates that are not before
   * the start and before the end fall into it.
   */
  lemma SparklineExactly(values: seq<int>, p: Period, zone: Zone) returns (start: int, lo: int, hi: int)
    requires p.from.Some? || values != []
    ensures p.from == Some(start) || (p.from.None? && start in values && forall v :: v in values ==> start <= v)
    ensures lo == NumberOf(p.bucket, zone, start) && hi == NumberOf(p.bucket, zone, p.to - 1)
    ensures TalliesOf(Sparkline(values, p, zone), Placed(values, p, zone), lo, hi)
  {
    start := if p.from.Some? then p.from.value else Earliest(values);
    lo, hi := NumberOf(p.bucket, zone, start), NumberOf(p.bucket, zone, p.to - 1);
    ChartedIs(values, p, zone, start, lo, hi);
    TalliesAre(Given(values, p, zone), lo, hi);
    GivenIsPlaced(values, p, zone);
    SameTallies(Charted(values, p, zone, start), Given(values, p, zone), Placed(values, p, zone), lo, hi);
  }

  // ---------------------------------------------------------------- conservation

  function SumValues(points: seq<Tally>): nat {
    if points == [] then 0 else SumValues(points[..|points| - 1]) + points[|points| - 1].value
  }

  function SumIn(values: seq<int>, p: Period, zone: Zone, lo: int, hi: int): nat
    decreases hi - lo + 1
  {
    if lo > hi then 0 else SumIn(values, p, zone, lo, hi - 1) + CountIn(values, p, zone, hi)
  }

  lemma TalliesGrow(values: seq<int>, p: Period, zone: Zone, lo: int, hi: int)
    requires lo <= hi
    ensures var r := Tallies(values, p, zone, lo, hi);
      |r| > 0 && r[..|r| - 1] == Tallies(values, p, zone, lo, hi - 1) && r[|r| - 1] == TallyAt(values, p, zone, hi)
  {
  }

  lemma {:induction false} SumOfTallies(values: seq<int>, p: Period, zone: Zone, lo: int, hi: int)
    ensures SumValues(Tallies(values, p, zone, lo, hi)) == SumIn(values, p, zone, lo, hi)
    decreases hi - lo + 1
  {
    if lo <= hi {
      SumOfTallies(values, p, zone, lo, hi - 1);
      TalliesGrow(values, p, zone, lo, hi);
    }
  }

  lemma {:induction false} SumOfNone(p: Period, zone: Zone, lo: int, hi: int)
    ensures SumIn([], p, zone, lo, hi) == 0
    decreases hi - lo + 1
  {
    if lo <= hi { SumOfNone(p, zone, lo, hi - 1); }
  }

  /** One more date adds to one bucket at most. */
  lemma {:induction false} SumStep(values: seq<int>, v: int, p: Period, zone: Zone, lo: int, hi: int)
    ensures SumIn(values + [v], p, zone, lo, hi) == SumIn(values, p, zone, lo, hi) + Hit(v, p, zone, lo, hi)
    decreases hi - lo + 1
  {
    assert (values + [v])[..|values|] == values;
    if lo <= hi { SumStep(values, v, p, zone, lo, hi - 1); }
  }

  /** In any zone the buckets sum to the dates of the period that fall in one of them. */
  lemma {:induction false} SumIsCount(values: seq<int>, p: Period, zone: Zone, lo: int, hi: int)
    ensures SumIn(values, p, zone, lo, hi) == CountBetween(values, p, zone, lo, hi)
  {
    if values == [] {
      SumOfNone(p, zone, lo, hi);
    } else {
      SumIsCount(values[..|values| - 1], p, zone, lo, hi);
      SumStep(values[..|values| - 1], values[|values| - 1], p, zone, lo, hi);
      assert values == values[..|values| - 1] + [values[|values| - 1]];
    }
  }

  /** The local calendar day never moves backward. */
  ghost predicate Forward(zone: Zone) { forall s, t :: s <= t ==> LocalDay(zone, s) <= LocalDay(zone, t) }

  lemma NumberMonotone(bucket: Bucket, zone: Zone, s: int, t: int)
    requires Forward(zone) && s <= t
    ensures NumberOf(bucket, zone, s) <= NumberOf(bucket, zone, t)
  {
    assert LocalDay(zone, s) <= LocalDay(zone, t);
    MonthMonotone(LocalDay(zone, s), LocalDay(zone, t));
  }

  lemma {:induction false} AllCounted(values: seq<int>, p: Period, zone: Zone, start: int)
    requires Forward(zone) && forall v :: v in values && InPeriod(v, p.from, p.to) ==> start <= v
    ensures CountBetween(values, p, zone, NumberOf(p.bucket, zone, start), NumberOf(p.bucket, zone, p.to - 1)) ==
      CountAll(values, p)
  {
    if values != [] {
      var v := values[|values| - 1];
      assert v in values;
      AllCounted(values[..|values| - 1], p, zone, start);
      if InPeriod(v, p.from, p.to) {
        NumberMonotone(p.bucket, zone, start, v);
        NumberMonotone(p.bucket, zone, v, p.to - 1);
      }
    }
  }

  /** No date of the period is lost or counted twice: the values of the sparkline sum to their number. */
  lemma SparklineConserves(values: seq<int>, p: Period, zone: Zone)
    requires Forward(zone)
    ensures SumValues(Sparkline(values, p, zone)) == CountAll(values, p)
  {
    match Start(values, p)
    case None =>
    case Some(start) =>
      var lo, hi := NumberOf(p.bucket, zone, start), NumberOf(p.bucket, zone, p.to - 1);
      ChartedIs(values, p, zone, start, lo, hi);
      AllCounted(values, p, zone, start);
      Conserved(values, p, zone, lo, hi);
  }

  lemma Conserved(values: seq<int>, p: Period, zone: Zone, lo: int, hi: int)
    requires CountBetween(values, p, zone, lo, hi) == CountAll(values, p)
    ensures SumValues(Tallies(values, p, zone, lo, hi)) == CountAll(values, p)
  {
    SumOfTallies(values, p, zone, lo, hi);
    SumIsCount(values, p, zone, lo, hi);
  }

  /** Calendar order. */
  predicate Before(a: Key, b: Key) {
    a.year < b.year || (a.year == b.year && (a.month < b.month || (a.month == b.month && a.day < b.day)))
  }

  /** The keys listed are in calendar order, so no two are the same. */
  lemma KeysOrdered(bucket: Bucket, n: int, k: int)
    requires n < k
    ensures Before(KeyAt(bucket, n), KeyAt(bucket, k)) && KeyAt(bucket, n) != KeyAt(bucket, k)
  {
    if bucket.ByDay? {
      MonthMonotone(n, k);
      if MonthOf(n) != MonthOf(k) { MonthAtIndex(MonthOf(n)); MonthAtIndex(MonthOf(k)); }
    }
  }
}
