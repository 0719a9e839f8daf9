/** The date-seeded sampler: `select_random_monsters` picks `count` catalog
    entries with a generator seeded by today's date written `%Y-%m-%d`. The
    generator itself (`random.Random(seed).sample`) is a parameter, `Draw`,
    known only by its contract: k distinct positions below n. */
module Sampler {
  import opened Wrappers
  import opened PyJson

  /** A calendar date and a wall-clock reading, as `datetime.now()` gives them. */
  datatype Date = Date(year: int, month: int, day: int)
  datatype DateTime = DateTime(date: Date, hour: int, minute: int, second: int, microsecond: int)

  /** Proleptic Gregorian leap years, as `datetime` uses them. */
  predicate IsLeapYear(year: int) {
    year % 4 == 0 && (year % 100 != 0 || year % 400 == 0)
  }

  function DaysInMonth(year: int, month: int): int
    requires 1 <= month <= 12
  {
    if month == 2 then (if IsLeapYear(year) then 29 else 28)
    else if month in {4, 6, 9, 11} then 30
    else 31
  }

  /** The dates `datetime` can represent. */
  predicate ValidDate(d: Date) {
    1 <= d.year <= 9999 && 1 <= d.month <= 12 && 1 <= d.day <= DaysInMonth(d.year, d.month)
  }

  predicate ValidDateTime(t: DateTime) {
    && ValidDate(t.date)
    && 0 <= t.hour < 24 && 0 <= t.minute < 60 && 0 <= t.second < 60
    && 0 <= t.microsecond < 1000000
  }

  function Pow10(w: nat): (r: nat)
    ensures r >= 1
  {
    if w == 0 then 1 else 10 * Pow10(w - 1)
  }

  predicate IsDigit(c: char) {
    '0' <= c <= '9'
  }

  /** `n` in decimal, zero-padded to `width` digits (the `%Y`, `%m`, `%d` fields). */
  function Digits(n: nat, width: nat): (s: string)
    ensures |s| == width
    ensures forall c | c in s :: IsDigit(c)
  {
    if width == 0 then ""
    else Digits(n / 10, width - 1) + [('0' as int + n % 10) as char]
  }

  /** The value of a string of decimal digits; `None` if some character is not a digit. */
  function DigitsValue(s: string): (r: Option<nat>)
  {
    if s == [] then Some(0)
    else if !IsDigit(s[|s| - 1]) then None
    else match DigitsValue(s[..|s| - 1])
      case None => None
      case Some(v) => Some(10 * v + (s[|s| - 1] as int - '0' as int))
  }

  lemma {:induction false} DigitsRoundTrip(n: nat, width: nat)
    requires n < Pow10(width)
    ensures DigitsValue(Digits(n, width)) == Some(n)
  {
    if width == 0 {
    } else {
      var s := Digits(n, width);
      assert s[..|s| - 1] == Digits(n / 10, width - 1);
      assert n / 10 < Pow10(width - 1);
      DigitsRoundTrip(n / 10, width - 1);
    }
  }

  /** `strftime("%Y-%m-%d")`: the seed string of a day. */
  function DateSeed(d: Date): (s: string)
    requires ValidDate(d)
    ensures |s| == 10 && s[4] == '-' && s[7] == '-'
  {
    Digits(d.year, 4) + "-" + Digits(d.month, 2) + "-" + Digits(d.day, 2)
  }

  /** Reads a `%Y-%m-%d` string back; the inverse of `DateSeed`. */
  function ParseDateSeed(s: string): (r: Option<Date>)
  {
    if |s| != 10 || s[4] != '-' || s[7] != '-' then None
    else match (DigitsValue(s[..4]), DigitsValue(s[5..7]), DigitsValue(s[8..]))
      case (Some(y), Some(m), Some(d)) => Some(Date(y, m, d))
      case _ => None
  }

  lemma DateSeedRoundTrip(d: Date)
    requires ValidDate(d)
    ensures ParseDateSeed(DateSeed(d)) == Some(d)
  {
    var s := DateSeed(d);
    assert s[..4] == Digits(d.year, 4);
    assert s[5..7] == Digits(d.month, 2);
    assert s[8..] == Digits(d.day, 2);
    DigitsRoundTrip(d.year, 4);
    DigitsRoundTrip(d.month, 2);
    DigitsRoundTrip(d.day, 2);
  }

  /** Daily rotation: two different days give two different seeds. */
  lemma DistinctDaysDistinctSeeds(d1: Date, d2: Date)
    requires ValidDate(d1) && ValidDate(d2) && d1 != d2
    ensures DateSeed(d1) != DateSeed(d2)
  {
    DateSeedRoundTrip(d1);
    DateSeedRoundTrip(d2);
  }

  /** `random.Random(seed).sample(range(n), k)` seen as positions: the
      generator's answer for a seed, a population size and a sample size. */
  type Draw = (string, nat, nat) -> seq<nat>

  /** `k` pairwise-distinct positions below `n`. */
  predicate DistinctPositions(idx: seq<nat>, n: nat, k: nat) {
    && |idx| == k
    && (forall i | 0 <= i < |idx| :: idx[i] < n)
    && (forall i, j | 0 <= i < j < |idx| :: idx[i] != idx[j])
  }

  /** What sampling without replacement promises, for every seed. */
  ghost predicate SamplerContract(draw: Draw) {
    forall seed, n: nat, k: nat | k <= n :: DistinctPositions(draw(seed, n, k), n, k)
  }

  /** The entries of `xs` at the positions `idx`, in the order of `idx`. */
  function Pick<T>(xs: seq<T>, idx: seq<nat>): (r: seq<T>)
    requires forall i | 0 <= i < |idx| :: idx[i] < |xs|
    ensures |r| == |idx|
    ensures forall i | 0 <= i < |idx| :: r[i] == xs[idx[i]]
  {
    seq(|idx|, i requires 0 <= i < |idx| => xs[idx[i]])
  }

  /** `select_random_monsters(monster_list, count)`, run at wall-clock time `now`.
      `random.sample` raises `ValueError` for a negative count or one larger
      than the list. */
  function SelectRandomMonsters(monsterList: seq<Json>, count: int, now: DateTime, draw: Draw): (r: Result<seq<Json>, Exception>)
    requires ValidDateTime(now) && SamplerContract(draw)
    ensures r.Err? <==> count < 0 || count > |monsterList|
    ensures r.Err? ==> r.error == ValueError
    ensures r.Ok? ==> |r.value| == count
    ensures r.Ok? ==> forall e | e in r.value :: e in monsterList
    ensures r.Ok? ==> exists idx :: DistinctPositions(idx, |monsterList|, count) && r.value == Pick(monsterList, idx)
  {
    if count < 0 || count > |monsterList| then Err(ValueError)
    else
      var idx := draw(DateSeed(now.date), |monsterList|, count);
      assert DistinctPositions(idx, |monsterList|, count);
      Ok(Pick(monsterList, idx))
  }

  /** Determinism: the sample depends on the calendar date only, not on the
      time of day. */
  lemma SameDaySameSample(monsterList: seq<Json>, count: int, t1: DateTime, t2: DateTime, draw: Draw)
    requires ValidDateTime(t1) && ValidDateTime(t2) && SamplerContract(draw)
    requires t1.date == t2.date
    ensures SelectRandomMonsters(monsterList, count, t1, draw) == SelectRandomMonsters(monsterList, count, t2, draw)
  {
  }

  /** Positions below `k` shift down by none, those above by one: `idx` re-read
      against `xs` with position `k` removed. */
  function Unshift(idx: seq<nat>, k: nat): (r: seq<nat>)
    requires forall i | 0 <= i < |idx| :: idx[i] != k
    ensures |r| == |idx|
    ensures forall i | 0 <= i < |idx| :: r[i] == if idx[i] < k then idx[i] else idx[i] - 1
  {
    seq(|idx|, i requires 0 <= i < |idx| => if idx[i] < k then idx[i] else idx[i] - 1)
  }

  /** Picking at distinct positions takes each catalog entry at most as often
      as it occurs: the sample is a sub-multiset of the list. */
  lemma {:induction false} PickDistinctSubMultiset<T>(xs: seq<T>, idx: seq<nat>)
    requires DistinctPositions(idx, |xs|, |idx|)
    ensures multiset(Pick(xs, idx)) <= multiset(xs)
    decreases |idx|
  {
    if |idx| > 0 {
      var m := |idx| - 1;
      var k := idx[m];
      var front := idx[..m];
      var rest := xs[..k] + xs[k + 1..];
      var shifted := Unshift(front, k);
      assert DistinctPositions(shifted, |rest|, m);
      assert Pick(rest, shifted) == Pick(xs, front);
      PickDistinctSubMultiset(rest, shifted);
      assert Pick(xs, idx) == Pick(xs, front) + [xs[k]];
      RemoveOneMultiset(xs, k);
    }
  }

  /** Removing position `k` takes exactly one `xs[k]` out of the multiset. */
  lemma RemoveOneMultiset<T>(xs: seq<T>, k: nat)
    requires k < |xs|
    ensures multiset(xs) == multiset(xs[..k] + xs[k + 1..]) + multiset{xs[k]}
  {
    assert xs == xs[..k] + [xs[k]] + xs[k + 1..];
  }

  /** The sample never repeats a catalog entry more often than the catalog does. */
  lemma SampleIsSubMultiset(monsterList: seq<Json>, count: int, now: DateTime, draw: Draw)
    requires ValidDateTime(now) && SamplerContract(draw)
    requires 0 <= count <= |monsterList|
    ensures var r := SelectRandomMonsters(monsterList, count, now, draw);
      r.Ok? && multiset(r.value) <= multiset(monsterList)
  {
    var idx := draw(DateSeed(now.date), |monsterList|, count);
    assert DistinctPositions(idx, |monsterList|, count);
    PickDistinctSubMultiset(monsterList, idx);
  }

  /** No duplicates: a catalog without repeated entries gives a sample without
      repeated entries. */
  lemma SampleHasNoDuplicates(monsterList: seq<Json>, count: int, now: DateTime, draw: Draw)
    requires ValidDateTime(now) && SamplerContract(draw)
    requires 0 <= count <= |monsterList|
    requires forall i, j | 0 <= i < j < |monsterList| :: monsterList[i] != monsterList[j]
    ensures var r := SelectRandomMonsters(monsterList, count, now, draw);
      r.Ok? && forall i, j | 0 <= i < j < |r.value| :: r.value[i] != r.value[j]
  {
  }
}
