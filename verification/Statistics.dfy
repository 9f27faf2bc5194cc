// Bounded statistics over the durations of completed activations.

module Statistics {
  import opened VirtualTime
  import opened Arithmetic
  import opened Rounding

  const RESERVOIR_CAPACITY: nat := 8192
  const SLOWEST_RETAINED: nat := 20
  const P95_MINIMUM: nat := 20
  const P99_MINIMUM: nat := 100

  datatype Activation = Activation(index: u64, time: u64, duration: u64)

  datatype Percentile = P50 | P95 | P99

  datatype PercentileValue = Nanoseconds(value: u64) | NoCompletedActivations | InsufficientSamples

  // ----- The slowest activations ---------------------------------------------------------------

  predicate Slower(a: Activation, b: Activation) {
    if a.duration != b.duration then a.duration > b.duration else a.index < b.index
  }

  /** `std::upper_bound`: the first position whose element comes after `a`. */
  function UpperBound(s: seq<Activation>, a: Activation): (p: nat)
    ensures p <= |s|
    ensures p < |s| ==> Slower(a, s[p])
  {
    if s == [] || Slower(a, s[0]) then 0 else 1 + UpperBound(s[1..], a)
  }

  function Inserted(s: seq<Activation>, a: Activation): seq<Activation> {
    var p := UpperBound(s, a);
    s[..p] + [a] + s[p..]
  }

  /** `keep_if_slow`. */
  function Kept(s: seq<Activation>, a: Activation): (r: seq<Activation>) {
    if |s| == SLOWEST_RETAINED && !Slower(a, s[|s| - 1]) then s
    else
      var t := Inserted(s, a);
      if |t| > SLOWEST_RETAINED then t[..|t| - 1] else t
  }

  /** The whole history, slowest first, equal durations in index order. */
  function Ranked(history: seq<Activation>): seq<Activation> {
    if history == [] then []
    else Inserted(Ranked(history[..|history| - 1]), history[|history| - 1])
  }

  function Slowest(history: seq<Activation>): seq<Activation> {
    if history == [] then []
    else Kept(Slowest(history[..|history| - 1]), history[|history| - 1])
  }

  function First20(s: seq<Activation>): seq<Activation> {
    if |s| <= SLOWEST_RETAINED then s else s[..SLOWEST_RETAINED]
  }

  predicate InRank(s: seq<Activation>) {
    forall i, j :: 0 <= i < j < |s| ==> !Slower(s[j], s[i])
  }

  lemma {:induction false} UpperBoundSplits(s: seq<Activation>, a: Activation, i: nat)
    requires InRank(s) && i < |s|
    ensures i < UpperBound(s, a) <==> !Slower(a, s[i])
    decreases |s|
  {
    if Slower(a, s[0]) || i == 0 {
    } else {
      UpperBoundSplits(s[1..], a, i - 1);
    }
  }

  lemma InsertedInRank(s: seq<Activation>, a: Activation)
    requires InRank(s)
    ensures InRank(Inserted(s, a))
  {
    var p, t := UpperBound(s, a), Inserted(s, a);
    forall i, j | 0 <= i < j < |t| ensures !Slower(t[j], t[i]) {
      if i < p { UpperBoundSplits(s, a, i); }
      if j > p { UpperBoundSplits(s, a, j - 1); }
    }
  }

  lemma InsertedAdds(s: seq<Activation>, a: Activation)
    ensures multiset(Inserted(s, a)) == multiset(s) + multiset{a}
  {
    var p := UpperBound(s, a);
    assert s == s[..p] + s[p..];
  }

  /** The reference: the ranking is a permutation of the history, in rank order. */
  lemma {:induction false} RankedMeaning(history: seq<Activation>)
    ensures InRank(Ranked(history))
    ensures multiset(Ranked(history)) == multiset(history)
  {
    if history == [] {
    } else {
      var n := |history| - 1;
      RankedMeaning(history[..n]);
      InsertedInRank(Ranked(history[..n]), history[n]);
      InsertedAdds(Ranked(history[..n]), history[n]);
      assert history == history[..n] + [history[n]];
    }
  }

  lemma {:induction false} UpperBoundOfPrefix(s: seq<Activation>, a: Activation, n: nat)
    requires n <= |s|
    ensures UpperBound(s[..n], a) == if UpperBound(s, a) < n then UpperBound(s, a) else n
    decreases n
  {
    if n == 0 || Slower(a, s[0]) {
    } else {
      assert s[..n][1..] == s[1..][..n - 1];
      UpperBoundOfPrefix(s[1..], a, n - 1);
    }
  }

  lemma KeptIsPrefix(s: seq<Activation>, a: Activation)
    requires InRank(s)
    ensures Kept(First20(s), a) == First20(Inserted(s, a))
  {
    var p, n := UpperBound(s, a), SLOWEST_RETAINED;
    if |s| >= n {
      UpperBoundSplits(s, a, n - 1);
      UpperBoundOfPrefix(s, a, n);
      if p < n {
        assert Inserted(s[..n], a)[..n] == Inserted(s, a)[..n];
      } else {
        assert Inserted(s, a)[..n] == s[..n];
      }
    }
  }

  /** Twenty slots are enough: after every history what is kept is exactly the first
      twenty of the whole history in rank order. */
  lemma {:induction false} SlowestIsExact(history: seq<Activation>)
    ensures Slowest(history) == First20(Ranked(history))
  {
    if history == [] {
    } else {
      var n := |history| - 1;
      SlowestIsExact(history[..n]);
      RankedMeaning(history[..n]);
      KeptIsPrefix(Ranked(history[..n]), history[n]);
    }
  }

  // ----- Nearest rank ---------------------------------------------------------------------------

  function InsertValue(v: u64, s: seq<u64>): seq<u64> {
    if s == [] || v <= s[0] then [v] + s else [s[0]] + InsertValue(v, s[1..])
  }

  /** `std::sort` on a copy of the samples. */
  function Ascending(s: seq<u64>): seq<u64> {
    if s == [] then [] else InsertValue(s[0], Ascending(s[1..]))
  }

  predicate IsAscending(s: seq<u64>) {
    forall i, j :: 0 <= i < j < |s| ==> s[i] <= s[j]
  }

  /** How many values are at most, and below, `v`. */
  function AtMost(s: seq<u64>, v: int): nat {
    if s == [] then 0 else (if s[0] <= v then 1 else 0) + AtMost(s[1..], v)
  }

  lemma {:induction false} InsertValueOrders(v: u64, s: seq<u64>)
    requires IsAscending(s)
    ensures IsAscending(InsertValue(v, s))
    ensures |InsertValue(v, s)| == |s| + 1
    ensures forall i :: 0 <= i <= |s| ==> InsertValue(v, s)[i] == v || InsertValue(v, s)[i] in s
    decreases |s|
  {
    if s == [] || v <= s[0] {
    } else {
      InsertValueOrders(v, s[1..]);
    }
  }

  lemma {:induction false} InsertValueCounts(v: u64, s: seq<u64>, bound: int)
    ensures AtMost(InsertValue(v, s), bound) == AtMost(s, bound) + if v <= bound then 1 else 0
    decreases |s|
  {
    if s == [] || v <= s[0] {
      assert ([v] + s)[1..] == s;
    } else {
      InsertValueCounts(v, s[1..], bound);
      assert ([s[0]] + InsertValue(v, s[1..]))[1..] == InsertValue(v, s[1..]);
    }
  }

  lemma {:induction false} AscendingMeaning(s: seq<u64>, bound: int)
    ensures IsAscending(Ascending(s))
    ensures |Ascending(s)| == |s|
    ensures AtMost(Ascending(s), bound) == AtMost(s, bound)
  {
    if s == [] {
    } else {
      AscendingMeaning(s[1..], bound);
      InsertValueOrders(s[0], Ascending(s[1..]));
      InsertValueCounts(s[0], Ascending(s[1..]), bound);
    }
  }

  lemma {:induction false} AtMostByPosition(s: seq<u64>, v: int, i: nat)
    requires IsAscending(s) && i < |s|
    ensures v >= s[i] ==> AtMost(s, v) >= i + 1
    ensures v < s[i] ==> AtMost(s, v) <= i
    decreases |s|
  {
    if i > 0 {
      AtMostByPosition(s[1..], v, i - 1);
    } else if v < s[0] {
      NoneAtMost(s, v);
    }
  }

  lemma {:induction false} NoneAtMost(s: seq<u64>, v: int)
    requires forall i :: 0 <= i < |s| ==> v < s[i]
    ensures AtMost(s, v) == 0
  {
    if s == [] {
    } else {
      NoneAtMost(s[1..], v);
    }
  }

  function RankPercent(p: Percentile): nat {
    match p case P50 => 50 case P95 => 95 case P99 => 99
  }

  function Minimum(p: Percentile): nat {
    match p case P50 => 1 case P95 => P95_MINIMUM case P99 => P99_MINIMUM
  }

  /** p per cent of n, in hundredths. */
  function Hundredths(p: nat, n: nat): nat {
    p * n
  }

  /** `v` is the nearest-rank percentile: the smallest value that at least p per cent of
      the samples do not exceed. */
  predicate NearestRank(samples: seq<u64>, p: nat, v: u64) {
    && v in samples
    && 100 * AtMost(samples, v) >= Hundredths(p, |samples|)
    && 100 * AtMost(samples, v - 1) < Hundredths(p, |samples|)
  }

  function Rank(p: nat, n: nat): nat {
    var rank := (Hundredths(p, n) + 99) / 100;
    if rank < 1 then 1 else rank
  }

  lemma RankIsNearest(samples: seq<u64>, p: nat)
    requires samples != [] && 1 <= p <= 100
    ensures 1 <= Rank(p, |samples|) <= |samples| == |Ascending(samples)|
    ensures NearestRank(samples, p, Ascending(samples)[Rank(p, |samples|) - 1])
  {
    RankBounds(p, |samples|);
    var rank, x := Rank(p, |samples|), Hundredths(p, |samples|);
    hide AtMost, Ascending, Rank, Hundredths, NearestRank;
    PositionIsNearest(samples, rank);
    var v := Ascending(samples)[rank - 1];
    FromCounts(samples, p, v, rank);
  }

  lemma FromCounts(samples: seq<u64>, p: nat, v: u64, rank: nat)
    requires v in samples && AtMost(samples, v) >= rank && AtMost(samples, (v as int) - 1) < rank
    requires 100 * (rank - 1) < Hundredths(p, |samples|) <= 100 * rank
    ensures NearestRank(samples, p, v)
  {
    hide AtMost, Hundredths;
  }

  lemma RankBounds(p: nat, n: nat)
    requires 1 <= p <= 100 && n >= 1
    ensures var rank := Rank(p, n);
      1 <= rank <= n && 100 * (rank - 1) < Hundredths(p, n) <= 100 * rank
  {
    MulMonotone(1, p, n);
    MulMonotone(p, 100, n);
  }

  lemma PositionIsNearest(samples: seq<u64>, rank: nat)
    requires 1 <= rank <= |samples|
    ensures |Ascending(samples)| == |samples|
    ensures var v := Ascending(samples)[rank - 1];
      v in samples && AtMost(samples, v) >= rank && AtMost(samples, (v as int) - 1) < rank
  {
    var s := Ascending(samples);
    AscendingMeaning(samples, 0);
    var v: int := s[rank - 1];
    AscendingMeaning(samples, v);
    AscendingMeaning(samples, v - 1);
    AtMostByPosition(s, v, rank - 1);
    AtMostByPosition(s, v - 1, rank - 1);
    AscendingKeeps(samples, v);
  }

  lemma {:induction false} AscendingKeeps(s: seq<u64>, v: u64)
    requires v in Ascending(s)
    ensures v in s
  {
    if s == [] {
    } else {
      AscendingMeaning(s[1..], 0);
      InsertValueOrders(s[0], Ascending(s[1..]));
      if v != s[0] {
        AscendingKeeps(s[1..], v);
      }
    }
  }

  // ----- The distribution -------------------------------------------------------------------------

  datatype Summary = Summary(count: nat, sum: u64, min: u64, max: u64, samples: seq<u64>, slowest: seq<Activation>)

  /** Algorithm R: a full reservoir replaces the drawn slot, if there is one. */
  function Sampled(samples: seq<u64>, count: nat, duration: u64, draw: u64): seq<u64>
    requires count > 0
  {
    if |samples| < RESERVOIR_CAPACITY then samples + [duration]
    else if draw % count < RESERVOIR_CAPACITY then samples[draw % count := duration]
    else samples
  }

  function Added(s: Summary, a: Activation, draw: u64): Summary {
    Summary(
      s.count + 1,
      (s.sum + a.duration) % TWO64,
      if s.count == 0 || a.duration < s.min then a.duration else s.min,
      if s.count == 0 || a.duration > s.max then a.duration else s.max,
      Sampled(s.samples, s.count + 1, a.duration, draw),
      Kept(s.slowest, a))
  }

  const EMPTY := Summary(0, 0, 0, 0, [], [])

  /** The summary of a history whose k-th addition drew `draws(k)`. */
  function After(history: seq<Activation>, draws: nat -> u64): Summary {
    if history == [] then EMPTY
    else
      var n := |history| - 1;
      Added(After(history[..n], draws), history[n], draws(n))
  }

  function Total(history: seq<Activation>): nat {
    if history == [] then 0 else Total(history[..|history| - 1]) + history[|history| - 1].duration
  }

  function Durations(history: seq<Activation>): (d: seq<u64>)
    ensures |d| == |history|
    ensures forall i :: 0 <= i < |d| ==> d[i] == history[i].duration
  {
    if history == [] then [] else Durations(history[..|history| - 1]) + [history[|history| - 1].duration]
  }

  /** For every history: the exact count, the sum modulo 2^64, the extrema, and the
      first twenty of the history in rank order. */
  lemma SummaryIsExact(history: seq<Activation>, draws: nat -> u64)
    ensures var s := After(history, draws);
      && s.count == |history|
      && s.sum == Total(history) % TWO64
      && (history != [] ==> s.min in Durations(history) && s.max in Durations(history))
      && (forall i :: 0 <= i < |history| ==> s.min <= history[i].duration <= s.max)
      && s.slowest == First20(Ranked(history))
  {
    TotalsAreExact(history, draws);
    ExtremaAreExact(history, draws);
    SlowestOfAfter(history, draws);
    SlowestIsExact(history);
  }

  lemma {:induction false} TotalsAreExact(history: seq<Activation>, draws: nat -> u64)
    ensures var s := After(history, draws); s.count == |history| && s.sum == Total(history) % TWO64
  {
    if history == [] {
    } else {
      var n := |history| - 1;
      TotalsAreExact(history[..n], draws);
      WrappedSum(Total(history[..n]), history[n].duration);
    }
  }

  lemma {:induction false} ExtremaAreExact(history: seq<Activation>, draws: nat -> u64)
    ensures var s := After(history, draws);
      && (history != [] ==> s.min in Durations(history) && s.max in Durations(history))
      && (forall i :: 0 <= i < |history| ==> s.min <= history[i].duration <= s.max)
  {
    if history == [] {
    } else {
      var n := |history| - 1;
      var s, t := After(history[..n], draws), After(history, draws);
      TotalsAreExact(history[..n], draws);
      ExtremaAreExact(history[..n], draws);
      var d := Durations(history);
      assert d == Durations(history[..n]) + [history[n].duration];
      hide After, Durations;
      assert history[n].duration == d[n];
      forall i | 0 <= i < |history| ensures t.min <= history[i].duration <= t.max {
        if i < n { assert history[i] == history[..n][i]; }
      }
    }
  }

  /** Up to the capacity of the reservoir the samples are all durations; beyond it, a full
      reservoir of durations that occurred. */
  lemma {:induction false} ReservoirIsExact(history: seq<Activation>, draws: nat -> u64)
    ensures var samples := After(history, draws).samples;
      if |history| <= RESERVOIR_CAPACITY then samples == Durations(history)
      else |samples| == RESERVOIR_CAPACITY && forall v :: v in samples ==> v in Durations(history)
  {
    if history == [] {
    } else {
      var n := |history| - 1;
      OneMore(history, draws);
      hide After, Durations;
      ReservoirIsExact(history[..n], draws);
      SampledHolds(After(history[..n], draws).samples, n + 1, history[n].duration, draws(n));
    }
  }

  lemma OneMore(history: seq<Activation>, draws: nat -> u64)
    requires history != []
    ensures var n := |history| - 1;
      && Durations(history) == Durations(history[..n]) + [history[n].duration]
      && After(history, draws).samples
         == Sampled(After(history[..n], draws).samples, n + 1, history[n].duration, draws(n))
  {
    hide Sampled, Kept;
    TotalsAreExact(history[..|history| - 1], draws);
  }

  lemma SampledHolds(samples: seq<u64>, count: nat, duration: u64, draw: u64)
    requires count > 0
    ensures var r := Sampled(samples, count, duration, draw);
      && (forall v :: v in r ==> v in samples || v == duration)
      && |r| == if |samples| < RESERVOIR_CAPACITY then |samples| + 1 else |samples|
  {
  }

  /** Up to the capacity, a percentile is the nearest rank over every completed activation. */
  lemma PercentileIsExact(history: seq<Activation>, draws: nat -> u64, p: Percentile, v: u64)
    requires |history| <= RESERVOIR_CAPACITY
    requires NearestRank(After(history, draws).samples, RankPercent(p), v)
    ensures NearestRank(Durations(history), RankPercent(p), v)
  {
    ReservoirIsExact(history, draws);
  }

  lemma WrappedSum(a: nat, b: nat)
    ensures (a % TWO64 + b) % TWO64 == (a + b) % TWO64
  {
    var q := a / TWO64;
    DivModUnique(a + b, TWO64, q + (a % TWO64 + b) / TWO64, (a % TWO64 + b) % TWO64);
  }

  lemma {:induction false} SlowestOfAfter(history: seq<Activation>, draws: nat -> u64)
    ensures After(history, draws).slowest == Slowest(history)
  {
    if history == [] {
    } else {
      SlowestOfAfter(history[..|history| - 1], draws);
    }
  }

  class DurationDistribution {
    var count: nat
    var sum: u64
    var min: u64
    var max: u64
    var samples: seq<u64>
    var slowest: seq<Activation>

    function State(): Summary
      reads this
    {
      Summary(count, sum, min, max, samples, slowest)
    }

    constructor ()
      ensures State() == EMPTY
    {
      count, sum, min, max, samples, slowest := 0, 0, 0, 0, [], [];
    }

    method Add(a: Activation, draw: u64)
      modifies this
      ensures State() == Added(old(State()), a, draw)
    {
      if count == 0 {
        min, max := a.duration, a.duration;
      } else {
        if a.duration < min { min := a.duration; }
        if a.duration > max { max := a.duration; }
      }
      count := count + 1;
      sum := (sum + a.duration) % TWO64;
      if |samples| < RESERVOIR_CAPACITY {
        samples := samples + [a.duration];
      } else {
        var slot := draw % count;
        if slot < RESERVOIR_CAPACITY { samples := samples[slot := a.duration]; }
      }
      KeepIfSlow(a);
    }

    method KeepIfSlow(a: Activation)
      modifies this`slowest
      ensures slowest == Kept(old(slowest), a)
    {
      if |slowest| == SLOWEST_RETAINED && !Slower(a, slowest[|slowest| - 1]) { return; }
      var p := UpperBound(slowest, a);
      slowest := slowest[..p] + [a] + slowest[p..];
      if |slowest| > SLOWEST_RETAINED { slowest := slowest[..|slowest| - 1]; }
    }

    /** The mean is the recorded sum over the count, rounded once. */
    method Mean() returns (mean: Option<Double>)
      requires count < TWO64
      ensures mean.None? <==> count == 0
      ensures mean.Some? ==> RoundsTo(sum, count, mean.value)
    {
      if count == 0 { return None; }
      var x := CorrectlyRoundedQuotient(sum, count);
      mean := Some(x);
    }

    method GetPercentile(p: Percentile) returns (r: PercentileValue)
      requires count > 0 ==> samples != []
      ensures r.NoCompletedActivations? <==> count == 0
      ensures r.InsufficientSamples? <==> 0 < count < Minimum(p)
      ensures r.Nanoseconds? ==> NearestRank(samples, RankPercent(p), r.value)
    {
      if count == 0 { return NoCompletedActivations; }
      if count < Minimum(p) { return InsufficientSamples; }
      RankIsNearest(samples, RankPercent(p));
      var sorted := Ascending(samples);
      r := Nanoseconds(sorted[Rank(RankPercent(p), |sorted|) - 1]);
    }
  }
}
