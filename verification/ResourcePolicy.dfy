/**
 * The capacity guard's sliding-window resource policy. The deque of recent depletion intervals is pruned on
 * every observation; here it is related to the whole sequence of samples since the growth baseline.
 * Times, rates and fractions are real numbers.
 */
module ResourcePolicy {
  import opened Wrappers

  datatype Capacity = Capacity(identity: string, total: int, available: int)
  datatype Sample = Sample(monotonic: real, resources: map<string, Capacity>)
  datatype Budget = Budget(floor: int, growthPerSecond: real, floorFraction: real, setupAllowance: int)
  datatype Interval = Interval(start: real, end: real, rate: real)

  predicate ValidCapacity(c: Capacity) { c.identity != "" && c.total > 0 && 0 <= c.available <= c.total }

  predicate ValidBudget(b: Budget) {
    b.setupAllowance >= 0 && b.floor > 0 && b.growthPerSecond > 0.0 && 0.0 <= b.floorFraction <= 0.5
  }

  function Max(a: real, b: real): real { if a >= b then a else b }
  function Min(a: real, b: real): real { if a <= b then a else b }
  function MaxInt(a: int, b: int): int { if a >= b then a else b }
  function Ceil(x: real): int { -((0.0 - x).Floor) }

  // ----- windows -----

  /** Depletion over one pair of samples; a gain counts as none. */
  function Rate(a: Sample, b: Sample, key: string): real
    requires key in a.resources && key in b.resources && a.monotonic < b.monotonic
  {
    Max(0.0, (a.resources[key].available - b.resources[key].available) as real / (b.monotonic - a.monotonic))
  }

  predicate HasKey(samples: seq<Sample>, key: string) { forall i :: 0 <= i < |samples| ==> key in samples[i].resources }
  predicate Increasing(samples: seq<Sample>) {
    forall i, j :: 0 <= i < j < |samples| ==> samples[i].monotonic < samples[j].monotonic
  }

  /** The intervals between consecutive samples. */
  function Intervals(samples: seq<Sample>, key: string): seq<Interval>
    requires HasKey(samples, key) && Increasing(samples)
  {
    if |samples| < 2 then []
    else
      var a, b := samples[|samples| - 2], samples[|samples| - 1];
      Intervals(samples[..|samples| - 1], key) + [Interval(a.monotonic, b.monotonic, Rate(a, b, key))]
  }

  /** Intervals that reach into the window. */
  function InWindow(h: seq<Interval>, from: real): seq<Interval> {
    if h == [] then [] else (if h[0].end > from then [h[0]] else []) + InWindow(h[1..], from)
  }

  /** What pruning from the left keeps. */
  function Prune(h: seq<Interval>, from: real): seq<Interval> {
    if h != [] && h[0].end <= from then Prune(h[1..], from) else h
  }

  function Clip(i: Interval, from: real): real { i.end - Max(i.start, from) }
  function Seconds(h: seq<Interval>, from: real): real {
    if h == [] then 0.0 else Clip(h[0], from) + Seconds(h[1..], from)
  }
  function Consumption(h: seq<Interval>, from: real): real {
    if h == [] then 0.0 else Clip(h[0], from) * h[0].rate + Consumption(h[1..], from)
  }
  function PeakRate(h: seq<Interval>): real { if h == [] then 0.0 else Max(h[0].rate, PeakRate(h[1..])) }
  predicate Ready(h: seq<Interval>, from: real) { |h| >= 3 && h[0].start <= from }

  /** Each interval starts where the one before it ended. */
  ghost predicate Contiguous(h: seq<Interval>) {
    (forall i :: 0 <= i < |h| ==> h[i].start < h[i].end && h[i].rate >= 0.0) &&
    forall i, j :: 0 <= i < j < |h| && j == i + 1 ==> h[i].end == h[j].start
  }

  lemma ContiguousTail(h: seq<Interval>)
    requires Contiguous(h) && h != []
    ensures Contiguous(h[1..])
  {
    var t := h[1..];
    forall i, j | 0 <= i < j < |t| && j == i + 1 ensures t[i].end == t[j].start {
      assert h[i + 1].end == h[j + 1].start;
    }
  }

  lemma {:induction false} LateAllInWindow(h: seq<Interval>, from: real)
    requires Contiguous(h) && h != [] && h[0].end > from
    ensures InWindow(h, from) == h
  {
    if |h| > 1 {
      ContiguousTail(h);
      LateAllInWindow(h[1..], from);
    }
    assert h == [h[0]] + h[1..];
  }

  /** On contiguous intervals, pruning from the left keeps exactly those that reach into the window. */
  lemma {:induction false} PruneIsInWindow(h: seq<Interval>, from: real)
    requires Contiguous(h)
    ensures Prune(h, from) == InWindow(h, from)
  {
    if h != [] {
      if h[0].end <= from {
        ContiguousTail(h);
        PruneIsInWindow(h[1..], from);
        assert [] + InWindow(h[1..], from) == InWindow(h[1..], from);
      } else {
        LateAllInWindow(h, from);
      }
    }
  }

  lemma {:induction false} InWindowConcat(a: seq<Interval>, b: seq<Interval>, from: real)
    ensures InWindow(a + b, from) == InWindow(a, from) + InWindow(b, from)
  {
    if a == [] {
      assert [] + b == b;
    } else {
      assert (a + b)[0] == a[0] && (a + b)[1..] == a[1..] + b;
      InWindowConcat(a[1..], b, from);
    }
  }

  lemma {:induction false} InWindowTwice(h: seq<Interval>, earlier: real, from: real)
    requires earlier <= from
    ensures InWindow(InWindow(h, earlier), from) == InWindow(h, from)
  {
    if h != [] {
      InWindowTwice(h[1..], earlier, from);
      InWindowConcat(if h[0].end > earlier then [h[0]] else [], InWindow(h[1..], earlier), from);
    }
  }

  /** Forgetting what an earlier window had already dropped loses nothing. */
  lemma WindowAgain(h: seq<Interval>, x: seq<Interval>, earlier: real, from: real)
    requires earlier <= from
    ensures InWindow(InWindow(h, earlier) + x, from) == InWindow(h + x, from)
  {
    InWindowConcat(InWindow(h, earlier), x, from);
    InWindowConcat(h, x, from);
    InWindowTwice(h, earlier, from);
  }

  /** What a window keeps: a contiguous run, all of it reaching in, that ends where the history ends. */
  ghost predicate Kept(h: seq<Interval>, k: seq<Interval>, from: real) {
    Contiguous(k) && (k != [] ==> h != [] && k[|k| - 1] == h[|h| - 1]) && forall i :: 0 <= i < |k| ==> k[i].end > from
  }

  lemma LateKept(h: seq<Interval>, from: real)
    requires Contiguous(h) && h != [] && h[0].end > from
    ensures Kept(h, h, from)
  {
    forall i | 0 <= i < |h| ensures h[i].end > from { EndsIncrease(h, i); }
  }

  lemma KeptOfTail(h: seq<Interval>, k: seq<Interval>, from: real)
    requires h != [] && Kept(h[1..], k, from)
    ensures Kept(h, k, from)
  {
    hide Contiguous;
  }

  lemma {:induction false} InWindowContiguous(h: seq<Interval>, from: real)
    requires Contiguous(h)
    ensures Kept(h, InWindow(h, from), from)
  {
    if h != [] {
      if h[0].end > from {
        hide Kept, Contiguous;
        LateAllInWindow(h, from);
        LateKept(h, from);
      } else {
        ContiguousTail(h);
        assert InWindow(h, from) == InWindow(h[1..], from);
        hide Kept, Contiguous, InWindow;
        InWindowContiguous(h[1..], from);
        KeptOfTail(h, InWindow(h[1..], from), from);
      }
    }
  }

  lemma {:induction false} EndsIncrease(h: seq<Interval>, i: nat)
    requires Contiguous(h) && i < |h|
    ensures h[0].end <= h[i].end && h[0].start <= h[i].start
  {
    if i > 0 { EndsIncrease(h, i - 1); assert h[i - 1].end == h[i].start; }
  }

  lemma {:induction false} IntervalsContiguous(samples: seq<Sample>, key: string)
    requires HasKey(samples, key) && Increasing(samples)
    ensures Contiguous(Intervals(samples, key))
            && |Intervals(samples, key)| == if samples == [] then 0 else |samples| - 1
    ensures |samples| >= 2 ==> Intervals(samples, key)[|samples| - 2].end == samples[|samples| - 1].monotonic
  {
    if |samples| >= 2 {
      IntervalsContiguous(samples[..|samples| - 1], key);
    }
  }

  /** Full seconds of a run of intervals that all start inside the window. */
  lemma {:induction false} InsideSeconds(h: seq<Interval>, from: real)
    requires Contiguous(h) && h != [] && h[0].start >= from
    ensures Seconds(h, from) == h[|h| - 1].end - h[0].start
  {
    if |h| > 1 {
      ContiguousTail(h);
      assert h[0].end == h[1].start;
      InsideSeconds(h[1..], from);
    }
  }

  /** When the window is covered, what was observed is exactly its length. */
  lemma CoveredSeconds(h: seq<Interval>, from: real)
    requires Contiguous(h) && h != [] && h[0].start <= from < h[0].end
    ensures Seconds(h, from) == h[|h| - 1].end - from
  {
    if |h| > 1 {
      ContiguousTail(h);
      assert h[0].end == h[1].start;
      InsideSeconds(h[1..], from);
    }
  }

  lemma {:induction false} ConsumptionAtMostPeak(h: seq<Interval>, from: real, peak: real)
    requires (forall i :: 0 <= i < |h| ==> h[i].end > from && h[i].start < h[i].end && 0.0 <= h[i].rate <= peak)
    ensures Consumption(h, from) <= peak * Seconds(h, from) && Seconds(h, from) >= 0.0
  {
    if h != [] {
      ConsumptionAtMostPeak(h[1..], from, peak);
      WeightedSum(Clip(h[0], from), h[0].rate, peak, Consumption(h[1..], from), Seconds(h[1..], from));
    }
  }

  lemma WeightedSum(c: real, rate: real, peak: real, consumed: real, seconds: real)
    requires c >= 0.0 && rate <= peak && consumed <= peak * seconds
    ensures c * rate + consumed <= peak * (c + seconds)
  {
    assert c * rate <= c * peak;
    assert peak * (c + seconds) == c * peak + peak * seconds;
  }

  lemma {:induction false} PeakRateBounds(h: seq<Interval>)
    ensures forall i :: 0 <= i < |h| ==> h[i].rate <= PeakRate(h)
  {
    if h != [] {
      PeakRateBounds(h[1..]);
      forall i | 0 <= i < |h| ensures h[i].rate <= PeakRate(h) { if i > 0 { assert h[i] == h[1..][i - 1]; } }
    }
  }

  /** A ready window has been observed for exactly its length, and its sustained rate never exceeds its recent peak. */
  lemma ReadyWindow(samples: seq<Sample>, key: string, window: real)
    requires HasKey(samples, key) && Increasing(samples) && |samples| >= 2 && window > 0.0
    requires var from := samples[|samples| - 1].monotonic - window; Ready(InWindow(Intervals(samples, key), from), from)
    ensures var from := samples[|samples| - 1].monotonic - window;
            var h := InWindow(Intervals(samples, key), from);
            Seconds(h, from) == window && Consumption(h, from) / Seconds(h, from) <= PeakRate(h)
  {
    var from := samples[|samples| - 1].monotonic - window;
    hide InWindow, Intervals, Seconds, Consumption, PeakRate, Increasing, HasKey, Contiguous;
    IntervalsContiguous(samples, key);
    InWindowContiguous(Intervals(samples, key), from);
    CoveredWindow(InWindow(Intervals(samples, key), from), from, window);
  }

  lemma CoveredWindow(h: seq<Interval>, from: real, window: real)
    requires Contiguous(h) && Ready(h, from) && window > 0.0 && h[|h| - 1].end == from + window
    requires forall i :: 0 <= i < |h| ==> h[i].end > from
    ensures Seconds(h, from) == window && Consumption(h, from) / Seconds(h, from) <= PeakRate(h)
  {
    hide Seconds, Consumption, PeakRate;
    CoveredSeconds(h, from);
    PeakRateBounds(h);
    ConsumptionAtMostPeak(h, from, PeakRate(h));
    var c, p, s := Consumption(h, from), PeakRate(h), Seconds(h, from);
    hide Contiguous, Ready;
    Quotient(c, p, s);
  }

  lemma Quotient(c: real, p: real, w: real)
    requires c <= p * w && w > 0.0
    ensures c / w <= p
  {
    assert (c / w) * w == c;
    if c / w > p { Scale(p, c / w, w); }
  }

  lemma Scale(a: real, b: real, w: real)
    requires a < b && w > 0.0
    ensures a * w < b * w
  {}

  // ----- one observation of one resource -----

  datatype Detail = Detail(
    seconds: real, consumption: real, intervals: nat, ready: bool, sustained: real, recentPeak: real, required: int)

  datatype Limits = Limits(horizon: real, interval: real, grace: real, factor: real, window: real)

  /** Growth projected to the deadline, at the declared or the sustained rate. */
  function Growth(limits: Limits, b: Budget, sustained: real, remaining: real): real {
    Max(b.growthPerSecond, sustained) * limits.factor * remaining
  }

  /** What an emergency shutdown may consume, at the declared or the recent peak rate. */
  function Emergency(limits: Limits, b: Budget, recentPeak: real): real {
    Max(b.growthPerSecond, recentPeak) * limits.factor * (limits.interval + limits.grace)
  }

  function FloorOf(b: Budget, total: int): int { MaxInt(b.floor, Ceil(total as real * b.floorFraction)) }

  /** The reserve an observation demands. */
  function Required(limits: Limits, b: Budget, total: int, sustained: real, recentPeak: real, remaining: real,
                    setupRemaining: int): int {
    Ceil(FloorOf(b, total) as real + Growth(limits, b, sustained, remaining) + Emergency(limits, b, recentPeak)
         + setupRemaining as real)
  }

  function SetupRemaining(b: Budget, initial: Capacity, now: Capacity, inSetup: bool): int {
    if inSetup then MaxInt(0, b.setupAllowance - MaxInt(0, initial.available - now.available)) else 0
  }

  /** Everything an observation computes from a window of intervals. */
  function Assessed(limits: Limits, b: Budget, h: seq<Interval>, from: real, total: int, remaining: real,
                    setupRemaining: int): Detail {
    var seconds, consumption, ready := Seconds(h, from), Consumption(h, from), Ready(h, from);
    var sustained := if ready && seconds != 0.0 then consumption / seconds else 0.0;
    Detail(seconds, consumption, |h|, ready, sustained, PeakRate(h),
           Required(limits, b, total, sustained, PeakRate(h), remaining, setupRemaining))
  }

  /** What is left once growth, an emergency shutdown and setup are paid for. */
  function Slack(limits: Limits, b: Budget, c: Capacity, sustained: real, recentPeak: real, remaining: real,
                 setupRemaining: int): real {
    c.available as real - Growth(limits, b, sustained, remaining) - Emergency(limits, b, recentPeak)
      - setupRemaining as real
  }

  /** The requirement is met exactly when what is left stays at or above both the absolute and the fractional floor. */
  lemma RequiredIsExact(limits: Limits, b: Budget, c: Capacity, sustained: real, recentPeak: real, remaining: real,
                        setupRemaining: int)
    ensures c.available >= Required(limits, b, c.total, sustained, recentPeak, remaining, setupRemaining) <==>
            (Slack(limits, b, c, sustained, recentPeak, remaining, setupRemaining) >= b.floor as real
             && Slack(limits, b, c, sustained, recentPeak, remaining,
                      setupRemaining) >= Ceil(c.total as real * b.floorFraction) as real)
  {
    var fraction := Ceil(c.total as real * b.floorFraction);
    assert FloorOf(b, c.total) == MaxInt(b.floor, fraction);
    hide Growth, Emergency, Ceil, FloorOf;
    var floor, rest := FloorOf(b, c.total),
         Growth(limits, b, sustained, remaining) + Emergency(limits, b, recentPeak) + setupRemaining as real;
    var need := FloorOf(b, c.total) as real + Growth(limits, b, sustained, remaining)
        + Emergency(limits, b, recentPeak) + setupRemaining as real;
    CeilExact(need, c.available);
    var slack := Slack(limits, b, c, sustained, recentPeak, remaining, setupRemaining);
    assert need == floor as real + rest && slack == c.available as real - rest;
    assert Required(limits, b, c.total, sustained, recentPeak, remaining, setupRemaining) == Ceil(need);
    assert c.available >= Ceil(need) <==> slack >= floor as real;
    assert slack >= floor as real <==> slack >= b.floor as real && slack >= fraction as real;
  }

  lemma CeilExact(x: real, n: int)
    ensures n >= Ceil(x) <==> n as real >= x
  {
    var f := (0.0 - x).Floor;
    assert f as real <= 0.0 - x < (f + 1) as real;
  }

  /**
   * Depletion counts every loss and no gain: a fully observed stretch consumed at least what it lost overall, and
   * exactly that if nothing was freed.
   */
  lemma {:induction false} ConsumptionCoversLoss(samples: seq<Sample>, key: string, from: real)
    requires |samples| >= 1 && HasKey(samples, key) && Increasing(samples) && from <= samples[0].monotonic
    ensures var lost := samples[0].resources[key].available - samples[|samples| - 1].resources[key].available;
            && Consumption(Intervals(samples, key), from) >= lost as real
            && (Shrinking(samples, key) ==> Consumption(Intervals(samples, key), from) == lost as real)
  {
    hide Intervals, Consumption;
    if |samples| >= 2 {
      LastLoss(samples, key, from);
      ConsumptionCoversLoss(samples[..|samples| - 1], key, from);
    } else {
      NothingConsumed(samples, key, from);
    }
  }

  lemma NothingConsumed(samples: seq<Sample>, key: string, from: real)
    requires |samples| == 1 && HasKey(samples, key) && Increasing(samples)
    ensures Consumption(Intervals(samples, key), from) == 0.0
  {}

  lemma LastLoss(samples: seq<Sample>, key: string, from: real)
    requires |samples| >= 2 && HasKey(samples, key) && Increasing(samples) && from <= samples[0].monotonic
    ensures HasKey(samples[..|samples| - 1], key) && Increasing(samples[..|samples| - 1])
    ensures var loss := samples[|samples| - 2].resources[key].available
              - samples[|samples| - 1].resources[key].available;
            Consumption(Intervals(samples, key), from) ==
            Consumption(Intervals(samples[..|samples| - 1], key), from) + if loss >= 0 then loss as real else 0.0
  {
    var a, b := samples[|samples| - 2], samples[|samples| - 1];
    assert samples[0].monotonic <= a.monotonic < b.monotonic;
    assert key in a.resources && key in b.resources;
    assert HasKey(samples[..|samples| - 1], key) && Increasing(samples[..|samples| - 1]);
    hide Increasing, Consumption, HasKey, Rate;
    var shorter, iv := Intervals(samples[..|samples| - 1], key), Interval(a.monotonic, b.monotonic, Rate(a, b, key));
    assert Intervals(samples, key) == shorter + [iv];
    hide Intervals;
    ConsumptionAppend(shorter, iv, from);
    LossOfPair(a, b, key);
  }

  predicate Shrinking(samples: seq<Sample>, key: string)
    requires HasKey(samples, key)
  {
    forall i, j :: 0 <= i < j < |samples| ==> samples[j].resources[key].available <= samples[i].resources[key].available
  }

  lemma LossOfPair(a: Sample, b: Sample, key: string)
    requires key in a.resources && key in b.resources && a.monotonic < b.monotonic
    ensures var loss := a.resources[key].available - b.resources[key].available;
            (b.monotonic - a.monotonic) * Rate(a, b, key) == if loss >= 0 then loss as real else 0.0
  {
    var loss, dt := (a.resources[key].available - b.resources[key].available) as real, b.monotonic - a.monotonic;
    assert dt * (loss / dt) == loss;
    if loss >= 0.0 { assert loss / dt >= 0.0; } else { NegativeQuotient(loss, dt); }
  }

  lemma NegativeQuotient(x: real, d: real)
    requires x < 0.0 && d > 0.0
    ensures x / d < 0.0
  {}

  lemma {:induction false} ConsumptionAppend(h: seq<Interval>, iv: Interval, from: real)
    ensures Consumption(h + [iv], from) == Consumption(h, from) + Clip(iv, from) * iv.rate
  {
    if h == [] {
      assert [iv][1..] == [];
    } else {
      assert (h + [iv])[1..] == h[1..] + [iv];
      ConsumptionAppend(h[1..], iv, from);
    }
  }

  /** Drop intervals that ended before the window, from the left. */
  method PruneLeft(h: seq<Interval>, from: real) returns (r: seq<Interval>)
    ensures r == Prune(h, from)
  {
    r := h;
    while r != [] && r[0].end <= from
      invariant Prune(r, from) == Prune(h, from)
      decreases |r|
    {
      r := r[1..];
    }
  }

  /** The samples after one more: the baseline restarts while setup lasts and at its end. */
  function NextSamples(samples: seq<Sample>, sample: Sample, restart: bool): seq<Sample> {
    if restart then [sample] else samples + [sample]
  }

  function LastInterval(samples: seq<Sample>, sample: Sample, key: string): Interval
    requires samples != [] && key in samples[|samples| - 1].resources && key in sample.resources
             && samples[|samples| - 1].monotonic < sample.monotonic
  {
    Interval(samples[|samples| - 1].monotonic, sample.monotonic, Rate(samples[|samples| - 1], sample, key))
  }

  lemma LongerSamples(samples: seq<Sample>, sample: Sample, key: string)
    requires samples != [] && HasKey(samples, key) && key in sample.resources && Increasing(samples)
    requires samples[|samples| - 1].monotonic < sample.monotonic
    ensures Increasing(samples + [sample]) && HasKey(samples + [sample], key)
    ensures Intervals(samples + [sample], key) == Intervals(samples, key) + [LastInterval(samples, sample, key)]
  {
    var longer, last := samples + [sample], samples[|samples| - 1];
    forall i, j | 0 <= i < j < |longer| ensures longer[i].monotonic < longer[j].monotonic {
      if j == |samples| && i < |samples| - 1 { assert samples[i].monotonic < last.monotonic; }
    }
    assert longer[..|longer| - 1] == samples && longer[|longer| - 2] == last;
  }

  /** Appending an interval to the deque and pruning gives the window of the longer history. */
  lemma NextDeque(all: seq<Interval>, iv: Interval, earlier: real, from: real)
    requires Contiguous(all) && earlier <= from && iv.start < iv.end && iv.rate >= 0.0
             && (all != [] ==> all[|all| - 1].end == iv.start)
    ensures Prune(InWindow(all, earlier) + [iv], from) == InWindow(all + [iv], from)
  {
    hide InWindow, Prune, Contiguous;
    InWindowContiguous(all, earlier);
    AppendContiguous(InWindow(all, earlier), iv);
    PruneIsInWindow(InWindow(all, earlier) + [iv], from);
    WindowAgain(all, [iv], earlier, from);
  }

  /** The window of a longer history, from the window of the shorter one. */
  lemma NextWindow(samples: seq<Sample>, sample: Sample, key: string, window: real)
    requires samples != [] && HasKey(samples, key) && key in sample.resources && Increasing(samples)
    requires samples[|samples| - 1].monotonic < sample.monotonic && window > 0.0
    ensures Increasing(samples + [sample]) && HasKey(samples + [sample], key)
    ensures var iv, from := LastInterval(samples, sample, key), sample.monotonic - window;
            && Intervals(samples + [sample], key) == Intervals(samples, key) + [iv]
            && Prune(InWindow(Intervals(samples, key), samples[|samples| - 1].monotonic - window) + [iv], from)
               == InWindow(Intervals(samples + [sample], key), from)
  {
    LongerSamples(samples, sample, key);
    IntervalsContiguous(samples, key);
    hide InWindow, Intervals, Increasing, Prune, Contiguous;
    NextDeque(Intervals(samples, key), LastInterval(samples, sample, key), samples[|samples| - 1].monotonic - window,
              sample.monotonic - window);
  }

  lemma AppendContiguous(h: seq<Interval>, iv: Interval)
    requires Contiguous(h) && iv.start < iv.end && iv.rate >= 0.0 && (h != [] ==> h[|h| - 1].end == iv.start)
    ensures Contiguous(h + [iv])
  {}

  lemma {:induction false} PeakRateAppend(h: seq<Interval>, iv: Interval)
    requires iv.rate >= 0.0
    ensures PeakRate(h + [iv]) == Max(PeakRate(h), iv.rate)
  {
    if h == [] {
      assert [iv][1..] == [];
    } else {
      assert (h + [iv])[1..] == h[1..] + [iv];
      PeakRateAppend(h[1..], iv);
    }
  }

  lemma NextIncreasing(samples: seq<Sample>, sample: Sample, restart: bool)
    requires Increasing(samples) && (samples != [] ==> samples[|samples| - 1].monotonic < sample.monotonic)
    ensures Increasing(NextSamples(samples, sample, restart))
    ensures var next := NextSamples(samples, sample, restart);
            next != [] && next[|next| - 1] == sample && (restart ==> |next| == 1)
  {
    var next := NextSamples(samples, sample, restart);
    forall i, j | 0 <= i < j < |next| ensures next[i].monotonic < next[j].monotonic {
      if j == |samples| && i < |samples| - 1 { assert samples[i].monotonic < samples[|samples| - 1].monotonic; }
    }
  }

  /** A baseline alone has no intervals. */
  lemma NoIntervals(samples: seq<Sample>, sample: Sample, key: string, from: real)
    requires key in sample.resources && HasKey(samples, key) && Increasing(samples) && |samples| <= 1
    ensures Increasing([sample]) && HasKey([sample], key) && Intervals([sample], key) == []
            && Intervals(samples, key) == []
    ensures forall at :: InWindow([], at) == []
    ensures Prune([], from) == []
    ensures samples == [] ==> NextSamples(samples, sample, false) == [sample]
  {}

  // ----- the policy -----

  datatype Category = InvalidMeasurement | NonmonotonicSample | ProbeUnavailable
  datatype Reason = HorizonExhausted | FilesystemChanged(key: string) | InsufficientReserve(key: string)
  datatype Stop = ObservationUnavailable(category: Category) | ReserveInsufficient(reasons: set<Reason>)

  datatype Outcome = Raised | Refused(stop: Stop) | Observed(allowed: bool, details: map<string, Detail>)

  predicate ValidSchedule(horizon: real, interval: real) { 1.0 <= horizon <= 7200.0 && interval in {30.0, 60.0} }
  predicate ValidMargin(grace: real, factor: real) { 30.0 <= grace <= 600.0 && 1.0 <= factor <= 10.0 }

  predicate ValidLimits(l: Limits) {
    ValidSchedule(l.horizon, l.interval) && ValidMargin(l.grace, l.factor) && l.window == Max(180.0, 3.0 * l.interval)
  }

  /** The host alone, or the host with both guest resources. */
  predicate CompleteBudgets(budgets: map<string, Budget>) {
    budgets.Keys in {{"host_bytes"}, {"host_bytes", "guest_bytes", "guest_inodes"}}
  }

  predicate ValidBudgets(budgets: map<string, Budget>) { forall key :: key in budgets ==> ValidBudget(budgets[key]) }

  /** Why a policy cannot be set up, in the order the checks are made. */
  datatype SetupError = BudgetsIncomplete | BudgetInvalid | ScheduleInvalid | MarginInvalid

  /** What one resource has accumulated: its lifetime peak and its deque. */
  datatype Track = Track(peak: real, deque: seq<Interval>)

  ghost predicate WellSampled(samples: seq<Sample>, key: string) { Increasing(samples) && HasKey(samples, key) }

  /** The deque is exactly what of the whole history reaches into the window, and the peak is the whole history's. */
  ghost predicate Agrees(samples: seq<Sample>, window: real, key: string, t: Track) {
    && WellSampled(samples, key) && t.peak == PeakRate(Intervals(samples, key))
    && t.deque == if samples == [] then []
      else InWindow(Intervals(samples, key), samples[|samples| - 1].monotonic - window)
  }

  /** The circumstances of one observation. */
  datatype Context = Context(limits: Limits, previous: Option<Sample>, sample: Sample, inSetup: bool, restart: bool,
                             remaining: real)

  ghost predicate ContextOk(ctx: Context, samples: seq<Sample>) {
    && ctx.limits.window > 0.0 && (ctx.restart ==> |samples| <= 1)
    && (ctx.previous.None? ==> samples == [])
    && (ctx.previous.Some? ==>
      samples != [] && samples[|samples| - 1] == ctx.previous.value
      && ctx.previous.value.monotonic < ctx.sample.monotonic)
  }

  function DetailOf(ctx: Context, b: Budget, initial: Capacity, now: Capacity, deque: seq<Interval>): Detail {
    Assessed(ctx.limits, b, deque, ctx.sample.monotonic - ctx.limits.window, now.total, ctx.remaining,
             SetupRemaining(b, initial, now, ctx.inSetup))
  }

  /** One resource's turn: extend its deque and peak unless the baseline restarts, and prune. */
  method Extend(ctx: Context, key: string, t: Track, ghost samples: seq<Sample>) returns (u: Track)
    requires ContextOk(ctx, samples) && key in ctx.sample.resources && Agrees(samples, ctx.limits.window, key, t)
    ensures Agrees(NextSamples(samples, ctx.sample, ctx.restart), ctx.limits.window, key, u)
  {
    hide PeakRate, InWindow, Prune;
    var from := ctx.sample.monotonic - ctx.limits.window;
    var peak, deque := t.peak, t.deque;
    if ctx.previous.Some? && !ctx.restart {
      var last := ctx.previous.value;
      var rate := Rate(last, ctx.sample, key);
      peak := Max(peak, rate);
      deque := deque + [Interval(last.monotonic, ctx.sample.monotonic, rate)];
      NextWindow(samples, ctx.sample, key, ctx.limits.window);
      PeakRateAppend(Intervals(samples, key), LastInterval(samples, ctx.sample, key));
    } else {
      NoIntervals(samples, ctx.sample, key, from);
    }
    deque := PruneLeft(deque, from);
    u := Track(peak, deque);
  }

  /** The demands on one resource: same filesystem as before, and enough left. */
  predicate Sufficient(previous: Option<Sample>, sample: Sample, key: string, required: int) {
    && key in sample.resources && sample.resources[key].available >= required
    && (previous.Some? ==>
      key in previous.value.resources && SameFilesystem(previous.value.resources[key], sample.resources[key]))
  }

  predicate SameFilesystem(a: Capacity, b: Capacity) { a.identity == b.identity && a.total == b.total }

  /** The reasons one resource gives to stop. */
  function Shortfalls(previous: Option<Sample>, sample: Sample, key: string, required: int): (r: set<Reason>)
    requires key in sample.resources && (previous.Some? ==> key in previous.value.resources)
    ensures r == {} <==> Sufficient(previous, sample, key, required)
  {
    (if previous.Some?
      && !SameFilesystem(previous.value.resources[key], sample.resources[key]) then {FilesystemChanged(key)} else {}) +
    (if sample.resources[key].available < required then {InsufficientReserve(key)} else {})
  }

  ghost predicate AllAgree(budgets: map<string, Budget>, samples: seq<Sample>, window: real,
                           tracks: map<string, Track>) {
    tracks.Keys == budgets.Keys && forall key :: key in budgets ==> Agrees(samples, window, key, tracks[key])
  }

  datatype Row = Row(track: Track, detail: Detail)

  /** What a resource's turn must leave, in terms of the whole history. */
  ghost predicate RowOk(ctx: Context, b: Budget, initial: Capacity, next: seq<Sample>, key: string, row: Row) {
    && key in ctx.sample.resources && Agrees(next, ctx.limits.window, key, row.track)
    && row.detail == DetailOf(ctx, b, initial, ctx.sample.resources[key], row.track.deque)
  }

  predicate Passes(ctx: Context, key: string, row: Row) {
    Sufficient(ctx.previous, ctx.sample, key, row.detail.required)
  }

  method ObserveOne(ctx: Context, b: Budget, initial: Capacity, key: string, t: Track, ghost samples: seq<Sample>)
    returns (row: Row, reasons: set<Reason>)
    requires ContextOk(ctx, samples) && key in ctx.sample.resources && Agrees(samples, ctx.limits.window, key, t)
    ensures RowOk(ctx, b, initial, NextSamples(samples, ctx.sample, ctx.restart), key, row)
    ensures reasons == {} <==> Passes(ctx, key, row)
  {
    hide DetailOf, Intervals, InWindow, PeakRate;
    var track := Extend(ctx, key, t, samples);
    row := Row(track, DetailOf(ctx, b, initial, ctx.sample.resources[key], track.deque));
    reasons := Shortfalls(ctx.previous, ctx.sample, key, row.detail.required);
  }

  /** Every resource in turn. */
  method ObserveAll(ctx: Context, budgets: map<string, Budget>, initial: map<string, Capacity>, deadline: real,
                    tracks: map<string, Track>, ghost samples: seq<Sample>)
    returns (rows: map<string, Row>, reasons: set<Reason>)
    requires ContextOk(ctx, samples) && AllAgree(budgets, samples, ctx.limits.window, tracks)
    requires initial.Keys == budgets.Keys == ctx.sample.resources.Keys
    ensures forall key :: key in budgets ==>
              key in rows
              && RowOk(ctx, budgets[key], initial[key], NextSamples(samples, ctx.sample, ctx.restart), key, rows[key])
    ensures reasons == {} <==>
              ctx.sample.monotonic < deadline && forall key :: key in budgets ==> Passes(ctx, key, rows[key])
  {
    hide ContextOk, Agrees, RowOk, Passes, NextSamples;
    ghost var next := NextSamples(samples, ctx.sample, ctx.restart);
    rows := map[];
    reasons := if ctx.sample.monotonic >= deadline then {HorizonExhausted} else {};
    var left := budgets.Keys;
    while left != {}
      invariant left <= budgets.Keys
      invariant forall key :: key in budgets && key !in left ==>
                  key in rows && RowOk(ctx, budgets[key], initial[key], next, key, rows[key])
      invariant reasons == {} <==>
                  ctx.sample.monotonic < deadline && forall key :: key in budgets && key !in left ==>
                    Passes(ctx, key, rows[key])
      decreases |left|
    {
      var key :| key in left;
      var row, more := ObserveOne(ctx, budgets[key], initial[key], key, tracks[key], samples);
      rows, left, reasons := rows[key := row], left - {key}, reasons + more;
    }
  }

  /** Collected rows are tracks that agree with the whole history, and details recomputed from it. */
  lemma RowsAgree(ctx: Context, budgets: map<string, Budget>, initial: map<string, Capacity>, next: seq<Sample>,
                  rows: map<string, Row>, tracks: map<string, Track>)
    requires budgets.Keys == initial.Keys && next != [] && next[|next| - 1] == ctx.sample
    requires forall key :: key in budgets ==>
               key in rows && RowOk(ctx, budgets[key], initial[key], next, key, rows[key])
    requires tracks == map key | key in budgets :: rows[key].track
    ensures AllAgree(budgets, next, ctx.limits.window, tracks)
    ensures forall key :: key in budgets ==> WellSampled(next, key) && key in ctx.sample.resources
    ensures forall key :: key in budgets ==>
      rows[key].detail ==
        DetailOf(ctx, budgets[key], initial[key], ctx.sample.resources[key],
                 InWindow(Intervals(next, key), ctx.sample.monotonic - ctx.limits.window))
  {
    hide DetailOf, Intervals, InWindow, PeakRate, Increasing, HasKey;
    forall key | key in budgets
      ensures WellSampled(next, key) && Agrees(next, ctx.limits.window, key, tracks[key])
      ensures key in ctx.sample.resources && rows[key].detail ==
              DetailOf(ctx, budgets[key], initial[key], ctx.sample.resources[key],
                       InWindow(Intervals(next, key), ctx.sample.monotonic - ctx.limits.window))
    {
      assert RowOk(ctx, budgets[key], initial[key], next, key, rows[key]);
    }
  }

  /** The details an observation reports, recomputed over the whole history. */
  ghost predicate DetailsRecomputed(ctx: Context, budgets: map<string, Budget>, initial: map<string, Capacity>,
                                    next: seq<Sample>, details: map<string, Detail>) {
    && details.Keys == budgets.Keys
    && forall key :: key in budgets ==>
         && key in initial && key in ctx.sample.resources && WellSampled(next, key)
         && details[key] ==
           DetailOf(ctx, budgets[key], initial[key], ctx.sample.resources[key],
                    InWindow(Intervals(next, key), ctx.sample.monotonic - ctx.limits.window))
  }

  ghost predicate AllSufficient(ctx: Context, budgets: map<string, Budget>, details: map<string, Detail>) {
    forall key :: key in budgets ==> key in details && Sufficient(ctx.previous, ctx.sample, key, details[key].required)
  }

  method Observation(ctx: Context, budgets: map<string, Budget>, initial: map<string, Capacity>, deadline: real,
                     tracks: map<string, Track>, ghost samples: seq<Sample>)
    returns (after: map<string, Track>, reasons: set<Reason>, details: map<string, Detail>)
    requires ContextOk(ctx, samples) && AllAgree(budgets, samples, ctx.limits.window, tracks) && Increasing(samples)
    requires initial.Keys == budgets.Keys == ctx.sample.resources.Keys
    ensures AllAgree(budgets, NextSamples(samples, ctx.sample, ctx.restart), ctx.limits.window, after)
    ensures DetailsRecomputed(ctx, budgets, initial, NextSamples(samples, ctx.sample, ctx.restart), details)
    ensures reasons == {} <==> ctx.sample.monotonic < deadline && AllSufficient(ctx, budgets, details)
  {
    hide Increasing, InWindow, Intervals, DetailOf, Sufficient, HasKey, ContextOk, AllAgree, WellSampled, RowOk, Agrees;
    LastIsEarlier(samples, ctx);
    NextIncreasing(samples, ctx.sample, ctx.restart);
    var rows;
    rows, reasons := ObserveAll(ctx, budgets, initial, deadline, tracks, samples);
    after := map key | key in budgets :: rows[key].track;
    details := map key | key in budgets :: rows[key].detail;
    RowsAgree(ctx, budgets, initial, NextSamples(samples, ctx.sample, ctx.restart), rows, after);
  }

  /**
   * A reported detail that calls itself ready observed exactly the window, and its sustained rate is at most its
   * recent peak.
   */
  lemma ReadyDetail(ctx: Context, budgets: map<string, Budget>, initial: map<string, Capacity>, next: seq<Sample>,
                    details: map<string, Detail>, key: string)
    requires DetailsRecomputed(ctx, budgets, initial, next, details) && key in budgets && details[key].ready
    requires ctx.limits.window > 0.0 && next != [] && next[|next| - 1] == ctx.sample
    ensures details[key].seconds == ctx.limits.window && details[key].sustained <= details[key].recentPeak
            && details[key].intervals >= 3
  {
    hide Seconds, Consumption, PeakRate, InWindow, Required, SetupRemaining;
    var from := ctx.sample.monotonic - ctx.limits.window;
    if |next| < 2 {
      assert Intervals(next, key) == [];
      EmptyWindow(from);
    }
    ReadyWindow(next, key, ctx.limits.window);
  }

  lemma EmptyWindow(from: real)
    ensures InWindow([], from) == []
  {}

  lemma LastIsEarlier(samples: seq<Sample>, ctx: Context)
    requires ContextOk(ctx, samples)
    ensures samples != [] ==> samples[|samples| - 1].monotonic < ctx.sample.monotonic
  {}

  class Policy {
    const budgets: map<string, Budget>
    const limits: Limits
    var started: Option<real>
    var previous: Option<Sample>
    var tracks: map<string, Track>
    var stop: Option<Stop>
    var inSetup: bool
    var initial: map<string, Capacity>
    var reconciliation: Option<real>
    /** Every accepted sample since the growth baseline. */
    ghost var samples: seq<Sample>

    ghost predicate Valid()
      reads this
    {
      && ValidLimits(limits) && Increasing(samples) && AllAgree(budgets, samples, limits.window, tracks)
      && (previous.Some? ==>
        samples != [] && samples[|samples| - 1] == previous.value && started.Some? && initial.Keys == budgets.Keys)
      && (previous.None? ==> samples == [] && started.None?) && (inSetup ==> |samples| <= 1)
      && (reconciliation.Some? ==> started.Some? && reconciliation.value <= started.value + limits.horizon)
    }

    /** The instant the job must be over. */
    function Deadline(): real
      reads this
      requires started.Some?
    {
      if reconciliation.Some? then
        Min(started.value + limits.horizon, reconciliation.value) else started.value + limits.horizon
    }

    constructor (budgets: map<string, Budget>, limits: Limits, setupPhase: bool)
      requires CompleteBudgets(budgets) && ValidBudgets(budgets) && ValidLimits(limits)
      ensures Valid() && this.budgets == budgets && this.limits == limits && inSetup == setupPhase && stop.None?
              && reconciliation.None? && samples == []
    {
      this.budgets, this.limits, this.inSetup := budgets, limits, setupPhase;
      started, previous, stop, reconciliation := None, None, None, None;
      tracks := map key | key in budgets :: Track(0.0, []);
      initial := map[];
      samples := [];
    }

    /** A one-way shortening of the deadline, once; it clears no stop and forgets no growth. */
    method BeginReconciliation(now: real, remainingSeconds: real) returns (ok: bool)
      requires Valid()
      modifies this`reconciliation
      ensures Valid() && (!ok ==> reconciliation == old(reconciliation))
      ensures ok <==>
                old(reconciliation).None? && started.Some? && !inSetup && now >= previous.value.monotonic
                && 1.0 <= remainingSeconds <= 600.0
      ensures ok ==> reconciliation.Some? && Deadline() <= old(Deadline()) && Deadline() <= now + remainingSeconds
    {
      hide AllAgree, Increasing;
      if started.None? || inSetup || now < previous.value.monotonic || !(1.0 <= remainingSeconds <= 600.0) {
        return false;
      }
      if reconciliation.Some? { return false; }
      reconciliation := Some(Min(started.value + limits.horizon, now + remainingSeconds));
      ok := true;
    }

    /** The first stop is kept for ever. */
    method FailedProbe(category: Category) returns (r: Outcome)
      requires Valid()
      modifies this`stop
      ensures Valid() && stop.Some? && r == Refused(stop.value) && (old(stop).Some? ==> stop == old(stop))
    {
      hide AllAgree, Increasing;
      if stop.None? { stop := Some(ObservationUnavailable(category)); }
      r := Refused(stop.value);
    }

    /** The circumstances of an observation made now. */
    function Here(before: Option<Sample>, sample: Sample, restart: bool): Context
      reads this
      requires started.Some?
    {
      Context(limits, before, sample, inSetup, restart, Max(0.0, Deadline() - sample.monotonic))
    }

    /**
     * One observation. What it reports of every resource is what recomputing over the whole history gives; a
     * stop, once set, is never cleared; and it stops exactly when the deadline is past, a filesystem changed,
     * or a reserve is short.
     */
    method Assess(sample: Sample, finishSetup: bool) returns (r: Outcome)
      requires Valid()
      modifies this
      ensures Valid() && reconciliation == old(reconciliation) && (old(stop).Some? ==> stop == old(stop))
      ensures r.Raised? ==>
                samples == old(samples) && stop == old(stop) && previous == old(previous) && inSetup == old(inSetup)
      ensures r.Refused? ==> samples == old(samples) && stop == Some(r.stop) && previous == old(previous)
      ensures r.Observed? ==>
        && samples == NextSamples(old(samples), sample, old(inSetup)) && previous == Some(sample)
        && r.allowed == stop.None?
        && DetailsRecomputed(Here(old(previous), sample, old(inSetup)), budgets, initial, samples, r.details)
        && (old(stop).None? ==>
          (stop.None? <==>
            sample.monotonic < Deadline()
            && AllSufficient(Here(old(previous), sample, old(inSetup)), budgets, r.details)))
    {
      hide AllAgree, Increasing, DetailsRecomputed, AllSufficient;
      if sample.resources.Keys != budgets.Keys { r := FailedProbe(InvalidMeasurement); return; }
      if !(forall key :: key in sample.resources ==> ValidCapacity(sample.resources[key])) { return Raised; }
      if previous.Some? && sample.monotonic <= previous.value.monotonic {
        if finishSetup { inSetup := false; }
        r := FailedProbe(NonmonotonicSample);
        return;
      }
      var restart := inSetup;
      if started.None? { started, initial := Some(sample.monotonic), sample.resources; }
      if finishSetup { inSetup := false; }
      r := Measure(sample, restart);
    }

    method Measure(sample: Sample, restart: bool) returns (r: Outcome)
      requires ValidLimits(limits) && Increasing(samples) && AllAgree(budgets, samples, limits.window, tracks)
               && started.Some?
      requires ContextOk(Here(previous, sample, restart), samples)
      requires initial.Keys == budgets.Keys == sample.resources.Keys && (inSetup ==> restart)
      requires reconciliation.Some? ==> reconciliation.value <= started.value + limits.horizon
      modifies this`tracks, this`previous, this`stop, this`samples
      ensures Valid() && (old(stop).Some? ==> stop == old(stop))
      ensures r.Observed? && samples == NextSamples(old(samples), sample, restart) && previous == Some(sample)
      ensures r.allowed == stop.None?
              && DetailsRecomputed(Here(old(previous), sample, restart), budgets, initial, samples, r.details)
      ensures old(stop).None? ==>
                (stop.None? <==>
                  sample.monotonic < Deadline()
                  && AllSufficient(Here(old(previous), sample, restart), budgets, r.details))
    {
      hide Increasing, ContextOk, AllAgree, NextSamples, DetailsRecomputed, AllSufficient;
      var ctx := Here(previous, sample, restart);
      LastIsEarlier(samples, ctx);
      NextIncreasing(samples, sample, restart);
      var after, reasons, details := Observation(ctx, budgets, initial, Deadline(), tracks, samples);
      tracks, previous := after, Some(sample);
      samples := NextSamples(samples, sample, restart);
      if reasons != {} && stop.None? { stop := Some(ReserveInsufficient(reasons)); }
      r := Observed(stop.None?, details);
    }
  }

  /**
   * A policy comes to be exactly when every check passes, and then has no stop, no reduced deadline and no history;
   * otherwise the first failing check is named.
   */
  method SetUp(budgets: map<string, Budget>, horizon: real, interval: real, grace: real, factor: real, setupPhase: bool)
    returns (r: Result<Policy, SetupError>)
    ensures r.Success? <==>
              CompleteBudgets(budgets) && ValidBudgets(budgets) && ValidSchedule(horizon, interval)
              && ValidMargin(grace, factor)
    ensures r.Success? ==>
      && fresh(r.value) && r.value.Valid() && r.value.budgets == budgets && r.value.inSetup == setupPhase
      && r.value.limits == Limits(horizon, interval, grace, factor, Max(180.0, 3.0 * interval))
      && r.value.stop.None? && r.value.reconciliation.None? && r.value.samples == []
    ensures r.Failure? ==>
      && (r.error.BudgetsIncomplete? <==> !CompleteBudgets(budgets))
      && (r.error.BudgetInvalid? <==> CompleteBudgets(budgets) && !ValidBudgets(budgets))
      && (r.error.ScheduleInvalid? <==>
        CompleteBudgets(budgets) && ValidBudgets(budgets) && !ValidSchedule(horizon, interval))
  {
    if !CompleteBudgets(budgets) { return Failure(BudgetsIncomplete); }
    if !ValidBudgets(budgets) { return Failure(BudgetInvalid); }
    if !ValidSchedule(horizon, interval) { return Failure(ScheduleInvalid); }
    if !ValidMargin(grace, factor) { return Failure(MarginInvalid); }
    var policy := new Policy(budgets, Limits(horizon, interval, grace, factor, Max(180.0, 3.0 * interval)), setupPhase);
    r := Success(policy);
  }
}
