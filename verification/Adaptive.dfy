/** The adaptive send rate (core/port/syn/adaptive.go). */
module Adaptive {
  import opened Types

  const EVALUATE_INTERVAL: int := 2000   // milliseconds
  const HEALTHY_WINDOWS: int := 3
  const MIN_RETRY_SAMPLES: int := 5

  function Max(a: int, b: int): int { if a > b then a else b }
  function Min(a: int, b: int): int { if a < b then a else b }

  /** The part of the controller an evaluation reads and writes. */
  datatype Control = Control(minRate: int, maxRate: int, rate: int, healthy: int)

  datatype Verdict = Congested | RetryRecovered | Healthy

  /** What one evaluation window has seen. */
  datatype Window = Window(pcapDrop: nat, writeErrors: nat, retrySuccess: nat, retryFailure: nat,
                           pending: nat, capacity: nat)

  function Judge(w: Window): Verdict {
    var samples := w.retrySuccess + w.retryFailure;
    if w.pcapDrop > 0 || w.writeErrors > 0 || (w.capacity > 0 && w.pending * 100 >= w.capacity * 70) then Congested
    else if samples >= MIN_RETRY_SAMPLES && w.retrySuccess * 100 >= samples * 30 then RetryRecovered
    else Healthy
  }

  function Evaluate(c: Control, v: Verdict): Control {
    match v
    case Congested => c.(rate := Max(c.minRate, c.rate * 70 / 100), healthy := 0)
    case RetryRecovered => c.(rate := Max(c.minRate, c.rate * 80 / 100), healthy := 0)
    case Healthy =>
      if c.healthy + 1 >= HEALTHY_WINDOWS && c.rate < c.maxRate then
        c.(rate := Min(c.maxRate, c.rate + Max(10, c.maxRate * 5 / 100)), healthy := 0)
      else c.(healthy := c.healthy + 1)
  }

  /** What a window does to the controller. */
  function Assess(c: Control, w: Window): Control {
    Evaluate(c, Judge(w))
  }

  function EvaluateAll(c: Control, vs: seq<Verdict>): Control
    decreases |vs|
  {
    if vs == [] then c else EvaluateAll(Evaluate(c, vs[0]), vs[1..])
  }

  /** How an enabled controller starts. */
  predicate Fresh(c: Control) {
    0 < c.minRate < c.maxRate && c.rate == c.maxRate && c.healthy == 0
  }

  /** Below the maximum fewer than three healthy windows are pending. */
  predicate Sound(c: Control) {
    && 0 < c.minRate < c.maxRate
    && c.minRate <= c.rate <= c.maxRate
    && c.healthy >= 0 && (c.rate < c.maxRate ==> c.healthy < HEALTHY_WINDOWS)
  }

  lemma StepSound(c: Control, v: Verdict)
    requires Sound(c)
    ensures Sound(Evaluate(c, v)) && Evaluate(c, v).minRate == c.minRate && Evaluate(c, v).maxRate == c.maxRate
  {}

  /** In every run the rate stays between the configured bounds. */
  lemma {:induction false} RateStaysInBounds(c: Control, vs: seq<Verdict>)
    requires Sound(c)
    ensures Sound(EvaluateAll(c, vs))
    ensures EvaluateAll(c, vs).minRate == c.minRate && EvaluateAll(c, vs).maxRate == c.maxRate
    decreases |vs|
  {
    if vs != [] {
      StepSound(c, vs[0]);
      RateStaysInBounds(Evaluate(c, vs[0]), vs[1..]);
    }
  }

  // ---------- what a window means ----------

  /** New drops, a write error, or seven tenths of the capacity pending. */
  predicate Overloaded(w: Window) {
    w.pcapDrop > 0 || w.writeErrors > 0 || (w.capacity > 0 && 10 * w.pending >= 7 * w.capacity)
  }

  /** At least five retries were sampled, and three tenths of them succeeded. */
  predicate RetriesHelp(w: Window) {
    w.retrySuccess + w.retryFailure >= 5 && 10 * w.retrySuccess >= 3 * (w.retrySuccess + w.retryFailure)
  }

  /** `r` is `tenths` tenths of the old rate, rounded down, but no less than the minimum. */
  predicate CutTo(r: int, from: Control, tenths: nat) {
    && r >= from.minRate && 10 * (r + 1) > tenths * from.rate
    && (r == from.minRate || 10 * r <= tenths * from.rate)
  }

  /** An overloaded window cuts the rate to seven tenths, one in which retries help to eight
      tenths, and both start the healthy count anew. */
  lemma WindowCuts(c: Control, w: Window)
    requires Sound(c)
    ensures w.pcapDrop > 0 || w.writeErrors > 0 || (w.capacity > 0 && 10 * w.pending >= 7 * w.capacity) ==>
              CutTo(Assess(c, w).rate, c, 7) && Assess(c, w).healthy == 0
    ensures !Overloaded(w) && w.retrySuccess + w.retryFailure >= 5
            && 10 * w.retrySuccess >= 3 * (w.retrySuccess + w.retryFailure) ==>
              CutTo(Assess(c, w).rate, c, 8) && Assess(c, w).healthy == 0
  {
    assert Overloaded(w) ==> Judge(w) == Congested;
    assert !Overloaded(w) && RetriesHelp(w) ==> Judge(w) == RetryRecovered;
  }

  /** In any other window the rate does not fall. The third in a row below the maximum raises it
      by ten or by a twentieth of the maximum, whichever is more, up to the maximum; the others
      are counted. */
  lemma WindowRaises(c: Control, w: Window)
    requires Sound(c)
    requires w.pcapDrop == 0 && w.writeErrors == 0 && (w.capacity == 0 || 10 * w.pending < 7 * w.capacity)
    requires w.retrySuccess + w.retryFailure < 5 || 10 * w.retrySuccess < 3 * (w.retrySuccess + w.retryFailure)
    ensures var c' := Assess(c, w);
            if c.healthy >= 2 && c.rate < c.maxRate then
              && c'.healthy == 0 && c.rate < c'.rate <= c.maxRate
              && (c'.rate == c.maxRate || (c'.rate - c.rate >= 10 && 20 * (c'.rate - c.rate + 1) > c.maxRate))
              && (c'.rate - c.rate <= 10 || 20 * (c'.rate - c.rate) <= c.maxRate)
            else c' == c.(healthy := c.healthy + 1)
  {
    assert Judge(w) == Healthy;
  }

  // ---------- decrease ----------

  function Pow(b: nat, k: nat): nat { if k == 0 then 1 else b * Pow(b, k - 1) }

  function Repeat(v: Verdict, k: nat): (vs: seq<Verdict>)
    ensures |vs| == k && forall j :: 0 <= j < k ==> vs[j] == v
  {
    seq(k, _ => v)
  }

  lemma RepeatTail(v: Verdict, k: nat)
    requires k > 0
    ensures Repeat(v, k)[0] == v && Repeat(v, k)[1..] == Repeat(v, k - 1)
  {}

  lemma ShrinkTwice(r: int, r1: int, r0: int, a: nat, b: nat)
    requires r * a <= r1 * b && r1 * 10 <= r0 * 7
    ensures r * (10 * a) <= r0 * (7 * b)
  {
    calc {
      r * (10 * a);
      (r * a) * 10;
      <= (r1 * b) * 10;
      (r1 * 10) * b;
      <= { ScaleUp(r1 * 10, r0 * 7, b); } (r0 * 7) * b;
      r0 * (7 * b);
    }
  }

  lemma ScaleUp(x: int, y: int, b: nat)
    requires x <= y
    ensures x * b <= y * b
  {}

  /** k congested windows in a row leave the floor rate, or at most 0.7^k of the starting one. */
  lemma {:induction false} CongestionShrinks(c: Control, k: nat)
    requires Sound(c)
    ensures var r := EvaluateAll(c, Repeat(Congested, k)).rate;
            r == c.minRate || r * Pow(10, k) <= c.rate * Pow(7, k)
    decreases k
  {
    if k > 0 {
      var c1 := Evaluate(c, Congested);
      RepeatTail(Congested, k);
      StepSound(c, Congested);
      CongestionShrinks(c1, k - 1);
      var r := EvaluateAll(c, Repeat(Congested, k)).rate;
      if c1.rate == c.minRate {
        FloorStays(c1, k - 1);
      } else if r != c.minRate {
        ShrinkTwice(r, c1.rate, c.rate, Pow(10, k - 1), Pow(7, k - 1));
      }
    }
  }

  lemma {:induction false} FloorStays(c: Control, k: nat)
    requires Sound(c) && c.rate == c.minRate
    ensures EvaluateAll(c, Repeat(Congested, k)).rate == c.minRate
    decreases k
  {
    if k > 0 {
      RepeatTail(Congested, k);
      StepSound(c, Congested);
      FloorStays(Evaluate(c, Congested), k - 1);
    }
  }

  // ---------- recovery ----------

  function Step(maxRate: int): int { Max(10, maxRate * 5 / 100) }

  /** The rate `n` raises below the maximum. */
  predicate Within(c: Control, n: nat) {
    c.maxRate - c.rate <= n * Step(c.maxRate)
  }

  lemma {:induction false} EvaluateSplit(c: Control, a: seq<Verdict>, b: seq<Verdict>)
    ensures EvaluateAll(c, a + b) == EvaluateAll(EvaluateAll(c, a), b)
    decreases |a|
  {
    if a == [] {
      assert a + b == b;
    } else {
      EvaluateSplit(Evaluate(c, a[0]), a[1..], b);
      assert (a + b)[1..] == a[1..] + b;
    }
  }

  /** Three healthy windows raise a rate below the maximum at least once. */
  lemma ThreeWindows(c: Control, n: nat)
    requires Sound(c) && n > 0 && Within(c, n)
    ensures var c3 := EvaluateAll(c, Repeat(Healthy, 3));
            Sound(c3) && c3.maxRate == c.maxRate && Within(c3, n - 1)
  {
    var c1 := Evaluate(c, Healthy);
    var c2 := Evaluate(c1, Healthy);
    var c3 := Evaluate(c2, Healthy);
    StepSound(c, Healthy); StepSound(c1, Healthy); StepSound(c2, Healthy);
    RepeatTail(Healthy, 3); RepeatTail(Healthy, 2); RepeatTail(Healthy, 1);
    assert EvaluateAll(c, Repeat(Healthy, 3)) == c3;
    assert n * Step(c.maxRate) == (n - 1) * Step(c.maxRate) + Step(c.maxRate);
    assert (n - 1) * Step(c.maxRate) >= 0;
  }

  lemma {:induction false} Recovers(c: Control, n: nat)
    requires Sound(c) && Within(c, n)
    ensures EvaluateAll(c, Repeat(Healthy, 3 * n)).rate == c.maxRate
    decreases n
  {
    RateStaysInBounds(c, Repeat(Healthy, 3 * n));
    if n > 0 {
      ThreeWindows(c, n);
      assert Repeat(Healthy, 3 * n) == Repeat(Healthy, 3) + Repeat(Healthy, 3 * (n - 1));
      EvaluateSplit(c, Repeat(Healthy, 3), Repeat(Healthy, 3 * (n - 1)));
      Recovers(EvaluateAll(c, Repeat(Healthy, 3)), n - 1);
    }
  }

  /** From any reachable state 66 healthy windows in a row bring back the maximum rate. */
  lemma SixtySixWindowsRestore(c: Control, vs: seq<Verdict>)
    requires Fresh(c)
    ensures EvaluateAll(c, vs + Repeat(Healthy, 66)).rate == c.maxRate
  {
    RateStaysInBounds(c, vs);
    EvaluateSplit(c, vs, Repeat(Healthy, 66));
    var now := EvaluateAll(c, vs);
    assert Within(now, 22);
    Recovers(now, 22);
  }

  /** 65 are not always enough: at a maximum of 219 and a rate of 1 the 22nd raise is missing. */
  lemma {:induction false} BelowFor(c: Control, n: nat)
    requires c.maxRate == 219 && c.minRate == 1 && c.healthy == 0 && 1 <= c.rate && c.rate + 10 * n < 219
    ensures EvaluateAll(c, Repeat(Healthy, 3 * n + 2)) == Control(1, 219, c.rate + 10 * n, 2)
    decreases n
  {
    if n == 0 {
      RepeatTail(Healthy, 2); RepeatTail(Healthy, 1);
      assert EvaluateAll(c, Repeat(Healthy, 2)) == Evaluate(Evaluate(c, Healthy), Healthy);
    } else {
      RepeatTail(Healthy, 3); RepeatTail(Healthy, 2); RepeatTail(Healthy, 1);
      var c3 := Evaluate(Evaluate(Evaluate(c, Healthy), Healthy), Healthy);
      assert EvaluateAll(c, Repeat(Healthy, 3)) == c3 == Control(1, 219, c.rate + 10, 0);
      assert Repeat(Healthy, 3 * n + 2) == Repeat(Healthy, 3) + Repeat(Healthy, 3 * (n - 1) + 2);
      EvaluateSplit(c, Repeat(Healthy, 3), Repeat(Healthy, 3 * (n - 1) + 2));
      BelowFor(c3, n - 1);
    }
  }

  /** Twelve congested windows bring a maximum of 219 down to 1. */
  lemma TwelveToTheFloor(c: Control)
    requires c == Control(1, 219, 219, 0)
    ensures EvaluateAll(c, Repeat(Congested, 12)) == Control(1, 219, 1, 0)
  {
    StepsDown(c, [153, 107, 74, 51, 35, 24, 16, 11, 7, 4, 2, 1]);
  }

  lemma {:induction false} StepsDown(c: Control, rates: seq<int>)
    requires rates != [] && rates[0] == Max(c.minRate, c.rate * 70 / 100)
    requires forall k :: 0 < k < |rates| ==> rates[k] == Max(c.minRate, rates[k - 1] * 70 / 100)
    ensures EvaluateAll(c, Repeat(Congested, |rates|)) == c.(rate := rates[|rates| - 1], healthy := 0)
    decreases |rates|
  {
    var next := Evaluate(c, Congested);
    RepeatTail(Congested, |rates|);
    if |rates| == 1 {
      assert EvaluateAll(next, Repeat(Congested, 0)) == next;
    } else {
      StepsDown(next, rates[1..]);
    }
  }

  /** From a fresh controller, 65 healthy windows in a row are not always enough. */
  lemma SixtyFiveCanFallShort()
    ensures var c := Control(1, 219, 219, 0);
            Fresh(c) && EvaluateAll(c, Repeat(Congested, 12) + Repeat(Healthy, 65)).rate < 219
  {
    var c := Control(1, 219, 219, 0);
    TwelveToTheFloor(c);
    EvaluateSplit(c, Repeat(Congested, 12), Repeat(Healthy, 65));
    BelowFor(Control(1, 219, 1, 0), 21);
  }

  // ---------- the controller of the source ----------

  /** The window that began at `last` is over. */
  predicate Due(last: int, now: int) {
    now - last >= EVALUATE_INTERVAL
  }

  class AdaptiveLimiter {
    var enabled: bool
    var minRate: int
    var maxRate: int
    var currentRate: int
    var lastEvaluate: int
    var lastPcapDrop: nat
    var healthyWindows: int
    var probes: nat
    var retrySuccess: nat
    var retryFailure: nat
    var writeErrors: nat

    ghost function View(): Control
      reads this
    {
      Control(minRate, maxRate, currentRate, healthyWindows)
    }

    ghost predicate Valid()
      reads this
    {
      enabled ==> Sound(View())
    }

    constructor (maxRate: int, minRate: int, now: int)
      ensures Valid() && (enabled <==> 0 < minRate < maxRate)
      ensures enabled ==> Fresh(View()) && this.minRate == minRate
      ensures this.maxRate == currentRate == maxRate && lastEvaluate == now && probes == 0
      ensures lastPcapDrop == retrySuccess == retryFailure == writeErrors == 0
    {
      this.maxRate, currentRate, lastEvaluate := maxRate, maxRate, now;
      enabled := minRate > 0 && minRate < maxRate;
      this.minRate := if minRate > 0 && minRate < maxRate then minRate else 0;
      lastPcapDrop, healthyWindows, probes, retrySuccess, retryFailure, writeErrors := 0, 0, 0, 0, 0, 0;
    }

    /** Every hundredth probe is sampled. */
    method ShouldSampleProbe() returns (sample: bool)
      requires Valid()
      modifies this`probes
      ensures sample == (enabled && probes % 100 == 0)
      ensures probes == old(probes) + if enabled then 1 else 0
    {
      if !enabled {
        return false;
      }
      probes := probes + 1;
      sample := probes % 100 == 0;
    }

    method RecordRetry(success: bool)
      modifies this`retrySuccess, this`retryFailure
      ensures retrySuccess == old(retrySuccess) + if success then 1 else 0
      ensures retryFailure == old(retryFailure) + if success then 0 else 1
    {
      if success { retrySuccess := retrySuccess + 1; } else { retryFailure := retryFailure + 1; }
    }

    method RecordWriteError()
      modifies this`writeErrors
      ensures writeErrors == old(writeErrors) + 1
    {
      writeErrors := writeErrors + 1;
    }

    /** Claims the window if it is due. */
    method BeginEvaluation(now: int) returns (claimed: bool)
      modifies this`lastEvaluate
      ensures claimed == (enabled && now - old(lastEvaluate) >= EVALUATE_INTERVAL)
      ensures lastEvaluate == if claimed then now else old(lastEvaluate)
    {
      if !enabled || now - lastEvaluate < EVALUATE_INTERVAL {
        return false;
      }
      lastEvaluate := now;
      claimed := true;
    }

    /** The drops since the last evaluation, from the capture library's running total. */
    method NewDrops(drops: Option<nat>) returns (pcapDrop: nat)
      modifies this`lastPcapDrop
      ensures pcapDrop == if drops.Some? && drops.value > old(lastPcapDrop) then drops.value - old(lastPcapDrop) else 0
      ensures lastPcapDrop == if drops.Some? then drops.value else old(lastPcapDrop)
    {
      pcapDrop := 0;
      if drops.Some? {
        if drops.value > lastPcapDrop {
          pcapDrop := drops.value - lastPcapDrop;
        }
        lastPcapDrop := drops.value;
      }
    }

    /** The three branches of an evaluation. */
    method Adjust(congested: bool, recovered: bool)
      requires Valid()
      modifies this`currentRate, this`healthyWindows
      ensures Valid()
      ensures View() ==
        Evaluate(old(View()), if congested then Congested else if recovered then RetryRecovered else Healthy)
    {
      if congested {
        currentRate := Max(minRate, currentRate * 70 / 100);
        healthyWindows := 0;
      } else if recovered {
        currentRate := Max(minRate, currentRate * 80 / 100);
        healthyWindows := 0;
      } else {
        healthyWindows := healthyWindows + 1;
        if healthyWindows >= HEALTHY_WINDOWS && currentRate < maxRate {
          currentRate := Min(maxRate, currentRate + Max(10, maxRate * 5 / 100));
          healthyWindows := 0;
        }
      }
    }

    /** `drops` is the capture library's running total, absent when it cannot be read. */
    method EvaluateClaimed(pending: nat, capacity: nat, drops: Option<nat>) returns (rate: int, changed: bool)
      requires Valid()
      modifies this`lastPcapDrop, this`currentRate, this`healthyWindows
      modifies this`retrySuccess, this`retryFailure, this`writeErrors
      ensures Valid()
      ensures var last := old(lastPcapDrop);
              var newDrops := if drops.Some? && drops.value > last then drops.value - last else 0;
              var seen := Window(newDrops, old(writeErrors), old(retrySuccess), old(retryFailure), pending, capacity);
              View() == Assess(old(View()), seen)
      ensures lastPcapDrop == if drops.Some? then drops.value else old(lastPcapDrop)
      ensures retrySuccess == retryFailure == writeErrors == 0
      ensures rate == currentRate && changed == (currentRate != old(currentRate))
    {
      var pcapDrop := NewDrops(drops);
      var retrySamples := retrySuccess + retryFailure;
      var retryRecoveryHigh := retrySamples >= MIN_RETRY_SAMPLES && retrySuccess * 100 >= retrySamples * 30;
      var pendingHigh := capacity > 0 && pending * 100 >= capacity * 70;
      var oldRate := currentRate;
      Adjust(pcapDrop > 0 || writeErrors > 0 || pendingHigh, retryRecoveryHigh);
      retrySuccess, retryFailure, writeErrors := 0, 0, 0;
      rate, changed := currentRate, currentRate != oldRate;
    }
  }

  /** The claims `BeginEvaluation` of an enabled controller grants over a run of calls. */
  function Claims(last: int, times: seq<int>): seq<int>
    decreases |times|
  {
    if times == [] then []
    else if Due(last, times[0]) then [times[0]] + Claims(times[0], times[1..])
    else Claims(last, times[1..])
  }

  /** However often and in whatever order of times it is asked, the n-th granted window comes
      at least n + 1 intervals after the start: evaluation is rate-limited. */
  lemma {:induction false} ClaimsAreSpaced(last: int, times: seq<int>)
    ensures forall n :: 0 <= n < |Claims(last, times)| ==> Claims(last, times)[n] >= last + (n + 1) * EVALUATE_INTERVAL
    decreases |times|
  {
    if times != [] {
      var next := if Due(last, times[0]) then times[0] else last;
      ClaimsAreSpaced(next, times[1..]);
    }
  }
}
