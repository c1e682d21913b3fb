/** The RTT-based pacing of core/port/host_pacer.go; times and durations in nanoseconds. */
module HostPacer {
  import opened Types

  const SECOND: int := 1_000_000_000

  /** Integer division of the source: truncated toward zero. */
  function TruncDiv(a: int, b: int): int
    requires b > 0
  {
    if a >= 0 then a / b else -((-a) / b)
  }

  // ---------- the estimator ----------

  /** The smoothed estimate after one sample; an estimate of zero counts as none. */
  function Smooth(srtt: int, rtt: int): int {
    if srtt == 0 then rtt else TruncDiv(srtt * 7 + rtt, 8)
  }

  function SmoothAll(srtt: int, rtts: seq<int>): int
    decreases |rtts|
  {
    if rtts == [] then srtt else SmoothAll(Smooth(srtt, rtts[0]), rtts[1..])
  }

  lemma {:induction false} StaysBetween(srtt: int, rtts: seq<int>, lo: int, hi: int)
    requires 0 <= lo <= srtt <= hi && forall i :: 0 <= i < |rtts| ==> lo <= rtts[i] <= hi
    ensures lo <= SmoothAll(srtt, rtts) <= hi
    decreases |rtts|
  {
    if rtts != [] { StaysBetween(Smooth(srtt, rtts[0]), rtts[1..], lo, hi); }
  }

  /** After any non-empty run of non-negative samples the estimate lies between the least and
      the greatest of them. */
  lemma EstimateBetweenSamples(rtts: seq<int>, lo: int, hi: int)
    requires rtts != [] && 0 <= lo && forall i :: 0 <= i < |rtts| ==> lo <= rtts[i] <= hi
    ensures lo <= SmoothAll(0, rtts) <= hi
  {
    StaysBetween(rtts[0], rtts[1..], lo, hi);
  }

  /** Reached: the value itself or at most 7 ns below, where the truncation holds it. */
  predicate Settled(srtt: int, rtt: int) {
    rtt - 7 <= srtt <= rtt
  }

  function Repeat(rtt: int, n: nat): seq<int> { seq(n, _ => rtt) }

  /** A constant sample moves the estimate toward it, never past it, and strictly until it has
      settled, where it stays for good. */
  lemma OneStep(srtt: int, rtt: int)
    requires srtt > 0 && rtt >= 0
    ensures var next := Smooth(srtt, rtt);
            && (srtt <= rtt ==> srtt <= next <= rtt)
            && (srtt >= rtt ==> rtt <= next <= srtt)
            && (rtt - 7 <= srtt <= rtt <==> next == srtt)
            && 8 * next <= 7 * srtt + rtt < 8 * (next + 1)
  {}

  function Distance(a: int, b: int): nat { if a < b then b - a else a - b }

  lemma {:induction false} ConstantSettles(srtt: int, rtt: int, n: nat)
    requires srtt >= 0 && rtt >= 0 && n > Distance(srtt, rtt)
    ensures Settled(SmoothAll(srtt, Repeat(rtt, n)), rtt)
    decreases n
  {
    var next := Smooth(srtt, rtt);
    assert Repeat(rtt, n)[0] == rtt && Repeat(rtt, n)[1..] == Repeat(rtt, n - 1);
    if srtt == 0 || Settled(srtt, rtt) {
      if srtt > 0 { OneStep(srtt, rtt); }
      Stays(next, rtt, n - 1);
    } else {
      OneStep(srtt, rtt);
      ConstantSettles(next, rtt, n - 1);
    }
  }

  lemma {:induction false} Stays(srtt: int, rtt: int, n: nat)
    requires srtt >= 0 && rtt >= 0 && Settled(srtt, rtt)
    ensures Settled(SmoothAll(srtt, Repeat(rtt, n)), rtt)
    decreases n
  {
    if n > 0 {
      assert Repeat(rtt, n)[0] == rtt && Repeat(rtt, n)[1..] == Repeat(rtt, n - 1);
      if srtt > 0 { OneStep(srtt, rtt); }
      Stays(Smooth(srtt, rtt), rtt, n - 1);
    }
  }

  // ---------- one host ----------

  datatype Pace = Pace(factorNum: int, factorDen: int, maxRttExtra: int)

  /** What the round-trip time adds to the base gap; negative only for a negative factor. */
  function Extra(srtt: int, p: Pace): int {
    if p.factorDen <= 0 || srtt <= 0 then 0
    else
      var raw := TruncDiv(srtt * p.factorNum, p.factorDen);
      var capped := if p.maxRttExtra > 0 && raw > p.maxRttExtra then p.maxRttExtra else raw;
      if capped > 2 * SECOND then 2 * SECOND else capped
  }

  function Gap(baseGap: int, srtt: int, p: Pace): int {
    if Extra(srtt, p) < 0 then baseGap else baseGap + Extra(srtt, p)
  }

  /** The gap lies between the base gap and the base gap plus the smaller of the cap (when it
      is positive) and two seconds. */
  lemma GapBounds(baseGap: int, srtt: int, p: Pace)
    ensures baseGap <= Gap(baseGap, srtt, p)
    ensures Gap(baseGap, srtt, p) <= baseGap + (if 0 < p.maxRttExtra < 2 * SECOND then p.maxRttExtra else 2 * SECOND)
  {}

  lemma ScaleUp(a: int, b: int, k: int, d: int)
    requires 0 <= a <= b && k >= 0 && d > 0
    ensures 0 <= a * k <= b * k && a * k / d <= b * k / d
  {
    Divides(a * k, b * k, d);
  }

  lemma Divides(x: int, y: int, d: int)
    requires x <= y && d > 0
    ensures x / d <= y / d
  {
    assert d * (y / d - x / d) == (y - y % d) - (x - x % d);
    NotBelow(d, y / d - x / d);
  }

  lemma NotBelow(d: int, k: int)
    requires d > 0 && d * k > -d
    ensures k >= 0
  {}

  lemma Floor(x: int, d: int)
    requires x >= 0 && d > 0
    ensures x / d * d <= x < (x / d + 1) * d && x / d >= 0
  {
    assert x == d * (x / d) + x % d;
  }

  lemma Times(a: int, b: int, d: int)
    requires a <= b && d > 0
    ensures a * d <= b * d
  {}

  /** Beyond the base gap the gap is the factor times the round-trip time, rounded down, unless
      that is more than the cap. */
  lemma GapIs(baseGap: int, srtt: int, p: Pace)
    requires srtt >= 0 && p.factorNum >= 0 && p.factorDen > 0
    ensures var extra := Gap(baseGap, srtt, p) - baseGap;
            var cap := if 0 < p.maxRttExtra < 2 * SECOND then p.maxRttExtra else 2 * SECOND;
            && extra * p.factorDen <= srtt * p.factorNum
            && (extra == cap || srtt * p.factorNum < (extra + 1) * p.factorDen)
  {
    var x := srtt * p.factorNum;
    var extra := Gap(baseGap, srtt, p) - baseGap;
    ScaleUp(0, srtt, p.factorNum, p.factorDen);
    Floor(x, p.factorDen);
    if srtt > 0 {
      assert extra <= x / p.factorDen;
      Times(extra, x / p.factorDen, p.factorDen);
    }
  }

  /** A slower host is never sent to sooner. */
  lemma GapGrows(baseGap: int, a: int, b: int, p: Pace)
    requires 0 <= a <= b && p.factorNum >= 0
    ensures Gap(baseGap, a, p) <= Gap(baseGap, b, p)
  {
    if p.factorDen > 0 { ScaleUp(a, b, p.factorNum, p.factorDen); }
  }

  /** A time at which a sender that asks at `now` may send. */
  predicate MaySend(nextSendAt: Option<int>, now: int, at: int) {
    at >= now && (nextSendAt.Some? ==> at >= nextSendAt.value)
  }

  ghost predicate Earliest(nextSendAt: Option<int>, now: int, at: int) {
    MaySend(nextSendAt, now, at) && forall t :: MaySend(nextSendAt, now, t) ==> at <= t
  }

  /** After a sample was observed at `seen`, whoever asks later sends at least the base gap after
      it, and no later than the greatest gap after it or at once. */
  lemma SendAfterSample(seen: int, baseGap: int, srtt: int, p: Pace, now: int, at: int)
    requires seen <= now && Earliest(Some(seen + Gap(baseGap, srtt, p)), now, at)
    ensures at >= seen + baseGap
    ensures at <= Max(now, seen + baseGap + if 0 < p.maxRttExtra < 2 * SECOND then p.maxRttExtra else 2 * SECOND)
  {
    var next := seen + Gap(baseGap, srtt, p);
    GapBounds(baseGap, srtt, p);
    assert MaySend(Some(next), now, Max(now, next));
  }

  function Max(a: int, b: int): int { if a > b then a else b }

  class Entry {
    var srtt: int
    var nextSendAt: Option<int>
    var lastSeen: int
    const baseGap: int
    const maxExtraGap: int := 2 * SECOND

    constructor (now: int, baseGap: int)
      ensures srtt == 0 && nextSendAt == None && lastSeen == now && this.baseGap == baseGap
    {
      srtt, nextSendAt, lastSeen, this.baseGap := 0, None, now, baseGap;
    }

    method ExtraGap(p: Pace) returns (extra: int)
      ensures extra == Extra(srtt, p)
    {
      if p.factorDen <= 0 || srtt <= 0 {
        return 0;
      }
      extra := TruncDiv(srtt * p.factorNum, p.factorDen);
      if p.maxRttExtra > 0 && extra > p.maxRttExtra {
        extra := p.maxRttExtra;
      }
      if extra > maxExtraGap {
        return maxExtraGap;
      }
    }

    /** An RTT sample updates the estimate and sets the next send; without one the host is only
        marked as seen. */
    method Observe(now: int, rtt: Option<int>, p: Pace)
      modifies this
      ensures lastSeen == now
      ensures rtt.None? ==> srtt == old(srtt) && nextSendAt == old(nextSendAt)
      ensures rtt.Some? ==> srtt == Smooth(old(srtt), rtt.value) && nextSendAt == Some(now + Gap(baseGap, srtt, p))
    {
      lastSeen := now;
      if rtt.None? {
        return;
      }
      if srtt == 0 {
        srtt := rtt.value;
      } else {
        srtt := TruncDiv(srtt * 7 + rtt.value, 8);
      }
      var extra := ExtraGap(p);
      var delay := baseGap + extra;
      if delay < baseGap {
        delay := baseGap;
      }
      nextSendAt := Some(now + delay);
    }

    /** How long a sender has to wait: till the earliest time it may send. */
    method NextDelay(now: int) returns (delay: int)
      ensures Earliest(nextSendAt, now, now + delay)
    {
      if nextSendAt.None? || !(nextSendAt.value > now) {
        return 0;
      }
      delay := nextSendAt.value - now;
    }
  }

  // ---------- the store ----------

  class Store {
    const rate: int
    const ttl: int
    var store: map<string, Entry>

    ghost predicate Valid()
      reads this
    {
      rate > 0 && forall g, h :: g in store && h in store && g != h ==> store[g] != store[h]
    }

    predicate Stale(e: Entry, now: int)
      reads e
    {
      ttl > 0 && now - e.lastSeen > ttl
    }

    constructor (rate: int, ttl: int)
      requires rate > 0
      ensures Valid() && store == map[]
    {
      this.rate, this.ttl, store := rate, ttl, map[];
    }

    /** Keeps the estimate of a host seen within the ttl, starts afresh otherwise, and forgets
        exactly the other hosts that are stale. */
    method LoadOrCreate(host: string, now: int) returns (e: Entry)
      requires Valid()
      modifies this, store.Values
      ensures Valid() && host in store && store[host] == e && e.lastSeen == now
      ensures if old(host in store && !(ttl > 0 && now - store[host].lastSeen > ttl))
              then e == old(store)[host]
                   && e.srtt == old(store[host].srtt) && e.nextSendAt == old(store[host].nextSendAt)
              else fresh(e) && e.srtt == 0 && e.nextSendAt == None && e.baseGap == SECOND / rate
      ensures forall h :: h != host ==>
                (h in store <==> old(h in store && !(ttl > 0 && now - store[h].lastSeen > ttl)))
      ensures forall h :: h in store && h != host ==> store[h] == old(store)[h]
      ensures forall h :: h in old(store) && h != host ==> old(store)[h].srtt == old(store[h].srtt)
    {
      var todo := store.Keys;
      while todo != {}
        invariant todo <= old(store).Keys && Valid()
        invariant forall h :: h in store ==> h in old(store) && store[h] == old(store)[h]
        invariant forall h :: h in old(store) ==> (h in store <==> h in todo || !Stale(old(store)[h], now))
        invariant forall h :: h in old(store) ==> unchanged(old(store)[h])
        decreases |todo|
      {
        var h :| h in todo;
        todo := todo - {h};
        if Stale(store[h], now) {
          store := store - {h};
        }
      }
      if host in store {
        e := store[host];
        e.lastSeen := now;
        return;
      }
      e := new Entry(now, SECOND / rate);
      store := store[host := e];
    }
  }
}
