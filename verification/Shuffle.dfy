/** The block-local shuffle of util/shuffle.go. */
module Shuffle {
  import opened Types

  const MAX_BLOCK: uint64 := 100
  const TWO_64: int := 0x1_0000_0000_0000_0000

  /** `s` holds each of 0 .. |s|-1 once. */
  ghost predicate IsPerm(s: seq<int>) {
    NoDup(s) && forall i :: 0 <= i < |s| ==> 0 <= s[i] < |s|
  }

  function BlockSize(size: uint64): uint64 {
    if size > MAX_BLOCK then MAX_BLOCK else size
  }

  /** The tables a shuffler works with: one permutation for full blocks, one for the tail. */
  ghost predicate Tables(size: uint64, rl: seq<int>, rl2: seq<int>) {
    && size > 0
    && |rl| == BlockSize(size) && IsPerm(rl)
    && |rl2| == size % BlockSize(size) && IsPerm(rl2)
  }

  /** `Get` on 64-bit words: the sum that detects the tail block may wrap. */
  function Get(size: uint64, rl: seq<int>, rl2: seq<int>, index: uint64): uint64
    requires Tables(size, rl, rl2) && index < size
  {
    var n := BlockSize(size);
    var t := index % n;
    if (index - t + n) % TWO_64 > size then
      assert t < |rl2| by { TailIndex(size, index); }
      (index - t + rl2[t]) % TWO_64
    else
      (index - t + rl[t]) % TWO_64
  }

  /** Where the block of an index begins. */
  function Base(size: uint64, i: uint64): (b: int)
    requires size > 0
    ensures 0 <= b <= i < b + BlockSize(size)
  {
    i - i % BlockSize(size)
  }

  lemma SmallMod(i: int, n: int)
    requires 0 <= i < n
    ensures i % n == i
  {}

  lemma Hundreds(q: int, r: int)
    requires 0 <= r < 100
    ensures (100 * q + r) % 100 == r
  {}

  lemma InBlock(size: uint64, i: uint64, r: int)
    requires size > 0 && i < size && 0 <= r < BlockSize(size) && Base(size, i) + r < size
    ensures Base(size, Base(size, i) + r) == Base(size, i) && (Base(size, i) + r) % BlockSize(size) == r
  {
    if size <= MAX_BLOCK {
      SmallMod(i, size);
      SmallMod(r, size);
    } else {
      Hundreds(i / 100, r);
    }
  }

  lemma TailIndex(size: uint64, index: uint64)
    requires size > 0 && index < size && Base(size, index) + BlockSize(size) > size
    ensures index % BlockSize(size) < size % BlockSize(size)
    ensures Base(size, index) == size - size % BlockSize(size)
  {
    if size <= MAX_BLOCK {
      SmallMod(index, size);
      assert false;
    }
    var q := index / 100;
    assert 100 * q == Base(size, index) && 100 * q < size < 100 * q + 100;
  }

  /** No wrap in the last block. Only sizes within 100 of 2^64 miss this. */
  predicate NoWrap(size: uint64)
    requires size > 0
  {
    var n := BlockSize(size);
    size % n == 0 || size - size % n + n < TWO_64
  }

  predicate SameBlock(size: uint64, i: uint64, j: uint64)
    requires size > 0
  {
    j < size && Base(size, i) == Base(size, j)
  }

  /** Without the wrap the test in `Get` tells the tail from the full blocks. */
  lemma GetIs(size: uint64, rl: seq<int>, rl2: seq<int>, index: uint64)
    requires Tables(size, rl, rl2) && NoWrap(size) && index < size
    ensures var n, base := BlockSize(size), Base(size, index);
            && (base + n > size ==> index % n < |rl2|)
            && Get(size, rl, rl2, index) == base + (if base + n > size then rl2[index % n] else rl[index % n])
            && Get(size, rl, rl2, index) < size
  {
    var n, base := BlockSize(size), Base(size, index);
    if base + n > size {
      TailIndex(size, index);
      SmallMod(base + n, TWO_64);
      SmallMod(base + rl2[index % n], TWO_64);
    } else {
      SmallMod(base + n, TWO_64);
      SmallMod(base + rl[index % n], TWO_64);
    }
  }

  lemma GetLocal(size: uint64, rl: seq<int>, rl2: seq<int>, index: uint64)
    requires Tables(size, rl, rl2) && NoWrap(size) && index < size
    ensures SameBlock(size, index, Get(size, rl, rl2, index))
  {
    GetIs(size, rl, rl2, index);
    InBlock(size, index, Get(size, rl, rl2, index) - Base(size, index));
  }

  lemma GetInjective(size: uint64, rl: seq<int>, rl2: seq<int>, i: uint64, j: uint64)
    requires Tables(size, rl, rl2) && NoWrap(size) && i < size && j < size
    requires Get(size, rl, rl2, i) == Get(size, rl, rl2, j)
    ensures i == j
  {
    GetLocal(size, rl, rl2, i);
    GetLocal(size, rl, rl2, j);
    GetIs(size, rl, rl2, i);
    GetIs(size, rl, rl2, j);
  }

  function Upto(n: nat): (s: set<int>)
    ensures |s| == n && forall x :: x in s <==> 0 <= x < n
  {
    if n == 0 then {} else Upto(n - 1) + {n - 1}
  }

  /** A list of distinct numbers below its length misses none of them. */
  lemma PermHits(s: seq<int>, v: int) returns (i: int)
    requires IsPerm(s) && 0 <= v < |s|
    ensures 0 <= i < |s| && s[i] == v
  {
    if v !in s {
      SetOfDistinct(s);
      SubsetSize((set x | x in s), Upto(|s|) - {v});
      assert false;
    }
    i :| 0 <= i < |s| && s[i] == v;
  }

  lemma {:induction false} SetOfDistinct(s: seq<int>)
    requires NoDup(s)
    ensures |set x | x in s| == |s|
  {
    if s != [] {
      var front := s[..|s| - 1];
      SetOfDistinct(front);
      assert (set x | x in s) == (set x | x in front) + {s[|s| - 1]};
    }
  }

  lemma GetSurjective(size: uint64, rl: seq<int>, rl2: seq<int>, j: uint64)
    requires Tables(size, rl, rl2) && NoWrap(size) && j < size
    ensures Hit(size, rl, rl2, j)
  {
    var n, base := BlockSize(size), Base(size, j);
    var t;
    if base + n > size {
      TailIndex(size, j);
      t := PermHits(rl2, j % n);
    } else {
      t := PermHits(rl, j % n);
    }
    InBlock(size, j, t);
    var i: uint64 := base + t;
    GetIs(size, rl, rl2, i);
    assert i < size && Get(size, rl, rl2, i) == j;
  }

  /** Every index stays inside `[0, size)` and inside its own block. */
  ghost predicate KeepsBlocks(size: uint64, rl: seq<int>, rl2: seq<int>)
    requires Tables(size, rl, rl2)
  {
    forall i: uint64 :: i < size ==> SameBlock(size, i, Get(size, rl, rl2, i))
  }

  ghost predicate Hit(size: uint64, rl: seq<int>, rl2: seq<int>, j: uint64)
    requires Tables(size, rl, rl2)
  {
    exists i: uint64 :: i < size && Get(size, rl, rl2, i) == j
  }

  ghost predicate Bijective(size: uint64, rl: seq<int>, rl2: seq<int>)
    requires Tables(size, rl, rl2)
  {
    && (forall i: uint64, j: uint64 ::
          i < size && j < size && Get(size, rl, rl2, i) == Get(size, rl, rl2, j) ==> i == j)
    && (forall j: uint64 :: j < size ==> Hit(size, rl, rl2, j))
  }

  /** Without the wrap `Get` is a block-local bijection, whatever the random source did. */
  lemma GetIsBlockPermutation(size: uint64, rl: seq<int>, rl2: seq<int>)
    requires Tables(size, rl, rl2) && NoWrap(size)
    ensures Bijective(size, rl, rl2) && KeepsBlocks(size, rl, rl2)
  {
    forall i: uint64, j: uint64 | i < size && j < size && Get(size, rl, rl2, i) == Get(size, rl, rl2, j)
      ensures i == j {
      GetInjective(size, rl, rl2, i, j);
    }
    forall j: uint64 | j < size ensures Hit(size, rl, rl2, j) {
      GetSurjective(size, rl, rl2, j);
    }
    forall i: uint64 | i < size ensures SameBlock(size, i, Get(size, rl, rl2, i)) {
      GetLocal(size, rl, rl2, i);
    }
  }

  function Backwards(n: nat): (s: seq<int>)
    ensures |s| == n && forall i :: 0 <= i < n ==> s[i] == n - 1 - i
  {
    seq(n, i => n - 1 - i)
  }

  /** The tail base is a multiple of 100 and 2^64 is not, so the wrap leaves room to spare. */
  lemma WrapDistance(size: uint64)
    requires size > 0 && !NoWrap(size)
    ensures BlockSize(size) == 100 && size % 100 != 0 && (size - size % 100) % 100 == 0
    ensures size - size % 100 + 99 >= TWO_64
  {}

  /** With the wrap some shuffle sends the first index of the tail out of its block. */
  lemma WrapEscapes(size: uint64)
    requires size > 0 && !NoWrap(size)
    ensures Tables(size, Backwards(BlockSize(size)), Backwards(size % BlockSize(size)))
    ensures !KeepsBlocks(size, Backwards(BlockSize(size)), Backwards(size % BlockSize(size)))
  {
    WrapDistance(size);
    var base := size - size % 100;
    var rl, rl2 := Backwards(100), Backwards(size % 100);
    assert Get(size, rl, rl2, base) == base + 99 - TWO_64;
    assert !SameBlock(size, base, Get(size, rl, rl2, base));
  }

  /** The promise holds for all shuffles exactly when the last block does not wrap. */
  lemma BlockLocalIffNoWrap(size: uint64)
    requires size > 0
    ensures (forall rl, rl2 :: Tables(size, rl, rl2) ==> KeepsBlocks(size, rl, rl2)) <==> NoWrap(size)
  {
    if NoWrap(size) {
      forall rl, rl2 | Tables(size, rl, rl2) ensures KeepsBlocks(size, rl, rl2) {
        GetIsBlockPermutation(size, rl, rl2);
      }
    } else {
      WrapEscapes(size);
    }
  }

  // ---------- building the tables in place ----------

  function Swap(s: seq<int>, i: nat, j: nat): (r: seq<int>)
    requires i < |s| && j < |s|
    ensures |r| == |s|
  {
    s[i := s[j]][j := s[i]]
  }

  lemma SwapKeeps(s: seq<int>, i: nat, j: nat)
    requires i < |s| && j < |s| && NoDup(s)
    ensures NoDup(Swap(s, i, j))
    ensures forall x :: x in s <==> x in Swap(s, i, j)
  {
    var r := Swap(s, i, j);
    forall x | x in s ensures x in r {
      var k :| 0 <= k < |s| && s[k] == x;
      assert r[if k == i then j else if k == j then i else k] == x;
    }
  }

  /** The random number in 0 .. k that `draw` gives for place `k`. */
  function Pick(draw: nat -> nat, k: nat): (j: nat)
    ensures j <= k && (draw(k) <= k ==> j == draw(k))
  {
    if draw(k) <= k then draw(k) else draw(k) % (k + 1)
  }

  /** The draws for the places below `i` have still to come: each such place is swapped with one
      drawn at or below it, the highest first. */
  function Drawn(s: seq<int>, i: nat, draw: nat -> nat): (r: seq<int>)
    requires i <= |s|
    ensures |r| == |s| && forall k :: i <= k < |s| ==> r[k] == s[k]
    decreases i
  {
    if i <= 1 then s else Drawn(Swap(s, i - 1, Pick(draw, i - 1)), i - 1, draw)
  }

  function Ascending(n: nat): (s: seq<int>)
    ensures |s| == n && forall k :: 0 <= k < n ==> s[k] == k
  {
    seq(n, k => k)
  }

  /** The order of 0 .. n-1 that the draws give. */
  function Order(n: nat, draw: nat -> nat): seq<int> {
    Drawn(Ascending(n), n, draw)
  }

  lemma {:induction false} DrawnKeepsPerm(s: seq<int>, i: nat, draw: nat -> nat)
    requires i <= |s| && IsPerm(s)
    ensures IsPerm(Drawn(s, i, draw))
    decreases i
  {
    if i > 1 {
      var s' := Swap(s, i - 1, Pick(draw, i - 1));
      SwapKeeps(s, i - 1, Pick(draw, i - 1));
      forall k | 0 <= k < |s'| ensures 0 <= s'[k] < |s'| { assert s'[k] in s; }
      DrawnKeepsPerm(s', i - 1, draw);
    }
  }

  lemma {:induction false} SameDraws(s: seq<int>, i: nat, draw: nat -> nat, other: nat -> nat)
    requires i <= |s| && forall k: nat :: k < i ==> draw(k) == other(k)
    ensures Drawn(s, i, draw) == Drawn(s, i, other)
    decreases i
  {
    if i > 1 { SameDraws(Swap(s, i - 1, Pick(draw, i - 1)), i - 1, draw, other); }
  }

  /** `target` is `s` with the places below `i` in some other order. */
  ghost predicate Reordered(s: seq<int>, i: nat, target: seq<int>) {
    && |target| == |s| && NoDup(s) && NoDup(target)
    && (forall k :: 0 <= k < |s| ==> target[k] in s)
    && forall k :: i <= k < |s| ==> target[k] == s[k]
  }

  /** The draw that puts the right value at the highest place. */
  lemma TopPlace(s: seq<int>, i: nat, target: seq<int>) returns (j: nat)
    requires 1 < i <= |s| && Reordered(s, i, target)
    ensures j < i && Reordered(Swap(s, i - 1, j), i - 1, target)
  {
    assert target[i - 1] in s;
    j :| j < |s| && s[j] == target[i - 1];
    SwapKeeps(s, i - 1, j);
  }

  lemma NothingLeft(s: seq<int>, i: nat, target: seq<int>)
    requires i <= 1 && i <= |s| && Reordered(s, i, target)
    ensures s == target
  {
    if s != [] {
      assert target[0] in s;
      var k :| 0 <= k < |s| && s[k] == target[0];
      assert k == 0;
    }
  }

  function With(draw: nat -> nat, k: nat, j: nat): nat -> nat {
    x => if x == k then j else draw(x)
  }

  /** A draw for the highest place before the others. */
  lemma DrawFirst(s: seq<int>, i: nat, j: nat, rest: nat -> nat)
    requires 1 < i <= |s| && j < i
    ensures Drawn(s, i, With(rest, i - 1, j)) == Drawn(Swap(s, i - 1, j), i - 1, rest)
  {
    SameDraws(Swap(s, i - 1, j), i - 1, With(rest, i - 1, j), rest);
    assert Pick(With(rest, i - 1, j), i - 1) == j;
  }

  lemma {:induction false} EveryOrderFrom(s: seq<int>, i: nat, target: seq<int>) returns (draw: nat -> nat)
    requires i <= |s| && Reordered(s, i, target)
    ensures forall k: nat :: draw(k) <= k
    ensures Drawn(s, i, draw) == target
    decreases i
  {
    if i <= 1 {
      draw := k => 0;
      NothingLeft(s, i, target);
    } else {
      var j := TopPlace(s, i, target);
      var rest := EveryOrderFrom(Swap(s, i - 1, j), i - 1, target);
      draw := With(rest, i - 1, j);
      DrawFirst(s, i, j, rest);
    }
  }

  /** Every order is drawn: no permutation is out of the shuffle's reach. */
  lemma EveryOrderIsDrawn(p: seq<int>) returns (draw: nat -> nat)
    requires IsPerm(p)
    ensures forall k: nat :: draw(k) <= k
    ensures Order(|p|, draw) == p
  {
    forall k | 0 <= k < |p| ensures p[k] in Ascending(|p|) { assert Ascending(|p|)[p[k]] == p[k]; }
    draw := EveryOrderFrom(Ascending(|p|), |p|, p);
  }

  /** The highest place is settled by its own draw. */
  lemma DrawnTop(s: seq<int>, i: nat, draw: nat -> nat)
    requires 1 < i <= |s|
    ensures Drawn(s, i, draw)[i - 1] == s[Pick(draw, i - 1)]
  {
    assert Swap(s, i - 1, Pick(draw, i - 1))[i - 1] == s[Pick(draw, i - 1)];
  }

  lemma {:induction false} DrawsFrom(s: seq<int>, i: nat, draw: nat -> nat, other: nat -> nat)
    requires i <= |s| && NoDup(s) && forall k: nat :: k < i ==> draw(k) <= k && other(k) <= k
    requires Drawn(s, i, draw) == Drawn(s, i, other)
    ensures forall k: nat :: 1 <= k < i ==> draw(k) == other(k)
    decreases i
  {
    if i > 1 {
      var j := draw(i - 1);
      DrawnTop(s, i, draw);
      DrawnTop(s, i, other);
      assert j == other(i - 1);
      SwapKeeps(s, i - 1, j);
      DrawsFrom(Swap(s, i - 1, j), i - 1, draw, other);
    }
  }

  /** Each order comes from one sequence of draws only, so equally likely draws make equally likely
      orders. */
  lemma OneOrderOneDraw(n: nat, draw: nat -> nat, other: nat -> nat)
    requires forall k: nat :: k < n ==> draw(k) <= k && other(k) <= k
    ensures Order(n, draw) == Order(n, other) <==> forall k: nat :: 1 <= k < n ==> draw(k) == other(k)
  {
    if Order(n, draw) == Order(n, other) {
      DrawsFrom(Ascending(n), n, draw, other);
    }
    if forall k: nat :: 1 <= k < n ==> draw(k) == other(k) {
      assert n > 0 ==> draw(0) == 0 && other(0) == 0;
      SameDraws(Ascending(n), n, draw, other);
    }
  }

  /** `rand.Shuffle`: walk down, swapping each place with one drawn at or below it. */
  method ShuffleInPlace(a: array<int>, draw: nat -> nat)
    requires IsPerm(a[..])
    modifies a
    ensures a[..] == Drawn(old(a[..]), a.Length, draw) && IsPerm(a[..])
  {
    ghost var cur := a[..];
    DrawnKeepsPerm(cur, a.Length, draw);
    var i: nat := a.Length;
    while i > 1
      invariant i <= a.Length && a[..] == cur
      invariant Drawn(cur, i, draw) == Drawn(old(a[..]), a.Length, draw)
    {
      i := i - 1;
      var j := Pick(draw, i);
      SwapAt(a, i, j);
      cur := Swap(cur, i, j);
    }
  }

  method SwapAt(a: array<int>, i: nat, j: nat)
    requires i < a.Length && j < a.Length
    modifies a
    ensures a[..] == Swap(old(a[..]), i, j)
  {
    a[i], a[j] := a[j], a[i];
  }

  method Identity(n: nat) returns (a: array<int>)
    ensures fresh(a) && a[..] == Ascending(n) && IsPerm(a[..])
  {
    a := new int[n];
    for i := 0 to n
      invariant forall k :: 0 <= k < i ==> a[k] == k
    {
      a[i] := i;
    }
  }

  /** 0 .. n-1 in the order that the draws give. */
  method Mixed(n: nat, draw: nat -> nat) returns (a: array<int>)
    ensures fresh(a) && a[..] == Order(n, draw) && IsPerm(a[..])
  {
    a := Identity(n);
    ShuffleInPlace(a, draw);
  }

  class Shuffler {
    const size: uint64
    const rl: array<int>
    const rl2: array<int>

    ghost predicate Valid()
      reads rl, rl2
    {
      Tables(size, rl[..], rl2[..])
    }

    /** `NewShuffle` for a size above zero; the source returns nil for zero. */
    constructor (size: uint64, draw: nat -> nat, draw2: nat -> nat)
      requires size > 0
      ensures Valid() && this.size == size && fresh(rl) && fresh(rl2)
      ensures rl[..] == Order(BlockSize(size), draw) && rl2[..] == Order(size % BlockSize(size), draw2)
    {
      var n := if size > 100 then 100 else size;
      var full := Mixed(n, draw);
      var tail := Mixed(size % n, draw2);
      this.size, this.rl, this.rl2 := size, full, tail;
    }

    method At(index: uint64) returns (r: uint64)
      requires Valid() && index < size
      ensures r == Get(size, rl[..], rl2[..], index)
    {
      var n := rl.Length;
      var t := index % n;
      if (index - t + n) % TWO_64 > size {
        TailIndex(size, index);
        return (index - t + rl2[t]) % TWO_64;
      }
      r := (index - t + rl[t]) % TWO_64;
    }
  }
}
