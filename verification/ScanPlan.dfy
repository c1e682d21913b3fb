/** The scan plan: top ports first, then every other selected port once, shuffled inside
    blocks of 100 (core/port/port.go). */
module ScanPlan {
  import opened Types
  import opened PortRanges
  import Shuffle

  // ---------- the priority part ----------

  predicate Wanted(p: uint16, all: bool, ranges: seq<Range>) {
    all || InRanges(p, ranges)
  }

  /** The wanted ports of the table, each where it first appears. */
  function Selected(top: seq<uint16>, all: bool, ranges: seq<Range>): seq<uint16> {
    if top == [] then []
    else
      var before, p := Selected(top[..|top| - 1], all, ranges), top[|top| - 1];
      if Wanted(p, all, ranges) && p !in before then before + [p] else before
  }

  /** `a` appears in the table before the first `b`. */
  ghost predicate Precedes(top: seq<uint16>, a: uint16, b: uint16) {
    exists i :: 0 <= i < |top| && top[i] == a && b !in top[..i + 1]
  }

  /** The priority part has no duplicates, holds exactly the wanted ports of the table, and
      keeps the table's order. */
  lemma {:induction false} SelectedIs(top: seq<uint16>, all: bool, ranges: seq<Range>)
    ensures NoDup(Selected(top, all, ranges))
    ensures forall p :: p in Selected(top, all, ranges) <==> p in top && (all || InRanges(p, ranges))
    ensures forall i, j :: 0 <= i < j < |Selected(top, all, ranges)| ==>
              Precedes(top, Selected(top, all, ranges)[i], Selected(top, all, ranges)[j])
  {
    if top != [] {
      var front := top[..|top| - 1];
      SelectedIs(front, all, ranges);
      var before, sel := Selected(front, all, ranges), Selected(top, all, ranges);
      assert top == front + [top[|top| - 1]];
      forall i, j | 0 <= i < j < |sel| ensures Precedes(top, sel[i], sel[j]) {
        if j < |before| {
          assert Precedes(front, before[i], before[j]);
          var k :| 0 <= k < |front| && front[k] == before[i] && before[j] !in front[..k + 1];
          assert top[k] == sel[i] && top[..k + 1] == front[..k + 1];
        } else {
          assert before[i] in front;
          var k :| 0 <= k < |front| && front[k] == before[i];
          assert top[k] == sel[i] && sel[j] !in front && top[..k + 1] == front[..k + 1];
        }
      }
    }
  }

  // ---------- the other ports: the uint16 loop of the source, step by step ----------

  /** The loop over the ranges: in range `r` about to test `port`, or past the last range. */
  datatype Walk = In(r: nat, port: uint16, others: seq<uint16>) | Done(others: seq<uint16>)

  function Enter(ranges: seq<Range>, r: nat, others: seq<uint16>): Walk {
    if r < |ranges| then In(r, ranges[r].lo, others) else Done(others)
  }

  predicate Skipped(p: uint16, sel: seq<uint16>, others: seq<uint16>) {
    p == 0 || p in sel || p in others
  }

  /** One test of the loop condition and, if it holds, one pass through the body. The counter
      is a 16-bit word: after 65535 it is 0 again. */
  function Pass(ranges: seq<Range>, sel: seq<uint16>, w: Walk): Walk {
    if w.Done? || w.r >= |ranges| then Done(w.others)
    else if w.port > ranges[w.r].hi then Enter(ranges, w.r + 1, w.others)
    else if Skipped(w.port, sel, w.others) then In(w.r, (w.port + 1) % 65536, w.others)
    else if w.port == 65535 then Enter(ranges, w.r + 1, w.others + [w.port])
    else In(w.r, (w.port + 1) % 65536, w.others + [w.port])
  }

  function Passes(ranges: seq<Range>, sel: seq<uint16>, w: Walk, n: nat): Walk
    decreases n
  {
    if n == 0 then w else Passes(ranges, sel, Pass(ranges, sel, w), n - 1)
  }

  ghost predicate Reaches(ranges: seq<Range>, sel: seq<uint16>, w: Walk, goal: Walk) {
    exists n: nat :: Passes(ranges, sel, w, n) == goal
  }

  ghost predicate Terminates(ranges: seq<Range>, sel: seq<uint16>) {
    exists n: nat :: Passes(ranges, sel, Enter(ranges, 0, []), n).Done?
  }

  /** The condition a caller can check: port 65535 ends at most one range, and none if it was
      already selected as a top port. */
  predicate Terminating(ranges: seq<Range>, sel: seq<uint16>) {
    && (forall r :: 0 <= r < |ranges| && 65535 in sel ==> ranges[r].hi != 65535)
    && (forall a, b :: 0 <= a < b < |ranges| ==> !(ranges[a].hi == 65535 && ranges[b].hi == 65535))
  }

  /** What a range adds, port by port. */
  function Added(p: nat, hi: uint16, sel: seq<uint16>, others: seq<uint16>): seq<uint16>
    decreases 65536 - p
  {
    if p > hi then others
    else Added(p + 1, hi, sel, if Skipped(p, sel, others) then others else others + [p])
  }

  function Others(ranges: seq<Range>, r: nat, sel: seq<uint16>, others: seq<uint16>): seq<uint16>
    requires r <= |ranges|
    decreases |ranges| - r
  {
    if r == |ranges| then others
    else Others(ranges, r + 1, sel, Added(ranges[r].lo, ranges[r].hi, sel, others))
  }

  /** A range adds exactly its non-zero ports that were not selected yet, once each. */
  lemma {:induction false} AddedIs(p: nat, hi: uint16, sel: seq<uint16>, others: seq<uint16>)
    requires NoDup(others)
    ensures NoDup(Added(p, hi, sel, others)) && others <= Added(p, hi, sel, others)
    ensures forall q: uint16 :: q in Added(p, hi, sel, others) <==>
              q in others || (p <= q <= hi && q != 0 && q !in sel)
    decreases 65536 - p
  {
    if p <= hi {
      AddedIs(p + 1, hi, sel, if Skipped(p, sel, others) then others else others + [p]);
    }
  }

  predicate InRangesFrom(q: uint16, ranges: seq<Range>, r: nat) {
    exists j :: r <= j < |ranges| && ranges[j].lo <= q <= ranges[j].hi
  }

  lemma {:induction false} OthersIs(ranges: seq<Range>, r: nat, sel: seq<uint16>, others: seq<uint16>)
    requires r <= |ranges| && NoDup(others)
    ensures NoDup(Others(ranges, r, sel, others))
    ensures forall q: uint16 :: q in Others(ranges, r, sel, others) <==>
              q in others || (q != 0 && q !in sel && InRangesFrom(q, ranges, r))
    decreases |ranges| - r
  {
    if r < |ranges| {
      AddedIs(ranges[r].lo, ranges[r].hi, sel, others);
      OthersIs(ranges, r + 1, sel, Added(ranges[r].lo, ranges[r].hi, sel, others));
      forall q: uint16 ensures InRangesFrom(q, ranges, r) <==>
          InRangesFrom(q, ranges, r + 1) || ranges[r].lo <= q <= ranges[r].hi {}
    }
  }

  // ---------- termination of the loop ----------

  lemma {:induction false} PassesAdd(ranges: seq<Range>, sel: seq<uint16>, w: Walk, a: nat, b: nat)
    ensures Passes(ranges, sel, w, a + b) == Passes(ranges, sel, Passes(ranges, sel, w, a), b)
    decreases a
  {
    if a > 0 { PassesAdd(ranges, sel, Pass(ranges, sel, w), a - 1, b); }
  }

  lemma ReachesTrans(ranges: seq<Range>, sel: seq<uint16>, a: Walk, b: Walk, c: Walk)
    requires Reaches(ranges, sel, a, b) && Reaches(ranges, sel, b, c)
    ensures Reaches(ranges, sel, a, c)
  {
    var m: nat :| Passes(ranges, sel, a, m) == b;
    var n: nat :| Passes(ranges, sel, b, n) == c;
    PassesAdd(ranges, sel, a, m, n);
  }

  lemma ReachesStep(ranges: seq<Range>, sel: seq<uint16>, w: Walk, goal: Walk)
    requires Reaches(ranges, sel, Pass(ranges, sel, w), goal)
    ensures Reaches(ranges, sel, w, goal)
  {
    var n: nat :| Passes(ranges, sel, Pass(ranges, sel, w), n) == goal;
    assert Passes(ranges, sel, w, n + 1) == goal;
  }

  lemma {:induction false} RangeEnds(ranges: seq<Range>, sel: seq<uint16>, r: nat, p: uint16, others: seq<uint16>)
    requires r < |ranges|
    requires ranges[r].hi == 65535 ==> 65535 !in sel && 65535 !in others
    ensures Reaches(ranges, sel, In(r, p, others), Enter(ranges, r + 1, Added(p, ranges[r].hi, sel, others)))
    decreases 65536 - p
  {
    var w, hi := In(r, p, others), ranges[r].hi;
    var next := Pass(ranges, sel, w);
    if p > hi {
      assert Passes(ranges, sel, next, 0) == next;
    } else {
      var others' := if Skipped(p, sel, others) then others else others + [p];
      if p == 65535 {
        assert Added(65536, hi, sel, others') == others';
        assert Passes(ranges, sel, next, 0) == next;
      } else {
        RangeEnds(ranges, sel, r, p + 1, others');
      }
    }
    ReachesStep(ranges, sel, w, Enter(ranges, r + 1, Added(p, hi, sel, others)));
  }

  /** Once 65535 is taken, a range that ends there keeps wrapping round. */
  lemma {:induction false} RangeLoops(ranges: seq<Range>, sel: seq<uint16>, w: Walk, n: nat)
    requires w.In? && w.r < |ranges| && ranges[w.r].hi == 65535 && Skipped(65535, sel, w.others)
    ensures !Passes(ranges, sel, w, n).Done?
    decreases n
  {
    if n > 0 { RangeLoops(ranges, sel, Pass(ranges, sel, w), n - 1); }
  }

  /** Some range from `r` on ends at 65535 with that port already taken. */
  predicate Stuck(ranges: seq<Range>, r: nat, sel: seq<uint16>, others: seq<uint16>)
    requires r <= |ranges|
    decreases |ranges| - r
  {
    r < |ranges| &&
    ((ranges[r].hi == 65535 && Skipped(65535, sel, others))
     || Stuck(ranges, r + 1, sel, Added(ranges[r].lo, ranges[r].hi, sel, others)))
  }

  lemma {:induction false} LoopEnds(ranges: seq<Range>, r: nat, sel: seq<uint16>, others: seq<uint16>)
    requires r <= |ranges| && !Stuck(ranges, r, sel, others)
    ensures Reaches(ranges, sel, Enter(ranges, r, others), Done(Others(ranges, r, sel, others)))
    decreases |ranges| - r
  {
    if r == |ranges| {
      assert Passes(ranges, sel, Done(others), 0) == Done(others);
    } else {
      var others' := Added(ranges[r].lo, ranges[r].hi, sel, others);
      RangeEnds(ranges, sel, r, ranges[r].lo, others);
      LoopEnds(ranges, r + 1, sel, others');
      ReachesTrans(ranges, sel, Enter(ranges, r, others), Enter(ranges, r + 1, others'),
                   Done(Others(ranges, r, sel, others)));
    }
  }

  lemma {:induction false} LoopRuns(ranges: seq<Range>, r: nat, sel: seq<uint16>, others: seq<uint16>, n: nat)
    requires r <= |ranges| && Stuck(ranges, r, sel, others)
    ensures !Passes(ranges, sel, Enter(ranges, r, others), n).Done?
    decreases |ranges| - r, n
  {
    if ranges[r].hi == 65535 && Skipped(65535, sel, others) {
      RangeLoops(ranges, sel, Enter(ranges, r, others), n);
    } else {
      var others' := Added(ranges[r].lo, ranges[r].hi, sel, others);
      RangeEnds(ranges, sel, r, ranges[r].lo, others);
      var m: nat :| Passes(ranges, sel, Enter(ranges, r, others), m) == Enter(ranges, r + 1, others');
      if n >= m {
        PassesAdd(ranges, sel, Enter(ranges, r, others), m, n - m);
        LoopRuns(ranges, r + 1, sel, others', n - m);
      } else if Passes(ranges, sel, Enter(ranges, r, others), n).Done? {
        PassesAdd(ranges, sel, Enter(ranges, r, others), n, m - n);
        DoneStays(ranges, sel, Passes(ranges, sel, Enter(ranges, r, others), n).others, m - n);
      }
    }
  }

  lemma {:induction false} DoneStays(ranges: seq<Range>, sel: seq<uint16>, others: seq<uint16>, n: nat)
    ensures Passes(ranges, sel, Done(others), n) == Done(others)
  {
    if n > 0 { DoneStays(ranges, sel, others, n - 1); }
  }

  lemma {:induction false} StuckIs(ranges: seq<Range>, r: nat, sel: seq<uint16>, others: seq<uint16>)
    requires r <= |ranges| && NoDup(others)
    ensures Stuck(ranges, r, sel, others) <==>
      || (exists a :: r <= a < |ranges| && ranges[a].hi == 65535 && Skipped(65535, sel, others))
      || (exists a, b :: r <= a < b < |ranges| && ranges[a].hi == 65535 && ranges[b].hi == 65535)
    decreases |ranges| - r
  {
    if r < |ranges| {
      var hi := ranges[r].hi;
      AddedIs(ranges[r].lo, hi, sel, others);
      StuckIs(ranges, r + 1, sel, Added(ranges[r].lo, hi, sel, others));
    }
  }

  /** The loop that collects the other ports ends if and only if 65535 ends at most one range,
      and none when it is already among the top ports. */
  lemma TerminatesIff(ranges: seq<Range>, sel: seq<uint16>)
    ensures Terminates(ranges, sel) <==> Terminating(ranges, sel)
    ensures Terminating(ranges, sel) ==> Reaches(ranges, sel, Enter(ranges, 0, []), Done(Rest(ranges, sel)))
  {
    StuckIs(ranges, 0, sel, []);
    if Stuck(ranges, 0, sel, []) {
      forall n: nat ensures !Passes(ranges, sel, Enter(ranges, 0, []), n).Done? {
        LoopRuns(ranges, 0, sel, [], n);
      }
    } else {
      LoopEnds(ranges, 0, sel, []);
      var n: nat :| Passes(ranges, sel, Enter(ranges, 0, []), n) == Done(Others(ranges, 0, sel, []));
    }
  }

  lemma Digits65535()
    ensures Dec(1) == "1" && Dec(65535) == "65535"
  {
    assert Dec(65) == "65" && Dec(655) == "655" && Dec(6553) == "6553";
  }

  const LAST := Span(Range(65535, 65535))

  /** The last port, named twice. */
  const TWICE := RenderAll([LAST, LAST])

  lemma TwiceReads()
    ensures TWICE == "65535-65535" + "," + "65535-65535" && 't' !in TWICE
    ensures Accepted(TWICE) && Ranges(Tokens(TWICE)) == [Range(65535, 65535), Range(65535, 65535)]
  {
    var items := [LAST, LAST];
    Digits65535();
    assert items[1..] == [LAST] && [LAST][1..] == [];
    assert RenderAll([LAST]) == Render(LAST) == "65535-65535";
    RenderThenParse(items);
    assert Spans([LAST]) == [LAST.range];
  }

  lemma DashReads()
    ensures Accepted("-") && Ranges(Tokens("-")) == [Range(1, 65535)]
  {
    var all := Span(Range(1, 65535));
    Digits65535();
    assert Render(all) == "1-65535";
    RenderThenParse([all]);
    assert [all][1..] == [];
  }

  /** The string sends the loop round for ever: it is accepted, does not ask for the top ports,
      and its ranges do not terminate. */
  ghost predicate LoopsOn(str: string, top: seq<uint16>) {
    Accepted(str) && !Contains(str, TOP) && !Terminates(Ranges(Tokens(str)), Selected(top, false, Ranges(Tokens(str))))
  }

  /** Whatever the top ports are, naming the last port twice loops. */
  lemma TwiceLoops(top: seq<uint16>)
    ensures LoopsOn(TWICE, top)
  {
    var last := Range(65535, 65535);
    TwiceReads();
    NotContained(TWICE, TOP);
    TerminatesIff([last, last], Selected(top, false, [last, last]));
  }

  /** If 65535 is a top port, the string for all ports loops, and only then. */
  lemma DashLoopsIff(top: seq<uint16>)
    ensures LoopsOn("-", top) <==> 65535 in top
  {
    var all := Range(1, 65535);
    DashReads();
    NotContained("-", TOP);
    TerminatesIff([all], Selected(top, false, [all]));
    SelectedIs(top, false, [all]);
    assert InRanges(65535, [all]) by { assert [all][0] == all; }
  }

  // ---------- the plan ----------

  /** The ports a string asks for besides the priority part, before they are shuffled. */
  function Rest(ranges: seq<Range>, sel: seq<uint16>): seq<uint16> {
    Others(ranges, 0, sel, [])
  }

  /** So far `tail` takes its i-th port from where the shuffler sends i. */
  ghost predicate PicksSoFar(rest: seq<uint16>, tail: seq<uint16>, rl: seq<int>, rl2: seq<int>) {
    && 0 < |rest| < Shuffle.TWO_64 && |tail| <= |rest| && Shuffle.Tables(|rest|, rl, rl2)
    && forall i: uint64 :: i < |tail| ==>
         Shuffle.Get(|rest|, rl, rl2, i) < |rest| && tail[i] == rest[Shuffle.Get(|rest|, rl, rl2, i)]
  }

  ghost predicate Picks(rest: seq<uint16>, tail: seq<uint16>, rl: seq<int>, rl2: seq<int>) {
    |tail| == |rest| && PicksSoFar(rest, tail, rl, rl2)
  }

  lemma PicksNext(rest: seq<uint16>, tail: seq<uint16>, rl: seq<int>, rl2: seq<int>, i: uint64)
    requires PicksSoFar(rest, tail, rl, rl2) && i == |tail| < |rest| <= 65536
    ensures Shuffle.Get(|rest|, rl, rl2, i) < |rest|
    ensures PicksSoFar(rest, tail + [rest[Shuffle.Get(|rest|, rl, rl2, i)]], rl, rl2)
  {
    Shuffle.GetIs(|rest|, rl, rl2, i);
  }

  /** `tail` is `rest` with each port moved inside its own block of at most 100. */
  ghost predicate BlockShuffled(rest: seq<uint16>, tail: seq<uint16>) {
    rest == tail == [] || exists rl, rl2 :: Picks(rest, tail, rl, rl2)
  }

  /** The very tail that the draws give: one order for all full blocks, one for the last. */
  ghost predicate DrawnTail(rest: seq<uint16>, tail: seq<uint16>, draw: nat -> nat, draw2: nat -> nat) {
    rest == tail == [] ||
    (0 < |rest| < Shuffle.TWO_64 &&
     var n := Shuffle.BlockSize(|rest|);
     Picks(rest, tail, Shuffle.Order(n, draw), Shuffle.Order(|rest| % n, draw2)))
  }

  /** Every plan that keeps the promise of the block-wise shuffle is drawn: none is out of reach. */
  lemma EveryTailIsDrawn(rest: seq<uint16>, tail: seq<uint16>) returns (draw: nat -> nat, draw2: nat -> nat)
    requires BlockShuffled(rest, tail)
    ensures DrawnTail(rest, tail, draw, draw2)
  {
    if rest == [] {
      draw, draw2 := k => 0, k => 0;
    } else {
      var rl, rl2 :| Picks(rest, tail, rl, rl2);
      draw := Shuffle.EveryOrderIsDrawn(rl);
      draw2 := Shuffle.EveryOrderIsDrawn(rl2);
    }
  }

  /** The top ports in order, then the other ports shuffled block by block. */
  ghost predicate Shuffled(sel: seq<uint16>, rest: seq<uint16>, plan: seq<uint16>) {
    sel <= plan && BlockShuffled(rest, plan[|sel|..])
  }

  /** A block permutation of distinct ports keeps them distinct and loses none. */
  lemma PicksIsPermutation(rest: seq<uint16>, tail: seq<uint16>, rl: seq<int>, rl2: seq<int>)
    requires Picks(rest, tail, rl, rl2) && NoDup(rest) && Shuffle.Bijective(|rest|, rl, rl2)
    ensures NoDup(tail)
    ensures forall q :: q in tail <==> q in rest
  {
    var n: uint64 := |rest|;
    forall a, b | 0 <= a < b < n ensures tail[a] != tail[b] {
      var i: uint64, j: uint64 := a, b;
      assert Shuffle.Get(n, rl, rl2, i) != Shuffle.Get(n, rl, rl2, j);
    }
    forall q | q in rest ensures q in tail {
      var j: uint64 :| j < n && rest[j] == q;
      assert Shuffle.Hit(n, rl, rl2, j);
      var i: uint64 :| i < n && Shuffle.Get(n, rl, rl2, i) == j;
      assert tail[i] == q;
    }
    forall q | q in tail ensures q in rest {
      var i: uint64 :| i < n && tail[i] == q;
      assert rest[Shuffle.Get(n, rl, rl2, i)] == q;
    }
  }

  lemma BlockShuffledIs(rest: seq<uint16>, tail: seq<uint16>)
    requires NoDup(rest) && BlockShuffled(rest, tail) && |rest| <= 65536
    ensures NoDup(tail) && |tail| == |rest|
    ensures forall q :: q in tail <==> q in rest
  {
    if rest != [] {
      var rl, rl2 :| Picks(rest, tail, rl, rl2);
      Shuffle.GetIsBlockPermutation(|rest|, rl, rl2);
      PicksIsPermutation(rest, tail, rl, rl2);
    }
  }

  lemma SameHundred(size: uint64, i: uint64, j: uint64)
    requires i < size && Shuffle.SameBlock(size, i, j)
    ensures i / 100 == j / 100
  {
    if size < 100 { assert i / 100 == 0 && j / 100 == 0; }
  }

  /** The shuffle moves a port at most inside its hundred. */
  lemma TailKeepsHundreds(rest: seq<uint16>, tail: seq<uint16>, i: nat)
    requires BlockShuffled(rest, tail) && |rest| <= 65536 && i < |tail| && |tail| == |rest|
    ensures exists j :: 0 <= j < |rest| && j / 100 == i / 100 && tail[i] == rest[j]
  {
    var rl, rl2 :| Picks(rest, tail, rl, rl2);
    var k: uint64 := i;
    Shuffle.GetIsBlockPermutation(|rest|, rl, rl2);
    SameHundred(|rest|, k, Shuffle.Get(|rest|, rl, rl2, k));
  }

  /** What every plan promises, whatever the random source drew: no duplicates, the top ports
      first, then exactly the non-zero ports of the ranges that are not among them. */
  lemma PlanIs(ranges: seq<Range>, sel: seq<uint16>, plan: seq<uint16>)
    requires NoDup(sel) && Shuffled(sel, Rest(ranges, sel), plan)
    ensures NoDup(plan) && sel <= plan
    ensures forall q :: q in plan[|sel|..] <==> q != 0 && q !in sel && InRanges(q, ranges)
  {
    var rest, tail := Rest(ranges, sel), plan[|sel|..];
    OthersIs(ranges, 0, sel, []);
    assert forall q: uint16 :: InRangesFrom(q, ranges, 0) <==> InRanges(q, ranges);
    RestFits(ranges, sel);
    BlockShuffledIs(rest, tail);
    assert plan == sel + tail;
    forall a, b | 0 <= a < b < |plan| ensures plan[a] != plan[b] {
      if b >= |sel| {
        assert plan[b] == tail[b - |sel|] && plan[b] in tail;
      }
    }
  }

  /** Some item asks for a range with `q` in it. */
  predicate Asked(items: seq<Item>, q: uint16) {
    exists j :: 0 <= j < |items| && Asks(items[j]).Some? && Asks(items[j]).value.lo <= q <= Asks(items[j]).value.hi
  }

  lemma InEither(q: uint16, a: seq<Range>, b: seq<Range>)
    ensures InRanges(q, a + b) <==> InRanges(q, a) || InRanges(q, b)
  {
    if InRanges(q, a) {
      var j :| 0 <= j < |a| && a[j].lo <= q <= a[j].hi;
      assert (a + b)[j] == a[j];
    }
    if InRanges(q, b) {
      var j :| 0 <= j < |b| && b[j].lo <= q <= b[j].hi;
      assert (a + b)[|a| + j] == b[j];
    }
  }

  lemma AskedFirst(items: seq<Item>, q: uint16)
    requires items != []
    ensures Asked(items, q) <==>
            (Asks(items[0]).Some? && Asks(items[0]).value.lo <= q <= Asks(items[0]).value.hi) || Asked(items[1..], q)
  {
    if Asked(items[1..], q) {
      var j :| 0 <= j < |items[1..]| && var r := Asks(items[1..][j]); r.Some? && r.value.lo <= q <= r.value.hi;
      assert items[j + 1] == items[1..][j];
    }
    if Asked(items, q) {
      var j :| 0 <= j < |items| && var r := Asks(items[j]); r.Some? && r.value.lo <= q <= r.value.hi;
      if j > 0 { assert items[1..][j - 1] == items[j]; }
    }
  }

  function OneRange(o: Option<Range>): seq<Range> {
    match o case None => [] case Some(r) => [r]
  }

  lemma InOneRange(q: uint16, o: Option<Range>)
    ensures InRanges(q, OneRange(o)) <==> o.Some? && o.value.lo <= q <= o.value.hi
  {
    if o.Some? { assert OneRange(o)[0] == o.value; }
  }

  lemma {:induction false} SpansHold(items: seq<Item>, q: uint16)
    ensures InRanges(q, Spans(items)) <==> Asked(items, q)
  {
    if items != [] {
      assert Spans(items) == OneRange(Asks(items[0])) + Spans(items[1..]);
      InEither(q, OneRange(Asks(items[0])), Spans(items[1..]));
      InOneRange(q, Asks(items[0]));
      AskedFirst(items, q);
      SpansHold(items[1..], q);
    }
  }

  /** From the text to the plan: whatever single ports, ranges, chains and priority tokens are
      written, the plan scans once each exactly the top ports, if they are asked for by name, and
      the non-zero or top ports in what is asked for; the top ports come first. */
  lemma PlanOfItems(items: seq<Item>, top: seq<uint16>, plan: seq<uint16>)
    requires items != []
    requires var ranges := Ranges(Tokens(RenderAll(items)));
             var sel := Selected(top, Contains(RenderAll(items), TOP), ranges);
             Shuffled(sel, Rest(ranges, sel), plan)
    ensures NoDup(plan)
    ensures forall q: uint16 :: q in plan <==>
              (q in top && Top in items) || (Asked(items, q) && (q in top || q != 0))
    ensures forall i, j :: 0 <= i < j < |plan| && plan[j] in top ==> plan[i] in top
  {
    RenderThenParse(items);
    ContainsTopIff(items);
    var sel := Selected(top, Top in items, Spans(items));
    SelectedIs(top, Top in items, Spans(items));
    PlanIs(Spans(items), sel, plan);
    forall q: uint16 ensures InRanges(q, Spans(items)) <==> Asked(items, q) { SpansHold(items, q); }
    assert plan == sel + plan[|sel|..];
    forall i, j | 0 <= i < j < |plan| && plan[j] in top ensures plan[i] in top {
      if i < |sel| { assert sel[i] == plan[i]; }
    }
  }

  // ---------- the method of the source ----------

  method SelectTop(top: seq<uint16>, all: bool, ranges: seq<Range>) returns (sel: seq<uint16>)
    ensures sel == Selected(top, all, ranges)
  {
    sel := [];
    for i := 0 to |top|
      invariant sel == Selected(top[..i], all, ranges)
    {
      assert top[..i + 1][..i] == top[..i];
      var wanted := all;
      if !wanted {
        wanted := IsInPortRange(top[i], ranges);
      }
      if wanted && top[i] !in sel {
        sel := sel + [top[i]];
      }
    }
    assert top[..|top|] == top;
  }

  method CollectRange(range: Range, sel: seq<uint16>, before: seq<uint16>) returns (others: seq<uint16>)
    requires range.hi == 65535 ==> 65535 !in sel && 65535 !in before
    ensures others == Added(range.lo, range.hi, sel, before)
  {
    others := before;
    var port := range.lo;
    while port <= range.hi
      invariant range.hi == 65535 ==> 65535 !in others
      invariant Added(port, range.hi, sel, others) == Added(range.lo, range.hi, sel, before)
      decreases 65536 - port
    {
      if port == 0 || port in sel || port in others {
        port := (port + 1) % 65536;
        continue;
      }
      others := others + [port];
      if port == 65535 {
        assert Added(65536, range.hi, sel, others) == others;
        break;
      }
      port := (port + 1) % 65536;
    }
  }

  /** The range loop, for the inputs on which the source's loop ends. */
  method CollectOthers(ranges: seq<Range>, sel: seq<uint16>) returns (others: seq<uint16>)
    requires Terminating(ranges, sel)
    ensures others == Rest(ranges, sel)
  {
    others := [];
    for r := 0 to |ranges|
      invariant NoDup(others) && Others(ranges, r, sel, others) == Rest(ranges, sel)
      invariant 65535 in others ==> exists a :: 0 <= a < r && ranges[a].hi == 65535
    {
      AddedIs(ranges[r].lo, ranges[r].hi, sel, others);
      others := CollectRange(ranges[r], sel, others);
    }
  }

  method PickTail(rest: seq<uint16>, sf: Shuffle.Shuffler) returns (tail: seq<uint16>)
    requires 0 < |rest| <= 65536 && sf.Valid() && sf.size == |rest|
    ensures Picks(rest, tail, sf.rl[..], sf.rl2[..])
  {
    ghost var rl, rl2 := sf.rl[..], sf.rl2[..];
    tail := [];
    for i := 0 to |rest|
      invariant |tail| == i && PicksSoFar(rest, tail, rl, rl2)
    {
      var g := sf.At(i);
      PicksNext(rest, tail, rl, rl2, i);
      tail := tail + [rest[g]];
    }
  }

  method ShuffleTail(sel: seq<uint16>, rest: seq<uint16>, draw: nat -> nat, draw2: nat -> nat)
    returns (plan: seq<uint16>)
    requires |rest| <= 65536
    ensures Shuffled(sel, rest, plan) && DrawnTail(rest, plan[|sel|..], draw, draw2)
  {
    plan := sel + rest;
    if rest == [] {
      return;
    }
    var sf := new Shuffle.Shuffler(|rest|, draw, draw2);
    var tail := PickTail(rest, sf);
    plan := sel + tail;
    assert plan[|sel|..] == tail;
  }

  datatype Plan = Ports(ports: seq<uint16>) | ParseError | Empty

  /** The whole operation. `top` stands for the table of common ports, `draw` and `draw2` for
      the random source. */
  method ShuffleParseAndMergeTopPorts(top: seq<uint16>, portStr: string, draw: nat -> nat, draw2: nat -> nat)
    returns (plan: Plan)
    requires portStr != "" && Accepted(portStr) ==>
      var ranges := Ranges(Tokens(portStr)); Terminating(ranges, Selected(top, Contains(portStr, TOP), ranges))
    ensures portStr == "" ==> plan == Ports(Selected(top, true, []))
    ensures portStr != "" && !Accepted(portStr) ==> plan == ParseError
    ensures portStr != "" && Accepted(portStr) ==>
      var ranges := Ranges(Tokens(portStr));
      var sel := Selected(top, Contains(portStr, TOP), ranges);
      if sel + Rest(ranges, sel) == [] then plan == Empty
      else plan.Ports? && Shuffled(sel, Rest(ranges, sel), plan.ports)
           && DrawnTail(Rest(ranges, sel), plan.ports[|sel|..], draw, draw2)
  {
    if portStr == "" {
      var all := SelectTop(top, true, []);
      return Ports(all);
    }
    var ranges, ok := ParsePortRangeStr(portStr);
    if !ok {
      return ParseError;
    }
    var sel := SelectTop(top, Contains(portStr, TOP), ranges);
    var others := CollectOthers(ranges, sel);
    if |sel + others| == 0 {
      return Empty;
    }
    RestFits(ranges, sel);
    var ports := ShuffleTail(sel, others, draw, draw2);
    plan := Ports(ports);
  }

  /** There are fewer than 65536 other ports, far from where the shuffle's arithmetic wraps. */
  lemma RestFits(ranges: seq<Range>, sel: seq<uint16>)
    ensures |Rest(ranges, sel)| <= 65536
  {
    OthersIs(ranges, 0, sel, []);
    var rest := Rest(ranges, sel);
    var asInts: seq<int> := rest;
    Shuffle.SetOfDistinct(asInts);
    SubsetSize((set x | x in asInts), Shuffle.Upto(65536));
  }
}
