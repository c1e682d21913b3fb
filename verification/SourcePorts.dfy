/** The source-port cursor over a whole run of reservations: ports may only come back after
    the cursor has gone round. */
module SourcePorts {
  import opened Types
  import opened ProbeTable

  /** The table as one successful reservation finds it, for its destination. */
  datatype Visit = Visit(probes: Probes, ip: string, dst: uint16)

  /** The offset the reservation stops at, for a cursor already in range. */
  ghost function Offset(v: Visit, cursor: uint16): (o: nat)
    requires SRC_PORT_MIN <= cursor <= SRC_PORT_MAX && HasRoom(v.probes, v.ip, v.dst)
    ensures forall x: nat :: FirstFit(v.probes, v.ip, v.dst, cursor, x) <==> x == o
  {
    FirstFitExists(v.probes, v.ip, v.dst, cursor);
    var o: nat :| FirstFit(v.probes, v.ip, v.dst, cursor, o);
    o
  }

  lemma FirstFitExists(m: Probes, ip: string, dst: uint16, start: uint16)
    requires SRC_PORT_MIN <= start <= SRC_PORT_MAX && HasRoom(m, ip, dst)
    ensures exists o: nat :: FirstFit(m, ip, dst, start, o)
  {
    var p: uint16 :| SRC_PORT_MIN <= p <= SRC_PORT_MAX && Free(m, ip, dst, p);
    var o := WalkCovers(start, p);
    var i := 0;
    while !Free(m, ip, dst, PortAt(start, i))
      invariant 0 <= i <= o
      invariant forall j: nat :: j < i ==> !Free(m, ip, dst, PortAt(start, j))
      decreases o - i
    {
      i := i + 1;
    }
    assert FirstFit(m, ip, dst, start, i);
  }

  ghost predicate Roomy(vs: seq<Visit>) {
    forall j :: 0 <= j < |vs| ==> HasRoom(vs[j].probes, vs[j].ip, vs[j].dst)
  }

  /** The ports granted one after the other. Between two reservations anything may happen to
      the table: only reservations move the cursor, and a failed one leaves it alone. */
  ghost function Granted(vs: seq<Visit>, cursor: uint16): (ps: seq<uint16>)
    requires SRC_PORT_MIN <= cursor <= SRC_PORT_MAX && Roomy(vs)
    ensures |ps| == |vs|
    ensures forall j :: 0 <= j < |ps| ==> SRC_PORT_MIN <= ps[j] <= SRC_PORT_MAX
  {
    if vs == [] then []
    else
      var p := PortAt(cursor, Offset(vs[0], cursor));
      [p] + Granted(vs[1..], After(p))
  }

  /** How far the cursor travels over the first `n` reservations. */
  ghost function Travel(vs: seq<Visit>, cursor: uint16, n: nat): nat
    requires SRC_PORT_MIN <= cursor <= SRC_PORT_MAX && Roomy(vs) && n <= |vs|
    decreases n
  {
    if n == 0 then 0
    else
      var o := Offset(vs[0], cursor);
      o + 1 + Travel(vs[1..], After(PortAt(cursor, o)), n - 1)
  }

  lemma AfterIsNext(cursor: uint16, o: nat)
    requires SRC_PORT_MIN <= cursor <= SRC_PORT_MAX
    ensures After(PortAt(cursor, o)) == PortAt(cursor, o + 1)
  {}

  /** Walking on from where a walk ended. */
  lemma PortAtAdd(cursor: uint16, a: nat, b: nat)
    requires SRC_PORT_MIN <= cursor <= SRC_PORT_MAX
    ensures PortAt(PortAt(cursor, a), b) == PortAt(cursor, a + b)
  {}

  /** The n-th granted port is where the cursor's whole travel ends. */
  lemma {:induction false} GrantedAt(vs: seq<Visit>, cursor: uint16, n: nat)
    requires SRC_PORT_MIN <= cursor <= SRC_PORT_MAX && Roomy(vs) && n < |vs|
    ensures Travel(vs, cursor, n + 1) >= 1
    ensures Granted(vs, cursor)[n] == PortAt(cursor, Travel(vs, cursor, n + 1) - 1)
    decreases n
  {
    var o := Offset(vs[0], cursor);
    var next := After(PortAt(cursor, o));
    if n == 0 {
      assert Travel(vs[1..], next, 0) == 0;
    } else {
      GrantedAt(vs[1..], next, n - 1);
      AfterIsNext(cursor, o);
      PortAtAdd(cursor, o + 1, Travel(vs[1..], next, n) - 1);
    }
  }

  lemma {:induction false} TravelGrows(vs: seq<Visit>, cursor: uint16, a: nat, b: nat)
    requires SRC_PORT_MIN <= cursor <= SRC_PORT_MAX && Roomy(vs) && a <= b <= |vs|
    ensures Travel(vs, cursor, b) >= Travel(vs, cursor, a) + (b - a)
    decreases b
  {
    if b > 0 {
      var next := After(PortAt(cursor, Offset(vs[0], cursor)));
      TravelGrows(vs[1..], next, if a == 0 then 0 else a - 1, b - 1);
    }
  }

  lemma SamePlace(cursor: uint16, x: nat, y: nat)
    requires SRC_PORT_MIN <= cursor <= SRC_PORT_MAX
    ensures PortAt(cursor, x) == PortAt(cursor, y) <==> (y - x) % RANGE_SIZE == 0
  {
    var c := cursor - SRC_PORT_MIN;
    assert (c + x) % RANGE_SIZE == (c + y) % RANGE_SIZE <==> (y - x) % RANGE_SIZE == 0;
  }

  /** Two reservations get the same source port exactly when the cursor travelled a whole
      positive number of rounds between them. */
  lemma {:induction false} SamePortIffWholeRounds(vs: seq<Visit>, cursor: uint16, a: nat, b: nat)
    requires SRC_PORT_MIN <= cursor <= SRC_PORT_MAX && Roomy(vs) && a < b < |vs|
    ensures var between := Travel(vs, cursor, b + 1) - Travel(vs, cursor, a + 1);
            between > 0
            && (Granted(vs, cursor)[a] == Granted(vs, cursor)[b] <==> between % RANGE_SIZE == 0)
  {
    GrantedAt(vs, cursor, a);
    GrantedAt(vs, cursor, b);
    TravelGrows(vs, cursor, a + 1, b + 1);
    SamePlace(cursor, Travel(vs, cursor, a + 1) - 1, Travel(vs, cursor, b + 1) - 1);
  }

  /** No reservation found its first port taken. */
  ghost predicate SkipFree(vs: seq<Visit>, cursor: uint16)
    requires SRC_PORT_MIN <= cursor <= SRC_PORT_MAX && Roomy(vs)
  {
    vs == [] || (Offset(vs[0], cursor) == 0 && SkipFree(vs[1..], After(PortAt(cursor, 0))))
  }

  lemma {:induction false} SkipFreeTravel(vs: seq<Visit>, cursor: uint16, n: nat)
    requires SRC_PORT_MIN <= cursor <= SRC_PORT_MAX && Roomy(vs) && n <= |vs| && SkipFree(vs, cursor)
    ensures Travel(vs, cursor, n) == n
    decreases n
  {
    if n > 0 { SkipFreeTravel(vs[1..], After(PortAt(cursor, 0)), n - 1); }
  }

  lemma LessThanARound(x: int)
    requires 0 < x < RANGE_SIZE
    ensures x % RANGE_SIZE != 0
  {}

  /** Up to 10000 reservations in a row that skip nothing use different source ports. */
  lemma SkipFreeDistinct(vs: seq<Visit>, cursor: uint16)
    requires SRC_PORT_MIN <= cursor <= SRC_PORT_MAX && Roomy(vs) && SkipFree(vs, cursor) && |vs| <= RANGE_SIZE
    ensures NoDup(Granted(vs, cursor))
  {
    var ps := Granted(vs, cursor);
    forall a, b | 0 <= a < b < |ps| ensures ps[a] != ps[b] {
      SamePortIffWholeRounds(vs, cursor, a, b);
      SkipFreeTravel(vs, cursor, a + 1);
      SkipFreeTravel(vs, cursor, b + 1);
      assert 0 < b - a < RANGE_SIZE;
      LessThanARound(b - a);
    }
  }
}
