/** The table of pending SYN probes (core/port/syn/watchIpStatus.go).
    Each method of the class is one section of the source that runs under the table's lock. */
module ProbeTable {
  import opened Types

  const SRC_PORT_MIN: uint16 := 49000
  const SRC_PORT_MAX: uint16 := 58999
  const RANGE_SIZE: int := SRC_PORT_MAX - SRC_PORT_MIN + 1

  type Ctx = nat
  type Callback = nat

  datatype ProbeKey = ProbeKey(ip: string, srcPort: uint16, dstPort: uint16)

  datatype IpOption = IpOption(fingerPrint: bool, httpx: bool, onProbeDone: Option<Callback>)

  /** `id` names the reservation: keys are reused, ids never are. A zero `sentAt` of the
      source is `None`; `retry` tells whether a resend closure is stored. */
  datatype PendingProbe = PendingProbe(
    id: nat, key: ProbeKey, option: IpOption, startedAt: int, sentAt: Option<int>,
    ctx: Ctx, retried: bool, retry: bool)

  type Probes = map<ProbeKey, PendingProbe>

  datatype Table = Table(probes: Probes, nextSrcPort: uint16, isDone: bool)

  datatype Request = Request(id: nat, ip: string, dst: uint16, option: IpOption, sentAt: int, ctx: Ctx)

  // ---------- source ports ----------

  function StartPort(cursor: uint16): (p: uint16)
    ensures SRC_PORT_MIN <= p <= SRC_PORT_MAX
  {
    if cursor < SRC_PORT_MIN || cursor > SRC_PORT_MAX then SRC_PORT_MIN else cursor
  }

  /** The source port `offset` places after `start`, wrapping inside the range. */
  function PortAt(start: uint16, offset: nat): (p: uint16)
    requires SRC_PORT_MIN <= start <= SRC_PORT_MAX
    ensures SRC_PORT_MIN <= p <= SRC_PORT_MAX
  {
    SRC_PORT_MIN + (start - SRC_PORT_MIN + offset) % RANGE_SIZE
  }

  function After(port: uint16): (p: uint16)
    requires SRC_PORT_MIN <= port <= SRC_PORT_MAX
    ensures SRC_PORT_MIN <= p <= SRC_PORT_MAX
  {
    if port == SRC_PORT_MAX then SRC_PORT_MIN else port + 1
  }

  predicate Free(m: Probes, ip: string, dst: uint16, port: uint16) {
    ProbeKey(ip, port, dst) !in m
  }

  /** `offset` is where cyclic first-fit stops: free, and everything before it is taken. */
  predicate FirstFit(m: Probes, ip: string, dst: uint16, start: uint16, offset: nat)
    requires SRC_PORT_MIN <= start <= SRC_PORT_MAX
  {
    && offset < RANGE_SIZE
    && Free(m, ip, dst, PortAt(start, offset))
    && forall o: nat :: o < offset ==> !Free(m, ip, dst, PortAt(start, o))
  }

  ghost predicate HasRoom(m: Probes, ip: string, dst: uint16) {
    exists p: uint16 :: SRC_PORT_MIN <= p <= SRC_PORT_MAX && Free(m, ip, dst, p)
  }

  /** Every source port is some offset away from the cursor, so a full walk misses none. */
  lemma WalkCovers(start: uint16, p: uint16) returns (o: nat)
    requires SRC_PORT_MIN <= start <= SRC_PORT_MAX && SRC_PORT_MIN <= p <= SRC_PORT_MAX
    ensures o < RANGE_SIZE && PortAt(start, o) == p
  {
    o := if p >= start then p - start else p - start + RANGE_SIZE;
  }

  // ---------- operations on the table as a value ----------

  ghost predicate WellKeyed(m: Probes) {
    forall k :: k in m ==> m[k].key == k
  }

  function NewProbe(r: Request, port: uint16): PendingProbe {
    PendingProbe(r.id, ProbeKey(r.ip, port, r.dst), r.option, r.sentAt, Some(r.sentAt), r.ctx, false, false)
  }

  /** What a reservation of `port` leaves behind. */
  function Place(t: Table, r: Request, port: uint16): Table
    requires SRC_PORT_MIN <= port <= SRC_PORT_MAX
  {
    var p := NewProbe(r, port);
    Table(t.probes[p.key := p], After(port), t.isDone)
  }

  function Lookup(t: Table, key: ProbeKey): Option<PendingProbe> {
    if key in t.probes then Some(t.probes[key]) else None
  }

  function Remove(t: Table, key: ProbeKey): Table {
    t.(probes := t.probes - {key})
  }

  function SetRetry(t: Table, key: ProbeKey): Table {
    if key in t.probes then t.(probes := t.probes[key := t.probes[key].(retry := true)]) else t
  }

  function Touch(t: Table, key: ProbeKey, at: int): Table {
    if key in t.probes then t.(probes := t.probes[key := t.probes[key].(sentAt := Some(at))]) else t
  }

  predicate CanRearm(t: Table, p: PendingProbe, cancelled: set<Ctx>) {
    !t.isDone && p.ctx !in cancelled && p.key !in t.probes
  }

  /** The form in which a timed-out probe returns to the table and to the retry queue. */
  function Rearmed(p: PendingProbe): PendingProbe {
    p.(retried := true, sentAt := None)
  }

  predicate TimedOut(p: PendingProbe, now: int, timeout: int) {
    p.sentAt.Some? && now - p.sentAt.value > timeout
  }

  predicate Expired(p: PendingProbe, now: int, timeout: int, cancelled: set<Ctx>) {
    p.ctx in cancelled || TimedOut(p, now, timeout)
  }

  function ExpiredPart(m: Probes, now: int, timeout: int, cancelled: set<Ctx>): Probes {
    map k | k in m && Expired(m[k], now, timeout, cancelled) :: m[k]
  }

  /** `out` lists every probe of `m` once, in some order. */
  ghost predicate Enumerates(m: Probes, out: seq<PendingProbe>) {
    && (forall i, j :: 0 <= i < j < |out| ==> out[i].key != out[j].key)
    && (forall i :: 0 <= i < |out| ==> out[i].key in m && m[out[i].key] == out[i])
    && (forall k :: k in m ==> m[k].key == k && m[k] in out)
  }

  lemma EnumeratesTail(m: Probes, out: seq<PendingProbe>)
    requires Enumerates(m, out) && out != []
    ensures Enumerates(m - {out[0].key}, out[1..])
  {
    var m' := m - {out[0].key};
    forall k | k in m' ensures m'[k].key == k && m'[k] in out[1..] {
      var i :| 0 <= i < |out| && out[i] == m[k];
      assert out[1..][i - 1] == m'[k];
    }
  }

  lemma ShrinksBy(m: Probes, k: ProbeKey)
    requires k in m
    ensures |m - {k}| == |m| - 1
  {
    assert m.Keys == (m - {k}).Keys + {k};
  }

  /** `m` is what is left of `start` after the probes listed in `out` were taken from it. */
  ghost predicate Moved(start: Probes, m: Probes, out: seq<PendingProbe>) {
    && (forall i, j :: 0 <= i < j < |out| ==> out[i].key != out[j].key)
    && (forall i :: 0 <= i < |out| ==> out[i].key in start && start[out[i].key] == out[i] && out[i].key !in m)
    && (forall k :: k in m ==> k in start && m[k] == start[k])
    && (forall k :: k in start && k !in m ==> start[k] in out)
  }

  lemma MoveOne(start: Probes, m: Probes, out: seq<PendingProbe>, k: ProbeKey)
    requires Moved(start, m, out) && k in m && start[k].key == k
    ensures Moved(start, m - {k}, out + [m[k]])
    ensures |m - {k}| < |m|
  {
    var out' := out + [m[k]];
    forall c | c in start && c !in m - {k} ensures start[c] in out' {
      if c == k {
        assert out'[|out|] == start[c];
      } else {
        assert start[c] in out;
      }
    }
    ShrinksBy(m, k);
  }

  lemma SweepDone(start: Probes, m: Probes, out: seq<PendingProbe>, now: int, timeout: int, cancelled: set<Ctx>)
    requires Moved(start, m, out) && WellKeyed(start)
    requires forall i :: 0 <= i < |out| ==> Expired(out[i], now, timeout, cancelled)
    requires forall k :: k in m ==> !Expired(m[k], now, timeout, cancelled)
    ensures Enumerates(ExpiredPart(start, now, timeout, cancelled), out)
    ensures m == start - ExpiredPart(start, now, timeout, cancelled).Keys
  {}

  // ---------- the table as the source holds it ----------

  class WatchIpStatusTable {
    var probes: Probes
    var nextSrcPort: uint16
    var isDone: bool

    ghost function View(): Table
      reads this
    {
      Table(probes, nextSrcPort, isDone)
    }

    constructor ()
      ensures View() == Table(map[], SRC_PORT_MIN, false)
    {
      probes, nextSrcPort, isDone := map[], SRC_PORT_MIN, false;
    }

    method RecordSentProbe(r: Request, srcPort: uint16) returns (key: ProbeKey, ok: bool)
      modifies this
      ensures key == ProbeKey(r.ip, srcPort, r.dst)
      ensures ok == (key !in old(probes))
      ensures View() == if ok then old(View()).(probes := old(probes)[key := NewProbe(r, srcPort)]) else old(View())
    {
      key := ProbeKey(r.ip, srcPort, r.dst);
      if key in probes {
        return key, false;
      }
      probes := probes[key := NewProbe(r, srcPort)];
      ok := true;
    }

    /** Succeeds exactly when some source port is free for this destination, and then
        takes the first free one in cyclic order from the cursor. */
    method ReserveProbeContext(r: Request) returns (probe: Option<PendingProbe>)
      modifies this
      ensures probe.Some? <==> HasRoom(old(probes), r.ip, r.dst)
      ensures probe.None? ==> View() == old(View())
      ensures probe.Some? ==>
                && probes == old(probes)[probe.value.key := probe.value]
                && probe.value == PendingProbe(r.id, ProbeKey(r.ip, probe.value.key.srcPort, r.dst), r.option, r.sentAt,
                                               Some(r.sentAt), r.ctx, false, false)
      ensures probe.Some? ==> exists o: nat ::
        && FirstFit(old(probes), r.ip, r.dst, StartPort(old(nextSrcPort)), o)
        && probe.value == NewProbe(r, PortAt(StartPort(old(nextSrcPort)), o))
        && View() == Place(old(View()), r, PortAt(StartPort(old(nextSrcPort)), o))
    {
      var startPort := nextSrcPort;
      if startPort < SRC_PORT_MIN || startPort > SRC_PORT_MAX {
        startPort := SRC_PORT_MIN;
      }
      var startOffset := startPort - SRC_PORT_MIN;
      for offset := 0 to RANGE_SIZE
        invariant View() == old(View())
        invariant forall o: nat :: o < offset ==> !Free(probes, r.ip, r.dst, PortAt(startPort, o))
      {
        var srcPort: uint16 := SRC_PORT_MIN + (startOffset + offset) % RANGE_SIZE;
        var key := ProbeKey(r.ip, srcPort, r.dst);
        assert srcPort == PortAt(startPort, offset);
        if key !in probes {
          assert Free(probes, r.ip, r.dst, srcPort);
          assert FirstFit(probes, r.ip, r.dst, startPort, offset);
          var p := PendingProbe(r.id, key, r.option, r.sentAt, Some(r.sentAt), r.ctx, false, false);
          probes := probes[key := p];
          nextSrcPort := if srcPort == SRC_PORT_MAX then SRC_PORT_MIN else srcPort + 1;
          probe := Some(p);
          assert p == NewProbe(r, PortAt(startPort, offset));
          assert FirstFit(old(probes), r.ip, r.dst, StartPort(old(nextSrcPort)), offset);
          assert View() == Place(old(View()), r, PortAt(startPort, offset));
          return;
        }
      }
      probe := None;
      forall p: uint16 | SRC_PORT_MIN <= p <= SRC_PORT_MAX ensures !Free(probes, r.ip, r.dst, p) {
        var o := WalkCovers(startPort, p);
      }
    }

    /** Both `TakeProbe` and `DropProbe`: look the key up and delete it. */
    method TakeProbe(key: ProbeKey) returns (probe: Option<PendingProbe>)
      modifies this
      ensures probe == Lookup(old(View()), key) && View() == Remove(old(View()), key)
      ensures probe == if key in old(probes) then Some(old(probes)[key]) else None
      ensures probes == old(probes) - {key}
    {
      if key !in probes {
        assert probes - {key} == probes;
        return None;
      }
      probe := Some(probes[key]);
      probes := probes - {key};
    }

    method StoreRetry(key: ProbeKey) returns (ok: bool)
      modifies this
      ensures ok == (key in old(probes))
      ensures View() == SetRetry(old(View()), key)
    {
      if key !in probes {
        return false;
      }
      probes := probes[key := probes[key].(retry := true)];
      ok := true;
    }

    method TouchProbe(key: ProbeKey, sentAt: int) returns (ok: bool)
      modifies this
      ensures ok == (key in old(probes))
      ensures View() == Touch(old(View()), key, sentAt)
    {
      if key !in probes {
        return false;
      }
      probes := probes[key := probes[key].(sentAt := Some(sentAt))];
      ok := true;
    }

    /** Called with the stamp already cleared; the table sets `retried` itself. */
    method RearmProbe(probe: PendingProbe, cancelled: set<Ctx>) returns (ok: bool)
      modifies this
      ensures ok == CanRearm(old(View()), probe, cancelled)
      ensures ok <==> !old(isDone) && probe.ctx !in cancelled && probe.key !in old(probes)
      ensures View() ==
        if ok then old(View()).(probes := old(probes)[probe.key := probe.(retried := true)]) else old(View())
    {
      if isDone || probe.ctx in cancelled {
        return false;
      }
      if probe.key in probes {
        return false;
      }
      probes := probes[probe.key := probe.(retried := true)];
      ok := true;
    }

    /** The locked part of one sweep: every expired probe leaves, the others stay untouched. */
    method Sweep(now: int, timeout: int, cancelled: set<Ctx>) returns (expired: seq<PendingProbe>)
      requires WellKeyed(probes)
      modifies this
      ensures Enumerates(ExpiredPart(old(probes), now, timeout, cancelled), expired)
      ensures forall j :: 0 <= j < |expired| ==>
                var p := expired[j]; p.ctx in cancelled || (p.sentAt.Some? && now - p.sentAt.value > timeout)
      ensures forall k :: k in probes ==>
                var p := probes[k]; p.ctx !in cancelled && (p.sentAt.Some? ==> now - p.sentAt.value <= timeout)
      ensures View() == old(View()).(probes := old(probes) - ExpiredPart(old(probes), now, timeout, cancelled).Keys)
    {
      expired := [];
      ghost var start := probes;
      var todo := probes.Keys;
      while todo != {}
        invariant todo <= probes.Keys
        invariant Moved(start, probes, expired)
        invariant forall i :: 0 <= i < |expired| ==> Expired(expired[i], now, timeout, cancelled)
        invariant forall k :: k in probes && k !in todo ==> !Expired(probes[k], now, timeout, cancelled)
        invariant nextSrcPort == old(nextSrcPort) && isDone == old(isDone)
        decreases |todo|
      {
        var key :| key in todo;
        todo := todo - {key};
        if probes[key].ctx in cancelled || (probes[key].sentAt.Some? && now - probes[key].sentAt.value > timeout) {
          MoveOne(start, probes, expired, key);
          expired := expired + [probes[key]];
          probes := probes - {key};
        }
      }
      SweepDone(start, probes, expired, now, timeout, cancelled);
    }

    /** The locked part of `Close`: the table is emptied into the list still to be reported. */
    method Drain() returns (pending: seq<PendingProbe>)
      requires WellKeyed(probes)
      modifies this
      ensures Enumerates(old(probes), pending)
      ensures View() == old(View()).(probes := map[])
    {
      pending := [];
      ghost var start := probes;
      while probes != map[]
        invariant Moved(start, probes, pending)
        invariant nextSrcPort == old(nextSrcPort) && isDone == old(isDone)
        decreases |probes|
      {
        var key :| key in probes;
        MoveOne(start, probes, pending, key);
        pending := pending + [probes[key]];
        probes := probes - {key};
      }
    }
  }
}
