/** Who owns a probe instance: at every moment each reservation is either held in exactly one
    place or has been reported exactly once, and this fails precisely in the runs where the
    queue-full branch of `handleProbeTimeout` drops something other than what it rearmed. */
module SynOwnership {
  import opened Types
  import opened ProbeTable
  import opened SynProtocol

  // ---------- counting the places that hold instance `i` ----------

  function Is(p: PendingProbe, i: nat): nat { if p.id == i then 1 else 0 }

  function InTable(m: Probes, i: nat): nat { |set k | k in m && m[k].id == i| }

  function Count(ps: seq<PendingProbe>, i: nat): nat {
    if ps == [] then 0 else Is(ps[0], i) + Count(ps[1..], i)
  }

  function Events(log: seq<Event>, i: nat): nat {
    if log == [] then 0
    else Events(log[..|log| - 1], i) + if log[|log| - 1].id == i then 1 else 0
  }

  function OfDelivery(d: Delivery, i: nat): nat {
    match d case Reported => 0 case Confirmed(p) => Is(p, i) case Cleared(p) => Is(p, i) case Queued(p) => Is(p, i)
  }

  function OfGoroutine(g: Goroutine, i: nat): nat {
    match g case Dropped(p) => Is(p, i) case Job(d) => OfDelivery(d, i) case _ => 0
  }

  function OfGoroutines(gs: seq<Goroutine>, i: nat): nat {
    if gs == [] then 0 else OfGoroutine(gs[0], i) + OfGoroutines(gs[1..], i)
  }

  function OfSweeper(w: Sweeper, i: nat): nat {
    match w case Checking(p) => Is(p, i) case Deciding(p) => Is(p, i) case SweepEmit(p, _) => Is(p, i) case _ => 0
  }

  function OfRetry(r: RetryLoop, i: nat): nat { match r case RetryTracked(p, _) => Is(p, i) case _ => 0 }

  function OfRecv(r: Receiver, i: nat): nat {
    match r case Matched(p) => Is(p, i) case Refused(p) => Is(p, i) case GotReset(p) => Is(p, i) case _ => 0
  }

  function OfHandler(h: Handler, i: nat): nat {
    match h case GotOpen(p) => Is(p, i) case Delivering(d) => OfDelivery(d, i) case _ => 0
  }

  function OfCloser(c: Closer, i: nat): nat { match c case Drained(ps) => Count(ps, i) case _ => 0 }

  /** Holders that are not the table; entries of `retryChan` are aliases and do not count. */
  function Held(s: State, i: nat): nat {
    Count(s.expired, i) + OfSweeper(s.sweeper, i) + OfRetry(s.retry, i) + OfRecv(s.recv, i)
    + Count(s.openChan, i) + OfHandler(s.handler, i) + OfGoroutines(s.goroutines, i) + OfCloser(s.closer, i)
  }

  function Weight(s: State, i: nat): nat {
    InTable(s.table.probes, i) + Held(s, i) + Events(s.log, i)
  }

  // ---------- how the counts move ----------

  lemma {:induction false} CountAppend(ps: seq<PendingProbe>, p: PendingProbe, i: nat)
    ensures Count(ps + [p], i) == Count(ps, i) + Is(p, i)
  {
    if ps == [] {
      assert [p][1..] == [];
    } else {
      CountAppend(ps[1..], p, i);
      assert (ps + [p])[1..] == ps[1..] + [p];
    }
  }

  lemma EventsAppend(log: seq<Event>, e: Event, i: nat)
    ensures Events(log + [e], i) == Events(log, i) + if e.id == i then 1 else 0
  {
    assert (log + [e])[..|log|] == log;
  }

  lemma {:induction false} GoroutinesUpdate(gs: seq<Goroutine>, t: nat, g: Goroutine, i: nat)
    requires t < |gs|
    ensures OfGoroutines(gs[t := g], i) + OfGoroutine(gs[t], i) == OfGoroutines(gs, i) + OfGoroutine(g, i)
  {
    if t == 0 {
      assert gs[0 := g][1..] == gs[1..];
    } else {
      GoroutinesUpdate(gs[1..], t - 1, g, i);
      assert gs[t := g][1..] == gs[1..][t - 1 := g];
    }
  }

  lemma {:induction false} GoroutinesAppend(gs: seq<Goroutine>, g: Goroutine, i: nat)
    ensures OfGoroutines(gs + [g], i) == OfGoroutines(gs, i) + OfGoroutine(g, i)
  {
    if gs == [] {
      assert [g][1..] == [];
    } else {
      GoroutinesAppend(gs[1..], g, i);
      assert (gs + [g])[1..] == gs[1..] + [g];
    }
  }

  lemma TablePut(m: Probes, k: ProbeKey, p: PendingProbe, i: nat)
    requires k !in m
    ensures InTable(m[k := p], i) == InTable(m, i) + Is(p, i)
  {
    var m' := m[k := p];
    var before, after := set c | c in m && m[c].id == i, set c | c in m' && m'[c].id == i;
    assert after == if p.id == i then before + {k} else before;
  }

  lemma TableDrop(m: Probes, k: ProbeKey, i: nat)
    ensures InTable(m - {k}, i) + (if k in m then Is(m[k], i) else 0) == InTable(m, i)
  {
    if k in m {
      TablePut(m - {k}, k, m[k], i);
      assert (m - {k})[k := m[k]] == m;
    } else {
      assert m - {k} == m;
    }
  }

  lemma TableAmend(m: Probes, k: ProbeKey, p: PendingProbe, i: nat)
    requires k in m && p.id == m[k].id
    ensures InTable(m[k := p], i) == InTable(m, i)
  {
    TableDrop(m, k, i);
    TablePut(m - {k}, k, p, i);
    assert (m - {k})[k := p] == m[k := p];
  }

  lemma InTableBound(m: Probes, i: nat)
    ensures InTable(m, i) <= |m|
  {
    var ks := set k | k in m && m[k].id == i;
    SubsetSize(ks, m.Keys);
  }

  /** Moving a whole part of the table into a list loses and doubles nothing. */
  lemma {:induction false} TableMove(m: Probes, part: Probes, out: seq<PendingProbe>, i: nat)
    requires Enumerates(part, out)
    requires forall k :: k in part ==> k in m && m[k] == part[k]
    ensures InTable(m - part.Keys, i) + Count(out, i) == InTable(m, i)
    decreases |out|
  {
    if out == [] {
      assert part.Keys == {};
      assert m - part.Keys == m;
    } else {
      var k := out[0].key;
      EnumeratesTail(part, out);
      TableDrop(m, k, i);
      TableMove(m - {k}, part - {k}, out[1..], i);
      assert m - {k} - (part - {k}).Keys == m - part.Keys;
    }
  }

  // ---------- who writes what ----------

  lemma CallFrame(s: State, t: nat, a: CallAct)
    requires CallEnabled(s, t, a)
    ensures var s' := CallNext(s, t, a);
            s' == s.(births := s'.births, table := s'.table, goroutines := s'.goroutines,
                     sent := s'.sent, log := s'.log)
    ensures |s.births| <= |CallNext(s, t, a).births|
    ensures CallNext(s, t, a).births == s.births || a.Reserve?
  {}

  lemma SweepFrame(s: State, a: SweepAct)
    requires SweepEnabled(s, a)
    ensures var s' := SweepNext(s, a);
            s' == s.(table := s'.table, sweeper := s'.sweeper, expired := s'.expired, retryChan := s'.retryChan,
                     log := s'.log, rearmed := s'.rearmed, sampled := s'.sampled, swept := s'.swept)
  {}

  lemma RetryFrame(s: State, a: RetryAct)
    requires RetryEnabled(s, a)
    ensures var s' := RetryNext(s, a);
            s' == s.(table := s'.table, retryChan := s'.retryChan, retry := s'.retry, sent := s'.sent, log := s'.log)
  {}

  lemma RecvFrame(s: State, a: RecvAct)
    requires RecvEnabled(s, a)
    ensures var s' := RecvNext(s, a);
            s' == s.(table := s'.table, recv := s'.recv, openChan := s'.openChan, wg := s'.wg,
                     log := s'.log, sampled := s'.sampled, recovered := s'.recovered)
  {}

  lemma HandleFrame(s: State, a: HandleAct)
    requires HandleEnabled(s, a)
    ensures var s' := HandleNext(s, a);
            s' == s.(handler := s'.handler, openChan := s'.openChan, goroutines := s'.goroutines,
                     wg := s'.wg, log := s'.log)
  {}

  lemma JobFrame(s: State, t: nat, a: DeliverAct)
    requires JobEnabled(s, t, a)
    ensures var s' := JobNext(s, t, a);
            s' == s.(goroutines := s'.goroutines, wg := s'.wg, log := s'.log)
  {}

  lemma CloseFrame(s: State, a: CloseAct)
    requires CloseEnabled(s, a)
    ensures var s' := CloseStep(s, a);
            s' == s.(table := s'.table, closer := s'.closer, ssDone := s'.ssDone, cancelled := s'.cancelled,
                     openClosed := s'.openClosed, log := s'.log)
  {}

  lemma EnvFrame(s: State, a: EnvAct)
    requires EnvEnabled(s, a)
    ensures var s' := EnvNext(s, a);
            s' == s.(goroutines := s'.goroutines, cancelled := s'.cancelled, now := s'.now)
  {}

  lemma StepFrame(s: State, step: Step)
    requires Enabled(s, step)
    ensures var s' := Next(s, step);
            && (!step.SweepStep? ==>
                  && s'.sweeper == s.sweeper && s'.expired == s.expired
                  && s'.rearmed == s.rearmed && s'.swept == s.swept)
            && (step.HandleStep? || step.JobStep? || step.EnvStep? ==> s'.table == s.table)
            && s'.timeout == s.timeout && |s.births| <= |s'.births|
            && (s'.births == s.births || (step.CallStep? && step.call.Reserve?))
  {
    match step
    case CallStep(t, a) => CallFrame(s, t, a);
    case SweepStep(a) => SweepFrame(s, a);
    case RetryStep(a) => RetryFrame(s, a);
    case RecvStep(a) => RecvFrame(s, a);
    case HandleStep(a) => HandleFrame(s, a);
    case JobStep(t, a) => JobFrame(s, t, a);
    case CloserStep(a) => CloseFrame(s, a);
    case EnvStep(a) => EnvFrame(s, a);
  }

  // ---------- each step conserves the weight, except for a reservation and the queue-full drop ----------

  /** How a step changes the weight of instance `i`. */
  function Delta(s: State, step: Step, i: nat): int {
    match step
    case CallStep(_, Reserve(_, _)) => if i == |s.births| then 1 else 0
    case SweepStep(DropRearmed) =>
      if s.sweeper.QueueFull? then
        var p := s.sweeper.probe;
        Is(p, i) - if p.key in s.table.probes then Is(s.table.probes[p.key], i) else 0
      else 0
    case _ => 0
  }

  lemma ReportCount(s: State, p: PendingProbe, o: Outcome, i: nat)
    ensures Events(Report(s, p, o), i) == Events(s.log, i) + Is(p, i)
  {
    EventsAppend(s.log, Event(p.id, p.key, p.option, p.startedAt, o, p.sentAt, s.now), i);
  }

  lemma CallWeight(s: State, t: nat, a: CallAct, i: nat)
    requires CallEnabled(s, t, a)
    ensures Weight(CallNext(s, t, a), i) == Weight(s, i) + Delta(s, CallStep(t, a), i)
  {
    var s' := CallNext(s, t, a);
    GoroutinesUpdate(s.goroutines, t, s'.goroutines[t], i);
    match a
    case Reserve(o, at) =>
      var g := s.goroutines[t];
      var port := PortAt(StartPort(s.table.nextSrcPort), o);
      var r := Request(|s.births|, g.ip, g.dst, g.option, at, g.ctx);
      TablePut(s.table.probes, ProbeKey(g.ip, port, g.dst), NewProbe(r, port), i);
    case KeepRetry =>
      var key := s.goroutines[t].key;
      if key in s.table.probes { TableAmend(s.table.probes, key, s.table.probes[key].(retry := true), i); }
    case Drop => TableDrop(s.table.probes, s.goroutines[t].key, i);
    case EmitError => ReportCount(s, s.goroutines[t].probe, Error, i);
    case _ =>
  }

  lemma CollectWeight(s: State, out: seq<PendingProbe>, i: nat)
    requires SweepEnabled(s, Collect(out))
    ensures var s' := SweepNext(s, Collect(out));
            InTable(s'.table.probes, i) + Count(s'.expired, i) == InTable(s.table.probes, i) + Count(s.expired, i)
  {
    TableMove(s.table.probes, ExpiredPart(s.table.probes, s.now, s.timeout, s.cancelled), out, i);
  }

  lemma DecideWeight(s: State, i: nat)
    requires SweepEnabled(s, Decide)
    ensures var s' := SweepNext(s, Decide);
            InTable(s'.table.probes, i) + OfSweeper(s'.sweeper, i) ==
            InTable(s.table.probes, i) + OfSweeper(s.sweeper, i)
  {
    var p := s.sweeper.probe;
    if !p.retried && p.retry && CanRearm(s.table, p, s.cancelled) {
      TablePut(s.table.probes, p.key, Rearmed(p), i);
    }
  }

  lemma DropWeight(s: State, i: nat)
    requires SweepEnabled(s, DropRearmed)
    ensures Weight(SweepNext(s, DropRearmed), i) == Weight(s, i) + Delta(s, SweepStep(DropRearmed), i)
  {
    TableDrop(s.table.probes, s.sweeper.probe.key, i);
  }

  lemma PopWeight(s: State, i: nat)
    requires SweepEnabled(s, Pop)
    ensures Weight(SweepNext(s, Pop), i) == Weight(s, i)
  {}

  lemma CheckWeight(s: State, i: nat)
    requires SweepEnabled(s, Check)
    ensures Weight(SweepNext(s, Check), i) == Weight(s, i)
  {}

  lemma TrySendWeight(s: State, i: nat)
    requires SweepEnabled(s, TrySend)
    ensures Weight(SweepNext(s, TrySend), i) == Weight(s, i)
  {
    var s' := SweepNext(s, TrySend);
    assert s' == s.(retryChan := s'.retryChan, sweeper := s'.sweeper);
    assert OfSweeper(s'.sweeper, i) == OfSweeper(s.sweeper, i);
  }

  lemma CollectedWeight(s: State, out: seq<PendingProbe>, i: nat)
    requires SweepEnabled(s, Collect(out))
    ensures Weight(SweepNext(s, Collect(out)), i) == Weight(s, i)
  {
    SweepFrame(s, Collect(out));
    CollectWeight(s, out, i);
  }

  lemma DecidedWeight(s: State, i: nat)
    requires SweepEnabled(s, Decide)
    ensures Weight(SweepNext(s, Decide), i) == Weight(s, i)
  {
    SweepFrame(s, Decide);
    DecideWeight(s, i);
  }

  lemma SweepReportWeight(s: State, i: nat)
    requires SweepEnabled(s, SweepReport)
    ensures Weight(SweepNext(s, SweepReport), i) == Weight(s, i)
  {
    ReportCount(s, s.sweeper.probe, s.sweeper.outcome, i);
  }

  lemma SweepWeight(s: State, a: SweepAct, i: nat)
    requires SweepEnabled(s, a)
    ensures Weight(SweepNext(s, a), i) == Weight(s, i) + Delta(s, SweepStep(a), i)
  {
    match a
    case Collect(out) => CollectedWeight(s, out, i);
    case Decide => DecidedWeight(s, i);
    case DropRearmed => DropWeight(s, i);
    case SweepReport => SweepReportWeight(s, i);
    case Pop => PopWeight(s, i);
    case Check => CheckWeight(s, i);
    case TrySend => TrySendWeight(s, i);
    case SweepStop =>
  }

  lemma RetryWeight(s: State, a: RetryAct, i: nat)
    requires RetryEnabled(s, a)
    ensures Weight(RetryNext(s, a), i) == Weight(s, i)
  {
    match a
    case RetryTouch(at) =>
      var k := s.retry.alias.key;
      if k in s.table.probes { TableAmend(s.table.probes, k, s.table.probes[k].(sentAt := Some(at)), i); }
    case RetryDrop => TableDrop(s.table.probes, s.retry.alias.key, i);
    case RetryReport =>
      ReportCount(s, s.retry.probe, if s.retry.probe.ctx in s.cancelled || s.retry.canceled then Aborted else Error, i);
    case _ =>
  }

  lemma ReplyWeight(s: State, a: RecvAct, i: nat)
    requires RecvEnabled(s, a) && (a.TakeMatch? || a.Reset?)
    ensures Weight(RecvNext(s, a), i) == Weight(s, i)
  {
    TableDrop(s.table.probes, if a.TakeMatch? then s.recv.key else a.key, i);
  }

  lemma RecvWeight(s: State, a: RecvAct, i: nat)
    requires RecvEnabled(s, a)
    ensures Weight(RecvNext(s, a), i) == Weight(s, i)
  {
    match a
    case TakeMatch => ReplyWeight(s, a, i);
    case Reset(_) => ReplyWeight(s, a, i);
    case Enqueue => CountAppend(s.openChan, s.recv.probe, i);
    case ReportRefused => ReportCount(s, s.recv.probe, Aborted, i);
    case ReportClosed => ReportCount(s, s.recv.probe, Closed, i);
    case _ =>
  }

  lemma DeliverWeight(s: State, d: Delivery, a: DeliverAct, i: nat)
    requires DeliverEnabled(s, d, a)
    ensures var (s', d') := Delivered(s, d, a);
            Events(s'.log, i) + OfDelivery(d', i) == Events(s.log, i) + OfDelivery(d, i)
  {
    match a
    case AbortResult => ReportCount(s, d.probe, Aborted, i);
    case ReportOpen => ReportCount(s, d.probe, Open, i);
    case _ =>
  }

  lemma HandleWeight(s: State, a: HandleAct, i: nat)
    requires HandleEnabled(s, a)
    ensures Weight(HandleNext(s, a), i) == Weight(s, i)
  {
    match a
    case Submit => GoroutinesAppend(s.goroutines, Job(Confirmed(s.handler.probe)), i);
    case Deliver(d) => DeliverWeight(s, s.handler.delivery, d, i);
    case _ =>
  }

  lemma JobWeight(s: State, t: nat, a: DeliverAct, i: nat)
    requires JobEnabled(s, t, a)
    ensures Weight(JobNext(s, t, a), i) == Weight(s, i)
  {
    var s' := JobNext(s, t, a);
    JobFrame(s, t, a);
    DeliverWeight(s, s.goroutines[t].delivery, a, i);
    GoroutinesUpdate(s.goroutines, t, s'.goroutines[t], i);
    assert s'.goroutines == s.goroutines[t := s'.goroutines[t]];
    assert Held(s', i) + OfGoroutine(s.goroutines[t], i) == Held(s, i) + OfGoroutine(s'.goroutines[t], i);
  }

  lemma CloseWeight(s: State, a: CloseAct, i: nat)
    requires CloseEnabled(s, a)
    ensures Weight(CloseStep(s, a), i) == Weight(s, i)
  {
    match a
    case DrainTable(out) =>
      TableMove(s.table.probes, s.table.probes, out, i);
      assert s.table.probes - s.table.probes.Keys == map[];
    case ReportPending => ReportCount(s, s.closer.pending[0], Aborted, i);
    case _ =>
  }

  lemma EnvWeight(s: State, a: EnvAct, i: nat)
    requires EnvEnabled(s, a)
    ensures Weight(EnvNext(s, a), i) == Weight(s, i)
  {
    match a
    case StartCall(ip, dst, option, ctx) => GoroutinesAppend(s.goroutines, Started(ip, dst, option, ctx), i);
    case _ =>
  }

  lemma {:induction false} StepWeight(s: State, step: Step, i: nat)
    requires Enabled(s, step)
    ensures Weight(Next(s, step), i) == Weight(s, i) + Delta(s, step, i)
  {
    match step
    case CallStep(t, a) => CallWeight(s, t, a, i);
    case SweepStep(a) => SweepWeight(s, a, i);
    case RetryStep(a) => RetryWeight(s, a, i);
    case RecvStep(a) => RecvWeight(s, a, i);
    case HandleStep(a) => HandleWeight(s, a, i);
    case JobStep(t, a) => JobWeight(s, t, a, i);
    case CloserStep(a) => CloseWeight(s, a, i);
    case EnvStep(a) => EnvWeight(s, a, i);
  }

  // ---------- every copy of an instance carries what its reservation fixed ----------

  predicate Known(p: PendingProbe, b: seq<Birth>) {
    p.id < |b| && b[p.id] == Birth(p.key, p.option, p.startedAt, p.ctx)
  }

  predicate AllKnown(ps: seq<PendingProbe>, b: seq<Birth>) {
    forall j :: 0 <= j < |ps| ==> Known(ps[j], b)
  }

  predicate KnownDelivery(d: Delivery, b: seq<Birth>) {
    !d.Reported? ==> Known(d.probe, b)
  }

  predicate KnownGoroutine(g: Goroutine, b: seq<Birth>) {
    match g
    case Dropped(p) => Known(p, b)
    case Job(d) => KnownDelivery(d, b)
    case Reserved(key, id) => id < |b| && b[id].key == key
    case _ => true
  }

  predicate KnownSweeper(w: Sweeper, b: seq<Birth>) {
    match w
    case Checking(p) => Known(p, b)
    case Deciding(p) => Known(p, b)
    case BackInTable(p) => Known(p, b)
    case QueueFull(p) => Known(p, b)
    case SweepEmit(p, _) => Known(p, b)
    case _ => true
  }

  predicate KnownRetry(r: RetryLoop, b: seq<Birth>) {
    match r
    case RetryWaiting(p) => Known(p, b)
    case RetryTouched(p) => Known(p, b)
    case RetryFailed(p, _) => Known(p, b)
    case RetryTracked(p, _) => Known(p, b)
    case _ => true
  }

  predicate KnownRecv(r: Receiver, b: seq<Birth>) {
    match r case Matched(p) => Known(p, b) case Refused(p) => Known(p, b) case GotReset(p) => Known(p, b) case _ => true
  }

  predicate KnownHandler(h: Handler, b: seq<Birth>) {
    match h case GotOpen(p) => Known(p, b) case Delivering(d) => KnownDelivery(d, b) case _ => true
  }

  predicate KnownCloser(c: Closer, b: seq<Birth>) {
    match c case Drained(ps) => AllKnown(ps, b) case _ => true
  }

  /** The event reports the destination, the callback and the start of the instance it names. */
  predicate Faithful(e: Event, b: seq<Birth>) {
    e.id < |b| && b[e.id].key == e.key && b[e.id].option == e.option && b[e.id].startedAt == e.startedAt
  }

  predicate FaithfulLog(log: seq<Event>, b: seq<Birth>) {
    forall j :: 0 <= j < |log| ==> Faithful(log[j], b)
  }

  predicate KnownTable(m: Probes, b: seq<Birth>) {
    forall k :: k in m ==> m[k].key == k && Known(m[k], b)
  }

  predicate KnownGoroutines(gs: seq<Goroutine>, b: seq<Birth>) {
    forall t :: 0 <= t < |gs| ==> KnownGoroutine(gs[t], b)
  }

  predicate Traced(s: State) {
    && KnownTable(s.table.probes, s.births)
    && AllKnown(s.expired, s.births) && AllKnown(s.retryChan, s.births) && AllKnown(s.openChan, s.births)
    && KnownGoroutines(s.goroutines, s.births)
    && KnownSweeper(s.sweeper, s.births) && KnownRetry(s.retry, s.births) && KnownRecv(s.recv, s.births)
    && KnownHandler(s.handler, s.births) && KnownCloser(s.closer, s.births)
    && FaithfulLog(s.log, s.births)
  }

  lemma TracedGrows(s: State, x: Birth)
    requires Traced(s)
    ensures Traced(s.(births := s.births + [x]))
  {
    var b := s.births + [x];
    forall p: PendingProbe | Known(p, s.births) ensures Known(p, b) {}
  }

  lemma CallTraced(s: State, t: nat, a: CallAct)
    requires Traced(s) && CallEnabled(s, t, a)
    ensures Traced(CallNext(s, t, a))
  {
    match a
    case Reserve(o, at) =>
      var g := s.goroutines[t];
      TracedGrows(s, Birth(ProbeKey(g.ip, PortAt(StartPort(s.table.nextSrcPort), o), g.dst), g.option, at, g.ctx));
    case _ =>
  }

  lemma SweepTraced(s: State, a: SweepAct)
    requires Traced(s) && SweepEnabled(s, a)
    ensures Traced(SweepNext(s, a))
  {
    match a
    case Collect(out) => CollectTraced(s, out);
    case SweepReport => ReportTraced(s, s.sweeper.probe, s.sweeper.outcome);
    case Decide => DecideTraced(s);
    case DropRearmed => DropTraced(s);
    case _ => QuietTraced(s, a);
  }

  lemma QuietTraced(s: State, a: SweepAct)
    requires Traced(s) && SweepEnabled(s, a) && (a.SweepStop? || a.Pop? || a.Check? || a.TrySend?)
    ensures Traced(SweepNext(s, a))
  {
    match a
    case SweepStop =>
    case Pop =>
    case Check =>
    case TrySend =>
  }

  lemma DecideTraced(s: State)
    requires Traced(s) && SweepEnabled(s, Decide)
    ensures Traced(SweepNext(s, Decide))
  {}

  lemma DropTraced(s: State)
    requires Traced(s) && SweepEnabled(s, DropRearmed)
    ensures Traced(SweepNext(s, DropRearmed))
  {}

  lemma CollectTraced(s: State, out: seq<PendingProbe>)
    requires Traced(s) && SweepEnabled(s, Collect(out))
    ensures AllKnown(out, s.births)
  {}

  lemma ReportTraced(s: State, p: PendingProbe, o: Outcome)
    requires FaithfulLog(s.log, s.births) && Known(p, s.births)
    ensures FaithfulLog(Report(s, p, o), s.births)
  {}

  lemma RetryTraced(s: State, a: RetryAct)
    requires Traced(s) && RetryEnabled(s, a)
    ensures Traced(RetryNext(s, a))
  {
    match a
    case RetryReport =>
      ReportTraced(s, s.retry.probe, if s.retry.probe.ctx in s.cancelled || s.retry.canceled then Aborted else Error);
    case _ =>
  }

  lemma RecvTraced(s: State, a: RecvAct)
    requires Traced(s) && RecvEnabled(s, a)
    ensures Traced(RecvNext(s, a))
  {
    match a
    case ReportRefused => ReportTraced(s, s.recv.probe, Aborted);
    case ReportClosed => ReportTraced(s, s.recv.probe, Closed);
    case _ =>
  }

  lemma DeliverTraced(s: State, d: Delivery, a: DeliverAct)
    requires DeliverEnabled(s, d, a) && KnownDelivery(d, s.births) && FaithfulLog(s.log, s.births)
    ensures var (s', d') := Delivered(s, d, a);
            KnownDelivery(d', s.births) && FaithfulLog(s'.log, s.births) && s' == s.(log := s'.log, wg := s'.wg)
  {}

  lemma HandleTraced(s: State, a: HandleAct)
    requires Traced(s) && HandleEnabled(s, a)
    ensures Traced(HandleNext(s, a))
  {
    match a
    case Deliver(d) => DeliverTraced(s, s.handler.delivery, d);
    case _ =>
  }

  lemma JobTraced(s: State, t: nat, a: DeliverAct)
    requires Traced(s) && JobEnabled(s, t, a)
    ensures Traced(JobNext(s, t, a))
  {
    DeliverTraced(s, s.goroutines[t].delivery, a);
  }

  lemma CloseTraced(s: State, a: CloseAct)
    requires Traced(s) && CloseEnabled(s, a)
    ensures Traced(CloseStep(s, a))
  {
    match a
    case ReportPending => ReportTraced(s, s.closer.pending[0], Aborted);
    case _ =>
  }

  lemma EnvTraced(s: State, a: EnvAct)
    requires Traced(s) && EnvEnabled(s, a)
    ensures Traced(EnvNext(s, a))
  {}

  lemma StepTraced(s: State, step: Step)
    requires Traced(s) && Enabled(s, step)
    ensures Traced(Next(s, step))
  {
    match step
    case CallStep(t, a) => CallTraced(s, t, a);
    case SweepStep(a) => SweepTraced(s, a);
    case RetryStep(a) => RetryTraced(s, a);
    case RecvStep(a) => RecvTraced(s, a);
    case HandleStep(a) => HandleTraced(s, a);
    case JobStep(t, a) => JobTraced(s, t, a);
    case CloserStep(a) => CloseTraced(s, a);
    case EnvStep(a) => EnvTraced(s, a);
  }

  // ---------- an instance that may still be timed out has exactly one owner ----------

  /** Places from which an instance can be swept, decided on or put back. */
  function Hot(s: State, i: nat): nat {
    InTable(s.table.probes, i) + Count(s.expired, i) + HotSweeper(s.sweeper, i)
  }

  function HotSweeper(w: Sweeper, i: nat): nat {
    match w case Checking(p) => Is(p, i) case Deciding(p) => Is(p, i) case _ => 0
  }

  predicate Alias(w: Sweeper, i: nat) {
    match w case BackInTable(p) => p.id == i case QueueFull(p) => p.id == i case _ => false
  }

  /** Once an instance is lost or doubled it can no longer come back into play. */
  predicate Settled(s: State, i: nat) {
    && (Weight(s, i) != 1 ==> Hot(s, i) == 0 && !Alias(s.sweeper, i))
    && (i >= |s.births| ==> Weight(s, i) == 0)
    && (Alias(s.sweeper, i) ==> Count(s.expired, i) == 0)
  }

  lemma HotFallsSweep(s: State, a: SweepAct, i: nat)
    requires SweepEnabled(s, a)
    ensures Hot(SweepNext(s, a), i) <= Hot(s, i)
  {
    match a
    case Collect(out) => CollectWeight(s, out, i);
    case Decide =>
      var p := s.sweeper.probe;
      if p.key !in s.table.probes { TablePut(s.table.probes, p.key, Rearmed(p), i); }
    case DropRearmed => TableDrop(s.table.probes, s.sweeper.probe.key, i);
    case _ =>
  }

  lemma HotFalls(s: State, step: Step, i: nat)
    requires Enabled(s, step)
    ensures Hot(Next(s, step), i) <=
            Hot(s, i) + if step.CallStep? && step.call.Reserve? && i == |s.births| then 1 else 0
  {
    match step
    case CallStep(t, a) => HotFallsCall(s, t, a, i);
    case SweepStep(a) => HotFallsSweep(s, a, i);
    case RetryStep(a) => HotFallsRetry(s, a, i);
    case RecvStep(a) => HotFallsRecv(s, a, i);
    case CloserStep(a) => HotFallsClose(s, a, i);
    case HandleStep(a) => StepFrame(s, step);
    case JobStep(t, a) => StepFrame(s, step);
    case EnvStep(a) => StepFrame(s, step);
  }

  lemma HotFallsCall(s: State, t: nat, a: CallAct, i: nat)
    requires CallEnabled(s, t, a)
    ensures Hot(CallNext(s, t, a), i) <= Hot(s, i) + if a.Reserve? && i == |s.births| then 1 else 0
  {
    var g := s.goroutines[t];
    match a
    case Reserve(o, at) =>
      var port := PortAt(StartPort(s.table.nextSrcPort), o);
      var r := Request(|s.births|, g.ip, g.dst, g.option, at, g.ctx);
      TablePut(s.table.probes, ProbeKey(g.ip, port, g.dst), NewProbe(r, port), i);
    case KeepRetry =>
      if g.key in s.table.probes { TableAmend(s.table.probes, g.key, s.table.probes[g.key].(retry := true), i); }
    case Drop => TableDrop(s.table.probes, g.key, i);
    case _ =>
  }

  lemma HotFallsRetry(s: State, a: RetryAct, i: nat)
    requires RetryEnabled(s, a)
    ensures Hot(RetryNext(s, a), i) <= Hot(s, i)
  {
    match a
    case RetryTouch(at) =>
      var k := s.retry.alias.key;
      if k in s.table.probes { TableAmend(s.table.probes, k, s.table.probes[k].(sentAt := Some(at)), i); }
    case RetryDrop => TableDrop(s.table.probes, s.retry.alias.key, i);
    case _ =>
  }

  lemma HotFallsRecv(s: State, a: RecvAct, i: nat)
    requires RecvEnabled(s, a)
    ensures Hot(RecvNext(s, a), i) <= Hot(s, i)
  {
    match a
    case TakeMatch => TableDrop(s.table.probes, s.recv.key, i);
    case Reset(key) => TableDrop(s.table.probes, key, i);
    case _ =>
  }

  lemma HotFallsClose(s: State, a: CloseAct, i: nat)
    requires CloseEnabled(s, a)
    ensures Hot(CloseStep(s, a), i) <= Hot(s, i)
  {
    match a
    case DrainTable(out) =>
      TableMove(s.table.probes, s.table.probes, out, i);
      assert s.table.probes - s.table.probes.Keys == map[];
    case _ =>
  }

  /** In the table an instance can only sit under the key of its reservation. */
  lemma TableKeyed(s: State, i: nat)
    requires Traced(s) && i < |s.births|
    ensures InTable(s.table.probes, i) ==
            if s.births[i].key in s.table.probes && s.table.probes[s.births[i].key].id == i then 1 else 0
  {
    var m, k := s.table.probes, s.births[i].key;
    var ks := set c | c in m && m[c].id == i;
    assert ks == if k in m && m[k].id == i then {k} else {};
  }

  lemma SettledDrop(s: State, i: nat)
    requires Traced(s) && Settled(s, i) && s.sweeper.QueueFull?
    ensures Settled(SweepNext(s, DropRearmed), i)
  {
    var p := s.sweeper.probe;
    var s' := SweepNext(s, DropRearmed);
    StepWeight(s, SweepStep(DropRearmed), i);
    TableDrop(s.table.probes, p.key, i);
    if i == p.id {
      TableKeyed(s, i);
    }
  }

  lemma SettledStep(s: State, step: Step, i: nat)
    requires Traced(s) && Settled(s, i) && Enabled(s, step)
    ensures Settled(Next(s, step), i)
  {
    var s' := Next(s, step);
    if step == SweepStep(DropRearmed) {
      SettledDrop(s, i);
    } else {
      StepWeight(s, step, i);
      HotFalls(s, step, i);
      StepFrame(s, step);
      if step.SweepStep? && Alias(s'.sweeper, i) { AliasArises(s, step.sweep, i); }
    }
  }

  lemma OnlyRearmAliases(s: State, a: SweepAct)
    requires SweepEnabled(s, a) && !a.Decide? && !a.TrySend?
    ensures !SweepNext(s, a).sweeper.BackInTable? && !SweepNext(s, a).sweeper.QueueFull?
  {}

  lemma DecideAliases(s: State, i: nat)
    requires SweepEnabled(s, Decide) && Alias(SweepNext(s, Decide).sweeper, i)
    ensures s.sweeper == Deciding(SweepNext(s, Decide).sweeper.probe) && SweepNext(s, Decide).expired == s.expired
  {}

  lemma TrySendAliases(s: State, i: nat)
    requires SweepEnabled(s, TrySend) && Alias(SweepNext(s, TrySend).sweeper, i)
    ensures Alias(s.sweeper, i) && SweepNext(s, TrySend).expired == s.expired
  {}

  /** The sweeper only turns its hold on an instance into an alias by putting it back. */
  lemma AliasArises(s: State, a: SweepAct, i: nat)
    requires SweepEnabled(s, a) && Settled(s, i) && a != DropRearmed && Alias(SweepNext(s, a).sweeper, i)
    ensures Alias(s.sweeper, i) || HotSweeper(s.sweeper, i) == 1
    ensures SweepNext(s, a).expired == s.expired && Count(s.expired, i) == 0
  {
    if a.Decide? {
      DecideAliases(s, i);
    } else if a.TrySend? {
      TrySendAliases(s, i);
    } else {
      OnlyRearmAliases(s, a);
    }
  }
}
