/** How often one instance can be put back, transmitted, sampled and swept, and when a
    missing answer may be reported. */
module SynBudget {
  import opened ProbeTable
  import opened SynProtocol
  import opened SynOwnership

  function Born(s: State, i: nat): nat { if i < |s.births| then 1 else 0 }

  // ---------- transmissions ----------

  function Unsent(gs: seq<Goroutine>, i: nat): nat {
    if gs == [] then 0 else (if gs[0].Reserved? && gs[0].id == i then 1 else 0) + Unsent(gs[1..], i)
  }

  function RetryPending(r: RetryLoop, i: nat): nat {
    match r case RetryWaiting(p) => Is(p, i) case RetryTouched(p) => Is(p, i) case _ => 0
  }

  function SweepPending(w: Sweeper, i: nat): nat {
    match w case BackInTable(p) => Is(p, i) case _ => 0
  }

  /** Transmissions made plus those still to come: the first send and every queued retry. */
  function Transmissions(s: State, i: nat): nat {
    s.sent[i] + Unsent(s.goroutines, i) + Count(s.retryChan, i) + RetryPending(s.retry, i) + SweepPending(s.sweeper, i)
  }

  lemma {:induction false} UnsentUpdate(gs: seq<Goroutine>, t: nat, g: Goroutine, i: nat)
    requires t < |gs|
    ensures Unsent(gs[t := g], i) + (if gs[t].Reserved? && gs[t].id == i then 1 else 0)
            == Unsent(gs, i) + if g.Reserved? && g.id == i then 1 else 0
  {
    if t == 0 {
      assert gs[0 := g][1..] == gs[1..];
    } else {
      UnsentUpdate(gs[1..], t - 1, g, i);
      assert gs[t := g][1..] == gs[1..][t - 1 := g];
    }
  }

  lemma {:induction false} UnsentAppend(gs: seq<Goroutine>, g: Goroutine, i: nat)
    requires !g.Reserved?
    ensures Unsent(gs + [g], i) == Unsent(gs, i)
  {
    if gs == [] {
      assert [g][1..] == [];
    } else {
      UnsentAppend(gs[1..], g, i);
      assert (gs + [g])[1..] == gs[1..] + [g];
    }
  }

  predicate Paid(s: State, s': State, i: nat) {
    Transmissions(s', i) + Born(s, i) + s.rearmed[i] <= Transmissions(s, i) + Born(s', i) + s'.rearmed[i]
  }

  lemma CallPaid(s: State, t: nat, a: CallAct, i: nat)
    requires CallEnabled(s, t, a)
    ensures Paid(s, CallNext(s, t, a), i)
  {
    CallFrame(s, t, a);
    UnsentUpdate(s.goroutines, t, CallNext(s, t, a).goroutines[t], i);
  }

  lemma TrySendPaid(s: State, i: nat)
    requires SweepEnabled(s, TrySend)
    ensures Paid(s, SweepNext(s, TrySend), i)
  {
    SweepFrame(s, TrySend);
    CountAppend(s.retryChan, Rearmed(s.sweeper.probe), i);
  }

  lemma SweepPaid(s: State, a: SweepAct, i: nat)
    requires SweepEnabled(s, a)
    ensures Paid(s, SweepNext(s, a), i)
  {
    SweepFrame(s, a);
    match a
    case TrySend => TrySendPaid(s, i);
    case Decide =>
    case Collect(out) =>
    case SweepStop => case Pop => case Check => case DropRearmed => case SweepReport =>
  }

  lemma RetryPaid(s: State, a: RetryAct, i: nat)
    requires RetryEnabled(s, a)
    ensures Paid(s, RetryNext(s, a), i)
  {
    RetryFrame(s, a);
  }

  lemma StepPaid(s: State, step: Step, i: nat)
    requires Enabled(s, step)
    ensures Paid(s, Next(s, step), i)
  {
    match step
    case CallStep(t, a) => CallPaid(s, t, a, i);
    case SweepStep(a) => SweepPaid(s, a, i);
    case RetryStep(a) => RetryPaid(s, a, i);
    case RecvStep(a) => RecvFrame(s, a);
    case HandleStep(a) =>
      HandleFrame(s, a);
      if a.Submit? { UnsentAppend(s.goroutines, Job(Confirmed(s.handler.probe)), i); }
    case JobStep(t, a) =>
      JobFrame(s, t, a);
      UnsentUpdate(s.goroutines, t, JobNext(s, t, a).goroutines[t], i);
    case CloserStep(a) => CloseFrame(s, a);
    case EnvStep(a) =>
      EnvFrame(s, a);
      if a.StartCall? { UnsentAppend(s.goroutines, Started(a.ip, a.dst, a.option, a.ctx), i); }
  }

  // ---------- sweeps ----------

  lemma {:induction false} IdsCount(ps: seq<PendingProbe>, i: nat)
    ensures Ids(ps)[i] == Count(ps, i)
  {
    if ps != [] { IdsCount(ps[1..], i); }
  }

  /** A sweep takes an instance out of the table; only a reservation or a rearm puts it in. */
  lemma StepSwept(s: State, step: Step, i: nat)
    requires Enabled(s, step)
    ensures var s' := Next(s, step);
            s'.swept[i] + InTable(s'.table.probes, i) + Born(s, i) + s.rearmed[i]
            <= s.swept[i] + InTable(s.table.probes, i) + Born(s', i) + s'.rearmed[i]
  {
    match step
    case CallStep(t, a) => CallFrame(s, t, a); HotFallsCall(s, t, a, i);
    case SweepStep(a) => SweepSwept(s, a, i);
    case RetryStep(a) => RetryFrame(s, a); HotFallsRetry(s, a, i);
    case RecvStep(a) => RecvFrame(s, a); HotFallsRecv(s, a, i);
    case HandleStep(a) => HandleFrame(s, a);
    case JobStep(t, a) => JobFrame(s, t, a);
    case CloserStep(a) => CloseFrame(s, a); HotFallsClose(s, a, i);
    case EnvStep(a) => EnvFrame(s, a);
  }

  lemma SweepSwept(s: State, a: SweepAct, i: nat)
    requires SweepEnabled(s, a)
    ensures var s' := SweepNext(s, a);
            s'.swept[i] + InTable(s'.table.probes, i) + s.rearmed[i]
            <= s.swept[i] + InTable(s.table.probes, i) + s'.rearmed[i]
  {
    match a
    case Collect(out) => CollectWeight(s, out, i); IdsCount(out, i);
    case Decide => DecideWeight(s, i);
    case DropRearmed => TableDrop(s.table.probes, s.sweeper.probe.key, i);
    case SweepStop => case Pop => case Check => case TrySend => case SweepReport =>
  }

  // ---------- rearms and retry samples ----------

  /** A copy that may still be decided on says truthfully whether it was put back before. */
  predicate Truthful(p: PendingProbe, rearmed: multiset<nat>) {
    rearmed[p.id] <= 1 && (p.retried <==> rearmed[p.id] == 1)
  }

  predicate Flags(s: State) {
    && (forall k :: k in s.table.probes ==> Truthful(s.table.probes[k], s.rearmed))
    && (forall j :: 0 <= j < |s.expired| ==> Truthful(s.expired[j], s.rearmed))
    && (s.sweeper.Checking? || s.sweeper.Deciding? ==> Truthful(s.sweeper.probe, s.rearmed))
  }

  lemma NotInTable(m: Probes, i: nat)
    requires InTable(m, i) == 0
    ensures forall k :: k in m ==> m[k].id != i
  {
    var ks := set k | k in m && m[k].id == i;
    forall k | k in m ensures m[k].id != i {
      assert k !in ks;
    }
  }

  lemma {:induction false} NotCounted(ps: seq<PendingProbe>, i: nat)
    requires Count(ps, i) == 0
    ensures forall j :: 0 <= j < |ps| ==> ps[j].id != i
  {
    if ps != [] {
      NotCounted(ps[1..], i);
      forall j | 0 <= j < |ps| ensures ps[j].id != i {
        if j > 0 { assert ps[j] == ps[1..][j - 1]; }
      }
    }
  }

  lemma DecideFlags(s: State)
    requires Flags(s) && SweepEnabled(s, Decide) && Settled(s, s.sweeper.probe.id)
    ensures Flags(SweepNext(s, Decide))
  {
    var p := s.sweeper.probe;
    NotInTable(s.table.probes, p.id);
    NotCounted(s.expired, p.id);
  }

  lemma CollectFlags(s: State, out: seq<PendingProbe>)
    requires Flags(s) && SweepEnabled(s, Collect(out))
    ensures Flags(SweepNext(s, Collect(out)))
  {}

  lemma SweepFlags(s: State, a: SweepAct)
    requires Flags(s) && SweepEnabled(s, a) && (a.Decide? ==> Settled(s, s.sweeper.probe.id))
    ensures Flags(SweepNext(s, a))
  {
    match a
    case Decide => DecideFlags(s);
    case Collect(out) => CollectFlags(s, out);
    case SweepStop => case Pop => case Check => case TrySend => case DropRearmed => case SweepReport =>
  }

  lemma CallFlags(s: State, t: nat, a: CallAct)
    requires Flags(s) && CallEnabled(s, t, a) && s.rearmed[|s.births|] == 0
    ensures Flags(CallNext(s, t, a))
  {
    CallFrame(s, t, a);
  }

  lemma RetryFlags(s: State, a: RetryAct)
    requires Flags(s) && RetryEnabled(s, a)
    ensures Flags(RetryNext(s, a))
  {
    RetryFrame(s, a);
  }

  lemma RecvFlags(s: State, a: RecvAct)
    requires Flags(s) && RecvEnabled(s, a)
    ensures Flags(RecvNext(s, a))
  {
    RecvFrame(s, a);
  }

  lemma CloseFlags(s: State, a: CloseAct)
    requires Flags(s) && CloseEnabled(s, a)
    ensures Flags(CloseStep(s, a))
  {
    CloseFrame(s, a);
  }

  lemma StepFlags(s: State, step: Step)
    requires Flags(s) && Enabled(s, step) && s.rearmed[|s.births|] == 0
    requires step == SweepStep(Decide) ==> Settled(s, s.sweeper.probe.id)
    ensures Flags(Next(s, step))
  {
    match step
    case CallStep(t, a) => CallFlags(s, t, a);
    case SweepStep(a) => SweepFlags(s, a);
    case RetryStep(a) => RetryFlags(s, a);
    case RecvStep(a) => RecvFlags(s, a);
    case CloserStep(a) => CloseFlags(s, a);
    case HandleStep(a) => HandleFrame(s, a);
    case JobStep(t, a) => JobFrame(s, t, a);
    case EnvStep(a) => EnvFrame(s, a);
  }

  predicate Sampling(s: State, i: nat) {
    && s.rearmed[i] <= 1 && s.sampled[i] <= s.rearmed[i]
    && (Hot(s, i) >= 1 ==> s.sampled[i] == 0)
    && (i >= |s.births| ==> s.rearmed[i] == 0)
  }

  /** Only a decision changes the two histories. */
  lemma DecideSampling(s: State, i: nat)
    requires Flags(s) && Settled(s, i) && Sampling(s, i) && SweepEnabled(s, Decide) && s.sweeper.probe.id < |s.births|
    ensures Sampling(SweepNext(s, Decide), i)
  {
    HotFallsSweep(s, Decide, i);
    SweepFrame(s, Decide);
    if s.sweeper.probe.id == i && s.sweeper.probe.retried { HotAfterVerdict(s, i); }
  }

  /** Once decided, a sampled instance is in play nowhere. */
  lemma HotAfterVerdict(s: State, i: nat)
    requires Settled(s, i) && SweepEnabled(s, Decide) && s.sweeper.probe.id == i && s.sweeper.probe.retried
    ensures Hot(SweepNext(s, Decide), i) == 0
  {}

  lemma SweepSampling(s: State, a: SweepAct, i: nat)
    requires Traced(s) && Flags(s) && Settled(s, i) && Sampling(s, i) && SweepEnabled(s, a)
    ensures Sampling(SweepNext(s, a), i)
  {
    HotFallsSweep(s, a, i);
    SweepFrame(s, a);
    match a
    case Decide => DecideSampling(s, i);
    case Collect(out) =>
    case SweepStop => case Pop => case Check => case TrySend => case DropRearmed => case SweepReport =>
  }

  /** A retry sample is recorded only as the instance leaves the table for good. */
  lemma RecvSampling(s: State, a: RecvAct, i: nat)
    requires Flags(s) && Settled(s, i) && Sampling(s, i) && RecvEnabled(s, a)
    ensures Sampling(RecvNext(s, a), i)
  {
    HotFallsRecv(s, a, i);
    RecvFrame(s, a);
    match a
    case TakeMatch => TableDrop(s.table.probes, s.recv.key, i);
    case Reset(key) => TableDrop(s.table.probes, key, i);
    case _ =>
  }

  lemma StepSampling(s: State, step: Step, i: nat)
    requires Traced(s) && Flags(s) && Settled(s, i) && Sampling(s, i) && Enabled(s, step)
    ensures Sampling(Next(s, step), i)
  {
    HotFalls(s, step, i);
    match step
    case CallStep(t, a) => CallFrame(s, t, a);
    case SweepStep(a) => SweepSampling(s, a, i);
    case RetryStep(a) => RetryFrame(s, a);
    case RecvStep(a) => RecvSampling(s, a, i);
    case HandleStep(a) => HandleFrame(s, a);
    case JobStep(t, a) => JobFrame(s, t, a);
    case CloserStep(a) => CloseFrame(s, a);
    case EnvStep(a) => EnvFrame(s, a);
  }

  // ---------- when NoResponse is reported ----------

  predicate Overdue(e: Event, timeout: int) {
    e.outcome == NoResponse ==> e.stamp.Some? && e.at - e.stamp.value > timeout
  }

  predicate TimelySweeper(s: State) {
    match s.sweeper
    case Checking(p) => Expired(p, s.now, s.timeout, s.cancelled)
    case Deciding(p) => TimedOut(p, s.now, s.timeout)
    case BackInTable(p) => TimedOut(p, s.now, s.timeout)
    case QueueFull(p) => TimedOut(p, s.now, s.timeout)
    case SweepEmit(p, o) => o == NoResponse ==> TimedOut(p, s.now, s.timeout)
    case _ => true
  }

  predicate Timely(s: State) {
    && (forall j :: 0 <= j < |s.expired| ==> Expired(s.expired[j], s.now, s.timeout, s.cancelled))
    && TimelySweeper(s)
    && (forall j :: 0 <= j < |s.log| ==> Overdue(s.log[j], s.timeout))
  }

  /** Reporting anything but NoResponse asks nothing of the stamp. */
  lemma ReportTimely(s: State, p: PendingProbe, o: Outcome)
    requires forall j :: 0 <= j < |s.log| ==> Overdue(s.log[j], s.timeout)
    requires o == NoResponse ==> TimedOut(p, s.now, s.timeout)
    ensures forall j :: 0 <= j < |Report(s, p, o)| ==> Overdue(Report(s, p, o)[j], s.timeout)
  {}

  lemma CollectTimely(s: State, out: seq<PendingProbe>)
    requires Timely(s) && SweepEnabled(s, Collect(out))
    ensures Timely(SweepNext(s, Collect(out)))
  {}

  lemma SweepTimely(s: State, a: SweepAct)
    requires Timely(s) && SweepEnabled(s, a)
    ensures Timely(SweepNext(s, a))
  {
    SweepFrame(s, a);
    match a
    case Collect(out) => CollectTimely(s, out);
    case SweepReport => ReportTimely(s, s.sweeper.probe, s.sweeper.outcome);
    case Decide => case SweepStop => case Pop => case Check => case TrySend => case DropRearmed =>
  }

  lemma DeliverTimely(s: State, d: Delivery, a: DeliverAct)
    requires Timely(s) && DeliverEnabled(s, d, a)
    ensures Timely(Delivered(s, d, a).0)
  {
    match a
    case AbortResult => ReportTimely(s, d.probe, Aborted);
    case ReportOpen => ReportTimely(s, d.probe, Open);
    case _ =>
  }

  lemma RetryTimely(s: State, a: RetryAct)
    requires Timely(s) && RetryEnabled(s, a)
    ensures Timely(RetryNext(s, a))
  {
    RetryFrame(s, a);
    if a.RetryReport? { ReportTimely(s, s.retry.probe, Aborted); ReportTimely(s, s.retry.probe, Error); }
  }

  lemma RecvTimely(s: State, a: RecvAct)
    requires Timely(s) && RecvEnabled(s, a)
    ensures Timely(RecvNext(s, a))
  {
    RecvFrame(s, a);
    if a.ReportRefused? { ReportTimely(s, s.recv.probe, Aborted); }
    if a.ReportClosed? { ReportTimely(s, s.recv.probe, Closed); }
  }

  lemma CallTimely(s: State, t: nat, a: CallAct)
    requires Timely(s) && CallEnabled(s, t, a)
    ensures Timely(CallNext(s, t, a))
  {
    CallFrame(s, t, a);
    if a.EmitError? { ReportTimely(s, s.goroutines[t].probe, Error); }
  }

  lemma HandleTimely(s: State, a: HandleAct)
    requires Timely(s) && HandleEnabled(s, a)
    ensures Timely(HandleNext(s, a))
  {
    HandleFrame(s, a);
    if a.Deliver? { DeliverTimely(s, s.handler.delivery, a.act); }
  }

  lemma CloseTimely(s: State, a: CloseAct)
    requires Timely(s) && CloseEnabled(s, a)
    ensures Timely(CloseStep(s, a))
  {
    CloseFrame(s, a);
    if a.ReportPending? { ReportTimely(s, s.closer.pending[0], Aborted); }
  }

  lemma StepTimely(s: State, step: Step)
    requires Timely(s) && Enabled(s, step)
    ensures Timely(Next(s, step))
  {
    match step
    case CallStep(t, a) => CallTimely(s, t, a);
    case SweepStep(a) => SweepTimely(s, a);
    case RetryStep(a) => RetryTimely(s, a);
    case RecvStep(a) => RecvTimely(s, a);
    case HandleStep(a) => HandleTimely(s, a);
    case JobStep(t, a) =>
      JobFrame(s, t, a);
      DeliverTimely(s, s.goroutines[t].delivery, a);
    case CloserStep(a) => CloseTimely(s, a);
    case EnvStep(a) => EnvFrame(s, a);
  }
}
