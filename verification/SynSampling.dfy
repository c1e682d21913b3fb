/** Runs that are clean because too few probes are sampled to fill the retry queue. */
module SynSampling {
  import opened ProbeTable
  import opened SynProtocol
  import opened SynOwnership
  import opened SynTheorems

  /** The sends that were chosen as samples: only those leave a resend closure. */
  function SampledSends(steps: seq<Step>): nat {
    if steps == [] then 0 else Sampled(steps[0]) + SampledSends(steps[1..])
  }

  function Sampled(step: Step): nat {
    if step.CallStep? && step.call.Send? && step.call.sampled then 1 else 0
  }

  // ---------- the instances that ever got a resend closure ----------

  function Keep(s: State, kept: set<nat>, step: Step): set<nat>
    requires Enabled(s, step)
  {
    match step
    case CallStep(t, KeepRetry) =>
      var key := s.goroutines[t].key;
      if key in s.table.probes then kept + {s.table.probes[key].id} else kept
    case _ => kept
  }

  /** How many goroutines are of some kind. */
  function Number(gs: seq<Goroutine>, kind: Goroutine -> bool): nat {
    if gs == [] then 0 else (if kind(gs[0]) then 1 else 0) + Number(gs[1..], kind)
  }

  predicate WillKeep(g: Goroutine) {
    g.AfterSend? && g.sampled
  }

  predicate WillSend(g: Goroutine) {
    g.Reserved?
  }

  /** Calls that chose to sample and have not stored the closure yet. */
  function ToKeep(gs: seq<Goroutine>): nat {
    Number(gs, WillKeep)
  }

  lemma {:induction false} NumberUpdate(gs: seq<Goroutine>, t: nat, g: Goroutine, kind: Goroutine -> bool)
    requires t < |gs|
    ensures Number(gs[t := g], kind) + (if kind(gs[t]) then 1 else 0) == Number(gs, kind) + if kind(g) then 1 else 0
  {
    if t == 0 {
      assert gs[0 := g][1..] == gs[1..];
    } else {
      NumberUpdate(gs[1..], t - 1, g, kind);
      assert gs[t := g][1..] == gs[1..][t - 1 := g];
    }
  }

  lemma {:induction false} NumberAppend(gs: seq<Goroutine>, g: Goroutine, kind: Goroutine -> bool)
    requires !kind(g)
    ensures Number(gs + [g], kind) == Number(gs, kind)
  {
    if gs == [] {
      assert [g][1..] == [];
    } else {
      NumberAppend(gs[1..], g, kind);
      assert (gs + [g])[1..] == gs[1..] + [g];
    }
  }

  /** A copy that may be put back belongs to an instance that got a closure. */
  predicate Marked(p: PendingProbe, kept: set<nat>) {
    p.retry ==> p.id in kept
  }

  predicate Marks(s: State, kept: set<nat>) {
    && (forall k :: k in s.table.probes ==> Marked(s.table.probes[k], kept))
    && (forall j :: 0 <= j < |s.expired| ==> Marked(s.expired[j], kept))
    && (s.sweeper.Checking? || s.sweeper.Deciding? ==> Marked(s.sweeper.probe, kept))
    && (forall i :: i in s.rearmed ==> i in kept)
  }

  /** The retry queue and the sweeper's hand hold no more than was ever put back. */
  predicate Backed(s: State) {
    |s.retryChan| + (if s.sweeper.BackInTable? || s.sweeper.QueueFull? then 1 else 0) <= |s.rearmed|
  }

  lemma CallMarks(s: State, kept: set<nat>, t: nat, a: CallAct)
    requires Marks(s, kept) && CallEnabled(s, t, a)
    ensures Marks(CallNext(s, t, a), Keep(s, kept, CallStep(t, a)))
  {
    CallFrame(s, t, a);
  }

  lemma SweepMarks(s: State, kept: set<nat>, a: SweepAct)
    requires Marks(s, kept) && SweepEnabled(s, a)
    ensures Marks(SweepNext(s, a), kept)
  {
    SweepFrame(s, a);
    match a
    case Decide =>
    case Collect(out) =>
    case SweepStop => case Pop => case Check => case TrySend => case DropRearmed => case SweepReport =>
  }

  lemma SweepBacked(s: State, a: SweepAct)
    requires Backed(s) && SweepEnabled(s, a)
    ensures Backed(SweepNext(s, a))
  {
    SweepFrame(s, a);
    match a
    case Decide =>
    case Collect(out) =>
    case SweepStop => case Pop => case Check => case TrySend => case DropRearmed => case SweepReport =>
  }

  lemma RetryMarks(s: State, kept: set<nat>, a: RetryAct)
    requires Marks(s, kept) && Backed(s) && RetryEnabled(s, a)
    ensures Marks(RetryNext(s, a), kept) && Backed(RetryNext(s, a))
  {
    RetryFrame(s, a);
  }

  lemma RecvMarks(s: State, kept: set<nat>, a: RecvAct)
    requires Marks(s, kept) && RecvEnabled(s, a)
    ensures Marks(RecvNext(s, a), kept)
  {
    RecvFrame(s, a);
  }

  lemma CloseMarks(s: State, kept: set<nat>, a: CloseAct)
    requires Marks(s, kept) && CloseEnabled(s, a)
    ensures Marks(CloseStep(s, a), kept)
  {
    CloseFrame(s, a);
  }

  lemma StepMarks(s: State, kept: set<nat>, step: Step)
    requires Marks(s, kept) && Backed(s) && Enabled(s, step)
    ensures Marks(Next(s, step), Keep(s, kept, step)) && Backed(Next(s, step))
  {
    match step
    case CallStep(t, a) => CallMarks(s, kept, t, a); CallFrame(s, t, a);
    case SweepStep(a) => SweepMarks(s, kept, a); SweepBacked(s, a);
    case RetryStep(a) => RetryMarks(s, kept, a);
    case RecvStep(a) => RecvMarks(s, kept, a); RecvFrame(s, a);
    case CloserStep(a) => CloseMarks(s, kept, a); CloseFrame(s, a);
    case HandleStep(a) => HandleFrame(s, a);
    case JobStep(t, a) => JobFrame(s, t, a);
    case EnvStep(a) => EnvFrame(s, a);
  }

  lemma CallKeeps(s: State, kept: set<nat>, t: nat, a: CallAct)
    requires CallEnabled(s, t, a)
    ensures |Keep(s, kept, CallStep(t, a))| + ToKeep(CallNext(s, t, a).goroutines)
            <= |kept| + ToKeep(s.goroutines) + Sampled(CallStep(t, a))
  {
    CallFrame(s, t, a);
    NumberUpdate(s.goroutines, t, CallNext(s, t, a).goroutines[t], WillKeep);
  }

  /** A closure is stored once for each sampled send. */
  lemma StepKeeps(s: State, kept: set<nat>, step: Step)
    requires Enabled(s, step)
    ensures |Keep(s, kept, step)| + ToKeep(Next(s, step).goroutines) <= |kept| + ToKeep(s.goroutines) + Sampled(step)
  {
    match step
    case CallStep(t, a) => CallKeeps(s, kept, t, a);
    case SweepStep(a) => SweepFrame(s, a);
    case RetryStep(a) => RetryFrame(s, a);
    case RecvStep(a) => RecvFrame(s, a);
    case CloserStep(a) => CloseFrame(s, a);
    case HandleStep(a) =>
      HandleFrame(s, a);
      if a.Submit? { NumberAppend(s.goroutines, Job(Confirmed(s.handler.probe)), WillKeep); }
    case JobStep(t, a) =>
      JobFrame(s, t, a);
      NumberUpdate(s.goroutines, t, JobNext(s, t, a).goroutines[t], WillKeep);
    case EnvStep(a) =>
      EnvFrame(s, a);
      if a.StartCall? { NumberAppend(s.goroutines, Started(a.ip, a.dst, a.option, a.ctx), WillKeep); }
  }

  /** Of each number at most once, and only of those in `ids`. */
  lemma {:induction false} FewerThan(m: multiset<nat>, ids: set<nat>)
    requires forall i :: i in m ==> m[i] == 1 && i in ids
    ensures |m| <= |ids|
    decreases |ids|
  {
    if ids == {} {
      assert m == multiset{};
    } else {
      var i :| i in ids;
      var m' := m[i := 0];
      FewerThan(m', ids - {i});
      assert m == m'[i := m[i]];
    }
  }

  /** What is put back was sampled, each instance once; so the queue has room while fewer than
      its places were sampled. */
  lemma QueueHasRoom(s: State, kept: set<nat>)
    requires Inv(s) && Marks(s, kept) && Backed(s) && |kept| <= RETRY_CAP
    ensures !s.sweeper.QueueFull? ==> s.sweeper.BackInTable? ==> |s.retryChan| < RETRY_CAP
  {
    forall i: nat ensures s.rearmed[i] <= 1 { assert PerInstance(s, i); }
    FewerThan(s.rearmed, kept);
  }

  lemma {:induction false} FewSamplesFrom(s: State, kept: set<nat>, steps: seq<Step>)
    requires Inv(s) && Marks(s, kept) && Backed(s) && !s.sweeper.QueueFull? && Run(s, steps)
    requires |kept| + ToKeep(s.goroutines) + SampledSends(steps) <= RETRY_CAP
    ensures Clean(s, steps)
    decreases |steps|
  {
    if steps != [] {
      var s', kept' := Next(s, steps[0]), Keep(s, kept, steps[0]);
      StepInv(s, steps[0]);
      StepMarks(s, kept, steps[0]);
      StepKeeps(s, kept, steps[0]);
      QueueHasRoom(s, kept);
      StepFrame(s, steps[0]);
      if steps[0].SweepStep? { NeverFull(s, steps[0].sweep); }
      FewSamplesFrom(s', kept', steps[1..]);
    }
  }

  lemma NeverFull(s: State, a: SweepAct)
    requires SweepEnabled(s, a) && !s.sweeper.QueueFull? && (s.sweeper.BackInTable? ==> |s.retryChan| < RETRY_CAP)
    ensures !SweepNext(s, a).sweeper.QueueFull?
  {
    SweepFrame(s, a);
  }

  /** A run with at most as many sampled sends as the retry queue has places is clean; with
      sampling off there are none at all. */
  lemma FewSamplesAreClean(timeout: int, now: int, steps: seq<Step>)
    requires Run(Init(timeout, now), steps) && SampledSends(steps) <= RETRY_CAP
    ensures Clean(Init(timeout, now), steps)
  {
    InitInv(timeout, now);
    FewSamplesFrom(Init(timeout, now), {}, steps);
  }

  /** So after `Close` such a run has reported each of its reservations exactly once. */
  lemma FewSamplesReportedOnce(timeout: int, now: int, steps: seq<Step>)
    requires Run(Init(timeout, now), steps) && SampledSends(steps) <= RETRY_CAP
    requires Quiescent(End(Init(timeout, now), steps))
    ensures AllReported(End(Init(timeout, now), steps))
  {
    FewSamplesAreClean(timeout, now, steps);
    ExactlyOneEventAfterClose(timeout, now, steps);
  }

  // ---------- no more sends than reservations ----------

  lemma CallSends(s: State, t: nat, a: CallAct)
    requires CallEnabled(s, t, a)
    ensures Sampled(CallStep(t, a)) + Number(CallNext(s, t, a).goroutines, WillSend) + |s.births|
            <= Number(s.goroutines, WillSend) + |CallNext(s, t, a).births|
  {
    CallFrame(s, t, a);
    NumberUpdate(s.goroutines, t, CallNext(s, t, a).goroutines[t], WillSend);
  }

  lemma StepSends(s: State, step: Step)
    requires Enabled(s, step)
    ensures Sampled(step) + Number(Next(s, step).goroutines, WillSend) + |s.births|
            <= Number(s.goroutines, WillSend) + |Next(s, step).births|
  {
    match step
    case CallStep(t, a) => CallSends(s, t, a);
    case SweepStep(a) => SweepFrame(s, a);
    case RetryStep(a) => RetryFrame(s, a);
    case RecvStep(a) => RecvFrame(s, a);
    case CloserStep(a) => CloseFrame(s, a);
    case HandleStep(a) =>
      HandleFrame(s, a);
      if a.Submit? { NumberAppend(s.goroutines, Job(Confirmed(s.handler.probe)), WillSend); }
    case JobStep(t, a) =>
      JobFrame(s, t, a);
      NumberUpdate(s.goroutines, t, JobNext(s, t, a).goroutines[t], WillSend);
    case EnvStep(a) =>
      EnvFrame(s, a);
      if a.StartCall? { NumberAppend(s.goroutines, Started(a.ip, a.dst, a.option, a.ctx), WillSend); }
  }

  lemma {:induction false} SendsAreReserved(s: State, steps: seq<Step>)
    requires Run(s, steps)
    ensures SampledSends(steps) + |s.births| <= Number(s.goroutines, WillSend) + |End(s, steps).births|
    decreases |steps|
  {
    if steps != [] {
      StepSends(s, steps[0]);
      SendsAreReserved(Next(s, steps[0]), steps[1..]);
    }
  }
}
