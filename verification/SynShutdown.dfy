/** Shutting down: what `Close` may rely on, what the wait group counts, and why nothing is
    sent on the open-port channel after it was closed. */
module SynShutdown {
  import opened ProbeTable
  import opened SynProtocol
  import opened SynOwnership

  function Stage(c: Closer): nat {
    match c
    case NotClosed => 0 case DoneSet => 1 case CtxCancelled => 2 case RetryJoined => 3 case TableDone => 4
    case Drained(_) => 5 case RecvJoined => 6 case ChanClosed => 7 case HandlerJoined => 8 case CloseReturned => 9
  }

  /** A scan call that reserved `key` after the shutdown began and will still drop it. */
  predicate WillDrop(g: Goroutine, key: ProbeKey) {
    (g.Reserved? && g.key == key) || (g.AfterSend? && !g.ok && g.key == key)
  }

  ghost predicate Guarded(gs: seq<Goroutine>, key: ProbeKey) {
    exists t :: 0 <= t < |gs| && WillDrop(gs[t], key)
  }

  ghost predicate Closing(s: State) {
    && (s.ssDone <==> Stage(s.closer) >= 1)
    && (Stage(s.closer) >= 2 ==> SCANNER_CTX in s.cancelled)
    && (Stage(s.closer) >= 3 ==> s.retry == RetryStopped)
    && (s.table.isDone <==> Stage(s.closer) >= 4)
    && (Stage(s.closer) >= 5 ==> forall k :: k in s.table.probes ==> Guarded(s.goroutines, k))
    && (Stage(s.closer) >= 6 ==> s.recv == RecvStopped)
    && (s.openClosed <==> Stage(s.closer) >= 7)
    && (Stage(s.closer) >= 8 ==> s.handler == HandlerStopped)
    && (s.handler == HandlerStopped ==> s.openClosed && s.openChan == [])
    && (s.sweeper == SweepStopped ==> s.expired == [] && s.table.isDone)
    && (s.retry == RetryStopped ==> SCANNER_CTX in s.cancelled)
    && (s.recv.Refused? ==> SCANNER_CTX in s.cancelled)
  }

  lemma GuardedKept(gs: seq<Goroutine>, t: nat, g: Goroutine, key: ProbeKey)
    requires Guarded(gs, key) && t < |gs| && (WillDrop(gs[t], key) ==> WillDrop(g, key))
    ensures Guarded(gs[t := g], key)
  {
    var u :| 0 <= u < |gs| && WillDrop(gs[u], key);
    assert WillDrop(gs[t := g][u], key);
  }

  lemma GuardedGrows(gs: seq<Goroutine>, g: Goroutine, key: ProbeKey)
    requires Guarded(gs, key)
    ensures Guarded(gs + [g], key)
  {
    var u :| 0 <= u < |gs| && WillDrop(gs[u], key);
    assert WillDrop((gs + [g])[u], key);
  }

  lemma CallClosing(s: State, t: nat, a: CallAct)
    requires Closing(s) && CallEnabled(s, t, a)
    ensures Closing(CallNext(s, t, a))
  {
    CallFrame(s, t, a);
    var s' := CallNext(s, t, a);
    if Stage(s.closer) >= 5 {
      forall k | k in s'.table.probes ensures Guarded(s'.goroutines, k) {
        if k in s.table.probes {
          GuardedKept(s.goroutines, t, s'.goroutines[t], k);
        } else {
          assert WillDrop(s'.goroutines[t], k);
        }
      }
    }
  }

  lemma SweepClosing(s: State, a: SweepAct)
    requires Closing(s) && SweepEnabled(s, a)
    ensures Closing(SweepNext(s, a))
  {
    SweepFrame(s, a);
    match a
    case Decide =>
    case _ =>
  }

  lemma RetryClosing(s: State, a: RetryAct)
    requires Closing(s) && RetryEnabled(s, a)
    ensures Closing(RetryNext(s, a))
  {
    RetryFrame(s, a);
  }

  lemma RecvClosing(s: State, a: RecvAct)
    requires Closing(s) && RecvEnabled(s, a)
    ensures Closing(RecvNext(s, a))
  {
    RecvFrame(s, a);
  }

  lemma HandleClosing(s: State, a: HandleAct)
    requires Closing(s) && HandleEnabled(s, a)
    ensures Closing(HandleNext(s, a))
  {
    HandleFrame(s, a);
    match a
    case Submit =>
      forall k | Guarded(s.goroutines, k) ensures Guarded(s.goroutines + [Job(Confirmed(s.handler.probe))], k) {
        GuardedGrows(s.goroutines, Job(Confirmed(s.handler.probe)), k);
      }
    case HandlerStop =>
    case HandlerTake =>
    case Inline =>
    case Deliver(d) =>
  }

  lemma JobClosing(s: State, t: nat, a: DeliverAct)
    requires Closing(s) && JobEnabled(s, t, a)
    ensures Closing(JobNext(s, t, a))
  {
    JobFrame(s, t, a);
    var s' := JobNext(s, t, a);
    forall k | Guarded(s.goroutines, k) ensures Guarded(s'.goroutines, k) {
      GuardedKept(s.goroutines, t, s'.goroutines[t], k);
    }
  }

  lemma CloseClosing(s: State, a: CloseAct)
    requires Closing(s) && CloseEnabled(s, a)
    ensures Closing(CloseStep(s, a))
  {
    CloseFrame(s, a);
  }

  lemma EnvClosing(s: State, a: EnvAct)
    requires Closing(s) && EnvEnabled(s, a)
    ensures Closing(EnvNext(s, a))
  {
    EnvFrame(s, a);
    match a
    case StartCall(ip, dst, option, ctx) =>
      forall k | Guarded(s.goroutines, k) ensures Guarded(s.goroutines + [Started(ip, dst, option, ctx)], k) {
        GuardedGrows(s.goroutines, Started(ip, dst, option, ctx), k);
      }
    case _ =>
  }

  lemma StepClosing(s: State, step: Step)
    requires Closing(s) && Enabled(s, step)
    ensures Closing(Next(s, step))
  {
    match step
    case CallStep(t, a) => CallClosing(s, t, a);
    case SweepStep(a) => SweepClosing(s, a);
    case RetryStep(a) => RetryClosing(s, a);
    case RecvStep(a) => RecvClosing(s, a);
    case HandleStep(a) => HandleClosing(s, a);
    case JobStep(t, a) => JobClosing(s, t, a);
    case CloserStep(a) => CloseClosing(s, a);
    case EnvStep(a) => EnvClosing(s, a);
  }

  // ---------- what portProbeWg counts ----------

  function RecvClaims(r: Receiver): nat {
    match r case Claimed(_) => 1 case Unmatched => 1 case Matched(_) => 1 case _ => 0
  }

  function HandlerClaims(h: Handler): nat {
    match h case GotOpen(_) => 1 case Delivering(_) => 1 case _ => 0
  }

  function JobClaims(gs: seq<Goroutine>): nat {
    if gs == [] then 0 else (if gs[0].Job? then 1 else 0) + JobClaims(gs[1..])
  }

  /** The receiver's claims, the open probes queued, and those being handled or in the pool. */
  function Claims(s: State): nat {
    RecvClaims(s.recv) + |s.openChan| + HandlerClaims(s.handler) + JobClaims(s.goroutines)
  }

  lemma {:induction false} JobClaimsUpdate(gs: seq<Goroutine>, t: nat, g: Goroutine)
    requires t < |gs|
    ensures JobClaims(gs[t := g]) + (if gs[t].Job? then 1 else 0) == JobClaims(gs) + if g.Job? then 1 else 0
  {
    if t == 0 {
      assert gs[0 := g][1..] == gs[1..];
    } else {
      JobClaimsUpdate(gs[1..], t - 1, g);
      assert gs[t := g][1..] == gs[1..][t - 1 := g];
    }
  }

  lemma {:induction false} JobClaimsAppend(gs: seq<Goroutine>, g: Goroutine)
    ensures JobClaims(gs + [g]) == JobClaims(gs) + if g.Job? then 1 else 0
  {
    if gs == [] {
      assert [g][1..] == [];
    } else {
      JobClaimsAppend(gs[1..], g);
      assert (gs + [g])[1..] == gs[1..] + [g];
    }
  }

  lemma CallClaims(s: State, t: nat, a: CallAct)
    requires CallEnabled(s, t, a)
    ensures Claims(CallNext(s, t, a)) == Claims(s)
  {
    CallFrame(s, t, a);
    JobClaimsUpdate(s.goroutines, t, CallNext(s, t, a).goroutines[t]);
  }

  lemma RecvClaimed(s: State, a: RecvAct)
    requires RecvEnabled(s, a)
    ensures Claims(RecvNext(s, a)) - Claims(s) == RecvNext(s, a).wg - s.wg
  {
    RecvFrame(s, a);
  }

  lemma HandleClaimed(s: State, a: HandleAct)
    requires HandleEnabled(s, a)
    ensures Claims(HandleNext(s, a)) - Claims(s) == HandleNext(s, a).wg - s.wg
  {
    match a
    case Submit => JobClaimsAppend(s.goroutines, Job(Confirmed(s.handler.probe)));
    case _ =>
  }

  lemma StepClaims(s: State, step: Step)
    requires Enabled(s, step)
    ensures Claims(Next(s, step)) - Claims(s) == Next(s, step).wg - s.wg
  {
    match step
    case CallStep(t, a) => CallClaims(s, t, a); CallFrame(s, t, a);
    case SweepStep(a) => SweepFrame(s, a);
    case RetryStep(a) => RetryFrame(s, a);
    case RecvStep(a) => RecvClaimed(s, a);
    case HandleStep(a) => HandleClaimed(s, a);
    case JobStep(t, a) =>
      JobFrame(s, t, a);
      JobClaimsUpdate(s.goroutines, t, JobNext(s, t, a).goroutines[t]);
    case CloserStep(a) => CloseFrame(s, a);
    case EnvStep(a) =>
      EnvFrame(s, a);
      if a.StartCall? { JobClaimsAppend(s.goroutines, Started(a.ip, a.dst, a.option, a.ctx)); }
  }

  // ---------- NoResponse after the table was closed ----------

  function NoResponses(log: seq<Event>): nat {
    if log == [] then 0
    else NoResponses(log[..|log| - 1]) + if log[|log| - 1].outcome == NoResponse then 1 else 0
  }

  /** With the table closed the sweeper is bound to report NoResponse: it checked its probe
      before, and it is not about to find room for it in the retry queue. */
  function WillSay(s: State): nat {
    match s.sweeper
    case Deciding(_) => 1
    case BackInTable(_) => if |s.retryChan| >= RETRY_CAP then 1 else 0
    case QueueFull(_) => 1
    case SweepEmit(_, o) => if o == NoResponse then 1 else 0
    case _ => 0
  }

  lemma ReportOutcome(s: State, p: PendingProbe, o: Outcome)
    ensures NoResponses(Report(s, p, o)) == NoResponses(s.log) + if o == NoResponse then 1 else 0
  {
    assert Report(s, p, o)[..|s.log|] == s.log;
  }

  /** NoResponse events reported and still to come. */
  function Says(s: State): nat {
    NoResponses(s.log) + WillSay(s)
  }

  lemma SweepSays(s: State, a: SweepAct)
    requires SweepEnabled(s, a) && s.table.isDone
    ensures Says(SweepNext(s, a)) == Says(s)
  {
    match a
    case SweepReport => ReportOutcome(s, s.sweeper.probe, s.sweeper.outcome);
    case Decide =>
    case SweepStop => case Collect(out) => case Pop => case Check => case TrySend => case DropRearmed =>
  }

  lemma DeliverSays(s: State, d: Delivery, a: DeliverAct)
    requires DeliverEnabled(s, d, a)
    ensures NoResponses(Delivered(s, d, a).0.log) == NoResponses(s.log)
  {
    match a
    case AbortResult => ReportOutcome(s, d.probe, Aborted);
    case ReportOpen => ReportOutcome(s, d.probe, Open);
    case _ =>
  }

  lemma RecvSays(s: State, a: RecvAct)
    requires RecvEnabled(s, a)
    ensures Says(RecvNext(s, a)) == Says(s)
  {
    RecvFrame(s, a);
    if a.ReportRefused? { ReportOutcome(s, s.recv.probe, Aborted); }
    if a.ReportClosed? { ReportOutcome(s, s.recv.probe, Closed); }
  }

  lemma StepSays(s: State, step: Step)
    requires Closing(s) && s.table.isDone && Enabled(s, step)
    ensures Says(Next(s, step)) == Says(s)
  {
    match step
    case CallStep(t, a) =>
      CallFrame(s, t, a);
      if a.EmitError? { ReportOutcome(s, s.goroutines[t].probe, Error); }
    case SweepStep(a) => SweepSays(s, a);
    case RetryStep(a) =>
    case RecvStep(a) => RecvSays(s, a);
    case HandleStep(a) =>
      HandleFrame(s, a);
      if a.Deliver? { DeliverSays(s, s.handler.delivery, a.act); }
    case JobStep(t, a) =>
      JobFrame(s, t, a);
      DeliverSays(s, s.goroutines[t].delivery, a);
    case CloserStep(a) =>
      CloseFrame(s, a);
      if a.ReportPending? { ReportOutcome(s, s.closer.pending[0], Aborted); }
    case EnvStep(a) => EnvFrame(s, a);
  }

  lemma CallKeepsDone(s: State, t: nat, a: CallAct)
    requires CallEnabled(s, t, a) && s.table.isDone
    ensures CallNext(s, t, a).table.isDone
  {}

  lemma SweepKeepsDone(s: State, a: SweepAct)
    requires SweepEnabled(s, a) && s.table.isDone
    ensures SweepNext(s, a).table.isDone
  {}

  lemma DoneStays(s: State, step: Step)
    requires Enabled(s, step) && s.table.isDone
    ensures Next(s, step).table.isDone
  {
    StepFrame(s, step);
    match step
    case CallStep(t, a) => CallKeepsDone(s, t, a);
    case SweepStep(a) => SweepKeepsDone(s, a);
    case RetryStep(a) => RetryFrame(s, a);
    case RecvStep(a) => RecvFrame(s, a);
    case CloserStep(a) => CloseFrame(s, a);
    case _ =>
  }

  /** Once the table is closed nothing changes what the sweeper is bound to say. */
  lemma {:induction false} RunSays(s: State, steps: seq<Step>)
    requires Closing(s) && s.table.isDone && Run(s, steps)
    ensures Says(End(s, steps)) == Says(s)
    decreases |steps|
  {
    if steps != [] {
      StepClosing(s, steps[0]);
      StepSays(s, steps[0]);
      DoneStays(s, steps[0]);
      RunSays(Next(s, steps[0]), steps[1..]);
    }
  }
}
