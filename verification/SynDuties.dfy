/** What the actors may not leave undone: a failed send or retry is followed by its drop, a probe
    that was put back is on its way to its retry, and nobody stops before `Close` says so. */
module SynDuties {
  import opened Types
  import opened ProbeTable
  import opened SynProtocol
  import opened SynOwnership
  import opened SynShutdown
  import opened SynTheorems

  /** The calls whose send failed and that have not dropped their key yet, the key of a failed
      retry that has not been dropped yet, and whether the last retry that got its token found its
      key in the table. */
  datatype Owed = Owed(calls: set<nat>, retry: Option<ProbeKey>, found: bool)

  const NOTHING_OWED := Owed({}, None, false)

  function Owe(s: State, o: Owed, step: Step): Owed
    requires Enabled(s, step)
  {
    match step
    case CallStep(t, Send(ok, _)) => if ok then o else o.(calls := o.calls + {t})
    case CallStep(t, Drop) => o.(calls := o.calls - {t})
    case RetryStep(RetryWaitFails(_)) => o.(retry := Some(s.retry.alias.key))
    case RetryStep(RetryTouch(_)) => o.(found := s.retry.alias.key in s.table.probes)
    case RetryStep(RetrySend(ok, _)) => if ok then o else o.(retry := Some(s.retry.alias.key))
    case RetryStep(RetryDrop) => if o.retry == Some(s.retry.alias.key) then o.(retry := None) else o
    case _ => o
  }

  function OwedAfter(s: State, o: Owed, steps: seq<Step>): Owed
    requires Run(s, steps)
    decreases |steps|
  {
    if steps == [] then o else OwedAfter(Next(s, steps[0]), Owe(s, o, steps[0]), steps[1..])
  }

  predicate CallOwes(s: State, t: nat) {
    t < |s.goroutines| && s.goroutines[t].AfterSend? && !s.goroutines[t].ok
  }

  predicate Dutiful(s: State, o: Owed) {
    && (forall t :: t in o.calls ==> CallOwes(s, t))
    && (o.retry.Some? ==> s.retry.RetryFailed? && s.retry.alias.key == o.retry.value)
    && (s.retry.RetryTouched? ==> o.found)
  }

  lemma CallDutiful(s: State, o: Owed, t: nat, a: CallAct)
    requires Dutiful(s, o) && CallEnabled(s, t, a)
    ensures Dutiful(CallNext(s, t, a), Owe(s, o, CallStep(t, a)))
  {
    CallFrame(s, t, a);
    assert t in o.calls ==> CallOwes(s, t);
  }

  lemma RetryDutiful(s: State, o: Owed, a: RetryAct)
    requires Dutiful(s, o) && RetryEnabled(s, a)
    ensures Dutiful(RetryNext(s, a), Owe(s, o, RetryStep(a)))
  {
    RetryFrame(s, a);
  }

  lemma JobDutiful(s: State, o: Owed, t: nat, a: DeliverAct)
    requires Dutiful(s, o) && JobEnabled(s, t, a)
    ensures Dutiful(JobNext(s, t, a), o)
  {
    JobFrame(s, t, a);
    assert !CallOwes(s, t);
  }

  lemma HandleDutiful(s: State, o: Owed, a: HandleAct)
    requires Dutiful(s, o) && HandleEnabled(s, a)
    ensures Dutiful(HandleNext(s, a), o)
  {
    HandleFrame(s, a);
  }

  lemma StepDutiful(s: State, o: Owed, step: Step)
    requires Dutiful(s, o) && Enabled(s, step)
    ensures Dutiful(Next(s, step), Owe(s, o, step))
  {
    match step
    case CallStep(t, a) => CallDutiful(s, o, t, a);
    case RetryStep(a) => RetryDutiful(s, o, a);
    case HandleStep(a) => HandleDutiful(s, o, a);
    case JobStep(t, a) => JobDutiful(s, o, t, a);
    case SweepStep(a) => SweepFrame(s, a);
    case RecvStep(a) => RecvFrame(s, a);
    case CloserStep(a) => CloseFrame(s, a);
    case EnvStep(a) => EnvFrame(s, a);
  }

  lemma {:induction false} RunDutiful(s: State, o: Owed, steps: seq<Step>)
    requires Dutiful(s, o) && Run(s, steps)
    ensures Dutiful(End(s, steps), OwedAfter(s, o, steps))
    decreases |steps|
  {
    if steps != [] {
      StepDutiful(s, o, steps[0]);
      RunDutiful(Next(s, steps[0]), Owe(s, o, steps[0]), steps[1..]);
    }
  }

  /** A call whose send failed has not returned before it dropped its key, and the retry loop has
      not gone on before it dropped the key of a failed retry. */
  lemma FailuresAreDropped(timeout: int, now: int, steps: seq<Step>)
    requires Run(Init(timeout, now), steps)
    ensures var s, o := End(Init(timeout, now), steps), OwedAfter(Init(timeout, now), NOTHING_OWED, steps);
            && (forall t :: 0 <= t < |s.goroutines| && s.goroutines[t] == Finished ==> t !in o.calls)
            && (s.retry.RetryIdle? || s.retry.RetryWaiting? || s.retry.RetryStopped? ==> o.retry.None?)
  {
    RunDutiful(Init(timeout, now), NOTHING_OWED, steps);
    var s, o := End(Init(timeout, now), steps), OwedAfter(Init(timeout, now), NOTHING_OWED, steps);
    forall t | 0 <= t < |s.goroutines| && s.goroutines[t] == Finished ensures t !in o.calls {
      assert !CallOwes(s, t);
    }
  }

  /** The retry loop resends only if the key was in the table when it got its token. */
  lemma OnlyFoundIsResent(timeout: int, now: int, steps: seq<Step>, ok: bool, canceled: bool)
    requires Run(Init(timeout, now), steps)
    requires Enabled(End(Init(timeout, now), steps), RetryStep(RetrySend(ok, canceled)))
    ensures OwedAfter(Init(timeout, now), NOTHING_OWED, steps).found
  {
    RunDutiful(Init(timeout, now), NOTHING_OWED, steps);
  }

  // ---------- nobody is stranded ----------

  /** Instance `i` waits for its retry: with the sweeper that put it back, in the retry queue, or
      with the retry loop, which sends it or drops it. */
  predicate Coming(s: State, i: nat) {
    || ((s.sweeper.BackInTable? || s.sweeper.QueueFull?) && s.sweeper.probe.id == i)
    || (exists j :: 0 <= j < |s.retryChan| && s.retryChan[j].id == i)
    || ((s.retry.RetryWaiting? || s.retry.RetryFailed?) && s.retry.alias.id == i)
  }

  predicate NoneStranded(s: State) {
    forall k :: k in s.table.probes && s.table.probes[k].sentAt.None? ==> Coming(s, s.table.probes[k].id)
  }

  lemma TrySendStrandsNone(s: State)
    requires NoneStranded(s) && SweepEnabled(s, TrySend)
    ensures NoneStranded(SweepNext(s, TrySend))
  {
    var s' := SweepNext(s, TrySend);
    SweepFrame(s, TrySend);
    forall k | k in s'.table.probes && s'.table.probes[k].sentAt.None? ensures Coming(s', s'.table.probes[k].id) {
      var i := s.table.probes[k].id;
      assert Coming(s, i);
      if j :| 0 <= j < |s.retryChan| && s.retryChan[j].id == i { assert s'.retryChan[j].id == i; }
      if s.sweeper.probe.id == i && s'.sweeper.SweepIdle? { assert s'.retryChan[|s.retryChan|].id == i; }
    }
  }

  lemma SweepStrandsNone(s: State, a: SweepAct)
    requires Traced(s) && NoneStranded(s) && SweepEnabled(s, a)
    ensures NoneStranded(SweepNext(s, a))
  {
    match a
    case TrySend => TrySendStrandsNone(s);
    case _ => OtherSweepStrandsNone(s, a);
  }

  lemma OtherSweepStrandsNone(s: State, a: SweepAct)
    requires Traced(s) && NoneStranded(s) && SweepEnabled(s, a) && !a.TrySend?
    ensures NoneStranded(SweepNext(s, a))
  {
    var s' := SweepNext(s, a);
    SweepFrame(s, a);
    forall k | k in s'.table.probes && s'.table.probes[k].sentAt.None? ensures Coming(s', s'.table.probes[k].id) {
      var i := s'.table.probes[k].id;
      if k in s.table.probes && s.table.probes[k] == s'.table.probes[k] { assert Coming(s, i); }
    }
  }

  lemma TakeStrandsNone(s: State)
    requires NoneStranded(s) && RetryEnabled(s, RetryTake)
    ensures NoneStranded(RetryNext(s, RetryTake))
  {
    var s' := RetryNext(s, RetryTake);
    forall k | k in s'.table.probes && s'.table.probes[k].sentAt.None? ensures Coming(s', s'.table.probes[k].id) {
      var i := s.table.probes[k].id;
      assert Coming(s, i);
      if j :| 0 <= j < |s.retryChan| && s.retryChan[j].id == i {
        if j > 0 { assert s'.retryChan[j - 1].id == i; }
      }
    }
  }

  lemma RetryStrandsNone(s: State, a: RetryAct)
    requires Traced(s) && NoneStranded(s) && RetryEnabled(s, a)
    ensures NoneStranded(RetryNext(s, a))
  {
    if a.RetryTake? {
      TakeStrandsNone(s);
    } else {
      var s' := RetryNext(s, a);
      RetryFrame(s, a);
      forall k | k in s'.table.probes && s'.table.probes[k].sentAt.None? ensures Coming(s', s'.table.probes[k].id) {
        assert s.table.probes[k] == s'.table.probes[k] && Coming(s, s.table.probes[k].id);
      }
    }
  }

  lemma CallStrandsNone(s: State, t: nat, a: CallAct)
    requires NoneStranded(s) && CallEnabled(s, t, a)
    ensures NoneStranded(CallNext(s, t, a))
  {
    var s' := CallNext(s, t, a);
    CallFrame(s, t, a);
    forall k | k in s'.table.probes && s'.table.probes[k].sentAt.None? ensures Coming(s', s'.table.probes[k].id) {
      assert Coming(s, s.table.probes[k].id);
    }
  }

  lemma RecvStrandsNone(s: State, a: RecvAct)
    requires NoneStranded(s) && RecvEnabled(s, a)
    ensures NoneStranded(RecvNext(s, a))
  {
    RecvFrame(s, a);
  }

  lemma CloseStrandsNone(s: State, a: CloseAct)
    requires NoneStranded(s) && CloseEnabled(s, a)
    ensures NoneStranded(CloseStep(s, a))
  {
    CloseFrame(s, a);
  }

  lemma OtherStepStrandsNone(s: State, step: Step)
    requires NoneStranded(s) && Enabled(s, step)
    requires step.HandleStep? || step.JobStep? || step.EnvStep?
    ensures NoneStranded(Next(s, step))
  {
    match step
    case HandleStep(a) => HandleFrame(s, a);
    case JobStep(t, a) => JobFrame(s, t, a);
    case EnvStep(a) => EnvFrame(s, a);
  }

  lemma StepStrandsNone(s: State, step: Step)
    requires Traced(s) && NoneStranded(s) && Enabled(s, step)
    ensures NoneStranded(Next(s, step))
  {
    match step
    case CallStep(t, a) => CallStrandsNone(s, t, a);
    case SweepStep(a) => SweepStrandsNone(s, a);
    case RetryStep(a) => RetryStrandsNone(s, a);
    case RecvStep(a) => RecvStrandsNone(s, a);
    case CloserStep(a) => CloseStrandsNone(s, a);
    case _ => OtherStepStrandsNone(s, step);
  }

  lemma {:induction false} RunStrandsNone(s: State, steps: seq<Step>)
    requires Inv(s) && NoneStranded(s) && Run(s, steps)
    ensures NoneStranded(End(s, steps))
    decreases |steps|
  {
    if steps != [] {
      StepInv(s, steps[0]);
      StepStrandsNone(s, steps[0]);
      RunStrandsNone(Next(s, steps[0]), steps[1..]);
    }
  }

  /** In every run a probe without a send stamp, which the sweep would never take for timed out, is
      on its way to its retry. */
  lemma ClearedProbesAreComing(timeout: int, now: int, steps: seq<Step>)
    requires Run(Init(timeout, now), steps)
    ensures var s := End(Init(timeout, now), steps);
            forall k :: k in s.table.probes && s.table.probes[k].sentAt.None? ==>
              var i := s.table.probes[k].id;
              || ((s.sweeper.BackInTable? || s.sweeper.QueueFull?) && s.sweeper.probe.id == i)
              || (exists j :: 0 <= j < |s.retryChan| && s.retryChan[j].id == i)
              || ((s.retry.RetryWaiting? || s.retry.RetryFailed?) && s.retry.alias.id == i)
  {
    InitInv(timeout, now);
    RunStrandsNone(Init(timeout, now), steps);
    var s := End(Init(timeout, now), steps);
    forall k | k in s.table.probes && s.table.probes[k].sentAt.None? ensures Coming(s, s.table.probes[k].id) {}
  }

  /** The sweeper and the retry loop stop only for `Close`. */
  lemma NobodyStopsEarly(timeout: int, now: int, steps: seq<Step>)
    requires Run(Init(timeout, now), steps)
    ensures var s := End(Init(timeout, now), steps);
            && (s.sweeper == SweepStopped ==> s.table.isDone && Stage(s.closer) >= 4)
            && (s.retry == RetryStopped ==> SCANNER_CTX in s.cancelled)
  {
    InitInv(timeout, now);
    RunExact(Init(timeout, now), steps);
  }
}
