/** What holds in every run of the SYN scanner. */
module SynTheorems {
  import opened ProbeTable
  import opened SynProtocol
  import opened SynOwnership
  import opened SynShutdown
  import opened SynBudget

  predicate PerInstance(s: State, i: nat) {
    && Settled(s, i) && Sampling(s, i)
    && Transmissions(s, i) <= Born(s, i) + s.rearmed[i]
    && s.swept[i] + InTable(s.table.probes, i) <= Born(s, i) + s.rearmed[i]
  }

  ghost predicate Inv(s: State) {
    && Traced(s) && Flags(s) && Timely(s) && Closing(s)
    && s.wg == Claims(s)
    && forall i: nat :: PerInstance(s, i)
  }

  lemma InitInv(timeout: int, now: int)
    ensures Inv(Init(timeout, now))
  {
    forall i: nat ensures PerInstance(Init(timeout, now), i) {
      InTableBound(map[], i);
    }
  }

  lemma StepInv(s: State, step: Step)
    requires Inv(s) && Enabled(s, step)
    ensures Inv(Next(s, step))
  {
    assert PerInstance(s, |s.births|);
    if step == SweepStep(Decide) { assert PerInstance(s, s.sweeper.probe.id); }
    StepTraced(s, step);
    StepFlags(s, step);
    StepTimely(s, step);
    StepClosing(s, step);
    StepClaims(s, step);
    forall i: nat ensures PerInstance(Next(s, step), i) {
      assert PerInstance(s, i);
      InstanceStep(s, step, i);
    }
  }

  lemma InstanceStep(s: State, step: Step, i: nat)
    requires Traced(s) && Flags(s) && PerInstance(s, i) && Enabled(s, step)
    ensures PerInstance(Next(s, step), i)
  {
    SettledStep(s, step, i);
    StepSampling(s, step, i);
    StepPaid(s, step, i);
    StepSwept(s, step, i);
  }

  // ---------- exactly one owner, exactly one event ----------

  /** Every reservation is held in exactly one place or has been reported exactly once. */
  ghost predicate Exact(s: State) {
    forall i: nat :: i < |s.births| ==> Weight(s, i) == 1
  }

  lemma ExactStep(s: State, step: Step)
    requires Inv(s) && Enabled(s, step)
    ensures Exact(Next(s, step)) <==> Exact(s) && CleanStep(s, step)
  {
    var s' := Next(s, step);
    StepFrame(s, step);
    if Exact(s) && CleanStep(s, step) {
      forall i: nat | i < |s'.births| ensures Weight(s', i) == 1 {
        StepWeight(s, step, i);
        assert PerInstance(s, i);
      }
    } else if !Exact(s) {
      var i: nat :| i < |s.births| && Weight(s, i) != 1;
      assert PerInstance(s, i);
      StepWeight(s, step, i);
      LostStays(s, step, i);
      assert i < |s'.births|;
    } else {
      var i := s.sweeper.probe.id;
      assert PerInstance(s, i);
      StepWeight(s, step, i);
      assert Weight(s', i) != 1;
    }
  }

  /** An instance that is out of balance is out of reach of the steps that change a balance. */
  lemma LostStays(s: State, step: Step, i: nat)
    requires Settled(s, i) && Weight(s, i) != 1 && i < |s.births| && Enabled(s, step)
    ensures Delta(s, step, i) == 0
  {
    if step == SweepStep(DropRearmed) {
      TableDrop(s.table.probes, s.sweeper.probe.key, i);
    }
  }

  /** An instance that is neither held nor reported is never reported. */
  lemma {:induction false} LostForever(s: State, steps: seq<Step>, i: nat)
    requires Inv(s) && Run(s, steps) && i < |s.births| && Weight(s, i) == 0
    ensures Events(End(s, steps).log, i) == 0
    decreases |steps|
  {
    if steps != [] {
      assert PerInstance(s, i);
      StepInv(s, steps[0]);
      StepWeight(s, steps[0], i);
      LostStays(s, steps[0], i);
      StepFrame(s, steps[0]);
      LostForever(Next(s, steps[0]), steps[1..], i);
    }
  }

  lemma {:induction false} RunExact(s: State, steps: seq<Step>)
    requires Inv(s) && Run(s, steps)
    ensures Inv(End(s, steps))
    ensures Exact(End(s, steps)) <==> Exact(s) && Clean(s, steps)
    decreases |steps|
  {
    if steps != [] {
      StepInv(s, steps[0]);
      ExactStep(s, steps[0]);
      RunExact(Next(s, steps[0]), steps[1..]);
    }
  }

  /** Ownership is exact at the end of a run if and only if every queue-full drop in the run
      found the very instance it had rearmed. */
  lemma OwnershipExactIffClean(timeout: int, now: int, steps: seq<Step>)
    requires Run(Init(timeout, now), steps)
    ensures var s := End(Init(timeout, now), steps);
            (forall i: nat :: i < |s.births| ==> Weight(s, i) == 1) <==> Clean(Init(timeout, now), steps)
  {
    InitInv(timeout, now);
    RunExact(Init(timeout, now), steps);
  }

  lemma AtMostOneEvent(timeout: int, now: int, steps: seq<Step>)
    requires Run(Init(timeout, now), steps) && Clean(Init(timeout, now), steps)
    ensures forall i: nat :: Events(End(Init(timeout, now), steps).log, i) <= 1
  {
    var s := End(Init(timeout, now), steps);
    InitInv(timeout, now);
    RunExact(Init(timeout, now), steps);
    assert Exact(s);
    forall i: nat ensures Events(s.log, i) <= 1 {
      assert PerInstance(s, i);
      assert Weight(s, i) <= 1;
    }
  }

  lemma {:induction false} NothingHeld(gs: seq<Goroutine>, i: nat)
    requires forall t :: 0 <= t < |gs| ==> gs[t] == Finished
    ensures OfGoroutines(gs, i) == 0
  {
    if gs != [] { NothingHeld(gs[1..], i); }
  }

  lemma NoneGuarded(gs: seq<Goroutine>)
    requires forall t :: 0 <= t < |gs| ==> gs[t] == Finished
    ensures forall k :: !Guarded(gs, k)
  {}

  lemma QuiescentWeight(s: State, i: nat)
    requires Closing(s) && Quiescent(s)
    ensures Weight(s, i) == Events(s.log, i)
  {
    NothingHeld(s.goroutines, i);
    NoneGuarded(s.goroutines);
    assert s.table.probes == map[];
    InTableBound(s.table.probes, i);
  }

  /** After `Close` returned and the last actor finished, every reservation has been reported
      exactly once if and only if the run was clean. */
  lemma ExactlyOneEventAfterClose(timeout: int, now: int, steps: seq<Step>)
    requires Run(Init(timeout, now), steps) && Quiescent(End(Init(timeout, now), steps))
    ensures var s := End(Init(timeout, now), steps);
            (forall i: nat :: i < |s.births| ==> Events(s.log, i) == 1) <==> Clean(Init(timeout, now), steps)
  {
    var s := End(Init(timeout, now), steps);
    InitInv(timeout, now);
    RunExact(Init(timeout, now), steps);
    if Exact(s) {
      forall i: nat | i < |s.births| ensures Events(s.log, i) == 1 { QuiescentWeight(s, i); }
    } else {
      var i: nat :| i < |s.births| && Weight(s, i) != 1;
      QuiescentWeight(s, i);
    }
  }

  /** Clean or not, every event names a reservation and reports its own destination, callback
      and start, although keys are reused and drops go by key. */
  lemma EventsGoToTheirInstance(timeout: int, now: int, steps: seq<Step>)
    requires Run(Init(timeout, now), steps)
    ensures var s := End(Init(timeout, now), steps);
            forall j :: 0 <= j < |s.log| ==> Faithful(s.log[j], s.births)
  {
    InitInv(timeout, now);
    RunExact(Init(timeout, now), steps);
  }

  /** Clean or not, each instance is put back at most once, sampled at most once, and swept
      and transmitted at most twice, so its timeouts and retries come to an end. */
  lemma LifecycleBounded(timeout: int, now: int, steps: seq<Step>, i: nat)
    requires Run(Init(timeout, now), steps)
    ensures var s := End(Init(timeout, now), steps);
            && s.rearmed[i] <= 1 && s.sampled[i] <= s.rearmed[i]
            && s.swept[i] <= 1 + s.rearmed[i] && s.sent[i] <= 1 + s.rearmed[i]
            && (i >= |s.births| ==> s.swept[i] == 0 && s.sent[i] == 0)
  {
    InitInv(timeout, now);
    RunExact(Init(timeout, now), steps);
    assert PerInstance(End(Init(timeout, now), steps), i);
  }

  /** NoResponse is reported only when more than the timeout has passed since the stamp of the
      copy the sweep took, so never for a cleared stamp. */
  lemma NoResponseIsOverdue(timeout: int, now: int, steps: seq<Step>)
    requires Run(Init(timeout, now), steps)
    ensures var s := End(Init(timeout, now), steps);
            forall j :: 0 <= j < |s.log| && s.log[j].outcome == NoResponse ==>
              s.log[j].stamp.Some? && s.log[j].at - s.log[j].stamp.value > timeout
  {
    InitInv(timeout, now);
    RunExact(Init(timeout, now), steps);
    TimeoutFixed(Init(timeout, now), steps);
  }

  lemma {:induction false} TimeoutFixed(s: State, steps: seq<Step>)
    requires Run(s, steps)
    ensures End(s, steps).timeout == s.timeout
    decreases |steps|
  {
    if steps != [] {
      StepFrame(s, steps[0]);
      TimeoutFixed(Next(s, steps[0]), steps[1..]);
    }
  }

  /** The wait group counts exactly the claimed, queued, handled and pooled open probes: it is
      never negative, at zero no matched probe is on its way, and once the open-port channel
      is closed the receiver cannot send on it. */
  lemma WaitGroupCountsOpenProbes(timeout: int, now: int, steps: seq<Step>)
    requires Run(Init(timeout, now), steps)
    ensures var s := End(Init(timeout, now), steps);
            && s.wg == Claims(s) >= 0
            && (s.wg == 0 ==> s.openChan == [] && !s.recv.Matched? && !s.handler.GotOpen? && !s.handler.Delivering?
                              && forall t :: 0 <= t < |s.goroutines| ==> !s.goroutines[t].Job?)
            && (s.openClosed ==> !RecvEnabled(s, Enqueue) && !RecvEnabled(s, TakeMatch))
  {
    var s := End(Init(timeout, now), steps);
    InitInv(timeout, now);
    RunExact(Init(timeout, now), steps);
    if s.wg == 0 { NoJobs(s.goroutines); }
  }

  lemma {:induction false} NoJobs(gs: seq<Goroutine>)
    requires JobClaims(gs) == 0
    ensures forall t :: 0 <= t < |gs| ==> !gs[t].Job?
  {
    if gs != [] {
      NoJobs(gs[1..]);
      forall t | 0 <= t < |gs| ensures !gs[t].Job? {
        if t > 0 { assert gs[t] == gs[1..][t - 1]; }
      }
    }
  }

  /** While the scanner is not cancelled and the wait group is at zero, an unreported instance
      outside the table can only be with the sweeper, the retry loop, the reset branch, a call
      whose send failed, or `Close`; a matched open probe is never among them. */
  lemma MatchedProbesAreCounted(timeout: int, now: int, steps: seq<Step>, i: nat)
    requires Run(Init(timeout, now), steps) && Clean(Init(timeout, now), steps)
    ensures var s := End(Init(timeout, now), steps);
            i < |s.births| && s.wg == 0 && SCANNER_CTX !in s.cancelled
            && InTable(s.table.probes, i) == 0 && Events(s.log, i) == 0 ==>
              Count(s.expired, i) + OfSweeper(s.sweeper, i) + OfRetry(s.retry, i)
              + (if s.recv.GotReset? then Is(s.recv.probe, i) else 0)
              + OfGoroutines(s.goroutines, i) + OfCloser(s.closer, i) == 1
              && forall t :: 0 <= t < |s.goroutines| ==> !s.goroutines[t].Job?
  {
    var s := End(Init(timeout, now), steps);
    InitInv(timeout, now);
    RunExact(Init(timeout, now), steps);
    assert Exact(s);
    if s.wg == 0 && i < |s.births| {
      NoJobs(s.goroutines);
      assert Weight(s, i) == 1;
    }
  }

  // ---------- when everything has been reported ----------

  /** Nobody holds a probe that is still to be reported. */
  predicate Vacant(s: State) {
    && s.table.probes == map[] && s.expired == [] && s.openChan == []
    && !s.sweeper.Checking? && !s.sweeper.Deciding? && !s.sweeper.SweepEmit?
    && !s.retry.RetryTracked?
    && !s.recv.Matched? && !s.recv.GotReset? && !s.recv.Refused?
    && !s.handler.GotOpen? && (s.handler.Delivering? ==> s.handler.delivery.Reported?)
    && (forall t :: 0 <= t < |s.goroutines| ==> !Carries(s.goroutines[t]))
    && (s.closer.Drained? ==> s.closer.pending == [])
  }

  /** A failed send's probe, or a job's that is not over. */
  predicate Carries(g: Goroutine) {
    g.Dropped? || (g.Job? && !g.delivery.Reported?)
  }

  function Carried(g: Goroutine): PendingProbe
    requires Carries(g)
  {
    if g.Dropped? then g.probe else g.delivery.probe
  }

  predicate AllReported(s: State) {
    forall i: nat :: i < |s.births| ==> Events(s.log, i) == 1
  }

  lemma {:induction false} NoneCarried(gs: seq<Goroutine>, i: nat)
    requires forall t :: 0 <= t < |gs| ==> !Carries(gs[t])
    ensures OfGoroutines(gs, i) == 0
  {
    if gs != [] { NoneCarried(gs[1..], i); }
  }

  lemma {:induction false} CarriedCounts(gs: seq<Goroutine>, t: nat)
    requires t < |gs| && Carries(gs[t])
    ensures OfGoroutines(gs, Carried(gs[t]).id) >= 1
  {
    if t > 0 { CarriedCounts(gs[1..], t - 1); }
  }

  lemma VacantWeight(s: State, i: nat)
    requires Vacant(s)
    ensures Weight(s, i) == Events(s.log, i)
  {
    NoneCarried(s.goroutines, i);
    InTableBound(s.table.probes, i);
  }

  /** Somebody holds the instance `i`. */
  lemma SomebodyHolds(s: State) returns (i: nat)
    requires Traced(s) && !Vacant(s)
    ensures i < |s.births| && InTable(s.table.probes, i) + Held(s, i) >= 1
  {
    if s.table.probes != map[] {
      var k :| k in s.table.probes;
      i := s.table.probes[k].id;
      TableKeyed(s, i);
    } else if s.expired != [] {
      i := s.expired[0].id;
    } else if s.openChan != [] {
      i := s.openChan[0].id;
    } else if s.sweeper.Checking? || s.sweeper.Deciding? || s.sweeper.SweepEmit? {
      i := s.sweeper.probe.id;
    } else if s.closer.Drained? && s.closer.pending != [] {
      i := s.closer.pending[0].id;
    } else {
      i := WorkerHolds(s);
    }
  }

  lemma WorkerHolds(s: State) returns (i: nat)
    requires Traced(s)
    requires || s.retry.RetryTracked? || s.recv.Matched? || s.recv.GotReset? || s.recv.Refused?
             || s.handler.GotOpen? || (s.handler.Delivering? && !s.handler.delivery.Reported?)
             || exists t :: 0 <= t < |s.goroutines| && Carries(s.goroutines[t])
    ensures i < |s.births| && Held(s, i) >= 1
  {
    if s.retry.RetryTracked? {
      i := s.retry.probe.id;
    } else if s.recv.Matched? || s.recv.GotReset? || s.recv.Refused? {
      i := s.recv.probe.id;
    } else if s.handler.GotOpen? {
      i := s.handler.probe.id;
    } else if s.handler.Delivering? && !s.handler.delivery.Reported? {
      i := s.handler.delivery.probe.id;
    } else {
      var t :| 0 <= t < |s.goroutines| && Carries(s.goroutines[t]);
      i := Carried(s.goroutines[t]).id;
      CarriedCounts(s.goroutines, t);
      assert KnownGoroutine(s.goroutines[t], s.births);
    }
  }

  /** At every moment of every clean run, all reservations have been reported exactly once if and
      only if nobody holds a probe; and when nobody does, they have been if and only if the run
      was clean. */
  lemma AllReportedIffVacant(timeout: int, now: int, steps: seq<Step>)
    requires Run(Init(timeout, now), steps)
    ensures var s := End(Init(timeout, now), steps);
            && (Clean(Init(timeout, now), steps) ==> (AllReported(s) <==> Vacant(s)))
            && (Vacant(s) ==> (AllReported(s) <==> Clean(Init(timeout, now), steps)))
  {
    var s := End(Init(timeout, now), steps);
    InitInv(timeout, now);
    RunExact(Init(timeout, now), steps);
    if Vacant(s) {
      forall i: nat ensures Weight(s, i) == Events(s.log, i) { VacantWeight(s, i); }
      assert Exact(s) <==> AllReported(s);
    } else if Exact(s) {
      var i := SomebodyHolds(s);
      assert Weight(s, i) == 1;
    }
  }

  /** Nobody whom the wait group does not count holds a probe. */
  predicate NobodyElse(s: State) {
    && s.expired == []
    && !s.sweeper.Checking? && !s.sweeper.Deciding? && !s.sweeper.SweepEmit?
    && !s.retry.RetryTracked? && !s.recv.GotReset? && !s.recv.Refused?
    && (forall t :: 0 <= t < |s.goroutines| ==> !s.goroutines[t].Dropped?)
    && (s.closer.Drained? ==> s.closer.pending == [])
  }

  /** `Wait` looks at the table, the channel and the wait group one after the other, and gives up
      on the table after a while, so that only the last answer is current when it is passed. At
      that moment, after a clean run, every reservation has been reported exactly once if and
      only if the table is empty, still or again, and nobody else holds a probe; and when that
      is so, if and only if the run was clean. */
  lemma WaitIsCompleteIff(timeout: int, now: int, steps: seq<Step>)
    requires Run(Init(timeout, now), steps) && End(Init(timeout, now), steps).wg == 0
    ensures var s := End(Init(timeout, now), steps);
            var idle := s.table.probes == map[] && NobodyElse(s);
            && (Clean(Init(timeout, now), steps) ==> (AllReported(s) <==> idle))
            && (idle ==> (AllReported(s) <==> Clean(Init(timeout, now), steps)))
  {
    var s := End(Init(timeout, now), steps);
    AllReportedIffVacant(timeout, now, steps);
    WaitGroupCountsOpenProbes(timeout, now, steps);
    assert Vacant(s) <==> s.table.probes == map[] && NobodyElse(s);
  }

  // ---------- after `Close` ----------

  /** Whatever follows once the table is closed, the NoResponse events reported by then are
      those before and, if the sweeper was bound to say so, one more as soon as it has. */
  lemma LateNoResponseIff(timeout: int, now: int, before: seq<Step>, after: seq<Step>)
    requires Run(Init(timeout, now), before) && End(Init(timeout, now), before).table.isDone
    requires Run(End(Init(timeout, now), before), after)
    ensures var s := End(Init(timeout, now), before);
            && NoResponses(End(s, after).log) + WillSay(End(s, after)) == NoResponses(s.log) + WillSay(s)
            && (End(s, after).sweeper.SweepIdle? || End(s, after).sweeper.SweepStopped? ==>
                  (NoResponses(End(s, after).log) > NoResponses(s.log) <==> WillSay(s) == 1))
  {
    InitInv(timeout, now);
    RunExact(Init(timeout, now), before);
    RunSays(End(Init(timeout, now), before), after);
  }

  /** When `Close` comes to the fingerprint pool, nobody is left to submit to it. */
  lemma NoSubmitAfterPoolCloses(timeout: int, now: int, steps: seq<Step>)
    requires Run(Init(timeout, now), steps)
    ensures var s := End(Init(timeout, now), steps);
            s.closer == HandlerJoined || s.closer == CloseReturned ==>
              !s.handler.GotOpen? && forall a :: !HandleEnabled(s, a)
  {
    InitInv(timeout, now);
    RunExact(Init(timeout, now), steps);
  }
}
