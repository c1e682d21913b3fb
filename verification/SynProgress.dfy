/** `Close` cannot block for good: from every reachable state some run brings it to its end, with
    all other actors ended too. */
module SynProgress {
  import opened ProbeTable
  import opened SynProtocol
  import opened SynOwnership
  import opened SynShutdown
  import opened SynTheorems

  // ---------- how much each actor has left to do ----------

  function SweepLeft(w: Sweeper): nat {
    match w
    case SweepStopped => 0 case SweepIdle => 1 case SweepEmit(_, _) => 2 case QueueFull(_) => 3
    case BackInTable(_) => 4 case Deciding(_) => 5 case Checking(_) => 6
  }

  function RetryLeft(r: RetryLoop): nat {
    match r
    case RetryStopped => 0 case RetryIdle => 1 case RetryTracked(_, _) => 2 case RetryFailed(_, _) => 3
    case RetryTouched(_) => 4 case RetryWaiting(_) => 5
  }

  /** A match still has to go through the handler. */
  function RecvLeft(r: Receiver): nat {
    match r
    case RecvStopped => 0 case RecvIdle => 1 case Unmatched => 2 case GotReset(_) => 2 case Refused(_) => 2
    case Matched(_) => 10 case Claimed(_) => 11
  }

  function DeliveryLeft(d: Delivery): nat {
    match d case Reported => 1 case Queued(_) => 2 case Cleared(_) => 3 case Confirmed(_) => 4
  }

  function HandlerLeft(h: Handler): nat {
    match h
    case HandlerStopped => 0 case HandlerIdle => 1 case Delivering(d) => 1 + DeliveryLeft(d) case GotOpen(_) => 6
  }

  function GoroutineLeft(g: Goroutine): nat {
    match g
    case Finished => 0 case Started(_, _, _, _) => 1 case Job(d) => DeliveryLeft(d) case Dropped(_) => 1
    case AfterSend(_, _, sampled) => if sampled then 3 else 2
    case Reserved(_, _) => 4
  }

  function GoroutinesLeft(gs: seq<Goroutine>): nat {
    if gs == [] then 0 else GoroutineLeft(gs[0]) + GoroutinesLeft(gs[1..])
  }

  function Work(s: State): nat {
    8 * |s.expired| + SweepLeft(s.sweeper) + RetryLeft(s.retry) + RecvLeft(s.recv)
    + 8 * |s.openChan| + HandlerLeft(s.handler) + GoroutinesLeft(s.goroutines)
  }

  function PendingLeft(c: Closer): nat {
    match c case Drained(ps) => |ps| case _ => 0
  }

  /** Nearer the end: `Close` has got on, or somebody else has while it stayed where it was. */
  predicate Nearer(s': State, s: State) {
    || Stage(s'.closer) > Stage(s.closer)
    || (Stage(s'.closer) == Stage(s.closer) && PendingLeft(s'.closer) < PendingLeft(s.closer))
    || (s'.closer == s.closer && Work(s') < Work(s))
  }

  lemma {:induction false} LeftUpdate(gs: seq<Goroutine>, t: nat, g: Goroutine)
    requires t < |gs|
    ensures GoroutinesLeft(gs[t := g]) + GoroutineLeft(gs[t]) == GoroutinesLeft(gs) + GoroutineLeft(g)
  {
    if t == 0 {
      assert gs[0 := g][1..] == gs[1..];
    } else {
      LeftUpdate(gs[1..], t - 1, g);
      assert gs[t := g][1..] == gs[1..][t - 1 := g];
    }
  }

  // ---------- each actor can get on by itself ----------

  lemma RetryGetsOn(s: State) returns (a: RetryAct)
    requires s.retry != RetryStopped && SCANNER_CTX in s.cancelled
    ensures RetryEnabled(s, a) && Nearer(RetryNext(s, a), s)
  {
    a := match s.retry
         case RetryIdle => RetryStop
         case RetryWaiting(_) => RetryWaitFails(false)
         case RetryTouched(_) => RetrySend(false, false)
         case RetryFailed(_, _) => RetryDrop
         case _ => RetryReport;
    RetryFrame(s, a);
  }

  lemma IdleSweeperGetsOn(s: State)
    requires s.sweeper == SweepIdle && s.table.isDone
    ensures var a := if s.expired != [] then Pop else SweepStop; SweepEnabled(s, a) && Nearer(SweepNext(s, a), s)
  {}

  function SweepOn(w: Sweeper): SweepAct {
    match w
    case Checking(_) => Check
    case Deciding(_) => Decide
    case BackInTable(_) => TrySend
    case QueueFull(_) => DropRearmed
    case _ => SweepReport
  }

  lemma DecideFalls(s: State)
    requires SweepEnabled(s, Decide)
    ensures SweepNext(s, Decide).expired == s.expired && SweepLeft(SweepNext(s, Decide).sweeper) < 5
  {}

  lemma BusySweeperFalls(s: State)
    requires s.sweeper != SweepIdle && s.sweeper != SweepStopped
    ensures var s' := SweepNext(s, SweepOn(s.sweeper));
            s'.expired == s.expired && SweepLeft(s'.sweeper) < SweepLeft(s.sweeper)
  {
    match s.sweeper
    case Deciding(_) => DecideFalls(s);
    case Checking(_) =>
    case BackInTable(_) =>
    case QueueFull(_) =>
    case SweepEmit(_, _) =>
  }

  lemma BusySweeperGetsOn(s: State)
    requires s.sweeper != SweepIdle && s.sweeper != SweepStopped
    ensures SweepEnabled(s, SweepOn(s.sweeper)) && Nearer(SweepNext(s, SweepOn(s.sweeper)), s)
  {
    var s' := SweepNext(s, SweepOn(s.sweeper));
    SweepFrame(s, SweepOn(s.sweeper));
    BusySweeperFalls(s);
    assert s'.closer == s.closer && Work(s') < Work(s);
  }

  lemma SweeperGetsOn(s: State) returns (a: SweepAct)
    requires s.sweeper != SweepStopped && s.table.isDone
    ensures SweepEnabled(s, a) && Nearer(SweepNext(s, a), s)
  {
    if s.sweeper == SweepIdle {
      IdleSweeperGetsOn(s);
      a := if s.expired != [] then Pop else SweepStop;
    } else {
      BusySweeperGetsOn(s);
      a := SweepOn(s.sweeper);
    }
  }

  lemma ReceiverGetsOn(s: State) returns (a: RecvAct)
    requires s.recv != RecvStopped
    ensures RecvEnabled(s, a) && Nearer(RecvNext(s, a), s)
  {
    a := match s.recv
         case RecvIdle => RecvStop
         case Claimed(_) => TakeMatch
         case Unmatched => Unclaim
         case Matched(_) => Enqueue
         case Refused(_) => ReportRefused
         case _ => ReportClosed;
    RecvFrame(s, a);
  }

  function DeliverOn(s: State, d: Delivery): DeliverAct {
    match d
    case Confirmed(p) => if p.ctx in s.cancelled then AbortResult else Clear
    case Cleared(_) => QueueResult
    case Queued(_) => ReportOpen
    case Reported => Release
  }

  lemma HandlerGetsOn(s: State) returns (a: HandleAct)
    requires s.handler != HandlerStopped && s.openClosed
    ensures HandleEnabled(s, a) && Nearer(HandleNext(s, a), s)
  {
    match s.handler
    case HandlerIdle => a := if s.openChan != [] then HandlerTake else HandlerStop;
    case GotOpen(_) => a := Inline;
    case Delivering(d) => a := Deliver(DeliverOn(s, d));
    HandleFrame(s, a);
  }

  function CallOn(g: Goroutine): CallAct {
    match g
    case Started(_, _, _, _) => GiveUp
    case Reserved(_, _) => Send(false, false)
    case AfterSend(_, ok, sampled) => if sampled then KeepRetry else if ok then Return else Drop
    case _ => EmitError
  }

  lemma JobGetsOn(s: State, t: nat)
    requires t < |s.goroutines| && s.goroutines[t].Job?
    ensures var a := DeliverOn(s, s.goroutines[t].delivery); JobEnabled(s, t, a) && Nearer(JobNext(s, t, a), s)
  {
    var a := DeliverOn(s, s.goroutines[t].delivery);
    JobFrame(s, t, a);
    LeftUpdate(s.goroutines, t, JobNext(s, t, a).goroutines[t]);
  }

  lemma CallGetsOn(s: State, t: nat)
    requires t < |s.goroutines| && s.goroutines[t] != Finished && !s.goroutines[t].Job?
    ensures var a := CallOn(s.goroutines[t]); CallEnabled(s, t, a) && Nearer(CallNext(s, t, a), s)
  {
    var a := CallOn(s.goroutines[t]);
    CallFrame(s, t, a);
    LeftUpdate(s.goroutines, t, CallNext(s, t, a).goroutines[t]);
  }

  lemma GoroutineGetsOn(s: State, t: nat) returns (step: Step)
    requires t < |s.goroutines| && s.goroutines[t] != Finished
    ensures Enabled(s, step) && Nearer(Next(s, step), s)
  {
    if s.goroutines[t].Job? {
      JobGetsOn(s, t);
      step := JobStep(t, DeliverOn(s, s.goroutines[t].delivery));
    } else {
      CallGetsOn(s, t);
      step := CallStep(t, CallOn(s.goroutines[t]));
    }
  }

  lemma ListOne(m: Probes, k: ProbeKey, rest: seq<PendingProbe>)
    requires k in m && m[k].key == k && Enumerates(m - {k}, rest)
    ensures Enumerates(m, [m[k]] + rest)
  {
    var out := [m[k]] + rest;
    forall c | c in m ensures m[c].key == c && m[c] in out {
      if c == k { assert out[0] == m[c]; } else { assert (m - {k})[c] in rest; }
    }
  }

  /** Any table can be listed. */
  lemma {:induction false} Listing(m: Probes) returns (out: seq<PendingProbe>)
    requires WellKeyed(m)
    ensures Enumerates(m, out)
    decreases |m|
  {
    if m == map[] {
      out := [];
    } else {
      var k :| k in m;
      ShrinksBy(m, k);
      var rest := Listing(m - {k});
      ListOne(m, k, rest);
      out := [m[k]] + rest;
    }
  }

  lemma {:induction false} NoClaims(gs: seq<Goroutine>)
    requires forall t :: 0 <= t < |gs| ==> gs[t] == Finished
    ensures JobClaims(gs) == 0
  {
    if gs != [] { NoClaims(gs[1..]); }
  }

  /** `Close` gets on when what it waits for has happened. */
  lemma CloserGetsOn(s: State) returns (a: CloseAct)
    requires Inv(s) && s.closer != CloseReturned
    requires Stage(s.closer) >= 2 ==> s.retry == RetryStopped
    requires s.closer == Drained([]) ==> s.recv == RecvStopped
    requires Stage(s.closer) >= 7 ==> s.handler == HandlerStopped
    requires s.closer == HandlerJoined ==> forall t :: 0 <= t < |s.goroutines| ==> s.goroutines[t] == Finished
    ensures CloseEnabled(s, a) && Nearer(CloseStep(s, a), s)
  {
    match s.closer
    case TableDone =>
      var out := Listing(s.table.probes);
      a := DrainTable(out);
    case Drained(pending) => a := if pending != [] then ReportPending else CloseNext;
    case HandlerJoined => NoClaims(s.goroutines); a := CloseNext;
    case _ => a := CloseNext;
  }

  // ---------- somebody can always get on ----------

  /** Actors other than `Close`, in the order in which it waits for them. */
  lemma OthersGetOn(s: State) returns (step: Step)
    requires Inv(s) && Stage(s.closer) >= 2
    requires || s.retry != RetryStopped
             || (Stage(s.closer) >= 5 && s.sweeper != SweepStopped)
             || (Stage(s.closer) >= 5 && s.recv != RecvStopped)
             || (Stage(s.closer) >= 7 && s.handler != HandlerStopped)
             || exists t :: 0 <= t < |s.goroutines| && s.goroutines[t] != Finished
    ensures Enabled(s, step) && Nearer(Next(s, step), s)
  {
    if s.retry != RetryStopped {
      var a := RetryGetsOn(s);
      step := RetryStep(a);
    } else if Stage(s.closer) >= 5 && s.sweeper != SweepStopped {
      var a := SweeperGetsOn(s);
      step := SweepStep(a);
    } else if Stage(s.closer) >= 5 && s.recv != RecvStopped {
      var a := ReceiverGetsOn(s);
      step := RecvStep(a);
    } else if Stage(s.closer) >= 7 && s.handler != HandlerStopped {
      var a := HandlerGetsOn(s);
      step := HandleStep(a);
    } else {
      var t :| 0 <= t < |s.goroutines| && s.goroutines[t] != Finished;
      step := GoroutineGetsOn(s, t);
    }
  }

  lemma SomebodyGetsOn(s: State) returns (step: Step)
    requires Inv(s) && !Quiescent(s)
    ensures Enabled(s, step) && Nearer(Next(s, step), s)
  {
    if Stage(s.closer) >= 2 &&
       (|| s.retry != RetryStopped
        || (Stage(s.closer) >= 5 && s.sweeper != SweepStopped)
        || (Stage(s.closer) >= 5 && s.recv != RecvStopped)
        || (Stage(s.closer) >= 7 && s.handler != HandlerStopped)
        || exists t :: 0 <= t < |s.goroutines| && s.goroutines[t] != Finished) {
      step := OthersGetOn(s);
    } else {
      var a := CloserGetsOn(s);
      step := CloserStep(a);
    }
  }

  lemma {:induction false} ReachesTheEnd(s: State) returns (steps: seq<Step>)
    requires Inv(s)
    ensures Run(s, steps) && Quiescent(End(s, steps))
    decreases 9 - Stage(s.closer), PendingLeft(s.closer), Work(s)
  {
    if Quiescent(s) {
      steps := [];
    } else {
      var step := SomebodyGetsOn(s);
      StepInv(s, step);
      var rest := ReachesTheEnd(Next(s, step));
      steps := [step] + rest;
      assert steps[1..] == rest;
    }
  }

  /** Whatever has happened so far, `Close` can still come to its end with every actor ended: no
      order of its waits can block for good. */
  lemma CloseCanAlwaysFinish(timeout: int, now: int, before: seq<Step>) returns (after: seq<Step>)
    requires Run(Init(timeout, now), before)
    ensures Run(End(Init(timeout, now), before), after)
    ensures Quiescent(End(End(Init(timeout, now), before), after))
  {
    InitInv(timeout, now);
    RunExact(Init(timeout, now), before);
    after := ReachesTheEnd(End(Init(timeout, now), before));
  }
}
