/** When each instance was last stamped as sent, and what that says about a missing answer. */
module SynStamps {
  import opened ProbeTable
  import opened SynProtocol
  import opened SynOwnership
  import opened SynBudget
  import opened SynTheorems

  /** The latest send stamp of each instance, and the instances stamped after they were put back. */
  datatype Stamps = Stamps(last: map<nat, int>, touched: set<nat>)

  const NO_STAMPS := Stamps(map[], {})

  /** A reservation stamps the new instance, a retry the one that holds its key by then. */
  function Note(s: State, h: Stamps, step: Step): Stamps
    requires Enabled(s, step)
  {
    match step
    case CallStep(_, Reserve(_, at)) => h.(last := h.last[|s.births| := at])
    case RetryStep(RetryTouch(at)) =>
      if s.retry.alias.key in s.table.probes then
        var p := s.table.probes[s.retry.alias.key];
        Stamps(h.last[p.id := at], if p.retried then h.touched + {p.id} else h.touched)
      else h
    case _ => h
  }

  function StampsAfter(s: State, h: Stamps, steps: seq<Step>): Stamps
    requires Run(s, steps)
    decreases |steps|
  {
    if steps == [] then h else StampsAfter(Next(s, steps[0]), Note(s, h, steps[0]), steps[1..])
  }

  /** The sweeper put the instance back and is bound to drop it again: the retry queue is full. */
  predicate Condemned(s: State, i: nat) {
    match s.sweeper
    case BackInTable(p) => p.id == i && |s.retryChan| >= RETRY_CAP
    case QueueFull(p) => p.id == i
    case _ => false
  }

  /** A retry stamps, within the timeout, an instance that is bound to be dropped. */
  predicate Hits(s: State, step: Step) {
    && step.RetryStep? && step.retry.RetryTouch? && s.retry.RetryWaiting?
    && s.retry.alias.key in s.table.probes
    && Condemned(s, s.table.probes[s.retry.alias.key].id)
    && s.now - step.retry.at <= s.timeout
  }

  ghost predicate NoHits(s: State, steps: seq<Step>)
    requires Run(s, steps)
    decreases |steps|
  {
    steps == [] || (!Hits(s, steps[0]) && NoHits(Next(s, steps[0]), steps[1..]))
  }

  // ---------- the copies ----------

  /** A copy that can still be timed out carries its instance's latest stamp, and none exactly
      between its return to the table and the next stamp. */
  predicate Current(p: PendingProbe, h: Stamps) {
    && p.id in h.last
    && (p.sentAt.Some? ==> p.sentAt.value == h.last[p.id])
    && (p.sentAt.None? <==> p.retried && p.id !in h.touched)
    && (p.id in h.touched ==> p.retried)
  }

  predicate Copies(s: State, h: Stamps) {
    && (forall k :: k in s.table.probes ==> Current(s.table.probes[k], h))
    && (forall j :: 0 <= j < |s.expired| ==> Current(s.expired[j], h))
    && (s.sweeper.Checking? || s.sweeper.Deciding? ==> Current(s.sweeper.probe, h))
    && (forall i :: i in h.touched ==> i < |s.births|)
  }

  /** More than the timeout has passed since the latest stamp of `i`. */
  predicate Late(i: nat, at: int, timeout: int, h: Stamps) {
    i in h.last && at - h.last[i] > timeout
  }

  predicate LateEvent(e: Event, timeout: int, h: Stamps) {
    e.outcome == NoResponse ==> Late(e.id, e.at, timeout, h)
  }

  predicate LateLog(s: State, h: Stamps) {
    forall j :: 0 <= j < |s.log| ==> LateEvent(s.log[j], s.timeout, h)
  }

  predicate Verdicts(s: State, h: Stamps) {
    && LateLog(s, h)
    && match s.sweeper
       case BackInTable(p) => |s.retryChan| >= RETRY_CAP ==> Late(p.id, s.now, s.timeout, h)
       case QueueFull(p) => Late(p.id, s.now, s.timeout, h)
       case SweepEmit(p, o) => o == NoResponse ==> Late(p.id, s.now, s.timeout, h)
       case _ => true
  }

  // ---------- stamping ----------

  lemma {:induction false} NotLogged(log: seq<Event>, i: nat)
    requires Events(log, i) == 0
    ensures forall j :: 0 <= j < |log| ==> log[j].id != i
  {
    if log != [] { NotLogged(log[..|log| - 1], i); }
  }

  /** The instance under `k`, if any, is nowhere else but in an alias. */
  predicate Alone(s: State, k: ProbeKey) {
    k in s.table.probes ==>
      var i := s.table.probes[k].id;
      && i < |s.births|
      && (forall c :: c in s.table.probes && c != k ==> s.table.probes[c].id != i)
      && (forall j :: 0 <= j < |s.expired| ==> s.expired[j].id != i)
      && (s.sweeper.Checking? || s.sweeper.Deciding? || s.sweeper.SweepEmit? ==> s.sweeper.probe.id != i)
      && (forall j :: 0 <= j < |s.log| ==> s.log[j].id != i)
  }

  lemma OnlyThere(s: State, k: ProbeKey)
    requires Inv(s) && k in s.table.probes
    ensures Alone(s, k)
  {
    var i := s.table.probes[k].id;
    assert PerInstance(s, i);
    TableKeyed(s, i);
    NotCounted(s.expired, i);
    NotLogged(s.log, i);
  }

  lemma TouchCopies(s: State, h: Stamps, at: int)
    requires Copies(s, h) && RetryEnabled(s, RetryTouch(at)) && Alone(s, s.retry.alias.key)
    ensures Copies(RetryNext(s, RetryTouch(at)), Note(s, h, RetryStep(RetryTouch(at))))
  {}

  lemma TouchVerdicts(s: State, h: Stamps, at: int)
    requires Verdicts(s, h) && RetryEnabled(s, RetryTouch(at)) && !Hits(s, RetryStep(RetryTouch(at)))
    requires Alone(s, s.retry.alias.key)
    ensures Verdicts(RetryNext(s, RetryTouch(at)), Note(s, h, RetryStep(RetryTouch(at))))
  {}

  lemma CallCopies(s: State, h: Stamps, t: nat, a: CallAct)
    requires Traced(s) && Copies(s, h) && CallEnabled(s, t, a)
    ensures Copies(CallNext(s, t, a), Note(s, h, CallStep(t, a)))
  {
    CallFrame(s, t, a);
    match a
    case Reserve(o, at) =>
    case _ =>
  }

  lemma CallVerdicts(s: State, h: Stamps, t: nat, a: CallAct)
    requires Traced(s) && Verdicts(s, h) && CallEnabled(s, t, a)
    ensures Verdicts(CallNext(s, t, a), Note(s, h, CallStep(t, a)))
  {
    CallFrame(s, t, a);
    if a.EmitError? { ReportLate(s, h, s.goroutines[t].probe, Error); }
  }

  /** Reporting anything but NoResponse asks nothing of the stamp. */
  lemma ReportLate(s: State, h: Stamps, p: PendingProbe, o: Outcome)
    requires LateLog(s, h) && (o == NoResponse ==> Late(p.id, s.now, s.timeout, h))
    ensures LateLog(s.(log := Report(s, p, o)), h)
  {}

  lemma SweepCopies(s: State, h: Stamps, a: SweepAct)
    requires Copies(s, h) && SweepEnabled(s, a)
    ensures Copies(SweepNext(s, a), h)
  {
    SweepFrame(s, a);
    match a
    case Decide =>
    case Collect(out) =>
    case SweepStop => case Pop => case Check => case TrySend => case DropRearmed => case SweepReport =>
  }

  lemma SweepVerdicts(s: State, h: Stamps, a: SweepAct)
    requires Timely(s) && Copies(s, h) && Verdicts(s, h) && SweepEnabled(s, a)
    ensures Verdicts(SweepNext(s, a), h)
  {
    SweepFrame(s, a);
    match a
    case SweepReport => ReportLate(s, h, s.sweeper.probe, s.sweeper.outcome);
    case Decide => case SweepStop => case Collect(out) => case Pop => case Check => case TrySend => case DropRearmed =>
  }

  lemma RetryCopies(s: State, h: Stamps, a: RetryAct)
    requires Inv(s) && Copies(s, h) && RetryEnabled(s, a)
    ensures Copies(RetryNext(s, a), Note(s, h, RetryStep(a)))
  {
    RetryFrame(s, a);
    match a
    case RetryTouch(at) =>
      if s.retry.alias.key in s.table.probes { OnlyThere(s, s.retry.alias.key); }
      TouchCopies(s, h, at);
    case _ =>
  }

  lemma RetryVerdicts(s: State, h: Stamps, a: RetryAct)
    requires Inv(s) && Verdicts(s, h) && RetryEnabled(s, a) && !Hits(s, RetryStep(a))
    ensures Verdicts(RetryNext(s, a), Note(s, h, RetryStep(a)))
  {
    RetryFrame(s, a);
    match a
    case RetryTouch(at) =>
      if s.retry.alias.key in s.table.probes { OnlyThere(s, s.retry.alias.key); }
      TouchVerdicts(s, h, at);
    case RetryReport => ReportLate(s, h, s.retry.probe, Aborted); ReportLate(s, h, s.retry.probe, Error);
    case _ =>
  }

  lemma RecvVerdicts(s: State, h: Stamps, a: RecvAct)
    requires Verdicts(s, h) && RecvEnabled(s, a)
    ensures Verdicts(RecvNext(s, a), h)
  {
    RecvFrame(s, a);
    match a
    case ReportRefused => ReportLate(s, h, s.recv.probe, Aborted);
    case ReportClosed => ReportLate(s, h, s.recv.probe, Closed);
    case _ =>
  }

  lemma DeliverVerdicts(s: State, h: Stamps, d: Delivery, a: DeliverAct)
    requires Verdicts(s, h) && DeliverEnabled(s, d, a)
    ensures Verdicts(Delivered(s, d, a).0, h)
  {
    match a
    case AbortResult => ReportLate(s, h, d.probe, Aborted);
    case ReportOpen => ReportLate(s, h, d.probe, Open);
    case _ =>
  }

  lemma HandleVerdicts(s: State, h: Stamps, a: HandleAct)
    requires Verdicts(s, h) && HandleEnabled(s, a)
    ensures Verdicts(HandleNext(s, a), h)
  {
    HandleFrame(s, a);
    if a.Deliver? { DeliverVerdicts(s, h, s.handler.delivery, a.act); }
  }

  lemma CloseVerdicts(s: State, h: Stamps, a: CloseAct)
    requires Verdicts(s, h) && CloseEnabled(s, a)
    ensures Verdicts(CloseStep(s, a), h)
  {
    CloseFrame(s, a);
    if a.ReportPending? { ReportLate(s, h, s.closer.pending[0], Aborted); }
  }

  lemma RecvCopies(s: State, h: Stamps, a: RecvAct)
    requires Copies(s, h) && RecvEnabled(s, a)
    ensures Copies(RecvNext(s, a), h)
  {
    RecvFrame(s, a);
  }

  lemma CloseCopies(s: State, h: Stamps, a: CloseAct)
    requires Copies(s, h) && CloseEnabled(s, a)
    ensures Copies(CloseStep(s, a), h)
  {
    CloseFrame(s, a);
  }

  lemma StepCopies(s: State, h: Stamps, step: Step)
    requires Inv(s) && Copies(s, h) && Enabled(s, step)
    ensures Copies(Next(s, step), Note(s, h, step))
  {
    match step
    case CallStep(t, a) => CallCopies(s, h, t, a);
    case SweepStep(a) => SweepCopies(s, h, a);
    case RetryStep(a) => RetryCopies(s, h, a);
    case RecvStep(a) => RecvCopies(s, h, a);
    case CloserStep(a) => CloseCopies(s, h, a);
    case HandleStep(a) => HandleFrame(s, a);
    case JobStep(t, a) => JobFrame(s, t, a);
    case EnvStep(a) => EnvFrame(s, a);
  }

  lemma StepVerdicts(s: State, h: Stamps, step: Step)
    requires Inv(s) && Copies(s, h) && Verdicts(s, h) && Enabled(s, step) && !Hits(s, step)
    ensures Verdicts(Next(s, step), Note(s, h, step))
  {
    match step
    case CallStep(t, a) => CallVerdicts(s, h, t, a);
    case SweepStep(a) => SweepVerdicts(s, h, a);
    case RetryStep(a) => RetryVerdicts(s, h, a);
    case RecvStep(a) => RecvVerdicts(s, h, a);
    case HandleStep(a) => HandleVerdicts(s, h, a);
    case JobStep(t, a) =>
      JobFrame(s, t, a);
      DeliverVerdicts(s, h, s.goroutines[t].delivery, a);
    case CloserStep(a) => CloseVerdicts(s, h, a);
    case EnvStep(a) => EnvFrame(s, a);
  }

  lemma {:induction false} RunCopies(s: State, h: Stamps, steps: seq<Step>)
    requires Inv(s) && Copies(s, h) && Run(s, steps)
    ensures Inv(End(s, steps)) && Copies(End(s, steps), StampsAfter(s, h, steps))
    decreases |steps|
  {
    if steps != [] {
      StepInv(s, steps[0]);
      StepCopies(s, h, steps[0]);
      RunCopies(Next(s, steps[0]), Note(s, h, steps[0]), steps[1..]);
    }
  }

  lemma {:induction false} RunVerdicts(s: State, h: Stamps, steps: seq<Step>)
    requires Inv(s) && Copies(s, h) && Verdicts(s, h) && Run(s, steps) && NoHits(s, steps)
    ensures Verdicts(End(s, steps), StampsAfter(s, h, steps))
    decreases |steps|
  {
    if steps != [] {
      StepInv(s, steps[0]);
      StepCopies(s, h, steps[0]);
      StepVerdicts(s, h, steps[0]);
      RunVerdicts(Next(s, steps[0]), Note(s, h, steps[0]), steps[1..]);
    }
  }

  // ---------- what follows ----------

  /** In every run a probe that was put back has no stamp until a retry stamps it, so it can
      time out only after that, and then counted from its latest stamp. */
  lemma RearmedWaitsForTouch(timeout: int, now: int, steps: seq<Step>, k: ProbeKey)
    requires Run(Init(timeout, now), steps)
    ensures var s, h := End(Init(timeout, now), steps), StampsAfter(Init(timeout, now), NO_STAMPS, steps);
            k in s.table.probes ==>
              var p := s.table.probes[k];
              && (p.sentAt.None? <==> p.retried && p.id !in h.touched)
              && (TimedOut(p, s.now, s.timeout) <==> p.sentAt.Some? && Late(p.id, s.now, s.timeout, h))
  {
    InitInv(timeout, now);
    RunCopies(Init(timeout, now), NO_STAMPS, steps);
  }

  /** As long as no fresh retry stamp hits an instance bound to be dropped, every NoResponse
      comes more than the timeout after the latest send stamp of the instance it names. */
  lemma NoResponseIsLate(timeout: int, now: int, steps: seq<Step>)
    requires Run(Init(timeout, now), steps) && NoHits(Init(timeout, now), steps)
    ensures LateLog(End(Init(timeout, now), steps), StampsAfter(Init(timeout, now), NO_STAMPS, steps))
  {
    InitInv(timeout, now);
    RunVerdicts(Init(timeout, now), NO_STAMPS, steps);
  }

  lemma Prepend(s: State, h: Stamps, step: Step, rest: seq<Step>)
    requires Enabled(s, step) && !Hits(s, step) && Run(Next(s, step), rest) && NoHits(Next(s, step), rest)
    ensures Run(s, [step] + rest) && NoHits(s, [step] + rest)
    ensures End(s, [step] + rest) == End(Next(s, step), rest)
    ensures StampsAfter(s, h, [step] + rest) == StampsAfter(Next(s, step), Note(s, h, step), rest)
  {
    assert ([step] + rest)[1..] == rest;
  }

  /** An instance bound to be dropped is reported by the sweeper alone. */
  lemma {:induction false} CondemnedIsReported(s: State, h: Stamps) returns (after: seq<Step>)
    requires (s.sweeper.BackInTable? || s.sweeper.QueueFull?) && Condemned(s, s.sweeper.probe.id)
    ensures Run(s, after) && NoHits(s, after) && StampsAfter(s, h, after) == h
    ensures var p := s.sweeper.probe; End(s, after) == s.(
      table := Remove(s.table, p.key), sweeper := SweepIdle, log := Report(s, p, NoResponse))
    decreases s.sweeper.BackInTable?
  {
    if s.sweeper.QueueFull? {
      var s1 := Next(s, SweepStep(DropRearmed));
      Prepend(s1, h, SweepStep(SweepReport), []);
      Prepend(s, h, SweepStep(DropRearmed), [SweepStep(SweepReport)]);
      after := [SweepStep(DropRearmed)] + [SweepStep(SweepReport)];
    } else {
      var rest := CondemnedIsReported(Next(s, SweepStep(TrySend)), h);
      Prepend(s, h, SweepStep(TrySend), rest);
      after := [SweepStep(TrySend)] + rest;
    }
  }

  /** After such a hit the sweeper alone can go on to a NoResponse within the timeout. */
  lemma HitReportsEarly(s: State, h: Stamps, at: int) returns (after: seq<Step>)
    requires RetryEnabled(s, RetryTouch(at)) && Hits(s, RetryStep(RetryTouch(at)))
    ensures var s', h' := Next(s, RetryStep(RetryTouch(at))), Note(s, h, RetryStep(RetryTouch(at)));
            Run(s', after) && NoHits(s', after) && !LateLog(End(s', after), StampsAfter(s', h', after))
  {
    var s', h' := Next(s, RetryStep(RetryTouch(at))), Note(s, h, RetryStep(RetryTouch(at)));
    after := CondemnedIsReported(s', h');
    var log := End(s', after).log;
    assert !LateEvent(log[|log| - 1], s'.timeout, h');
  }

  /** What may follow a stamp as long as no further one hits. */
  ghost predicate Harmless(s: State, h: Stamps) {
    forall after :: Run(s, after) && NoHits(s, after) ==> LateLog(End(s, after), StampsAfter(s, h, after))
  }

  /** The guard is exact: after a run without hits, a retry's stamp leaves every NoResponse
      later than the timeout, however the run goes on, if and only if it is not a hit. */
  lemma TouchIsHarmlessIff(timeout: int, now: int, before: seq<Step>, at: int)
    requires Run(Init(timeout, now), before) && NoHits(Init(timeout, now), before)
    requires RetryEnabled(End(Init(timeout, now), before), RetryTouch(at))
    ensures var s, h := End(Init(timeout, now), before), StampsAfter(Init(timeout, now), NO_STAMPS, before);
            var touch := RetryStep(RetryTouch(at));
            Harmless(Next(s, touch), Note(s, h, touch)) <==> !Hits(s, touch)
  {
    var s, h := End(Init(timeout, now), before), StampsAfter(Init(timeout, now), NO_STAMPS, before);
    var touch := RetryStep(RetryTouch(at));
    if Hits(s, touch) {
      var after := HitReportsEarly(s, h, at);
    } else {
      InitInv(timeout, now);
      RunCopies(Init(timeout, now), NO_STAMPS, before);
      RunVerdicts(Init(timeout, now), NO_STAMPS, before);
      StepInv(s, touch);
      StepCopies(s, h, touch);
      StepVerdicts(s, h, touch);
      forall after | Run(Next(s, touch), after) && NoHits(Next(s, touch), after)
        ensures LateLog(End(Next(s, touch), after), StampsAfter(Next(s, touch), Note(s, h, touch), after)) {
        RunVerdicts(Next(s, touch), Note(s, h, touch), after);
      }
    }
  }
}
