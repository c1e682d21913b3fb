/** What an event says about its probe: the outcome reported is the one that goes with what took
    the instance out of the table. */
module SynOutcomes {
  import opened ProbeTable
  import opened SynProtocol
  import opened SynOwnership
  import opened SynBudget
  import opened SynShutdown
  import opened SynStamps
  import opened SynTheorems

  /** What took an instance out of the table: a SYN+ACK, a reset, the sweep (or the drop that
      follows it in the queue-full branch), the drop after a failed send or retry, or `Close`.
      It was hopeless if its caller had cancelled by then, for the sweep also if the table was
      closed, for a retry also if that was cancelled. */
  datatype Taker =
    | ByAnswer(hopeless: bool) | ByReset | BySweep(hopeless: bool)
    | ByFailedSend | ByFailedRetry(hopeless: bool) | ByClose

  /** The last taker of each instance, the instances whose result went into the result channel,
      the keys under which a send or a retry failed, and whether the last failed retry was
      cancelled. */
  datatype Facts = Facts(took: map<nat, Taker>, queued: set<nat>, failed: set<ProbeKey>, canceled: bool)

  const NO_FACTS := Facts(map[], {}, {}, false)

  // ---------- the history of a run ----------

  function InKey(s: State, k: ProbeKey): set<nat> {
    if k in s.table.probes then {s.table.probes[k].id} else {}
  }

  function IdSet(ps: seq<PendingProbe>): set<nat> {
    set p | p in ps :: p.id
  }

  /** The instances a step takes out of the table. */
  function Taken(s: State, step: Step): set<nat>
    requires Enabled(s, step)
  {
    match step
    case RecvStep(TakeMatch) => InKey(s, s.recv.key)
    case RecvStep(Reset(key)) => InKey(s, key)
    case SweepStep(Collect(out)) => IdSet(out)
    case SweepStep(DropRearmed) => InKey(s, s.sweeper.probe.key)
    case CallStep(t, Drop) => InKey(s, s.goroutines[t].key)
    case RetryStep(RetryDrop) => InKey(s, s.retry.alias.key)
    case CloserStep(DrainTable(out)) => IdSet(out)
    case _ => {}
  }

  /** The caller of `i` has cancelled. */
  predicate Gone(s: State, i: nat) {
    i < |s.births| && s.births[i].ctx in s.cancelled
  }

  function TakerOf(s: State, f: Facts, step: Step, i: nat): Taker {
    match step
    case RecvStep(TakeMatch) => ByAnswer(Gone(s, i))
    case RecvStep(_) => ByReset
    case SweepStep(Collect(_)) => BySweep(Gone(s, i) || s.table.isDone)
    case SweepStep(_) => BySweep(false)
    case CallStep(_, _) => ByFailedSend
    case RetryStep(_) => ByFailedRetry(Gone(s, i) || f.canceled)
    case _ => ByClose
  }

  function Mark(s: State, f: Facts, step: Step): Facts
    requires Enabled(s, step)
  {
    f.(took := f.took + map i | i in Taken(s, step) :: TakerOf(s, f, step, i))
  }

  function Fail(f: Facts, key: ProbeKey): Facts {
    f.(failed := f.failed + {key})
  }

  /** Failures and queued results. */
  function Add(s: State, f: Facts, step: Step): Facts
    requires Enabled(s, step)
  {
    match step
    case CallStep(t, Send(ok, _)) => if ok then f else Fail(f, s.goroutines[t].key)
    case RetryStep(RetryWaitFails(canceled)) => Fail(f, s.retry.alias.key).(canceled := canceled)
    case RetryStep(RetrySend(ok, canceled)) => if ok then f else Fail(f, s.retry.alias.key).(canceled := canceled)
    case HandleStep(Deliver(QueueResult)) => f.(queued := f.queued + {s.handler.delivery.probe.id})
    case JobStep(t, QueueResult) => f.(queued := f.queued + {s.goroutines[t].delivery.probe.id})
    case _ => f
  }

  function Learn(s: State, f: Facts, step: Step): Facts
    requires Enabled(s, step)
  {
    Add(s, Mark(s, f, step), step)
  }

  function FactsAfter(s: State, f: Facts, steps: seq<Step>): Facts
    requires Run(s, steps)
    decreases |steps|
  {
    if steps == [] then f else FactsAfter(Next(s, steps[0]), Learn(s, f, steps[0]), steps[1..])
  }

  // ---------- what an outcome has to go with ----------

  /** The outcome goes with the taker; nothing hopeless is reported as anything but Aborted. */
  predicate Tells(s: State, f: Facts, e: Event)
    requires e.id < |s.births|
  {
    e.id in f.took &&
    var gone := s.births[e.id].ctx in s.cancelled;
    match e.outcome
    case Open => f.took[e.id] == ByAnswer(false) && e.id in f.queued
    case Closed => f.took[e.id] == ByReset
    case NoResponse => f.took[e.id] == BySweep(false)
    case Error => e.key in f.failed && (f.took[e.id] == ByFailedSend || f.took[e.id] == ByFailedRetry(false))
    case Aborted =>
      match f.took[e.id]
      case ByAnswer(_) => gone || SCANNER_CTX in s.cancelled
      case BySweep(_) => gone || s.table.isDone
      case ByFailedRetry(hopeless) => gone || hopeless
      case ByClose => s.table.isDone
      case _ => false
  }

  // ---------- the invariant: what each holder knows ----------

  /** The instance was taken by a SYN+ACK. */
  predicate Answered(s: State, f: Facts, p: PendingProbe) {
    p.id in f.took && f.took[p.id].ByAnswer? && (f.took[p.id].hopeless ==> p.ctx in s.cancelled)
  }

  predicate Swept(s: State, f: Facts, p: PendingProbe) {
    p.id in f.took && f.took[p.id].BySweep? && (f.took[p.id].hopeless ==> p.ctx in s.cancelled || s.table.isDone)
  }

  predicate Took(f: Facts, p: PendingProbe, t: Taker) {
    p.id in f.took && f.took[p.id] == t
  }

  predicate TookDelivery(s: State, f: Facts, d: Delivery) {
    match d
    case Reported => true
    case Confirmed(p) => Answered(s, f, p)
    case Cleared(p) => Took(f, p, ByAnswer(false))
    case Queued(p) => Took(f, p, ByAnswer(false)) && p.id in f.queued
  }

  predicate TookGoroutine(s: State, f: Facts, g: Goroutine) {
    match g
    case AfterSend(key, ok, _) => ok || key in f.failed
    case Dropped(p) => Took(f, p, ByFailedSend) && p.key in f.failed
    case Job(d) => TookDelivery(s, f, d) && (!d.Reported? ==> d.probe.option.fingerPrint || d.probe.option.httpx)
    case _ => true
  }

  predicate TookSweeper(s: State, f: Facts) {
    match s.sweeper
    case Checking(p) => Swept(s, f, p)
    case Deciding(p) => Took(f, p, BySweep(false))
    case SweepEmit(p, o) =>
      o == NoResponse || (o == Aborted && Swept(s, f, p) && (p.ctx in s.cancelled || s.table.isDone))
    case _ => true
  }

  predicate TookRetry(s: State, f: Facts) {
    match s.retry
    case RetryFailed(p, canceled) => p.key in f.failed && canceled == f.canceled
    case RetryTracked(p, canceled) =>
      && p.id in f.took && f.took[p.id].ByFailedRetry? && p.key in f.failed
      && (f.took[p.id].hopeless ==> canceled || p.ctx in s.cancelled) && (canceled ==> f.took[p.id].hopeless)
    case _ => true
  }

  predicate TookRecv(s: State, f: Facts) {
    match s.recv
    case Matched(p) => Answered(s, f, p)
    case Refused(p) => Answered(s, f, p) && SCANNER_CTX in s.cancelled
    case GotReset(p) => Took(f, p, ByReset)
    case _ => true
  }

  predicate TookHandler(s: State, f: Facts) {
    match s.handler
    case GotOpen(p) => Answered(s, f, p) case Delivering(d) => TookDelivery(s, f, d) case _ => true
  }

  predicate AllSwept(s: State, f: Facts, ps: seq<PendingProbe>) {
    forall j :: 0 <= j < |ps| ==> Swept(s, f, ps[j])
  }

  predicate AllAnswered(s: State, f: Facts, ps: seq<PendingProbe>) {
    forall j :: 0 <= j < |ps| ==> Answered(s, f, ps[j])
  }

  predicate AllDrained(f: Facts, ps: seq<PendingProbe>) {
    forall j :: 0 <= j < |ps| ==> Took(f, ps[j], ByClose)
  }

  predicate TookCloser(s: State, f: Facts) {
    match s.closer case Drained(ps) => AllDrained(f, ps) && s.table.isDone case _ => true
  }

  predicate LogTells(s: State, f: Facts) {
    forall j :: 0 <= j < |s.log| && s.log[j].outcome != NoResponse ==>
      s.log[j].id < |s.births| && Tells(s, f, s.log[j])
  }

  predicate Holders(s: State, f: Facts) {
    && AllSwept(s, f, s.expired) && TookSweeper(s, f) && TookRetry(s, f) && TookRecv(s, f)
    && AllAnswered(s, f, s.openChan) && TookHandler(s, f) && TookCloser(s, f)
    && (forall t :: 0 <= t < |s.goroutines| ==> TookGoroutine(s, f, s.goroutines[t]))
    && LogTells(s, f)
  }

  /** Of NoResponse, in a clean run. */
  predicate SilentSwept(s: State, f: Facts) {
    && (s.sweeper.SweepEmit? && s.sweeper.outcome == NoResponse ==> Took(f, s.sweeper.probe, BySweep(false)))
    && (forall j :: 0 <= j < |s.log| && s.log[j].outcome == NoResponse ==>
          s.log[j].id in f.took && f.took[s.log[j].id] == BySweep(false))
  }

  // ---------- an instance in the table is in nobody's hand ----------

  predicate NoneOf(ps: seq<PendingProbe>, ids: set<nat>) {
    forall j :: 0 <= j < |ps| ==> ps[j].id !in ids
  }

  predicate DeliveryNot(d: Delivery, ids: set<nat>) {
    !d.Reported? ==> d.probe.id !in ids
  }

  predicate GoroutineNot(g: Goroutine, ids: set<nat>) {
    match g case Dropped(p) => p.id !in ids case Job(d) => DeliveryNot(d, ids) case _ => true
  }

  predicate Apart(s: State, ids: set<nat>) {
    && NoneOf(s.expired, ids) && NoneOf(s.openChan, ids)
    && (s.sweeper.Checking? || s.sweeper.Deciding? || s.sweeper.SweepEmit? ==> s.sweeper.probe.id !in ids)
    && (s.retry.RetryTracked? ==> s.retry.probe.id !in ids)
    && (s.recv.Matched? || s.recv.Refused? || s.recv.GotReset? ==> s.recv.probe.id !in ids)
    && (s.handler.GotOpen? ==> s.handler.probe.id !in ids)
    && (s.handler.Delivering? ==> DeliveryNot(s.handler.delivery, ids))
    && (s.closer.Drained? ==> NoneOf(s.closer.pending, ids))
    && (forall t :: 0 <= t < |s.goroutines| ==> GoroutineNot(s.goroutines[t], ids))
    && (forall j :: 0 <= j < |s.log| ==> s.log[j].id !in ids)
  }

  lemma {:induction false} NotCarried(gs: seq<Goroutine>, i: nat)
    requires OfGoroutines(gs, i) == 0
    ensures forall t :: 0 <= t < |gs| ==> GoroutineNot(gs[t], {i})
  {
    if gs != [] {
      NotCarried(gs[1..], i);
      forall t | 0 <= t < |gs| ensures GoroutineNot(gs[t], {i}) {
        if t > 0 { assert gs[t] == gs[1..][t - 1]; }
      }
    }
  }

  lemma NotHeld(s: State, i: nat)
    requires Held(s, i) == 0 && Events(s.log, i) == 0
    ensures Apart(s, {i})
  {
    NotCounted(s.expired, i);
    NotCounted(s.openChan, i);
    NotCarried(s.goroutines, i);
    NotLogged(s.log, i);
    if s.closer.Drained? { NotCounted(s.closer.pending, i); }
  }

  lemma InTableApart(s: State, k: ProbeKey)
    requires Inv(s) && k in s.table.probes
    ensures Apart(s, {s.table.probes[k].id})
  {
    var i := s.table.probes[k].id;
    assert PerInstance(s, i);
    TableKeyed(s, i);
    NotHeld(s, i);
  }

  lemma ApartAll(s: State, ids: set<nat>)
    requires forall i :: i in ids ==> Apart(s, {i})
    ensures Apart(s, ids)
  {
    forall ps: seq<PendingProbe> | forall i :: i in ids ==> NoneOf(ps, {i}) ensures NoneOf(ps, ids) {}
    forall d: Delivery | forall i :: i in ids ==> DeliveryNot(d, {i}) ensures DeliveryNot(d, ids) {}
    forall g: Goroutine | forall i :: i in ids ==> GoroutineNot(g, {i}) ensures GoroutineNot(g, ids) {}
  }

  lemma InKeyApart(s: State, k: ProbeKey)
    requires Inv(s)
    ensures Apart(s, InKey(s, k))
  {
    if k in s.table.probes { InTableApart(s, k); }
  }

  lemma ListedApart(s: State, m: Probes, out: seq<PendingProbe>)
    requires Inv(s) && Enumerates(m, out) && forall k :: k in m ==> k in s.table.probes && s.table.probes[k] == m[k]
    ensures Apart(s, IdSet(out))
  {
    forall i | i in IdSet(out) ensures Apart(s, {i}) {
      var p :| p in out && p.id == i;
      InTableApart(s, p.key);
    }
    ApartAll(s, IdSet(out));
  }

  lemma TakenApart(s: State, step: Step)
    requires Inv(s) && Enabled(s, step)
    ensures Apart(s, Taken(s, step))
  {
    match step
    case RecvStep(TakeMatch) => InKeyApart(s, s.recv.key);
    case RecvStep(Reset(key)) => InKeyApart(s, key);
    case SweepStep(Collect(out)) =>
      ListedApart(s, ExpiredPart(s.table.probes, s.now, s.timeout, s.cancelled), out);
    case SweepStep(DropRearmed) => InKeyApart(s, s.sweeper.probe.key);
    case CallStep(t, Drop) => InKeyApart(s, s.goroutines[t].key);
    case RetryStep(RetryDrop) => InKeyApart(s, s.retry.alias.key);
    case CloserStep(DrainTable(out)) => ListedApart(s, s.table.probes, out);
    case _ => ApartAll(s, {});
  }

  /** The takers may change for instances that nobody holds. */
  ghost predicate SameBut(f: Facts, f': Facts, ids: set<nat>) {
    && f' == f.(took := f'.took)
    && forall i: nat :: i !in ids ==> (i in f'.took <==> i in f.took) && (i in f.took ==> f'.took[i] == f.took[i])
  }

  lemma MarkKeeps(s: State, f: Facts, f': Facts, ids: set<nat>)
    requires Holders(s, f) && Apart(s, ids) && SameBut(f, f', ids)
    ensures Holders(s, f')
  {
    forall t | 0 <= t < |s.goroutines| ensures TookGoroutine(s, f', s.goroutines[t]) {
      assert TookGoroutine(s, f, s.goroutines[t]) && GoroutineNot(s.goroutines[t], ids);
    }
  }

  lemma MarkKeepsSilent(s: State, f: Facts, f': Facts, ids: set<nat>)
    requires SilentSwept(s, f) && Apart(s, ids) && SameBut(f, f', ids)
    ensures SilentSwept(s, f')
  {}

  // ---------- every step keeps it ----------

  /** More is known, more is cancelled, more was reserved. */
  predicate Later(s: State, f: Facts, s': State, f': Facts) {
    && s.births <= s'.births && s.cancelled <= s'.cancelled && (s.table.isDone ==> s'.table.isDone)
    && f'.took == f.took && f.queued <= f'.queued && f.failed <= f'.failed
  }

  lemma LogStays(s: State, f: Facts, s': State, f': Facts)
    requires LogTells(s, f) && Later(s, f, s', f') && s'.log == s.log
    ensures LogTells(s', f')
  {}

  lemma LogGrows(s: State, f: Facts, s': State, p: PendingProbe, o: Outcome)
    requires LogTells(s, f) && Later(s, f, s', f) && Known(p, s.births) && s'.log == Report(s, p, o)
    requires o != NoResponse ==> Tells(s, f, Event(p.id, p.key, p.option, p.startedAt, o, p.sentAt, s.now))
    ensures LogTells(s', f)
  {}

  /** The taker of whatever is under the key has been noted. */
  predicate Noted(s: State, f: Facts, k: ProbeKey, t: Taker) {
    k in s.table.probes ==> Took(f, s.table.probes[k], t)
  }

  lemma CallTook(s: State, f: Facts, t: nat, a: CallAct)
    requires Traced(s) && Holders(s, f) && CallEnabled(s, t, a)
    requires a.Drop? ==> Noted(s, f, s.goroutines[t].key, ByFailedSend)
    ensures Holders(CallNext(s, t, a), Add(s, f, CallStep(t, a)))
  {
    var s', f' := CallNext(s, t, a), Add(s, f, CallStep(t, a));
    CallFrame(s, t, a);
    if a.EmitError? {
      assert TookGoroutine(s, f, s.goroutines[t]) && KnownGoroutine(s.goroutines[t], s.births);
      LogGrows(s, f, s', s.goroutines[t].probe, Error);
    } else {
      LogStays(s, f, s', f');
    }
    CallTookGoroutines(s, f, t, a);
  }

  lemma CallTookGoroutines(s: State, f: Facts, t: nat, a: CallAct)
    requires Traced(s) && Holders(s, f) && CallEnabled(s, t, a)
    requires a.Drop? ==> Noted(s, f, s.goroutines[t].key, ByFailedSend)
    ensures forall u :: 0 <= u < |CallNext(s, t, a).goroutines| ==>
              TookGoroutine(CallNext(s, t, a), Add(s, f, CallStep(t, a)), CallNext(s, t, a).goroutines[u])
  {
    CallFrame(s, t, a);
    assert TookGoroutine(s, f, s.goroutines[t]);
  }

  lemma SweepTook(s: State, f: Facts, a: SweepAct)
    requires Traced(s) && Holders(s, f) && SweepEnabled(s, a)
    requires a.Collect? ==> AllSwept(s, f, a.out)
    ensures Holders(SweepNext(s, a), f)
  {
    match a
    case SweepReport =>
      SweepFrame(s, a);
      LogGrows(s, f, SweepNext(s, a), s.sweeper.probe, s.sweeper.outcome);
    case Collect(out) => CollectTook(s, f, out);
    case Decide => DecideTook(s, f);
    case _ => SweepTookQuiet(s, f, a);
  }

  lemma CollectTook(s: State, f: Facts, out: seq<PendingProbe>)
    requires Holders(s, f) && SweepEnabled(s, Collect(out)) && AllSwept(s, f, out)
    ensures Holders(SweepNext(s, Collect(out)), f)
  {
    SweepFrame(s, Collect(out));
    LogStays(s, f, SweepNext(s, Collect(out)), f);
  }

  lemma DecideTook(s: State, f: Facts)
    requires Holders(s, f) && SweepEnabled(s, Decide)
    ensures Holders(SweepNext(s, Decide), f)
  {
    SweepFrame(s, Decide);
    LogStays(s, f, SweepNext(s, Decide), f);
  }

  lemma SweepTookQuiet(s: State, f: Facts, a: SweepAct)
    requires Holders(s, f) && SweepEnabled(s, a) && !a.SweepReport? && !a.Collect? && !a.Decide?
    ensures Holders(SweepNext(s, a), f)
  {
    SweepFrame(s, a);
    LogStays(s, f, SweepNext(s, a), f);
    match a
    case SweepStop => case Pop => case Check => case TrySend => case DropRearmed =>
  }

  lemma RetryReportTook(s: State, f: Facts)
    requires Traced(s) && Holders(s, f) && RetryEnabled(s, RetryReport)
    ensures Holders(RetryNext(s, RetryReport), f)
  {
    var p := s.retry.probe;
    RetryFrame(s, RetryReport);
    LogGrows(s, f, RetryNext(s, RetryReport), p, if p.ctx in s.cancelled || s.retry.canceled then Aborted else Error);
  }

  lemma RetryTook(s: State, f: Facts, a: RetryAct)
    requires Traced(s) && Holders(s, f) && RetryEnabled(s, a)
    requires a.RetryDrop? && s.retry.alias.key in s.table.probes ==>
               var p := s.table.probes[s.retry.alias.key];
               Took(f, p, ByFailedRetry(p.ctx in s.cancelled || f.canceled))
    ensures Holders(RetryNext(s, a), Add(s, f, RetryStep(a)))
  {
    if a.RetryReport? {
      RetryReportTook(s, f);
    } else {
      RetryFrame(s, a);
      LogStays(s, f, RetryNext(s, a), Add(s, f, RetryStep(a)));
    }
  }

  lemma RecvTook(s: State, f: Facts, a: RecvAct)
    requires Traced(s) && Holders(s, f) && RecvEnabled(s, a)
    requires a.TakeMatch? && s.recv.key in s.table.probes ==> Answered(s, f, s.table.probes[s.recv.key])
    requires a.Reset? ==> Noted(s, f, a.key, ByReset)
    ensures Holders(RecvNext(s, a), f)
  {
    var s' := RecvNext(s, a);
    RecvFrame(s, a);
    if a.ReportRefused? {
      LogGrows(s, f, s', s.recv.probe, Aborted);
    } else if a.ReportClosed? {
      LogGrows(s, f, s', s.recv.probe, Closed);
    } else {
      LogStays(s, f, s', f);
    }
  }

  function AddQueued(f: Facts, d: Delivery, a: DeliverAct): Facts {
    if a.QueueResult? && d.Cleared? then f.(queued := f.queued + {d.probe.id}) else f
  }

  /** What a delivery's step leaves: the log tells no less, the delivery itself knows no less. */
  lemma DeliverTook(s: State, f: Facts, d: Delivery, a: DeliverAct)
    requires LogTells(s, f) && TookDelivery(s, f, d) && KnownDelivery(d, s.births) && DeliverEnabled(s, d, a)
    ensures var (s', d') := Delivered(s, d, a);
            var f' := AddQueued(f, d, a);
            && LogTells(s', f') && TookDelivery(s', f', d') && s' == s.(log := s'.log, wg := s'.wg)
            && (!d'.Reported? ==> !d.Reported? && d'.probe == d.probe)
  {
    var (s', d') := Delivered(s, d, a);
    match a
    case AbortResult => LogGrows(s, f, s', d.probe, Aborted);
    case ReportOpen => LogGrows(s, f, s', d.probe, Open);
    case Clear => LogStays(s, f, s', f);
    case QueueResult => LogStays(s, f, s', AddQueued(f, d, a));
    case Release => LogStays(s, f, s', f);
  }

  lemma HandleTook(s: State, f: Facts, a: HandleAct)
    requires Traced(s) && Holders(s, f) && HandleEnabled(s, a)
    ensures Holders(HandleNext(s, a), Add(s, f, HandleStep(a)))
  {
    if a.Deliver? {
      HandleDelivers(s, f, a.act);
    } else {
      HandleFrame(s, a);
      LogStays(s, f, HandleNext(s, a), f);
    }
  }

  /** Only the handler moved, and its knowledge and the log's still hold. */
  lemma HandlerAloneTook(s: State, f: Facts, s': State, f': Facts)
    requires Holders(s, f) && Later(s, f, s', f')
    requires s' == s.(log := s'.log, wg := s'.wg, handler := s'.handler) && f' == f.(queued := f'.queued)
    requires LogTells(s', f') && TookHandler(s', f')
    ensures Holders(s', f')
  {
    forall t | 0 <= t < |s.goroutines| ensures TookGoroutine(s', f', s'.goroutines[t]) {
      assert TookGoroutine(s, f, s.goroutines[t]);
    }
  }

  lemma HandleDelivers(s: State, f: Facts, a: DeliverAct)
    requires Traced(s) && Holders(s, f) && HandleEnabled(s, Deliver(a))
    ensures Holders(HandleNext(s, Deliver(a)), Add(s, f, HandleStep(Deliver(a))))
  {
    DeliverTook(s, f, s.handler.delivery, a);
    HandlerAloneTook(s, f, HandleNext(s, Deliver(a)), Add(s, f, HandleStep(Deliver(a))));
  }

  lemma JobTook(s: State, f: Facts, t: nat, a: DeliverAct)
    requires Traced(s) && Holders(s, f) && JobEnabled(s, t, a)
    ensures Holders(JobNext(s, t, a), Add(s, f, JobStep(t, a)))
  {
    JobFrame(s, t, a);
    assert TookGoroutine(s, f, s.goroutines[t]) && KnownGoroutine(s.goroutines[t], s.births);
    DeliverTook(s, f, s.goroutines[t].delivery, a);
  }

  lemma CloseTook(s: State, f: Facts, a: CloseAct)
    requires Traced(s) && Closing(s) && Holders(s, f) && CloseEnabled(s, a)
    requires a.DrainTable? ==> AllDrained(f, a.out)
    ensures Holders(CloseStep(s, a), f)
  {
    CloseFrame(s, a);
    if a.ReportPending? {
      LogGrows(s, f, CloseStep(s, a), s.closer.pending[0], Aborted);
    } else {
      LogStays(s, f, CloseStep(s, a), f);
    }
  }

  lemma EnvTook(s: State, f: Facts, a: EnvAct)
    requires Holders(s, f) && EnvEnabled(s, a)
    ensures Holders(EnvNext(s, a), f)
  {
    EnvFrame(s, a);
    LogStays(s, f, EnvNext(s, a), f);
  }

  lemma OtherStepTook(s: State, f: Facts, step: Step)
    requires Traced(s) && Holders(s, f) && Enabled(s, step)
    requires step.HandleStep? || step.JobStep? || step.EnvStep?
    ensures Holders(Next(s, step), Add(s, f, step))
  {
    match step
    case HandleStep(a) => HandleTook(s, f, a);
    case JobStep(t, a) => JobTook(s, f, t, a);
    case EnvStep(a) => EnvTook(s, f, a);
  }

  /** Once the takers of the step are noted. */
  lemma NotedStepTook(s: State, f: Facts, step: Step)
    requires Traced(s) && Closing(s) && Holders(s, f) && Enabled(s, step)
    requires forall i :: i in Taken(s, step) ==> i in f.took && f.took[i] == TakerOf(s, f, step, i)
    ensures Holders(Next(s, step), Add(s, f, step))
  {
    match step
    case CallStep(t, a) => CallTook(s, f, t, a);
    case SweepStep(a) =>
      if a.Collect? { CollectNoted(s, f, a.out); }
      SweepTook(s, f, a);
    case RetryStep(a) => RetryTook(s, f, a);
    case RecvStep(a) => RecvTook(s, f, a);
    case CloserStep(a) => CloseTook(s, f, a);
    case _ => OtherStepTook(s, f, step);
  }

  lemma CollectNoted(s: State, f: Facts, out: seq<PendingProbe>)
    requires Traced(s) && SweepEnabled(s, Collect(out))
    requires forall i :: i in IdSet(out) ==> i in f.took && f.took[i] == BySweep(Gone(s, i) || s.table.isDone)
    ensures AllSwept(s, f, out)
  {
    CollectTraced(s, out);
    forall j | 0 <= j < |out| ensures Swept(s, f, out[j]) {
      assert Known(out[j], s.births) && out[j].id in IdSet(out);
    }
  }

  lemma StepTook(s: State, f: Facts, step: Step)
    requires Inv(s) && Holders(s, f) && Enabled(s, step)
    ensures Holders(Next(s, step), Learn(s, f, step))
  {
    TakenApart(s, step);
    MarkKeeps(s, f, Mark(s, f, step), Taken(s, step));
    NotedStepTook(s, Mark(s, f, step), step);
  }

  // ---------- NoResponse in clean runs ----------

  /** Only the sweeper reports NoResponse. */
  lemma OthersAnswer(s: State, step: Step)
    requires Enabled(s, step) && !step.SweepStep?
    ensures s.log <= Next(s, step).log
    ensures forall j :: |s.log| <= j < |Next(s, step).log| ==> Next(s, step).log[j].outcome != NoResponse
  {
    match step
    case CallStep(t, a) => CallAnswers(s, t, a);
    case RetryStep(a) => RetryAnswers(s, a);
    case RecvStep(a) => RecvAnswers(s, a);
    case HandleStep(a) => HandleFrame(s, a);
    case JobStep(t, a) => JobFrame(s, t, a);
    case CloserStep(a) => CloseAnswers(s, a);
    case EnvStep(a) => EnvFrame(s, a);
  }

  lemma RecvAnswers(s: State, a: RecvAct)
    requires RecvEnabled(s, a)
    ensures s.log <= RecvNext(s, a).log
    ensures forall j :: |s.log| <= j < |RecvNext(s, a).log| ==> RecvNext(s, a).log[j].outcome != NoResponse
  {}

  lemma CloseAnswers(s: State, a: CloseAct)
    requires CloseEnabled(s, a)
    ensures s.log <= CloseStep(s, a).log
    ensures forall j :: |s.log| <= j < |CloseStep(s, a).log| ==> CloseStep(s, a).log[j].outcome != NoResponse
  {}

  lemma CallAnswers(s: State, t: nat, a: CallAct)
    requires CallEnabled(s, t, a)
    ensures CallNext(s, t, a).log == if a.EmitError? then Report(s, s.goroutines[t].probe, Error) else s.log
  {}

  lemma RetryAnswers(s: State, a: RetryAct)
    requires RetryEnabled(s, a)
    ensures s.log <= RetryNext(s, a).log
    ensures forall j :: |s.log| <= j < |RetryNext(s, a).log| ==> RetryNext(s, a).log[j].outcome != NoResponse
  {}

  lemma SweepSilent(s: State, f: Facts, a: SweepAct)
    requires SilentSwept(s, f) && Holders(s, f) && SweepEnabled(s, a)
    requires a.DropRearmed? ==> Took(f, s.sweeper.probe, BySweep(false))
    ensures SilentSwept(SweepNext(s, a), f)
  {
    SweepFrame(s, a);
    match a
    case SweepReport =>
    case Decide => case Collect(out) => case SweepStop => case Pop => case Check => case TrySend => case DropRearmed =>
  }

  lemma StepSilent(s: State, f: Facts, step: Step)
    requires Inv(s) && Holders(s, f) && SilentSwept(s, f) && Enabled(s, step) && CleanStep(s, step)
    ensures SilentSwept(Next(s, step), Learn(s, f, step))
  {
    var g := Mark(s, f, step);
    TakenApart(s, step);
    MarkKeeps(s, f, g, Taken(s, step));
    MarkKeepsSilent(s, f, g, Taken(s, step));
    if step.SweepStep? {
      SweepSilent(s, g, step.sweep);
    } else {
      OthersSilent(s, g, step);
    }
  }

  lemma OthersSilent(s: State, f: Facts, step: Step)
    requires SilentSwept(s, f) && Enabled(s, step) && !step.SweepStep?
    ensures SilentSwept(Next(s, step), Add(s, f, step))
  {
    OthersAnswer(s, step);
    StepFrame(s, step);
    assert Add(s, f, step).took == f.took;
  }

  lemma {:induction false} RunTook(s: State, f: Facts, steps: seq<Step>)
    requires Inv(s) && Holders(s, f) && Run(s, steps)
    ensures Holders(End(s, steps), FactsAfter(s, f, steps))
    decreases |steps|
  {
    if steps != [] {
      StepInv(s, steps[0]);
      StepTook(s, f, steps[0]);
      RunTook(Next(s, steps[0]), Learn(s, f, steps[0]), steps[1..]);
    }
  }

  lemma {:induction false} RunSilent(s: State, f: Facts, steps: seq<Step>)
    requires Inv(s) && Holders(s, f) && SilentSwept(s, f) && Run(s, steps) && Clean(s, steps)
    ensures SilentSwept(End(s, steps), FactsAfter(s, f, steps))
    decreases |steps|
  {
    if steps != [] {
      StepInv(s, steps[0]);
      StepTook(s, f, steps[0]);
      StepSilent(s, f, steps[0]);
      RunSilent(Next(s, steps[0]), Learn(s, f, steps[0]), steps[1..]);
    }
  }

  // ---------- what follows ----------

  /** In every run an event other than NoResponse tells what took its instance: Closed a reset,
      Open a SYN+ACK with the result queued, Error the drop after a failure under its key, and
      Aborted none of these without a cancellation or the shutdown. */
  lemma EventTellsTaker(timeout: int, now: int, steps: seq<Step>, j: nat)
    requires Run(Init(timeout, now), steps) && j < |End(Init(timeout, now), steps).log|
    requires End(Init(timeout, now), steps).log[j].outcome != NoResponse
    ensures var s, f := End(Init(timeout, now), steps), FactsAfter(Init(timeout, now), NO_FACTS, steps);
            var e := s.log[j];
            e.id in f.took && e.id < |s.births| &&
            var t, gone := f.took[e.id], s.births[e.id].ctx in s.cancelled;
            && (e.outcome == Closed <==> t == ByReset)
            && (e.outcome == Open ==> t == ByAnswer(false) && e.id in f.queued)
            && (e.outcome == Error ==> e.key in f.failed && (t == ByFailedSend || t == ByFailedRetry(false)))
            && (e.outcome == Aborted ==>
                  || (t.ByAnswer? && (gone || SCANNER_CTX in s.cancelled))
                  || (t.BySweep? && (gone || s.table.isDone))
                  || (t.ByFailedRetry? && (gone || t.hopeless))
                  || (t.ByClose? && s.table.isDone))
  {
    InitInv(timeout, now);
    RunTook(Init(timeout, now), NO_FACTS, steps);
    assert Tells(End(Init(timeout, now), steps), FactsAfter(Init(timeout, now), NO_FACTS, steps),
                 End(Init(timeout, now), steps).log[j]);
  }

  /** In a clean run what took an instance determines its event. A hopeless one is Aborted. Else
      after a reset it is Closed, after a SYN+ACK Open, after the sweep NoResponse, after a failed
      send or retry Error, unless a later cancellation or the shutdown made it Aborted; and
      Aborted when `Close` drained it. */
  lemma TakerTellsEvent(timeout: int, now: int, steps: seq<Step>, j: nat)
    requires Run(Init(timeout, now), steps) && Clean(Init(timeout, now), steps)
    requires j < |End(Init(timeout, now), steps).log|
    ensures var s, f := End(Init(timeout, now), steps), FactsAfter(Init(timeout, now), NO_FACTS, steps);
            var e := s.log[j];
            e.id in f.took && e.id < |s.births| &&
            var gone := s.births[e.id].ctx in s.cancelled;
            match f.took[e.id]
            case ByReset => e.outcome == Closed
            case ByAnswer(hopeless) =>
              if e.outcome == Aborted then gone || SCANNER_CTX in s.cancelled else e.outcome == Open && !hopeless
            case BySweep(hopeless) =>
              if e.outcome == Aborted then gone || s.table.isDone else e.outcome == NoResponse && !hopeless
            case ByFailedSend => e.outcome == Error
            case ByFailedRetry(hopeless) =>
              if e.outcome == Aborted then gone || hopeless else e.outcome == Error && !hopeless
            case ByClose => e.outcome == Aborted && s.table.isDone
  {
    var s, f := End(Init(timeout, now), steps), FactsAfter(Init(timeout, now), NO_FACTS, steps);
    InitInv(timeout, now);
    RunTook(Init(timeout, now), NO_FACTS, steps);
    RunSilent(Init(timeout, now), NO_FACTS, steps);
    EventsGoToTheirInstance(timeout, now, steps);
    assert Faithful(s.log[j], s.births);
    if s.log[j].outcome != NoResponse { assert Tells(s, f, s.log[j]); }
  }

  /** The fingerprint pool only works for probes whose caller wants a service or HTTP probe. */
  lemma OnlyWantedJobs(timeout: int, now: int, steps: seq<Step>, t: nat)
    requires Run(Init(timeout, now), steps)
    ensures var s := End(Init(timeout, now), steps);
            t < |s.goroutines| && s.goroutines[t].Job? && !s.goroutines[t].delivery.Reported? ==>
              var option := s.goroutines[t].delivery.probe.option; option.fingerPrint || option.httpx
  {
    InitInv(timeout, now);
    RunTook(Init(timeout, now), NO_FACTS, steps);
    var s := End(Init(timeout, now), steps);
    if t < |s.goroutines| {
      assert TookGoroutine(s, FactsAfter(Init(timeout, now), NO_FACTS, steps), s.goroutines[t]);
    }
  }
}
