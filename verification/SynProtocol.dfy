/** The life of a SYN probe (core/port/syn/syn.go, core/port/syn/watchIpStatus.go) as a
    state machine. One step is one section under the table's lock, one channel operation,
    one wait-group operation, one packet write or one call of `EmitProbeDone`; the steps of
    the actors interleave in any order. */
module SynProtocol {
  import opened Types
  import opened ProbeTable

  const RETRY_CAP: nat := 64
  /** The scanner's own context; every other number is the context of one caller. */
  const SCANNER_CTX: Ctx := 0

  datatype Outcome = Open | Closed | NoResponse | Error | Aborted

  /** One call of `EmitProbeDone`; `stamp` is the send stamp of the probe that was reported. */
  datatype Event = Event(id: nat, key: ProbeKey, option: IpOption, startedAt: int,
                         outcome: Outcome, stamp: Option<int>, at: int)

  /** What a reservation fixed for its whole life. */
  datatype Birth = Birth(key: ProbeKey, option: IpOption, startedAt: int, ctx: Ctx)

  /** A confirmed open probe on its way to the result channel and its callback; it is cleared
      when its context was found alive. */
  datatype Delivery =
    | Confirmed(probe: PendingProbe) | Cleared(probe: PendingProbe) | Queued(probe: PendingProbe) | Reported

  /** A scan call or a fingerprint job. */
  datatype Goroutine =
    | Started(ip: string, dst: uint16, option: IpOption, ctx: Ctx)
    | Reserved(key: ProbeKey, id: nat)
    | AfterSend(key: ProbeKey, ok: bool, sampled: bool)
    | Dropped(probe: PendingProbe)
    | Job(delivery: Delivery)
    | Finished

  datatype Sweeper =
    | SweepIdle
    | Checking(probe: PendingProbe)
    | Deciding(probe: PendingProbe)
    | BackInTable(probe: PendingProbe)
    | QueueFull(probe: PendingProbe)
    | SweepEmit(probe: PendingProbe, outcome: Outcome)
    | SweepStopped

  datatype RetryLoop =
    | RetryIdle
    | RetryWaiting(alias: PendingProbe)
    | RetryTouched(alias: PendingProbe)
    | RetryFailed(alias: PendingProbe, canceled: bool)
    | RetryTracked(probe: PendingProbe, canceled: bool)
    | RetryStopped

  datatype Receiver =
    | RecvIdle
    | Claimed(key: ProbeKey)
    | Unmatched
    | Matched(probe: PendingProbe)
    | Refused(probe: PendingProbe)
    | GotReset(probe: PendingProbe)
    | RecvStopped

  datatype Handler = HandlerIdle | GotOpen(probe: PendingProbe) | Delivering(delivery: Delivery) | HandlerStopped

  datatype Closer =
    | NotClosed | DoneSet | CtxCancelled | RetryJoined | TableDone
    | Drained(pending: seq<PendingProbe>)
    | RecvJoined | ChanClosed | HandlerJoined | CloseReturned

  datatype State = State(
    timeout: int, now: int, cancelled: set<Ctx>, ssDone: bool,
    births: seq<Birth>, table: Table, goroutines: seq<Goroutine>,
    sweeper: Sweeper, expired: seq<PendingProbe>,
    retryChan: seq<PendingProbe>, retry: RetryLoop, recv: Receiver,
    openChan: seq<PendingProbe>, openClosed: bool, handler: Handler,
    closer: Closer, wg: int, log: seq<Event>,
    // history: how often each instance was put back, transmitted, sampled, sampled as a success, and swept
    rearmed: multiset<nat>, sent: multiset<nat>, sampled: multiset<nat>, recovered: multiset<nat>, swept: multiset<nat>)

  function Init(timeout: int, now: int): State {
    State(timeout, now, {}, false, [], Table(map[], SRC_PORT_MIN, false), [],
          SweepIdle, [], [], RetryIdle, RecvIdle, [], false, HandlerIdle,
          NotClosed, 0, [], multiset{}, multiset{}, multiset{}, multiset{}, multiset{})
  }

  function Report(s: State, p: PendingProbe, outcome: Outcome): seq<Event> {
    s.log + [Event(p.id, p.key, p.option, p.startedAt, outcome, p.sentAt, s.now)]
  }

  // ---------- scan calls ----------

  datatype CallAct =
    | GiveUp | Reserve(offset: nat, sentAt: int) | ReserveFails
    | Send(ok: bool, sampled: bool) | KeepRetry | Drop | Return | EmitError

  ghost predicate CallEnabled(s: State, t: nat, a: CallAct) {
    t < |s.goroutines| &&
    var g := s.goroutines[t];
    match a
    case GiveUp => g.Started?
    case Reserve(o, _) =>
      g.Started? && FirstFit(s.table.probes, g.ip, g.dst, StartPort(s.table.nextSrcPort), o)
    case ReserveFails => g.Started? && !HasRoom(s.table.probes, g.ip, g.dst)
    case Send(ok, _) => g.Reserved? && (ok ==> !s.ssDone)
    case KeepRetry => g.AfterSend? && g.sampled
    case Drop => g.AfterSend? && !g.sampled && !g.ok
    case Return => g.AfterSend? && !g.sampled && g.ok
    case EmitError => g.Dropped?
  }

  function CallNext(s: State, t: nat, a: CallAct): State
    requires CallEnabled(s, t, a)
  {
    var g := s.goroutines[t];
    match a
    case GiveUp => s.(goroutines := s.goroutines[t := Finished])
    case Reserve(o, at) =>
      var r := Request(|s.births|, g.ip, g.dst, g.option, at, g.ctx);
      var port := PortAt(StartPort(s.table.nextSrcPort), o);
      var key := ProbeKey(g.ip, port, g.dst);
      s.(births := s.births + [Birth(key, g.option, at, g.ctx)],
         table := Place(s.table, r, port),
         goroutines := s.goroutines[t := Reserved(key, |s.births|)])
    case ReserveFails => s.(goroutines := s.goroutines[t := Finished])
    case Send(ok, sampled) =>
      s.(goroutines := s.goroutines[t := AfterSend(g.key, ok, sampled)],
         sent := if ok then s.sent + multiset{g.id} else s.sent)
    case KeepRetry =>
      s.(table := SetRetry(s.table, g.key), goroutines := s.goroutines[t := AfterSend(g.key, g.ok, false)])
    case Drop =>
      // whatever the key holds now is dropped and reported, even if it is a later reservation
      var after := match Lookup(s.table, g.key) case Some(p) => Dropped(p) case None => Finished;
      s.(table := Remove(s.table, g.key), goroutines := s.goroutines[t := after])
    case Return => s.(goroutines := s.goroutines[t := Finished])
    case EmitError =>
      s.(log := Report(s, g.probe, Error), goroutines := s.goroutines[t := Finished])
  }

  // ---------- the sweeper: cleanTimeout, finishExpiredProbe, handleProbeTimeout ----------

  datatype SweepAct =
    | SweepStop | Collect(out: seq<PendingProbe>) | Pop | Check | Decide | TrySend | DropRearmed | SweepReport

  ghost predicate SweepEnabled(s: State, a: SweepAct) {
    match a
    case SweepStop => s.sweeper == SweepIdle && s.expired == [] && s.table.isDone
    case Collect(out) =>
      && s.sweeper == SweepIdle && s.expired == []
      && Enumerates(ExpiredPart(s.table.probes, s.now, s.timeout, s.cancelled), out)
    case Pop => s.sweeper == SweepIdle && s.expired != []
    case Check => s.sweeper.Checking?
    case Decide => s.sweeper.Deciding?
    case TrySend => s.sweeper.BackInTable?
    case DropRearmed => s.sweeper.QueueFull?
    case SweepReport => s.sweeper.SweepEmit?
  }

  function SweepNext(s: State, a: SweepAct): State
    requires SweepEnabled(s, a)
  {
    match a
    case SweepStop => s.(sweeper := SweepStopped)
    case Collect(out) =>
      s.(table := s.table.(probes := s.table.probes - ExpiredPart(s.table.probes, s.now, s.timeout, s.cancelled).Keys),
         expired := out, swept := s.swept + Ids(out))
    case Pop => s.(sweeper := Checking(s.expired[0]), expired := s.expired[1..])
    case Check =>
      var p := s.sweeper.probe;
      s.(sweeper := if s.table.isDone || p.ctx in s.cancelled then SweepEmit(p, Aborted) else Deciding(p))
    case Decide =>
      var p := s.sweeper.probe;
      if p.retried then
        s.(sampled := s.sampled + multiset{p.id}, sweeper := SweepEmit(p, NoResponse))
      else if !p.retry || !CanRearm(s.table, p, s.cancelled) then
        s.(sweeper := SweepEmit(p, NoResponse))
      else
        s.(table := s.table.(probes := s.table.probes[p.key := Rearmed(p)]),
           rearmed := s.rearmed + multiset{p.id}, sweeper := BackInTable(p))
    case TrySend =>
      var p := s.sweeper.probe;
      if |s.retryChan| < RETRY_CAP then s.(retryChan := s.retryChan + [Rearmed(p)], sweeper := SweepIdle)
      else s.(sweeper := QueueFull(p))
    case DropRearmed =>
      // the result of the drop is ignored: the sweeper reports its own copy either way
      var p := s.sweeper.probe;
      s.(table := Remove(s.table, p.key), sweeper := SweepEmit(p, NoResponse))
    case SweepReport =>
      s.(log := Report(s, s.sweeper.probe, s.sweeper.outcome), sweeper := SweepIdle)
  }

  function Ids(ps: seq<PendingProbe>): multiset<nat> {
    if ps == [] then multiset{} else multiset{ps[0].id} + Ids(ps[1..])
  }

  // ---------- the retry loop ----------

  datatype RetryAct =
    | RetryStop | RetryTake | RetryWaitFails(canceled: bool) | RetryTouch(at: int)
    | RetrySend(ok: bool, canceled: bool) | RetryDrop | RetryReport

  predicate RetryEnabled(s: State, a: RetryAct) {
    match a
    case RetryStop => s.retry == RetryIdle && SCANNER_CTX in s.cancelled
    case RetryTake => s.retry == RetryIdle && s.retryChan != []
    case RetryWaitFails(_) => s.retry.RetryWaiting?
    case RetryTouch(_) => s.retry.RetryWaiting?
    case RetrySend(ok, _) => s.retry.RetryTouched? && (ok ==> !s.ssDone)
    case RetryDrop => s.retry.RetryFailed?
    case RetryReport => s.retry.RetryTracked?
  }

  function RetryNext(s: State, a: RetryAct): State
    requires RetryEnabled(s, a)
  {
    match a
    case RetryStop => s.(retry := RetryStopped)
    case RetryTake => s.(retry := RetryWaiting(s.retryChan[0]), retryChan := s.retryChan[1..])
    case RetryWaitFails(canceled) => s.(retry := RetryFailed(s.retry.alias, canceled))
    case RetryTouch(at) =>
      var p := s.retry.alias;
      s.(table := Touch(s.table, p.key, at),
         retry := if p.key in s.table.probes then RetryTouched(p) else RetryIdle)
    case RetrySend(ok, canceled) =>
      if ok then s.(sent := s.sent + multiset{s.retry.alias.id}, retry := RetryIdle)
      else s.(retry := RetryFailed(s.retry.alias, canceled))
    case RetryDrop =>
      var after := match Lookup(s.table, s.retry.alias.key)
                   case Some(p) => RetryTracked(p, s.retry.canceled)
                   case None => RetryIdle;
      s.(table := Remove(s.table, s.retry.alias.key), retry := after)
    case RetryReport =>
      var p := s.retry.probe;
      var outcome := if p.ctx in s.cancelled || s.retry.canceled then Aborted else Error;
      s.(log := Report(s, p, outcome), retry := RetryIdle)
  }

  // ---------- the receiver ----------

  datatype RecvAct =
    | RecvStop | SynAck(key: ProbeKey) | TakeMatch | Unclaim | Enqueue | Refuse | ReportRefused
    | Reset(key: ProbeKey) | ReportClosed

  predicate RecvEnabled(s: State, a: RecvAct) {
    match a
    case RecvStop => s.recv == RecvIdle
    case SynAck(_) => s.recv == RecvIdle
    case TakeMatch => s.recv.Claimed?
    case Unclaim => s.recv == Unmatched
    case Enqueue => s.recv.Matched?
    case Refuse => s.recv.Matched? && SCANNER_CTX in s.cancelled
    case ReportRefused => s.recv.Refused?
    case Reset(_) => s.recv == RecvIdle
    case ReportClosed => s.recv.GotReset?
  }

  function IfRetried(samples: multiset<nat>, p: PendingProbe): multiset<nat> {
    if p.retried then samples + multiset{p.id} else samples
  }

  function RecvNext(s: State, a: RecvAct): State
    requires RecvEnabled(s, a)
  {
    match a
    case RecvStop => s.(recv := RecvStopped)
    case SynAck(key) => s.(wg := s.wg + 1, recv := Claimed(key))
    case TakeMatch =>
      (match Lookup(s.table, s.recv.key)
       case Some(p) =>
         s.(table := Remove(s.table, s.recv.key), recv := Matched(p),
            sampled := IfRetried(s.sampled, p), recovered := IfRetried(s.recovered, p))
       case None => s.(recv := Unmatched))
    case Unclaim => s.(wg := s.wg - 1, recv := RecvIdle)
    case Enqueue => s.(openChan := s.openChan + [s.recv.probe], recv := RecvIdle)
    case Refuse => s.(wg := s.wg - 1, recv := Refused(s.recv.probe))
    case ReportRefused => s.(log := Report(s, s.recv.probe, Aborted), recv := RecvStopped)
    case Reset(key) =>
      (match Lookup(s.table, key)
       case Some(p) =>
         s.(table := Remove(s.table, key), recv := GotReset(p),
            sampled := IfRetried(s.sampled, p), recovered := IfRetried(s.recovered, p))
       case None => s)
    case ReportClosed => s.(log := Report(s, s.recv.probe, Closed), recv := RecvIdle)
  }

  // ---------- open ports: portProbeHandle, EmitOpenProbeResult and the fingerprint jobs ----------

  datatype DeliverAct = Clear | QueueResult | AbortResult | ReportOpen | Release

  predicate DeliverEnabled(s: State, d: Delivery, a: DeliverAct) {
    match a
    case Clear => d.Confirmed? && d.probe.ctx !in s.cancelled
    case QueueResult => d.Cleared?
    case AbortResult => (d.Confirmed? || d.Cleared?) && d.probe.ctx in s.cancelled
    case ReportOpen => d.Queued?
    case Release => d.Reported?
  }

  /** The delivery's own part of a step; the caller moves itself on. */
  function Delivered(s: State, d: Delivery, a: DeliverAct): (State, Delivery)
    requires DeliverEnabled(s, d, a)
  {
    match a
    case Clear => (s, Cleared(d.probe))
    case QueueResult => (s, Queued(d.probe))
    case AbortResult => (s.(log := Report(s, d.probe, Aborted)), Reported)
    case ReportOpen => (s.(log := Report(s, d.probe, Open)), Reported)
    case Release => (s.(wg := s.wg - 1), Reported)
  }

  datatype HandleAct = HandlerStop | HandlerTake | Submit | Inline | Deliver(act: DeliverAct)

  predicate HandleEnabled(s: State, a: HandleAct) {
    match a
    case HandlerStop => s.handler == HandlerIdle && s.openChan == [] && s.openClosed
    case HandlerTake => s.handler == HandlerIdle && s.openChan != []
    case Submit => s.handler.GotOpen? && (s.handler.probe.option.fingerPrint || s.handler.probe.option.httpx)
    case Inline => s.handler.GotOpen?
    case Deliver(d) => s.handler.Delivering? && DeliverEnabled(s, s.handler.delivery, d)
  }

  function HandleNext(s: State, a: HandleAct): State
    requires HandleEnabled(s, a)
  {
    match a
    case HandlerStop => s.(handler := HandlerStopped)
    case HandlerTake => s.(handler := GotOpen(s.openChan[0]), openChan := s.openChan[1..])
    case Submit =>
      s.(goroutines := s.goroutines + [Job(Confirmed(s.handler.probe))], handler := HandlerIdle)
    case Inline => s.(handler := Delivering(Confirmed(s.handler.probe)))
    case Deliver(d) =>
      var (s', d') := Delivered(s, s.handler.delivery, d);
      s'.(handler := if d.Release? then HandlerIdle else Delivering(d'))
  }

  predicate JobEnabled(s: State, t: nat, a: DeliverAct) {
    t < |s.goroutines| && s.goroutines[t].Job? && DeliverEnabled(s, s.goroutines[t].delivery, a)
  }

  function JobNext(s: State, t: nat, a: DeliverAct): State
    requires JobEnabled(s, t, a)
  {
    var (s', d') := Delivered(s, s.goroutines[t].delivery, a);
    s'.(goroutines := s.goroutines[t := if a.Release? then Finished else Job(d')])
  }

  // ---------- Close ----------

  datatype CloseAct = CloseNext | DrainTable(out: seq<PendingProbe>) | ReportPending

  ghost predicate CloseEnabled(s: State, a: CloseAct) {
    match a
    case DrainTable(out) => s.closer == TableDone && Enumerates(s.table.probes, out)
    case ReportPending => s.closer.Drained? && s.closer.pending != []
    case CloseNext =>
      match s.closer
      case NotClosed => true
      case DoneSet => true
      case CtxCancelled => s.retry == RetryStopped
      case RetryJoined => true
      case TableDone => false
      case Drained(pending) => pending == [] && s.recv == RecvStopped
      case RecvJoined => true
      case ChanClosed => s.handler == HandlerStopped
      case HandlerJoined => s.wg == 0
      case CloseReturned => false
  }

  function CloseStep(s: State, a: CloseAct): State
    requires CloseEnabled(s, a)
  {
    match a
    case DrainTable(out) => s.(table := s.table.(probes := map[]), closer := Drained(out))
    case ReportPending =>
      s.(log := Report(s, s.closer.pending[0], Aborted), closer := Drained(s.closer.pending[1..]))
    case CloseNext =>
      match s.closer
      case NotClosed => s.(ssDone := true, closer := DoneSet)
      case DoneSet => s.(cancelled := s.cancelled + {SCANNER_CTX}, closer := CtxCancelled)
      case CtxCancelled => s.(closer := RetryJoined)
      case RetryJoined => s.(table := s.table.(isDone := true), closer := TableDone)
      case Drained(_) => s.(closer := RecvJoined)
      case RecvJoined => s.(openClosed := true, closer := ChanClosed)
      case ChanClosed => s.(closer := HandlerJoined)
      case HandlerJoined => s.(closer := CloseReturned)
  }

  // ---------- the environment ----------

  datatype EnvAct =
    | StartCall(ip: string, dst: uint16, option: IpOption, ctx: Ctx) | Cancel(ctx: Ctx) | Tick(now: int)

  predicate EnvEnabled(s: State, a: EnvAct) {
    match a
    case StartCall(_, dst, _, _) => !s.ssDone && dst != 0
    case Cancel(ctx) => ctx != SCANNER_CTX
    case Tick(now) => s.now <= now
  }

  function EnvNext(s: State, a: EnvAct): State
    requires EnvEnabled(s, a)
  {
    match a
    case StartCall(ip, dst, option, ctx) => s.(goroutines := s.goroutines + [Started(ip, dst, option, ctx)])
    case Cancel(ctx) => s.(cancelled := s.cancelled + {ctx})
    case Tick(now) => s.(now := now)
  }

  // ---------- runs ----------

  datatype Step =
    | CallStep(t: nat, call: CallAct) | SweepStep(sweep: SweepAct) | RetryStep(retry: RetryAct)
    | RecvStep(recv: RecvAct) | HandleStep(handle: HandleAct) | JobStep(t: nat, job: DeliverAct)
    | CloserStep(close: CloseAct) | EnvStep(env: EnvAct)

  ghost predicate Enabled(s: State, step: Step) {
    match step
    case CallStep(t, a) => CallEnabled(s, t, a)
    case SweepStep(a) => SweepEnabled(s, a)
    case RetryStep(a) => RetryEnabled(s, a)
    case RecvStep(a) => RecvEnabled(s, a)
    case HandleStep(a) => HandleEnabled(s, a)
    case JobStep(t, a) => JobEnabled(s, t, a)
    case CloserStep(a) => CloseEnabled(s, a)
    case EnvStep(a) => EnvEnabled(s, a)
  }

  function Next(s: State, step: Step): State
    requires Enabled(s, step)
  {
    match step
    case CallStep(t, a) => CallNext(s, t, a)
    case SweepStep(a) => SweepNext(s, a)
    case RetryStep(a) => RetryNext(s, a)
    case RecvStep(a) => RecvNext(s, a)
    case HandleStep(a) => HandleNext(s, a)
    case JobStep(t, a) => JobNext(s, t, a)
    case CloserStep(a) => CloseStep(s, a)
    case EnvStep(a) => EnvNext(s, a)
  }

  /** `steps` can be taken one after the other from `s`. */
  ghost predicate Run(s: State, steps: seq<Step>)
    decreases |steps|
  {
    steps == [] || (Enabled(s, steps[0]) && Run(Next(s, steps[0]), steps[1..]))
  }

  function End(s: State, steps: seq<Step>): State
    requires Run(s, steps)
    decreases |steps|
  {
    if steps == [] then s else End(Next(s, steps[0]), steps[1..])
  }

  /** The only unclean step is a queue-full drop that does not find the instance it rearmed. */
  predicate CleanStep(s: State, step: Step) {
    step == SweepStep(DropRearmed) && s.sweeper.QueueFull? ==>
      var p := s.sweeper.probe;
      p.key in s.table.probes && s.table.probes[p.key].id == p.id
  }

  ghost predicate Clean(s: State, steps: seq<Step>)
    requires Run(s, steps)
    decreases |steps|
  {
    steps == [] || (CleanStep(s, steps[0]) && Clean(Next(s, steps[0]), steps[1..]))
  }

  /** `Close` has returned and no actor holds anything. */
  predicate Quiescent(s: State) {
    && s.closer == CloseReturned
    && s.sweeper == SweepStopped && s.retry == RetryStopped && s.recv == RecvStopped && s.handler == HandlerStopped
    && forall t :: 0 <= t < |s.goroutines| ==> s.goroutines[t] == Finished
  }
}
