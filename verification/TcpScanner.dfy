/** The TCP scanner (core/port/tcp/tcp.go) as a state machine: in-flight slots, the hand-off to
    the fingerprint pool, the result channel, the terminal events and `Close`. */
module TcpScanner {
  import opened Types

  datatype Outcome = Open | Closed | NoResponse | Error | Aborted

  /** A failed dial as the classifier looks at it; `None` stands for no error. */
  datatype DialError = DialError(refused: bool, netTimeout: bool, saysTimeout: bool)

  function TcpProbeOutcome(cancelled: bool, err: Option<DialError>): (o: Outcome)
    ensures o == Open <==> !cancelled && err.None?
    ensures o == Aborted <==> cancelled
    ensures o == Closed <==> !cancelled && err.Some? && err.value.refused
    ensures o == NoResponse <==>
            !cancelled && err.Some? && !err.value.refused && (err.value.netTimeout || err.value.saysTimeout)
  {
    if cancelled then Aborted
    else match err
      case None => Open
      case Some(e) => if e.refused then Closed else if e.netTimeout || e.saysTimeout then NoResponse else Error
  }

  /** A confirmed port on its way through `EmitOpenProbeResult`; alive when its context was found
      not to be cancelled. */
  datatype Delivery = Confirmed | Alive | Queued | Reported

  /** The call itself, then the goroutine it started. A dial is doomed when its context was
      cancelled before it began. */
  datatype Place =
    | Arriving | Entering | Holding | Cleared | Failed
    | Dialing(doomed: bool) | Connected | Delivering(delivery: Delivery) | Leaving | SlotFreed | Ended

  /** A linked call has a context of its own, which follows the scanner's with some delay; any
      other uses the scanner's. */
  datatype Call = Call(place: Place, job: Option<Delivery>, fingerprint: bool, linked: bool, cancelled: bool)

  datatype Event = Event(call: nat, outcome: Outcome)

  datatype Closer = NotClosed | DoneSet | CtxCancelled | WgPassed | PoolClosed

  datatype State = State(capacity: nat, closer: Closer, calls: seq<Call>, inflight: int, wg: int,
                         results: nat, log: seq<Event>)

  function Init(maxConcurrent: int): State {
    State(if maxConcurrent <= 0 then 512 else maxConcurrent, NotClosed, [], 0, 0, 0, [])
  }

  datatype Emit = Check | QueueResult | AbortResult | ReportOpen

  datatype Act =
    | Enter | Reject | TakeSlot | GiveUp | Clear | Spawn
    | DialFails(err: DialError) | DialSucceeds | Inline | HandOff | Deliver(emit: Emit)
    | FreeSlot | WgDone | DeliverJob(emit: Emit)

  datatype Step = Begin(fingerprint: bool, linked: bool) | Of(c: nat, act: Act) | Cancel(c: nat) | CloseNext

  predicate EmitEnabled(c: Call, d: Delivery, e: Emit) {
    match e
    case Check => d == Confirmed && !c.cancelled
    case QueueResult => d == Alive
    case AbortResult => (d == Confirmed || d == Alive) && c.cancelled
    case ReportOpen => d == Queued
  }

  /** A submission to the closed pool sends on a closed channel, so nothing follows it. */
  predicate MaySubmit(s: State, c: Call) {
    c.place == Connected && c.fingerprint && s.closer != PoolClosed
  }

  predicate ActEnabled(s: State, c: Call, a: Act) {
    match a
    case Enter => c.place == Arriving && s.closer == NotClosed
    case Reject => (c.place == Arriving && s.closer != NotClosed) || (c.place == Entering && c.cancelled)
    case TakeSlot => c.place == Entering && s.inflight < s.capacity
    case GiveUp => c.place == Holding
    case Clear => c.place == Holding && !c.cancelled
    case Spawn => c.place == Cleared
    case DialFails(_) => c.place.Dialing?
    case DialSucceeds => c.place == Dialing(false)
    case Inline => (c.place == Connected && !c.fingerprint) || MaySubmit(s, c)
    case HandOff => MaySubmit(s, c)
    case Deliver(e) => c.place.Delivering? && EmitEnabled(c, c.place.delivery, e)
    case FreeSlot => c.place == Leaving
    case WgDone => c.place == SlotFreed
    case DeliverJob(e) => c.job.Some? && EmitEnabled(c, c.job.value, e)
  }

  /** No fingerprint job is left in the pool. */
  predicate PoolIdle(s: State) {
    forall c :: 0 <= c < |s.calls| && s.calls[c].job.Some? ==> s.calls[c].job.value == Reported
  }

  predicate CloseEnabled(s: State) {
    match s.closer
    case NotClosed => true
    case DoneSet => true
    case CtxCancelled => s.wg == 0
    case WgPassed => PoolIdle(s)
    case PoolClosed => false
  }

  predicate Enabled(s: State, step: Step) {
    match step
    case Begin(_, _) => true
    case Of(c, a) => c < |s.calls| && ActEnabled(s, s.calls[c], a)
    case Cancel(c) => c < |s.calls| && s.calls[c].linked
    case CloseNext => CloseEnabled(s)
  }

  predicate CtxDone(s: State) {
    s.closer != NotClosed && s.closer != DoneSet
  }

  function Emitted(d: Delivery, e: Emit): Delivery {
    match e case Check => Alive case QueueResult => Queued case _ => Reported
  }

  /** The event an act emits, if any. */
  function Emits(call: Call, c: nat, a: Act): Option<Event> {
    match a
    case DialFails(err) => Some(Event(c, TcpProbeOutcome(call.cancelled, Some(err))))
    case Deliver(e) => EmitsFor(c, e)
    case DeliverJob(e) => EmitsFor(c, e)
    case _ => None
  }

  function EmitsFor(c: nat, e: Emit): Option<Event> {
    match e
    case Check => None
    case QueueResult => None
    case AbortResult => Some(Event(c, Aborted))
    case ReportOpen => Some(Event(c, Open))
  }

  function SlotDelta(a: Act): int {
    match a case TakeSlot => 1 case GiveUp => -1 case FreeSlot => -1 case _ => 0
  }

  function WgDelta(a: Act): int {
    match a case Spawn => 1 case WgDone => -1 case _ => 0
  }

  function ResultDelta(a: Act): nat {
    if a == Deliver(QueueResult) || a == DeliverJob(QueueResult) then 1 else 0
  }

  /** Where an act leaves the call. */
  function Moved(c: Call, a: Act): Call {
    match a
    case Enter => c.(place := Entering)
    case Reject => c.(place := Failed)
    case TakeSlot => c.(place := Holding)
    case GiveUp => c.(place := Failed)
    case Clear => c.(place := Cleared)
    case Spawn => c.(place := Dialing(c.cancelled))
    case DialFails(_) => c.(place := Leaving)
    case DialSucceeds => c.(place := Connected)
    case Inline => c.(place := Delivering(Confirmed))
    case HandOff => c.(place := Leaving, job := Some(Confirmed))
    case Deliver(e) =>
      c.(place := if e.Check? then Delivering(Alive) else if e.QueueResult? then Delivering(Queued) else Leaving)
    case FreeSlot => c.(place := SlotFreed)
    case WgDone => c.(place := Ended)
    case DeliverJob(e) => if c.job.Some? then c.(job := Some(Emitted(c.job.value, e))) else c
  }

  /** Cancelling the scanner's context cancels at once the calls that use it. */
  function CancelAll(cs: seq<Call>): (r: seq<Call>)
    ensures |r| == |cs| && forall c :: 0 <= c < |cs| ==> r[c] == cs[c].(cancelled := cs[c].cancelled || !cs[c].linked)
  {
    seq(|cs|, c requires 0 <= c < |cs| => cs[c].(cancelled := cs[c].cancelled || !cs[c].linked))
  }

  function Next(s: State, step: Step): State
    requires Enabled(s, step)
  {
    match step
    case Begin(f, linked) => s.(calls := s.calls + [Call(Arriving, None, f, linked, !linked && CtxDone(s))])
    case Cancel(c) => s.(calls := s.calls[c := s.calls[c].(cancelled := true)])
    case CloseNext =>
      (match s.closer
       case NotClosed => s.(closer := DoneSet)
       case DoneSet => s.(closer := CtxCancelled, calls := CancelAll(s.calls))
       case CtxCancelled => s.(closer := WgPassed)
       case WgPassed => s.(closer := PoolClosed))
    case Of(c, a) =>
      var call := s.calls[c];
      var event := Emits(call, c, a);
      s.(calls := s.calls[c := Moved(call, a)],
         inflight := s.inflight + SlotDelta(a), wg := s.wg + WgDelta(a), results := s.results + ResultDelta(a),
         log := if event.Some? then s.log + [event.value] else s.log)
  }

  // ---------- what one call contributes ----------

  function OwesSlot(c: Call): nat {
    match c.place
    case Holding => 1 case Cleared => 1 case Dialing(_) => 1 case Connected => 1 case Delivering(_) => 1
    case Leaving => 1
    case _ => 0
  }

  function OwesWg(c: Call): nat {
    match c.place
    case Dialing(_) => 1 case Connected => 1 case Delivering(_) => 1 case Leaving => 1 case SlotFreed => 1
    case _ => 0
  }

  /** Results already in the channel whose Open event is still to come. */
  function OwesOpen(c: Call): nat {
    (if c.place == Delivering(Queued) then 1 else 0) + if c.job == Some(Queued) then 1 else 0
  }

  /** A nil return promised an event: how often the call or its job still has to emit it. */
  function OwesEvent(c: Call): nat {
    (match c.place
     case Dialing(_) => 1 case Connected => 1 case Delivering(d) => if d == Reported then 0 else 1
     case _ => 0)
    + if c.job.Some? && c.job.value != Reported then 1 else 0
  }

  /** The call returned nil. */
  predicate Accepted(c: Call) {
    match c.place
    case Arriving => false case Entering => false case Holding => false case Cleared => false case Failed => false
    case _ => true
  }

  datatype Tally = Tally(slots: nat, wg: nat, open: nat)

  function Sum(cs: seq<Call>): Tally {
    if cs == [] then Tally(0, 0, 0)
    else
      var rest := Sum(cs[1..]);
      Tally(OwesSlot(cs[0]) + rest.slots, OwesWg(cs[0]) + rest.wg, OwesOpen(cs[0]) + rest.open)
  }

  lemma {:induction false} SumUpdate(cs: seq<Call>, k: nat, c: Call)
    requires k < |cs|
    ensures Sum(cs[k := c]).slots + OwesSlot(cs[k]) == Sum(cs).slots + OwesSlot(c)
    ensures Sum(cs[k := c]).wg + OwesWg(cs[k]) == Sum(cs).wg + OwesWg(c)
    ensures Sum(cs[k := c]).open + OwesOpen(cs[k]) == Sum(cs).open + OwesOpen(c)
  {
    if k == 0 {
      assert cs[0 := c][1..] == cs[1..];
    } else {
      SumUpdate(cs[1..], k - 1, c);
      assert cs[k := c][1..] == cs[1..][k - 1 := c];
    }
  }

  lemma {:induction false} SumAppend(cs: seq<Call>, c: Call)
    requires c.place == Arriving && c.job == None
    ensures Sum(cs + [c]) == Sum(cs)
  {
    if cs == [] {
      assert [c][1..] == [];
    } else {
      SumAppend(cs[1..], c);
      assert (cs + [c])[1..] == cs[1..] + [c];
    }
  }

  function Events(log: seq<Event>, c: nat): nat {
    if log == [] then 0 else Events(log[..|log| - 1], c) + if log[|log| - 1].call == c then 1 else 0
  }

  function OpenEvents(log: seq<Event>): nat {
    if log == [] then 0 else OpenEvents(log[..|log| - 1]) + if log[|log| - 1].outcome == Open then 1 else 0
  }

  lemma LogAppend(log: seq<Event>, e: Event, c: nat)
    ensures Events(log + [e], c) == Events(log, c) + if e.call == c then 1 else 0
    ensures OpenEvents(log + [e]) == OpenEvents(log) + if e.outcome == Open then 1 else 0
  {
    assert (log + [e])[..|log|] == log;
  }

  // ---------- the invariant ----------

  /** A job exists only for an accepted call, after the goroutine gave up the event to it. */
  predicate CallSound(c: Call) {
    && (c.job.Some? ==> c.place == Leaving || c.place == SlotFreed || c.place == Ended)
    && (c.place.Delivering? ==> c.place.delivery != Reported)
    && (c.place.Dialing? && c.place.doomed ==> c.cancelled)
  }

  predicate CallExact(s: State, c: nat) {
    if c < |s.calls| then
      CallSound(s.calls[c])
      && OwesEvent(s.calls[c]) + Events(s.log, c) == if Accepted(s.calls[c]) then 1 else 0
    else Events(s.log, c) == 0
  }

  predicate Ledger(s: State) {
    var sum := Sum(s.calls);
    && s.inflight == sum.slots && s.inflight <= s.capacity && s.capacity > 0
    && s.wg == sum.wg
    && s.results == OpenEvents(s.log) + sum.open
  }

  ghost predicate Inv(s: State) {
    Ledger(s) && forall c: nat :: CallExact(s, c)
  }

  predicate ActOk(s: State, call: Call, c: nat, a: Act) {
    var call', event := Moved(call, a), Emits(call, c, a);
    && CallSound(call')
    && OwesSlot(call') == OwesSlot(call) + SlotDelta(a)
    && OwesWg(call') == OwesWg(call) + WgDelta(a)
    && ResultDelta(a) ==
       (if event.Some? && event.value.outcome == Open then 1 else 0) + OwesOpen(call') - OwesOpen(call)
    && (event.Some? ==> event.value.call == c)
    && OwesEvent(call') + (if event.Some? then 1 else 0) - OwesEvent(call)
       == (if Accepted(call') then 1 else 0) - if Accepted(call) then 1 else 0
  }

  lemma EntryBalances(s: State, call: Call, c: nat, a: Act)
    requires CallSound(call) && ActEnabled(s, call, a)
    requires a.Enter? || a.Reject? || a.TakeSlot? || a.GiveUp? || a.Clear? || a.Spawn?
    ensures ActOk(s, call, c, a)
  {}

  lemma DialBalances(s: State, call: Call, c: nat, a: Act)
    requires CallSound(call) && ActEnabled(s, call, a) && (a.DialFails? || a.DialSucceeds?)
    ensures ActOk(s, call, c, a)
  {}

  lemma SubmitBalances(s: State, call: Call, c: nat, a: Act)
    requires CallSound(call) && ActEnabled(s, call, a) && (a.Inline? || a.HandOff?)
    ensures ActOk(s, call, c, a)
  {}

  lemma DeliverBalances(s: State, call: Call, c: nat, e: Emit)
    requires CallSound(call) && ActEnabled(s, call, Deliver(e))
    ensures ActOk(s, call, c, Deliver(e))
  {}

  lemma JobBalances(s: State, call: Call, c: nat, e: Emit)
    requires CallSound(call) && ActEnabled(s, call, DeliverJob(e))
    ensures ActOk(s, call, c, DeliverJob(e))
  {}

  lemma ExitBalances(s: State, call: Call, c: nat, a: Act)
    requires CallSound(call) && ActEnabled(s, call, a) && (a.FreeSlot? || a.WgDone?)
    ensures ActOk(s, call, c, a)
  {}

  /** What an act takes from a call it puts into the counters and the log. */
  lemma ActBalances(s: State, call: Call, c: nat, a: Act)
    requires CallSound(call) && ActEnabled(s, call, a)
    ensures ActOk(s, call, c, a)
  {
    match a
    case Deliver(e) => DeliverBalances(s, call, c, e);
    case DeliverJob(e) => JobBalances(s, call, c, e);
    case DialFails(err) => DialBalances(s, call, c, a);
    case DialSucceeds => DialBalances(s, call, c, a);
    case Inline => SubmitBalances(s, call, c, a);
    case HandOff => SubmitBalances(s, call, c, a);
    case FreeSlot => ExitBalances(s, call, c, a);
    case WgDone => ExitBalances(s, call, c, a);
    case _ => EntryBalances(s, call, c, a);
  }

  /** Cancelling moves nothing. */
  lemma {:induction false} CancelSum(cs: seq<Call>)
    ensures Sum(CancelAll(cs)) == Sum(cs)
  {
    if cs != [] {
      CancelSum(cs[1..]);
      assert CancelAll(cs)[1..] == CancelAll(cs[1..]);
    }
  }

  lemma ActLedger(s: State, c: nat, a: Act)
    requires Ledger(s) && Enabled(s, Of(c, a)) && CallSound(s.calls[c])
    ensures Ledger(Next(s, Of(c, a)))
  {
    var event := Emits(s.calls[c], c, a);
    ActBalances(s, s.calls[c], c, a);
    SumUpdate(s.calls, c, Moved(s.calls[c], a));
    if event.Some? { LogAppend(s.log, event.value, c); }
  }

  lemma StepLedger(s: State, step: Step)
    requires Ledger(s) && Enabled(s, step)
    requires step.Of? ==> CallSound(s.calls[step.c])
    ensures Ledger(Next(s, step)) && Next(s, step).capacity == s.capacity
  {
    match step
    case Begin(f, linked) => SumAppend(s.calls, Call(Arriving, None, f, linked, !linked && CtxDone(s)));
    case Cancel(c) => SumUpdate(s.calls, c, s.calls[c].(cancelled := true));
    case CloseNext => CancelSum(s.calls);
    case Of(c, a) => ActLedger(s, c, a);
  }

  lemma ActCall(s: State, c: nat, a: Act, i: nat)
    requires CallExact(s, i) && Enabled(s, Of(c, a)) && CallSound(s.calls[c])
    ensures CallExact(Next(s, Of(c, a)), i)
  {
    var event := Emits(s.calls[c], c, a);
    ActBalances(s, s.calls[c], c, a);
    if event.Some? { LogAppend(s.log, event.value, i); }
  }

  lemma StepCall(s: State, step: Step, i: nat)
    requires CallExact(s, i) && Enabled(s, step)
    requires step.Of? ==> CallSound(s.calls[step.c])
    ensures CallExact(Next(s, step), i)
  {
    match step
    case Begin(f, linked) =>
    case Cancel(c) =>
    case CloseNext =>
    case Of(c, a) => ActCall(s, c, a, i);
  }

  lemma StepInv(s: State, step: Step)
    requires Inv(s) && Enabled(s, step)
    ensures Inv(Next(s, step)) && Next(s, step).capacity == s.capacity
  {
    if step.Of? { assert CallExact(s, step.c); }
    StepLedger(s, step);
    forall c: nat ensures CallExact(Next(s, step), c) { StepCall(s, step, c); }
  }

  ghost predicate Run(s: State, steps: seq<Step>)
    decreases |steps|
  {
    steps == [] || (Enabled(s, steps[0]) && Run(Next(s, steps[0]), steps[1..]))
  }

  function End(s: State, steps: seq<Step>): State
    requires Run(s, steps)
    decreases |steps|
  {
    if steps == [] then s else End(Next(s, steps[0]), steps[1..])
  }

  lemma {:induction false} RunInv(s: State, steps: seq<Step>)
    requires Inv(s) && Run(s, steps)
    ensures Inv(End(s, steps)) && End(s, steps).capacity == s.capacity
    decreases |steps|
  {
    if steps != [] {
      StepInv(s, steps[0]);
      RunInv(Next(s, steps[0]), steps[1..]);
    }
  }

  /** In every run the slots in use are exactly those of the calls that hold one and never
      exceed the limit, and the results queued are the Open events plus the results whose
      event is about to follow. */
  lemma SlotsAndResults(maxConcurrent: int, steps: seq<Step>)
    requires Run(Init(maxConcurrent), steps)
    ensures var s := End(Init(maxConcurrent), steps);
            && 0 <= s.inflight == Sum(s.calls).slots
            && s.inflight <= (if maxConcurrent <= 0 then 512 else maxConcurrent)
            && s.wg == Sum(s.calls).wg
            && s.results == OpenEvents(s.log) + Sum(s.calls).open
  {
    RunInv(Init(maxConcurrent), steps);
  }

  /** A call that returned nil emits at most one event; a call that failed emits none. */
  lemma AtMostOneEvent(maxConcurrent: int, steps: seq<Step>, c: nat)
    requires Run(Init(maxConcurrent), steps)
    ensures var s := End(Init(maxConcurrent), steps);
            Events(s.log, c) <= if c < |s.calls| && Accepted(s.calls[c]) then 1 else 0
  {
    RunInv(Init(maxConcurrent), steps);
    assert CallExact(End(Init(maxConcurrent), steps), c);
  }

  lemma {:induction false} NoneRunning(cs: seq<Call>, c: nat)
    requires c < |cs| && Sum(cs).wg == 0
    ensures OwesWg(cs[c]) == 0
  {
    if c > 0 { NoneRunning(cs[1..], c - 1); }
  }

  /** The goroutine of an accepted call is over for good. */
  lemma {:induction false} EndedStays(s: State, steps: seq<Step>, c: nat)
    requires Run(s, steps) && c < |s.calls| && s.calls[c].place == Ended
    ensures c < |End(s, steps).calls| && End(s, steps).calls[c].place == Ended
    decreases |steps|
  {
    if steps != [] { EndedStays(Next(s, steps[0]), steps[1..], c); }
  }

  /** The two waits of `Wait` and `Close`, one after the other: a call that had returned nil when
      the first was passed has emitted exactly one event when the second is. */
  lemma ExactlyOneEventAfterWait(maxConcurrent: int, before: seq<Step>, after: seq<Step>, c: nat)
    requires Run(Init(maxConcurrent), before) && Run(End(Init(maxConcurrent), before), after)
    ensures var s := End(Init(maxConcurrent), before);
            s.wg == 0 && c < |s.calls| && Accepted(s.calls[c]) && PoolIdle(End(s, after)) ==>
              Events(End(s, after).log, c) == 1
  {
    var s := End(Init(maxConcurrent), before);
    RunInv(Init(maxConcurrent), before);
    RunInv(s, after);
    if s.wg == 0 && c < |s.calls| && Accepted(s.calls[c]) {
      NoneRunning(s.calls, c);
      EndedStays(s, after, c);
      assert CallExact(End(s, after), c);
    }
  }

  lemma {:induction false} NoSlots(cs: seq<Call>)
    requires forall c :: 0 <= c < |cs| ==> OwesSlot(cs[c]) == 0
    ensures Sum(cs).slots == 0
  {
    if cs != [] { NoSlots(cs[1..]); }
  }

  /** Every slot taken comes back: once each call has failed or its goroutine ended, none is out. */
  lemma SlotsComeBack(maxConcurrent: int, steps: seq<Step>)
    requires Run(Init(maxConcurrent), steps)
    ensures var s := End(Init(maxConcurrent), steps);
            (forall c :: 0 <= c < |s.calls| ==> s.calls[c].place == Failed || s.calls[c].place == Ended)
            ==> s.inflight == 0 && s.wg == 0
  {
    RunInv(Init(maxConcurrent), steps);
    var s := End(Init(maxConcurrent), steps);
    if forall c :: 0 <= c < |s.calls| ==> s.calls[c].place == Failed || s.calls[c].place == Ended {
      NoSlots(s.calls);
      NoGoroutines(s.calls);
    }
  }

  lemma {:induction false} NoGoroutines(cs: seq<Call>)
    requires forall c :: 0 <= c < |cs| ==> OwesWg(cs[c]) == 0
    ensures Sum(cs).wg == 0
  {
    if cs != [] { NoGoroutines(cs[1..]); }
  }

  // ---------- what an event says about its call ----------

  /** How the dial of a call went, and whether the call was cancelled by then. */
  datatype Dial = Connection(cancelled: bool) | NoConnection(err: DialError, cancelled: bool)

  /** The dials of a run, and the calls whose result went into the result channel. */
  datatype Facts = Facts(dials: map<nat, Dial>, queued: set<nat>)

  const NO_FACTS := Facts(map[], {})

  function Learn(s: State, f: Facts, step: Step): Facts
    requires Enabled(s, step)
  {
    match step
    case Of(c, DialSucceeds) => f.(dials := f.dials[c := Connection(s.calls[c].cancelled)])
    case Of(c, DialFails(err)) => f.(dials := f.dials[c := NoConnection(err, s.calls[c].cancelled)])
    case Of(c, Deliver(QueueResult)) => f.(queued := f.queued + {c})
    case Of(c, DeliverJob(QueueResult)) => f.(queued := f.queued + {c})
    case _ => f
  }

  function FactsAfter(s: State, f: Facts, steps: seq<Step>): Facts
    requires Run(s, steps)
    decreases |steps|
  {
    if steps == [] then f else FactsAfter(Next(s, steps[0]), Learn(s, f, steps[0]), steps[1..])
  }

  predicate Connects(f: Facts, call: Call, c: nat) {
    c in f.dials && f.dials[c].Connection? && (f.dials[c].cancelled ==> call.cancelled)
  }

  predicate Knows(f: Facts, call: Call, c: nat, d: Delivery) {
    match d
    case Confirmed => Connects(f, call, c)
    case Alive => c in f.dials && f.dials[c] == Connection(false)
    case Queued => c in f.dials && f.dials[c] == Connection(false) && c in f.queued
    case Reported => true
  }

  predicate CallKnows(f: Facts, call: Call, c: nat) {
    && (call.place == Connected ==> Connects(f, call, c))
    && (call.place.Delivering? ==> Knows(f, call, c, call.place.delivery))
    && (call.job.Some? ==> Knows(f, call, c, call.job.value))
    && (!Dialed(call.place) ==> c !in f.dials && call.job.None?)
  }

  /** The call's dial is over. */
  predicate Dialed(p: Place) {
    p == Connected || p.Delivering? || p == Leaving || p == SlotFreed || p == Ended
  }

  /** The event goes with the dial. */
  predicate Tells(f: Facts, call: Call, e: Event) {
    e.call in f.dials &&
    match f.dials[e.call]
    case Connection(cancelled) =>
      if e.outcome == Aborted then call.cancelled else e.outcome == Open && !cancelled && e.call in f.queued
    case NoConnection(err, cancelled) =>
      if cancelled then e.outcome == Aborted
      else if err.refused then e.outcome == Closed
      else if err.netTimeout || err.saysTimeout then e.outcome == NoResponse
      else e.outcome == Error
  }

  predicate AllKnow(s: State, f: Facts) {
    && (forall c :: 0 <= c < |s.calls| ==> CallKnows(f, s.calls[c], c))
    && (forall c :: c in f.dials ==> c < |s.calls|)
    && (forall j :: 0 <= j < |s.log| ==> s.log[j].call < |s.calls| && Tells(f, s.calls[s.log[j].call], s.log[j]))
  }

  lemma ActKnows(s: State, f: Facts, c: nat, a: Act)
    requires AllKnow(s, f) && Enabled(s, Of(c, a)) && CallSound(s.calls[c])
    ensures var call', f' := Moved(s.calls[c], a), Learn(s, f, Of(c, a));
            && CallKnows(f', call', c)
            && (Emits(s.calls[c], c, a).Some? ==> Tells(f', call', Emits(s.calls[c], c, a).value))
  {
    assert CallKnows(f, s.calls[c], c);
  }

  lemma ActAllKnow(s: State, f: Facts, c: nat, a: Act)
    requires AllKnow(s, f) && Enabled(s, Of(c, a)) && CallSound(s.calls[c])
    ensures AllKnow(Next(s, Of(c, a)), Learn(s, f, Of(c, a)))
  {
    var s', f' := Next(s, Of(c, a)), Learn(s, f, Of(c, a));
    ActKnows(s, f, c, a);
    assert CallKnows(f, s.calls[c], c);
    forall j | 0 <= j < |s'.log| ensures s'.log[j].call < |s'.calls| && Tells(f', s'.calls[s'.log[j].call], s'.log[j]) {
      if j < |s.log| { assert Tells(f, s.calls[s.log[j].call], s.log[j]); }
    }
  }

  lemma StepKnows(s: State, f: Facts, step: Step)
    requires Inv(s) && AllKnow(s, f) && Enabled(s, step)
    ensures AllKnow(Next(s, step), Learn(s, f, step))
  {
    match step
    case Of(c, a) =>
      assert CallExact(s, c);
      ActAllKnow(s, f, c, a);
    case Begin(fingerprint, linked) =>
    case Cancel(c) =>
    case CloseNext =>
  }

  lemma {:induction false} RunKnows(s: State, f: Facts, steps: seq<Step>)
    requires Inv(s) && AllKnow(s, f) && Run(s, steps)
    ensures AllKnow(End(s, steps), FactsAfter(s, f, steps))
    decreases |steps|
  {
    if steps != [] {
      StepInv(s, steps[0]);
      StepKnows(s, f, steps[0]);
      RunKnows(Next(s, steps[0]), Learn(s, f, steps[0]), steps[1..]);
    }
  }

  /** In every run an event goes with its call's dial. A connection is reported Open with its
      result queued, or Aborted if the call was cancelled, in any case if it was by the time it
      connected. Without one the event is Aborted if the call was cancelled by then, and else as
      the error says. */
  lemma EventTellsDial(maxConcurrent: int, steps: seq<Step>, j: nat)
    requires Run(Init(maxConcurrent), steps) && j < |End(Init(maxConcurrent), steps).log|
    ensures var s, f := End(Init(maxConcurrent), steps), FactsAfter(Init(maxConcurrent), NO_FACTS, steps);
            var e := s.log[j];
            e.call < |s.calls| && e.call in f.dials &&
            match f.dials[e.call]
            case Connection(cancelled) =>
              if e.outcome == Aborted then s.calls[e.call].cancelled
              else e.outcome == Open && !cancelled && e.call in f.queued
            case NoConnection(err, cancelled) =>
              if cancelled then e.outcome == Aborted
              else if err.refused then e.outcome == Closed
              else if err.netTimeout || err.saysTimeout then e.outcome == NoResponse
              else e.outcome == Error
  {
    RunKnows(Init(maxConcurrent), NO_FACTS, steps);
  }

  // ---------- submissions to the closed pool ----------

  /** A call is about to submit to the pool although it is closed. */
  predicate LateSubmit(s: State) {
    s.closer == PoolClosed && exists c :: 0 <= c < |s.calls| && s.calls[c].place == Connected && s.calls[c].fingerprint
  }

  /** A call that wants a fingerprint and may still get a connection without passing the closed
      check again. */
  predicate Live(c: Call) {
    c.fingerprint &&
    match c.place
    case Entering => !c.cancelled
    case Holding => !c.cancelled
    case Cleared => !c.cancelled
    case Dialing(doomed) => !doomed
    case Connected => true
    case _ => false
  }

  predicate NoneLive(s: State) {
    forall c :: 0 <= c < |s.calls| ==> !Live(s.calls[c])
  }

  lemma {:induction false} NoneLiveStays(s: State, steps: seq<Step>)
    requires Run(s, steps) && s.closer != NotClosed && NoneLive(s)
    ensures NoneLive(End(s, steps))
    decreases |steps|
  {
    if steps != [] { NoneLiveStays(Next(s, steps[0]), steps[1..]); }
  }

  lemma Prepend(s: State, step: Step, rest: seq<Step>)
    requires Enabled(s, step) && Run(Next(s, step), rest)
    ensures Run(s, [step] + rest) && End(s, [step] + rest) == End(Next(s, step), rest)
  {
    assert ([step] + rest)[1..] == rest;
  }

  function Rank(p: Place): nat {
    match p
    case Entering => 9 case Holding => 8 case Cleared => 7 case Dialing(_) => 6 case Connected => 5
    case Delivering(Confirmed) => 4 case Delivering(Alive) => 3 case Delivering(_) => 2 case Leaving => 1
    case _ => 0
  }

  function EmitOn(c: Call, d: Delivery): Emit {
    match d
    case Confirmed => if c.cancelled then AbortResult else Check
    case Alive => QueueResult
    case _ => ReportOpen
  }

  /** The next act on the way to giving the slot back. */
  function Onward(c: Call): Act {
    match c.place
    case Holding => GiveUp
    case Cleared => Spawn
    case Dialing(_) => DialFails(DialError(false, false, false))
    case Connected => Inline
    case Delivering(d) => Deliver(EmitOn(c, d))
    case _ => FreeSlot
  }

  /** The holder of a slot that is not live can give it back by itself. */
  lemma {:induction false} GiveBack(s: State, d: nat) returns (steps: seq<Step>)
    requires d < |s.calls| && OwesSlot(s.calls[d]) == 1 && CallSound(s.calls[d])
    requires !(s.calls[d].place == Connected && s.calls[d].fingerprint)
    ensures Run(s, steps)
    ensures var s' := End(s, steps);
            && s'.closer == s.closer && s'.capacity == s.capacity && s'.inflight == s.inflight - 1
            && |s'.calls| == |s.calls| && forall c :: 0 <= c < |s.calls| && c != d ==> s'.calls[c] == s.calls[c]
    decreases Rank(s.calls[d].place)
  {
    var step := Of(d, Onward(s.calls[d]));
    var rest := [];
    if !step.act.GiveUp? && !step.act.FreeSlot? {
      rest := GiveBack(Next(s, step), d);
    }
    Prepend(s, step, rest);
    steps := [step] + rest;
  }

  lemma {:induction false} RunConcat(s: State, a: seq<Step>, b: seq<Step>)
    requires Run(s, a) && Run(End(s, a), b)
    ensures Run(s, a + b) && End(s, a + b) == End(End(s, a), b)
    decreases |a|
  {
    if a == [] {
      assert a + b == b;
    } else {
      RunConcat(Next(s, a[0]), a[1..], b);
      assert (a + b)[1..] == a[1..] + b;
    }
  }

  lemma Holder(s: State) returns (d: nat)
    requires Inv(s) && s.inflight > 0
    ensures d < |s.calls| && OwesSlot(s.calls[d]) == 1 && CallSound(s.calls[d])
  {
    if forall c :: 0 <= c < |s.calls| ==> OwesSlot(s.calls[c]) == 0 {
      NoSlots(s.calls);
      assert false;
    }
    d :| d < |s.calls| && OwesSlot(s.calls[d]) != 0;
    assert CallExact(s, d);
  }

  /** A live call gets to its submission by itself, but for a slot that somebody has to free. */
  lemma {:induction false} GetsThere(s: State, c: nat) returns (steps: seq<Step>)
    requires Inv(s) && s.closer == PoolClosed && c < |s.calls| && Live(s.calls[c])
    ensures Run(s, steps) && LateSubmit(End(s, steps))
    decreases Rank(s.calls[c].place), Sum(s.calls).slots, 1
  {
    match s.calls[c].place
    case Connected => steps := [];
    case Entering =>
      if s.inflight < s.capacity {
        steps := GoesOn(s, c, TakeSlot);
      } else {
        steps := WaitsForSlot(s, c);
      }
    case Holding => steps := GoesOn(s, c, Clear);
    case Cleared => steps := GoesOn(s, c, Spawn);
    case Dialing(_) => steps := GoesOn(s, c, DialSucceeds);
  }

  lemma {:induction false} GoesOn(s: State, c: nat, a: Act) returns (steps: seq<Step>)
    requires Inv(s) && s.closer == PoolClosed && Enabled(s, Of(c, a)) && Live(s.calls[c])
    requires Live(Moved(s.calls[c], a)) && Rank(Moved(s.calls[c], a).place) < Rank(s.calls[c].place)
    ensures Run(s, steps) && LateSubmit(End(s, steps))
    decreases Rank(s.calls[c].place), Sum(s.calls).slots, 0
  {
    StepInv(s, Of(c, a));
    var rest := GetsThere(Next(s, Of(c, a)), c);
    Prepend(s, Of(c, a), rest);
    steps := [Of(c, a)] + rest;
  }

  lemma {:induction false} WaitsForSlot(s: State, c: nat) returns (steps: seq<Step>)
    requires Inv(s) && s.closer == PoolClosed && c < |s.calls| && Live(s.calls[c])
    requires s.calls[c].place == Entering && s.inflight >= s.capacity
    ensures Run(s, steps) && LateSubmit(End(s, steps))
    decreases Rank(s.calls[c].place), Sum(s.calls).slots, 0
  {
    var d := Holder(s);
    if Live(s.calls[d]) {
      steps := GetsThere(s, d);
    } else {
      var give := GiveBack(s, d);
      RunInv(s, give);
      var rest := GetsThere(End(s, give), c);
      RunConcat(s, give, rest);
      steps := give + rest;
    }
  }

  ghost predicate MaySubmitLate(s: State) {
    exists more :: Run(s, more) && LateSubmit(End(s, more))
  }

  /** From the moment the pool is closed a call can come to submit to it if and only if one that
      wants a fingerprint had passed the closed check, has a context that does not know of the
      shutdown yet, and is not past its dial. */
  lemma LateSubmitIff(maxConcurrent: int, steps: seq<Step>)
    requires Run(Init(maxConcurrent), steps) && End(Init(maxConcurrent), steps).closer == PoolClosed
    ensures var s := End(Init(maxConcurrent), steps);
            MaySubmitLate(s) <==> !NoneLive(s)
  {
    var s := End(Init(maxConcurrent), steps);
    RunInv(Init(maxConcurrent), steps);
    if NoneLive(s) {
      forall more | Run(s, more) ensures !LateSubmit(End(s, more)) { NoneLiveStays(s, more); }
    } else {
      var c :| 0 <= c < |s.calls| && Live(s.calls[c]);
      var more := GetsThere(s, c);
      assert Run(s, more) && LateSubmit(End(s, more));
    }
  }

  /** When no such call is left as the scanner's own wait is passed, the pool's rule that its
      producers stop before it is closed is kept. */
  lemma ProducersStopped(maxConcurrent: int, before: seq<Step>, after: seq<Step>)
    requires Run(Init(maxConcurrent), before) && Run(End(Init(maxConcurrent), before), after)
    requires End(Init(maxConcurrent), before).closer == WgPassed && NoneLive(End(Init(maxConcurrent), before))
    ensures !LateSubmit(End(End(Init(maxConcurrent), before), after))
  {
    NoneLiveStays(End(Init(maxConcurrent), before), after);
  }

  /** The scanner does not wait for a call that has passed the closed check and has not started
      its goroutine yet. */
  lemma OneLateSubmit(maxConcurrent: int) returns (steps: seq<Step>)
    ensures Run(Init(maxConcurrent), steps) && LateSubmit(End(Init(maxConcurrent), steps))
  {
    steps := [Begin(true, true), Of(0, Enter), CloseNext, CloseNext, CloseNext, CloseNext];
    var s0 := Init(maxConcurrent);
    var s1 := Next(s0, Begin(true, true));
    var s2 := Next(s1, Of(0, Enter));
    var s3 := Next(s2, CloseNext);
    var s4 := Next(s3, CloseNext);
    var s5 := Next(s4, CloseNext);
    var s6 := Next(s5, CloseNext);
    Prepend(s5, CloseNext, []);
    Prepend(s4, CloseNext, [CloseNext]);
    Prepend(s3, CloseNext, [CloseNext, CloseNext]);
    Prepend(s2, CloseNext, [CloseNext, CloseNext, CloseNext]);
    Prepend(s1, Of(0, Enter), [CloseNext, CloseNext, CloseNext, CloseNext]);
    Prepend(s0, Begin(true, true), [Of(0, Enter), CloseNext, CloseNext, CloseNext, CloseNext]);
    assert Live(s6.calls[0]);
    LateSubmitIff(maxConcurrent, steps);
    var more :| Run(s6, more) && LateSubmit(End(s6, more));
    RunConcat(s0, steps, more);
    steps := steps + more;
  }
}
