/** The bounded executor for optional work (core/port/worker_pool.go) as a state machine: the
    job channel, the wait group, the workers and any number of `TrySubmit` calls in progress. */
module WorkPool {
  /** `TrySubmit` call number j submits job j. */
  datatype Submit = Trying | Refusing | Accepted | Rejected

  datatype Worker = Idle | Running(job: nat) | Ran | Exited

  datatype Closer = Open | ChanClosed | CloseReturned

  datatype State = State(cap: nat, submits: seq<Submit>, queue: seq<nat>, workers: seq<Worker>,
                         wg: int, closer: Closer, ran: seq<nat>)

  function Init(workers: int, queueSize: int): State {
    State(if queueSize < 0 then 0 else queueSize, [], [],
          seq(if workers <= 0 then 1 else workers, _ => Idle), 0, Open, [])
  }

  datatype Step =
    | Begin                              // jobsWG.Add(1)
    | Enqueue(j: nat)                    // the send goes into the buffer
    | HandOff(j: nat, w: nat)            // or straight to a worker that is receiving
    | Refuse(j: nat) | Reject(j: nat)    // the default branch, then jobsWG.Done()
    | Take(w: nat) | Finish(w: nat) | Done(w: nat) | Exit(w: nat)
    | CloseChan | Joined

  predicate NoneMidSubmit(s: State) {
    forall j :: 0 <= j < |s.submits| ==> s.submits[j] == Accepted || s.submits[j] == Rejected
  }

  /** `Close` may be called only after all producers stopped: it starts with no submission in
      progress, and none begins afterwards. */
  predicate Enabled(s: State, step: Step) {
    match step
    case Begin => s.closer == Open
    case Enqueue(j) => j < |s.submits| && s.submits[j] == Trying && |s.queue| < s.cap
    case HandOff(j, w) =>
      j < |s.submits| && s.submits[j] == Trying && s.queue == [] && w < |s.workers| && s.workers[w] == Idle
    case Refuse(j) => j < |s.submits| && s.submits[j] == Trying && |s.queue| >= s.cap
    case Reject(j) => j < |s.submits| && s.submits[j] == Refusing
    case Take(w) => w < |s.workers| && s.workers[w] == Idle && s.queue != []
    case Finish(w) => w < |s.workers| && s.workers[w].Running?
    case Done(w) => w < |s.workers| && s.workers[w] == Ran
    case Exit(w) => w < |s.workers| && s.workers[w] == Idle && s.queue == [] && s.closer != Open
    case CloseChan => s.closer == Open && s.wg == 0 && NoneMidSubmit(s)
    case Joined => s.closer == ChanClosed && forall w :: 0 <= w < |s.workers| ==> s.workers[w] == Exited
  }

  function Next(s: State, step: Step): State
    requires Enabled(s, step)
  {
    match step
    case Begin => s.(submits := s.submits + [Trying], wg := s.wg + 1)
    case Enqueue(j) => s.(submits := s.submits[j := Accepted], queue := s.queue + [j])
    case HandOff(j, w) => s.(submits := s.submits[j := Accepted], workers := s.workers[w := Running(j)])
    case Refuse(j) => s.(submits := s.submits[j := Refusing])
    case Reject(j) => s.(submits := s.submits[j := Rejected], wg := s.wg - 1)
    case Take(w) => s.(workers := s.workers[w := Running(s.queue[0])], queue := s.queue[1..])
    case Finish(w) => s.(workers := s.workers[w := Ran], ran := s.ran + [s.workers[w].job])
    case Done(w) => s.(workers := s.workers[w := Idle], wg := s.wg - 1)
    case Exit(w) => s.(workers := s.workers[w := Exited])
    case CloseChan => s.(closer := ChanClosed)
    case Joined => s.(closer := CloseReturned)
  }

  // ---------- counting ----------

  function MidSubmit(ts: seq<Submit>): nat {
    if ts == [] then 0 else (if ts[0].Trying? || ts[0].Refusing? then 1 else 0) + MidSubmit(ts[1..])
  }

  /** Workers that owe the wait group a `Done`. */
  function Busy(ws: seq<Worker>): nat {
    if ws == [] then 0 else (if ws[0].Running? || ws[0].Ran? then 1 else 0) + Busy(ws[1..])
  }

  function RunningJob(ws: seq<Worker>, j: nat): nat {
    if ws == [] then 0 else (if ws[0] == Running(j) then 1 else 0) + RunningJob(ws[1..], j)
  }

  lemma {:induction false} SubmitsUpdate(ts: seq<Submit>, k: nat, t: Submit)
    requires k < |ts|
    ensures MidSubmit(ts[k := t]) + (if ts[k].Trying? || ts[k].Refusing? then 1 else 0)
            == MidSubmit(ts) + if t.Trying? || t.Refusing? then 1 else 0
  {
    if k == 0 {
      assert ts[0 := t][1..] == ts[1..];
    } else {
      SubmitsUpdate(ts[1..], k - 1, t);
      assert ts[k := t][1..] == ts[1..][k - 1 := t];
    }
  }

  lemma {:induction false} SubmitsAppend(ts: seq<Submit>, t: Submit)
    ensures MidSubmit(ts + [t]) == MidSubmit(ts) + if t.Trying? || t.Refusing? then 1 else 0
  {
    if ts == [] {
      assert [t][1..] == [];
    } else {
      SubmitsAppend(ts[1..], t);
      assert (ts + [t])[1..] == ts[1..] + [t];
    }
  }

  lemma {:induction false} WorkersUpdate(ws: seq<Worker>, k: nat, w: Worker, j: nat)
    requires k < |ws|
    ensures Busy(ws[k := w]) + (if ws[k].Running? || ws[k].Ran? then 1 else 0)
            == Busy(ws) + if w.Running? || w.Ran? then 1 else 0
    ensures RunningJob(ws[k := w], j) + (if ws[k] == Running(j) then 1 else 0)
            == RunningJob(ws, j) + if w == Running(j) then 1 else 0
  {
    if k == 0 {
      assert ws[0 := w][1..] == ws[1..];
    } else {
      WorkersUpdate(ws[1..], k - 1, w, j);
      assert ws[k := w][1..] == ws[1..][k - 1 := w];
    }
  }

  /** The wait group counts the submissions in progress and the jobs queued or running. */
  predicate WgExact(s: State) {
    s.wg == MidSubmit(s.submits) + |s.queue| + Busy(s.workers)
  }

  function Held(s: State, j: nat): nat {
    multiset(s.queue)[j] + RunningJob(s.workers, j) + multiset(s.ran)[j]
  }

  /** An accepted job is in exactly one of the queue, a worker, and the list of finished jobs;
      any other job is in none. */
  predicate JobExact(s: State, j: nat) {
    Held(s, j) == if j < |s.submits| && s.submits[j] == Accepted then 1 else 0
  }

  ghost predicate Inv(s: State) {
    && WgExact(s)
    && (forall j: nat :: JobExact(s, j))
    && (s.closer != Open ==> s.wg == 0)
    && |s.workers| > 0
    && (s.closer == CloseReturned ==> forall w :: 0 <= w < |s.workers| ==> s.workers[w] == Exited)
  }

  lemma {:induction false} AllIdle(ws: seq<Worker>, j: nat)
    requires forall w :: 0 <= w < |ws| ==> ws[w] == Idle
    ensures Busy(ws) == 0 && RunningJob(ws, j) == 0
  {
    if ws != [] { AllIdle(ws[1..], j); }
  }

  lemma InitInv(workers: int, queueSize: int)
    ensures Inv(Init(workers, queueSize))
  {
    var s := Init(workers, queueSize);
    forall j: nat ensures JobExact(s, j) { AllIdle(s.workers, j); }
    AllIdle(s.workers, 0);
  }

  lemma StepWg(s: State, step: Step)
    requires WgExact(s) && Enabled(s, step)
    ensures WgExact(Next(s, step))
  {
    var s' := Next(s, step);
    match step
    case Begin => SubmitsAppend(s.submits, Trying);
    case Enqueue(j) => SubmitsUpdate(s.submits, j, Accepted);
    case HandOff(j, w) => SubmitsUpdate(s.submits, j, Accepted); WorkersUpdate(s.workers, w, Running(j), 0);
    case Refuse(j) => SubmitsUpdate(s.submits, j, Refusing);
    case Reject(j) => SubmitsUpdate(s.submits, j, Rejected);
    case Take(w) => WorkersUpdate(s.workers, w, s'.workers[w], 0);
    case Finish(w) => WorkersUpdate(s.workers, w, Ran, 0);
    case Done(w) => WorkersUpdate(s.workers, w, Idle, 0);
    case Exit(w) => WorkersUpdate(s.workers, w, Exited, 0);
    case CloseChan =>
    case Joined =>
  }

  lemma TakeJob(s: State, w: nat, i: nat)
    requires JobExact(s, i) && Enabled(s, Take(w))
    ensures JobExact(Next(s, Take(w)), i)
  {
    WorkersUpdate(s.workers, w, Running(s.queue[0]), i);
    assert s.queue == [s.queue[0]] + s.queue[1..];
  }

  lemma FinishJob(s: State, w: nat, i: nat)
    requires JobExact(s, i) && Enabled(s, Finish(w))
    ensures JobExact(Next(s, Finish(w)), i)
  {
    WorkersUpdate(s.workers, w, Ran, i);
  }

  lemma StepJob(s: State, step: Step, i: nat)
    requires JobExact(s, i) && Enabled(s, step)
    ensures JobExact(Next(s, step), i)
  {
    match step
    case HandOff(j, w) => WorkersUpdate(s.workers, w, Running(j), i);
    case Take(w) => TakeJob(s, w, i);
    case Finish(w) => FinishJob(s, w, i);
    case Done(w) => WorkersUpdate(s.workers, w, Idle, i);
    case Exit(w) => WorkersUpdate(s.workers, w, Exited, i);
    case Begin =>
    case Enqueue(j) =>
    case Refuse(j) =>
    case Reject(j) =>
    case CloseChan =>
    case Joined =>
  }

  lemma {:induction false} SomeoneBusy(ws: seq<Worker>, w: nat)
    requires w < |ws| && (ws[w].Running? || ws[w].Ran?)
    ensures Busy(ws) > 0
  {
    if w > 0 { SomeoneBusy(ws[1..], w - 1); }
  }

  lemma {:induction false} SomeoneSubmits(ts: seq<Submit>, j: nat)
    requires j < |ts| && (ts[j].Trying? || ts[j].Refusing?)
    ensures MidSubmit(ts) > 0
  {
    if j > 0 { SomeoneSubmits(ts[1..], j - 1); }
  }

  /** Once closed the pool is still: only workers leave. In particular nothing is sent on the
      closed channel. */
  lemma ClosedIsStill(s: State, step: Step)
    requires Inv(s) && s.closer != Open && Enabled(s, step)
    ensures step.Exit? || step.Joined?
  {
    match step
    case Enqueue(j) => SomeoneSubmits(s.submits, j);
    case HandOff(j, w) => SomeoneSubmits(s.submits, j);
    case Refuse(j) => SomeoneSubmits(s.submits, j);
    case Reject(j) => SomeoneSubmits(s.submits, j);
    case Finish(w) => SomeoneBusy(s.workers, w);
    case Done(w) => SomeoneBusy(s.workers, w);
    case _ =>
  }

  lemma StepInv(s: State, step: Step)
    requires Inv(s) && Enabled(s, step)
    ensures Inv(Next(s, step))
  {
    StepWg(s, step);
    forall j: nat ensures JobExact(Next(s, step), j) { StepJob(s, step, j); }
    if s.closer != Open { ClosedIsStill(s, step); }
  }

  ghost predicate Run(s: State, steps: seq<Step>)
    decreases |steps|
  {
    steps == [] || (Enabled(s, steps[0]) && Run(Next(s, steps[0]), steps[1..]))
  }

  function End(s: State, steps: seq<Step>): State
    requires Run(s, steps)
    decreases |steps|
  {
    if steps == [] then s else End(Next(s, steps[0]), steps[1..])
  }

  lemma {:induction false} RunInv(s: State, steps: seq<Step>)
    requires Inv(s) && Run(s, steps)
    ensures Inv(End(s, steps))
    decreases |steps|
  {
    if steps != [] {
      StepInv(s, steps[0]);
      RunInv(Next(s, steps[0]), steps[1..]);
    }
  }

  /** In every run the counter is exact, no job runs twice, no job runs that was not accepted,
      and at the moments when `Wait` or `Close` can return (counter at zero, pool closed) every
      job accepted so far has run exactly once. */
  lemma JobsRunOnce(workers: int, queueSize: int, steps: seq<Step>, j: nat)
    requires Run(Init(workers, queueSize), steps)
    ensures var s := End(Init(workers, queueSize), steps);
            var accepted := j < |s.submits| && s.submits[j] == Accepted;
            && s.wg == MidSubmit(s.submits) + |s.queue| + Busy(s.workers)
            && multiset(s.ran)[j] <= 1
            && (!accepted ==> multiset(s.ran)[j] == 0)
            && (s.wg == 0 || s.closer != Open ==> (accepted <==> multiset(s.ran)[j] == 1))
  {
    InitInv(workers, queueSize);
    RunInv(Init(workers, queueSize), steps);
    var s := End(Init(workers, queueSize), steps);
    assert JobExact(s, j);
    if s.wg == 0 { NoneRunning(s.workers, j); }
  }

  lemma {:induction false} NoneRunning(ws: seq<Worker>, j: nat)
    requires Busy(ws) == 0
    ensures RunningJob(ws, j) == 0
  {
    if ws != [] { NoneRunning(ws[1..], j); }
  }

  lemma {:induction false} SizesStay(s: State, steps: seq<Step>)
    requires Run(s, steps) && |s.queue| <= s.cap
    ensures |End(s, steps).queue| <= s.cap && |End(s, steps).workers| == |s.workers|
    decreases |steps|
  {
    if steps != [] { SizesStay(Next(s, steps[0]), steps[1..]); }
  }

  /** The pool stays bounded: as many workers as asked for but at least one, and never more jobs
      queued than asked for. */
  lemma PoolIsBounded(workers: int, queueSize: int, steps: seq<Step>)
    requires Run(Init(workers, queueSize), steps)
    ensures var s := End(Init(workers, queueSize), steps);
            && |s.queue| <= (if queueSize > 0 then queueSize else 0)
            && |s.workers| == if workers > 1 then workers else 1
  {
    SizesStay(Init(workers, queueSize), steps);
  }
}
