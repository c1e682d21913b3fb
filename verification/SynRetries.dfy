/** What the retry samples say: a retried probe that was answered or reset counts as a success, one
    that timed out again as a failure, and nothing else counts. */
module SynRetries {
  import opened ProbeTable
  import opened SynProtocol
  import opened SynOwnership
  import opened SynBudget
  import opened SynTheorems
  import opened SynOutcomes

  /** A SYN+ACK or a reset took the instance. */
  predicate Replied(f: Facts, i: nat) {
    i in f.took && (f.took[i].ByAnswer? || f.took[i].ByReset?)
  }

  /** NoResponse of the instance is reported or about to be. */
  predicate Silent(s: State, i: nat) {
    || (s.sweeper.SweepEmit? && s.sweeper.outcome == NoResponse && s.sweeper.probe.id == i)
    || (exists j :: 0 <= j < |s.log| && s.log[j].outcome == NoResponse && s.log[j].id == i)
  }

  /** In play an instance was swept as often as it was put back, and once more if the sweeper has
      it now; NoResponse comes after one sweep more than there were failed retries. */
  predicate Scored(s: State, f: Facts, i: nat) {
    && s.recovered[i] == (if Replied(f, i) then s.rearmed[i] else 0)
    && (Replied(f, i) ==> s.sampled[i] == s.recovered[i] && Hot(s, i) == 0)
    && (Hot(s, i) >= 1 ==> s.swept[i] + InTable(s.table.probes, i) == 1 + s.rearmed[i])
    && (Alias(s.sweeper, i) ==> s.swept[i] == 1 && s.sampled[i] == s.recovered[i])
    && (Silent(s, i) ==> Hot(s, i) == 0 && s.swept[i] + s.recovered[i] == 1 + s.sampled[i])
    && (s.sampled[i] != s.recovered[i] ==> Silent(s, i))
    && (i >= |s.births| ==> i !in f.took && !Silent(s, i))
  }

  /** The histories of `i` stay. */
  predicate Still(s: State, s': State, i: nat) {
    && s'.rearmed[i] == s.rearmed[i] && s'.sampled[i] == s.sampled[i]
    && s'.recovered[i] == s.recovered[i] && s'.swept[i] == s.swept[i]
  }

  lemma OnlyTheTableIsTaken(s: State, step: Step, i: nat)
    requires Enabled(s, step) && i in Taken(s, step)
    ensures InTable(s.table.probes, i) >= 1
  {
    if InTable(s.table.probes, i) == 0 { NotInTable(s.table.probes, i); }
  }

  /** What changes when neither the sweeper nor the receiver acts. */
  lemma OthersStill(s: State, step: Step, i: nat)
    requires Enabled(s, step) && !step.SweepStep? && !step.RecvStep?
    ensures var s' := Next(s, step);
            && Still(s, s', i) && s'.sweeper == s.sweeper && s'.expired == s.expired
            && Silent(s', i) == Silent(s, i)
  {
    OthersAnswer(s, step);
    OthersFrame(s, step);
  }

  lemma OthersFrame(s: State, step: Step)
    requires Enabled(s, step) && !step.SweepStep? && !step.RecvStep?
    ensures var s' := Next(s, step);
            && s'.sweeper == s.sweeper && s'.expired == s.expired && s'.rearmed == s.rearmed
            && s'.sampled == s.sampled && s'.recovered == s.recovered && s'.swept == s.swept
  {
    match step
    case CallStep(t, a) => CallFrame(s, t, a);
    case RetryStep(a) => RetryFrame(s, a);
    case HandleStep(a) => HandleFrame(s, a);
    case JobStep(t, a) => JobFrame(s, t, a);
    case CloserStep(a) => CloseFrame(s, a);
    case EnvStep(a) => EnvFrame(s, a);
  }

  /** An instance in play has one owner, so it is in play in one place. */
  lemma InPlayOnce(s: State, i: nat)
    requires Settled(s, i)
    ensures Hot(s, i) <= 1 && (i >= |s.births| ==> Hot(s, i) == 0)
  {}

  lemma OthersTake(s: State, f: Facts, step: Step, i: nat)
    requires Enabled(s, step) && !step.RecvStep?
    ensures var f' := Learn(s, f, step);
            if i in Taken(s, step) then InTable(s.table.probes, i) >= 1 && i in f'.took && !Replied(f', i)
            else Replied(f', i) == Replied(f, i) && (i in f'.took <==> i in f.took)
  {
    if i in Taken(s, step) { OnlyTheTableIsTaken(s, step, i); }
  }

  /** Steps of all but the sweeper and the receiver: an instance may leave the table, or enter it
      by its reservation. */
  lemma OthersScored(s: State, f: Facts, step: Step, i: nat)
    requires PerInstance(s, i) && Scored(s, f, i) && Enabled(s, step) && !step.SweepStep? && !step.RecvStep?
    requires PerInstance(Next(s, step), i)
    ensures Scored(Next(s, step), Learn(s, f, step), i)
  {
    HotFalls(s, step, i);
    StepFrame(s, step);
    OthersStill(s, step, i);
    OthersTake(s, f, step, i);
    InPlayOnce(s, i);
    InPlayOnce(Next(s, step), i);
  }

  // ---------- the receiver ----------

  /** A reply to the instance under the key. */
  lemma ReplyScored(s: State, f: Facts, a: RecvAct, i: nat)
    requires Flags(s) && PerInstance(s, i) && Scored(s, f, i) && RecvEnabled(s, a)
    requires i in Taken(s, RecvStep(a)) && PerInstance(RecvNext(s, a), i)
    ensures Scored(RecvNext(s, a), Learn(s, f, RecvStep(a)), i)
  {
    var key := if a.TakeMatch? then s.recv.key else a.key;
    TableDrop(s.table.probes, key, i);
    InPlayOnce(s, i);
    RecvFrame(s, a);
    assert Truthful(s.table.probes[key], s.rearmed);
  }

  lemma RecvScored(s: State, f: Facts, a: RecvAct, i: nat)
    requires Flags(s) && PerInstance(s, i) && Scored(s, f, i) && RecvEnabled(s, a)
    requires PerInstance(RecvNext(s, a), i)
    ensures Scored(RecvNext(s, a), Learn(s, f, RecvStep(a)), i)
  {
    if i in Taken(s, RecvStep(a)) {
      ReplyScored(s, f, a, i);
    } else {
      RecvMisses(s, a, i);
      HotFallsRecv(s, a, i);
      RecvFrame(s, a);
      InPlayOnce(s, i);
    }
  }

  lemma RecvMisses(s: State, a: RecvAct, i: nat)
    requires RecvEnabled(s, a) && i !in Taken(s, RecvStep(a))
    ensures var s' := RecvNext(s, a);
            && Still(s, s', i) && InTable(s'.table.probes, i) == InTable(s.table.probes, i)
            && Silent(s', i) == Silent(s, i)
  {
    RecvFrame(s, a);
    RecvAnswers(s, a);
    match a
    case TakeMatch => TableDrop(s.table.probes, s.recv.key, i);
    case Reset(key) => TableDrop(s.table.probes, key, i);
    case _ =>
  }

  // ---------- the sweeper ----------

  /** A sweep moves an instance from the table to the expired ones. */
  lemma CollectMoves(s: State, out: seq<PendingProbe>, i: nat)
    requires SweepEnabled(s, Collect(out))
    ensures var s' := SweepNext(s, Collect(out));
            && s'.swept[i] + InTable(s'.table.probes, i) == s.swept[i] + InTable(s.table.probes, i)
            && s'.rearmed == s.rearmed && s'.sampled == s.sampled && s'.recovered == s.recovered
            && s'.log == s.log && s'.births == s.births && Hot(s', i) == Hot(s, i)
  {
    CollectWeight(s, out, i);
    IdsCount(out, i);
    SweepFrame(s, Collect(out));
  }

  lemma CollectScored(s: State, f: Facts, out: seq<PendingProbe>, i: nat)
    requires PerInstance(s, i) && Scored(s, f, i) && SweepEnabled(s, Collect(out))
    ensures Scored(SweepNext(s, Collect(out)), Learn(s, f, SweepStep(Collect(out))), i)
  {
    CollectMoves(s, out, i);
    InPlayOnce(s, i);
    OthersTake(s, f, SweepStep(Collect(out)), i);
  }

  /** A decision on another instance. */
  lemma DecideOther(s: State, f: Facts, i: nat)
    requires PerInstance(s, i) && Scored(s, f, i) && SweepEnabled(s, Decide) && s.sweeper.probe.id != i
    ensures Scored(SweepNext(s, Decide), f, i)
  {
    DecideWeight(s, i);
    SweepFrame(s, Decide);
  }

  lemma DecideThis(s: State, f: Facts, i: nat)
    requires Flags(s) && PerInstance(s, i) && Scored(s, f, i) && SweepEnabled(s, Decide) && s.sweeper.probe.id == i
    ensures Scored(SweepNext(s, Decide), f, i)
  {
    DecideWeight(s, i);
    InPlayOnce(s, i);
    assert InTable(s.table.probes, i) == 0 && Count(s.expired, i) == 0 && !Silent(s, i);
    SweepFrame(s, Decide);
  }

  /** The instance that was put back is dropped again, if it is still there. */
  lemma DropThis(s: State, f: Facts, i: nat)
    requires Traced(s) && PerInstance(s, i) && Scored(s, f, i)
    requires SweepEnabled(s, DropRearmed) && s.sweeper.probe.id == i
    ensures Scored(SweepNext(s, DropRearmed), Learn(s, f, SweepStep(DropRearmed)), i)
  {
    var s' := SweepNext(s, DropRearmed);
    TableDrop(s.table.probes, s.sweeper.probe.key, i);
    InPlayOnce(s, i);
    TableKeyed(s, i);
    assert Hot(s', i) == 0;
    SweepFrame(s, DropRearmed);
  }

  lemma DropOther(s: State, f: Facts, i: nat)
    requires PerInstance(s, i) && Scored(s, f, i) && SweepEnabled(s, DropRearmed) && s.sweeper.probe.id != i
    ensures Scored(SweepNext(s, DropRearmed), Learn(s, f, SweepStep(DropRearmed)), i)
  {
    TableDrop(s.table.probes, s.sweeper.probe.key, i);
    InPlayOnce(s, i);
    SweepFrame(s, DropRearmed);
    OthersTake(s, f, SweepStep(DropRearmed), i);
  }

  lemma ReportSilent(s: State, i: nat)
    requires SweepEnabled(s, SweepReport)
    ensures Silent(SweepNext(s, SweepReport), i) == Silent(s, i)
  {
    var s' := SweepNext(s, SweepReport);
    assert s'.log[|s.log|].id == s.sweeper.probe.id && s'.log[|s.log|].outcome == s.sweeper.outcome;
    if j :| 0 <= j < |s.log| && s.log[j].outcome == NoResponse && s.log[j].id == i { assert s'.log[j].id == i; }
  }

  /** What changes when the sweeper neither collects nor decides nor drops. */
  predicate Quietly(s: State, s': State, i: nat) {
    && Still(s, s', i) && Silent(s', i) == Silent(s, i) && s'.table == s.table && s'.births == s.births
    && Hot(s', i) <= Hot(s, i) && (Alias(s'.sweeper, i) ==> Alias(s.sweeper, i))
  }

  lemma TrySendQuietly(s: State, i: nat)
    requires SweepEnabled(s, TrySend)
    ensures Quietly(s, SweepNext(s, TrySend), i)
  {}

  lemma PopQuietly(s: State, i: nat)
    requires SweepEnabled(s, Pop)
    ensures Quietly(s, SweepNext(s, Pop), i)
  {}

  lemma CheckQuietly(s: State, i: nat)
    requires SweepEnabled(s, Check)
    ensures Quietly(s, SweepNext(s, Check), i)
  {}

  lemma QuietSweep(s: State, a: SweepAct, i: nat)
    requires SweepEnabled(s, a) && !a.Collect? && !a.Decide? && !a.DropRearmed?
    ensures Quietly(s, SweepNext(s, a), i)
  {
    match a
    case SweepReport => ReportSilent(s, i);
    case Pop => PopQuietly(s, i);
    case Check => CheckQuietly(s, i);
    case TrySend => TrySendQuietly(s, i);
    case SweepStop =>
  }

  lemma QuietSweepScored(s: State, f: Facts, a: SweepAct, i: nat)
    requires Scored(s, f, i) && SweepEnabled(s, a)
    requires !a.Collect? && !a.Decide? && !a.DropRearmed?
    ensures Scored(SweepNext(s, a), f, i)
  {
    QuietSweep(s, a, i);
  }

  lemma SweepScored(s: State, f: Facts, a: SweepAct, i: nat)
    requires Traced(s) && Flags(s) && PerInstance(s, i) && Scored(s, f, i) && SweepEnabled(s, a)
    ensures Scored(SweepNext(s, a), Learn(s, f, SweepStep(a)), i)
  {
    match a
    case Collect(out) => CollectScored(s, f, out, i);
    case DropRearmed => if s.sweeper.probe.id == i { DropThis(s, f, i); } else { DropOther(s, f, i); }
    case Decide =>
      NothingTaken(s, f, a);
      if s.sweeper.probe.id == i { DecideThis(s, f, i); } else { DecideOther(s, f, i); }
    case _ => NothingTaken(s, f, a); QuietSweepScored(s, f, a, i);
  }

  lemma NothingTaken(s: State, f: Facts, a: SweepAct)
    requires SweepEnabled(s, a) && !a.Collect? && !a.DropRearmed?
    ensures Learn(s, f, SweepStep(a)) == f
  {}

  // ---------- whole runs ----------

  ghost predicate AllScored(s: State, f: Facts) {
    forall i: nat :: Scored(s, f, i)
  }

  lemma StepScored(s: State, f: Facts, step: Step)
    requires Inv(s) && AllScored(s, f) && Enabled(s, step)
    ensures AllScored(Next(s, step), Learn(s, f, step))
  {
    StepInv(s, step);
    forall i: nat ensures Scored(Next(s, step), Learn(s, f, step), i) {
      assert PerInstance(s, i) && PerInstance(Next(s, step), i) && Scored(s, f, i);
      match step
      case SweepStep(a) => SweepScored(s, f, a, i);
      case RecvStep(a) => RecvScored(s, f, a, i);
      case _ => OthersScored(s, f, step, i);
    }
  }

  lemma {:induction false} RunScored(s: State, f: Facts, steps: seq<Step>)
    requires Inv(s) && AllScored(s, f) && Run(s, steps)
    ensures AllScored(End(s, steps), FactsAfter(s, f, steps))
    decreases |steps|
  {
    if steps != [] {
      StepInv(s, steps[0]);
      StepScored(s, f, steps[0]);
      RunScored(Next(s, steps[0]), Learn(s, f, steps[0]), steps[1..]);
    }
  }

  lemma InitScored(timeout: int, now: int)
    ensures AllScored(Init(timeout, now), NO_FACTS)
  {
    forall i: nat ensures Scored(Init(timeout, now), NO_FACTS, i) {
      InTableBound(map[], i);
    }
  }

  /** In every run an instance counts as a success if and only if it was put back and a SYN+ACK or
      a reset took it, and then it counts as nothing else. */
  lemma SuccessIffReplied(timeout: int, now: int, steps: seq<Step>, i: nat)
    requires Run(Init(timeout, now), steps)
    ensures var s, f := End(Init(timeout, now), steps), FactsAfter(Init(timeout, now), NO_FACTS, steps);
            var replied := i in f.took && (f.took[i].ByAnswer? || f.took[i].ByReset?);
            && s.recovered[i] == (if replied then s.rearmed[i] else 0)
            && (replied ==> s.sampled[i] == s.recovered[i])
  {
    InitInv(timeout, now);
    InitScored(timeout, now);
    RunScored(Init(timeout, now), NO_FACTS, steps);
    assert Scored(End(Init(timeout, now), steps), FactsAfter(Init(timeout, now), NO_FACTS, steps), i);
  }

  /** In every run an instance counts as a failure if and only if the sweeper took it twice, that is,
      again after its retry, and has reported or is about to report NoResponse. */
  lemma FailureIffSweptTwice(timeout: int, now: int, steps: seq<Step>, i: nat)
    requires Run(Init(timeout, now), steps)
    ensures var s := End(Init(timeout, now), steps);
            var silent := (s.sweeper.SweepEmit? && s.sweeper.outcome == NoResponse && s.sweeper.probe.id == i)
                          || exists j :: 0 <= j < |s.log| && s.log[j].outcome == NoResponse && s.log[j].id == i;
            s.sampled[i] == s.recovered[i] + if silent && s.swept[i] == 2 then 1 else 0
  {
    InitInv(timeout, now);
    InitScored(timeout, now);
    RunScored(Init(timeout, now), NO_FACTS, steps);
    RunExact(Init(timeout, now), steps);
    var s := End(Init(timeout, now), steps);
    assert Scored(s, FactsAfter(Init(timeout, now), NO_FACTS, steps), i) && PerInstance(s, i);
  }
}
