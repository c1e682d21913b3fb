/** Runs that show which promises are too strong. They fill the retry queue, so that a probe
    that was put back is dropped again, and let an answer, a later reservation or an old retry
    of the same key in between. */
module SynCounterexample {
  import opened Types
  import opened ProbeTable
  import opened SynProtocol
  import opened SynOwnership
  import opened SynSampling
  import opened SynStamps
  import opened SynTheorems

  const TIMEOUT := 1000
  const OPTION := IpOption(false, false, Some(0))

  ghost predicate Reachable(s: State) {
    exists steps :: Run(Init(TIMEOUT, 0), steps) && End(Init(TIMEOUT, 0), steps) == s
  }

  lemma {:induction false} RunExtends(s: State, steps: seq<Step>, step: Step)
    requires Run(s, steps) && Enabled(End(s, steps), step)
    ensures Run(s, steps + [step]) && End(s, steps + [step]) == Next(End(s, steps), step)
    decreases |steps|
  {
    if steps == [] {
      assert [step][1..] == [];
    } else {
      RunExtends(Next(s, steps[0]), steps[1..], step);
      assert (steps + [step])[1..] == steps[1..] + [step];
    }
  }

  lemma Then(s: State, step: Step, rest: seq<Step>)
    requires Enabled(s, step) && Run(Next(s, step), rest)
    ensures Run(s, [step] + rest) && End(s, [step] + rest) == End(Next(s, step), rest)
  {
    assert ([step] + rest)[1..] == rest;
  }

  lemma Reach(s: State, step: Step) returns (s': State)
    requires Reachable(s) && Enabled(s, step)
    ensures s' == Next(s, step) && Reachable(s')
  {
    var steps :| Run(Init(TIMEOUT, 0), steps) && End(Init(TIMEOUT, 0), steps) == s;
    RunExtends(Init(TIMEOUT, 0), steps, step);
    s' := Next(s, step);
  }

  /** A call for port 1 from cursor `port` meets nothing in its way: nobody is busy but perhaps
      the retry loop, and whatever is in the table was put back and waits for its retry. */
  ghost predicate Calm(s: State, port: uint16) {
    && s.timeout == TIMEOUT && s.cancelled == {} && !s.ssDone && !s.table.isDone
    && s.sweeper == SweepIdle && s.expired == [] && s.recv == RecvIdle
    && s.table.nextSrcPort == port && SRC_PORT_MIN <= port <= SRC_PORT_MAX
    && Key(port) !in s.table.probes
    && forall k :: k in s.table.probes ==> s.table.probes[k].sentAt == None && s.table.probes[k].key == k
  }

  function Key(port: uint16): ProbeKey { ProbeKey("", port, 1) }

  function Probe(i: nat, port: uint16, at: int): PendingProbe {
    PendingProbe(i, Key(port), OPTION, at, Some(at), 1, false, true)
  }

  lemma ReserveOne(s: State, port: uint16) returns (s': State)
    requires Reachable(s) && !s.ssDone && s.table.nextSrcPort == port && SRC_PORT_MIN <= port <= SRC_PORT_MAX
    requires Key(port) !in s.table.probes
    ensures Reachable(s') && |s'.births| == |s.births| + 1
    ensures var p := Probe(|s.births|, port, s.now).(retry := false);
            s'.table == Table(s.table.probes[Key(port) := p], After(port), s.table.isDone)
    ensures s'.goroutines == s.goroutines + [Reserved(Key(port), |s.births|)]
    ensures s' == s.(table := s'.table, goroutines := s'.goroutines, births := s'.births)
  {
    var s1 := Reach(s, EnvStep(StartCall("", 1, OPTION, 1)));
    assert s1.goroutines[|s.goroutines|] == Started("", 1, OPTION, 1);
    assert PortAt(port, 0) == port;
    assert FirstFit(s1.table.probes, "", 1, port, 0);
    s' := Reach(s1, CallStep(|s.goroutines|, Reserve(0, s.now)));
  }

  /** A call reserves the next source port, sends, and leaves a resend closure. */
  lemma SendOne(s: State, port: uint16) returns (s': State)
    requires Reachable(s) && Calm(s, port)
    ensures Reachable(s') && |s'.births| == |s.births| + 1 && s'.goroutines == s.goroutines + [Finished]
    ensures s'.table == Table(s.table.probes[Key(port) := Probe(|s.births|, port, s.now)], After(port), false)
    ensures s' == s.(table := s'.table, goroutines := s'.goroutines, births := s'.births, sent := s'.sent)
  {
    var t, i := |s.goroutines|, |s.births|;
    var s2 := ReserveOne(s, port);
    var s3 := Reach(s2, CallStep(t, Send(true, true)));
    assert s3.goroutines[t] == AfterSend(Key(port), true, true);
    var s4 := Reach(s3, CallStep(t, KeepRetry));
    assert s4.goroutines[t] == AfterSend(Key(port), true, false);
    s' := Reach(s4, CallStep(t, Return));
  }

  /** Its time runs out and the sweeper takes it. */
  lemma SweepOne(s: State, port: uint16) returns (s': State)
    requires Reachable(s) && Calm(s, port)
    ensures Reachable(s') && |s'.births| == |s.births| + 1 && s'.goroutines == s.goroutines + [Finished]
    ensures s'.table == s.table.(nextSrcPort := After(port)) && s'.expired == [Probe(|s.births|, port, s.now)]
    ensures s' == s.(table := s'.table, goroutines := s'.goroutines, births := s'.births, sent := s'.sent,
                     now := s'.now, expired := s'.expired, swept := s'.swept)
  {
    var p := Probe(|s.births|, port, s.now);
    var s1 := SendOne(s, port);
    var s2 := Reach(s1, EnvStep(Tick(s.now + TIMEOUT + 1)));
    assert ExpiredPart(s2.table.probes, s2.now, TIMEOUT, {}) == map[Key(port) := p];
    assert Enumerates(map[Key(port) := p], [p]) by { assert [p][0] == p; }
    s' := Reach(s2, SweepStep(Collect([p])));
    assert s'.table.probes == s.table.probes;
  }

  /** The probe times out, is swept, and goes back into the table. */
  lemma PutBack(s: State, port: uint16) returns (s': State, p: PendingProbe)
    requires Reachable(s) && Calm(s, port)
    ensures Reachable(s') && |s'.births| == |s.births| + 1
    ensures p.id == |s.births| && p.key == Key(port) && s'.sweeper == BackInTable(p)
    ensures s'.table == Table(s.table.probes[Key(port) := Rearmed(p)], After(port), false)
    ensures s' == s.(table := s'.table, goroutines := s'.goroutines, births := s'.births, sent := s'.sent,
                     now := s'.now, sweeper := s'.sweeper, swept := s'.swept, rearmed := s'.rearmed)
  {
    p := Probe(|s.births|, port, s.now);
    var s3 := SweepOne(s, port);
    var s4 := Reach(s3, SweepStep(Pop));
    var s5 := Reach(s4, SweepStep(Check));
    s' := Reach(s5, SweepStep(Decide));
  }

  /** Nothing in the table stands at or above the cursor. */
  ghost predicate Below(s: State) {
    forall k :: k in s.table.probes ==> k.srcPort < s.table.nextSrcPort && k.dstPort == 1
  }

  /** `n` more probes time out, are put back and wait in the retry queue. */
  lemma {:induction false} Fill(s: State, n: nat) returns (s': State)
    requires Reachable(s) && Calm(s, s.table.nextSrcPort) && Below(s)
    requires |s.retryChan| + n <= RETRY_CAP && s.table.nextSrcPort + n <= SRC_PORT_MAX
    ensures Reachable(s') && s'.table.nextSrcPort == s.table.nextSrcPort + n
    ensures Calm(s', s'.table.nextSrcPort) && Below(s') && |s'.births| == |s.births| + n
    ensures |s'.retryChan| == |s.retryChan| + n
    ensures n > 0 && s.retryChan == [] ==> s'.retryChan[0].key == Key(s.table.nextSrcPort)
    ensures s'.retry == s.retry && s'.log == s.log && s.table.probes.Keys <= s'.table.probes.Keys
    ensures n > 0 ==> Key(s.table.nextSrcPort) in s'.table.probes
    decreases n
  {
    if n == 0 {
      s' := s;
    } else {
      var before := Fill(s, n - 1);
      var s1, p := PutBack(before, before.table.nextSrcPort);
      s' := Reach(s1, SweepStep(TrySend));
    }
  }

  lemma FillFromStart(n: nat) returns (s: State)
    requires n <= RETRY_CAP
    ensures Reachable(s) && Calm(s, SRC_PORT_MIN + n) && Below(s) && s.retry == RetryIdle
    ensures |s.retryChan| == |s.births| == n && s.log == [] && (n > 0 ==> s.retryChan[0].key == Key(SRC_PORT_MIN))
    ensures n > 0 ==> Key(SRC_PORT_MIN) in s.table.probes
  {
    var s0 := Init(TIMEOUT, 0);
    assert Run(s0, []) && End(s0, []) == s0;
    s := Fill(s0, n);
  }

  /** A reset arrives for `port` and is reported. */
  lemma ResetOne(s: State, port: uint16) returns (s': State)
    requires Reachable(s) && s.recv == RecvIdle && Key(port) in s.table.probes
    ensures Reachable(s') && s'.table == Remove(s.table, Key(port))
    ensures s'.log == Report(s, s.table.probes[Key(port)], Closed)
    ensures s' == s.(table := s'.table, log := s'.log, sampled := s'.sampled, recovered := s'.recovered)
  {
    var s1 := Reach(s, RecvStep(Reset(Key(port))));
    s' := Reach(s1, RecvStep(ReportClosed));
  }

  ghost predicate NoneForTwo(s: State) {
    && !s.ssDone && SRC_PORT_MIN <= s.table.nextSrcPort <= SRC_PORT_MAX
    && forall k :: k in s.table.probes ==> k.dstPort != 2
  }

  /** A call to another destination port reserves the next source port. */
  lemma ReserveOther(s: State) returns (s': State, p: PendingProbe)
    requires Reachable(s) && NoneForTwo(s)
    ensures Reachable(s') && |s'.births| == |s.births| + 1 && |s'.goroutines| == |s.goroutines| + 1
    ensures p.id == |s.births| && p.key == ProbeKey("", s.table.nextSrcPort, 2) && p.key !in s.table.probes
    ensures s'.table == Table(s.table.probes[p.key := p], After(s.table.nextSrcPort), s.table.isDone)
    ensures s'.goroutines[|s.goroutines|] == Reserved(p.key, p.id)
    ensures s' == s.(table := s'.table, goroutines := s'.goroutines, births := s'.births)
  {
    var t, c := |s.goroutines|, s.table.nextSrcPort;
    var s1 := Reach(s, EnvStep(StartCall("", 2, OPTION, 1)));
    assert s1.goroutines[t] == Started("", 2, OPTION, 1);
    assert PortAt(c, 0) == c && FirstFit(s1.table.probes, "", 2, c, 0);
    s' := Reach(s1, CallStep(t, Reserve(0, s.now)));
    p := s'.table.probes[ProbeKey("", c, 2)];
  }

  /** Its send fails: only the cursor has moved. */
  lemma FailOne(s: State, i: nat) returns (s': State)
    requires Reachable(s) && NoneForTwo(s) && i < |s.births|
    ensures Reachable(s') && |s.births| <= |s'.births| && Events(s'.log, i) == Events(s.log, i)
    ensures s'.table == s.table.(nextSrcPort := After(s.table.nextSrcPort))
    ensures s' == s.(table := s'.table, goroutines := s'.goroutines, births := s'.births, log := s'.log)
  {
    var t := |s.goroutines|;
    var s2, p := ReserveOther(s);
    var s3 := Reach(s2, CallStep(t, Send(false, false)));
    assert s3.goroutines[t] == AfterSend(p.key, false, false);
    var s4 := Reach(s3, CallStep(t, Drop));
    assert s4.table.probes == s.table.probes && s4.goroutines[t] == Dropped(p);
    s' := Reach(s4, CallStep(t, EmitError));
    ReportCount(s4, p, Error, i);
  }

  /** `n` such calls move the cursor `n` ports on. */
  lemma {:induction false} Advance(s: State, n: nat, i: nat) returns (s': State)
    requires Reachable(s) && NoneForTwo(s) && i < |s.births|
    ensures Reachable(s') && |s.births| <= |s'.births| && Events(s'.log, i) == Events(s.log, i)
    ensures s'.table == s.table.(nextSrcPort := PortAt(s.table.nextSrcPort, n))
    ensures s' == s.(table := s'.table, goroutines := s'.goroutines, births := s'.births, log := s'.log)
    decreases n
  {
    if n == 0 {
      s' := s;
    } else {
      var s1 := FailOne(s, i);
      s' := Advance(s1, n - 1, i);
    }
  }

  /** The 65th probe finds the queue full; its reset arrives before the drop. */
  lemma ResetBeforeDrop() returns (s: State, p: PendingProbe)
    ensures Reachable(s) && s.sweeper == QueueFull(p) && p.id == RETRY_CAP && p.key == Key(SRC_PORT_MIN + RETRY_CAP)
    ensures |s.births| == RETRY_CAP + 1 && Events(s.log, RETRY_CAP) == 1
    ensures Below(s) && p.key !in s.table.probes && s.table.nextSrcPort == SRC_PORT_MIN + RETRY_CAP + 1 && !s.ssDone
  {
    var full := FillFromStart(RETRY_CAP);
    var s1;
    s1, p := PutBack(full, SRC_PORT_MIN + RETRY_CAP);
    var s2 := Reach(s1, SweepStep(TrySend));
    s := ResetOne(s2, SRC_PORT_MIN + RETRY_CAP);
    ReportCount(s2, s2.table.probes[p.key], Closed, RETRY_CAP);
  }

  lemma OneProbeTwoEvents() returns (s: State)
    ensures Reachable(s) && Events(s.log, RETRY_CAP) == 2 && |s.births| == RETRY_CAP + 1
  {
    var s4, p := ResetBeforeDrop();
    var s5 := Reach(s4, SweepStep(DropRearmed));
    s := Reach(s5, SweepStep(SweepReport));
    ReportCount(s5, p, NoResponse, RETRY_CAP);
  }

  /** One sampled send more than the retry queue has places is enough to lose exactness. */
  lemma OneSampleTooMany() returns (steps: seq<Step>)
    ensures Run(Init(TIMEOUT, 0), steps) && SampledSends(steps) == RETRY_CAP + 1
    ensures !Clean(Init(TIMEOUT, 0), steps)
  {
    var s := OneProbeTwoEvents();
    steps :| Run(Init(TIMEOUT, 0), steps) && End(Init(TIMEOUT, 0), steps) == s;
    if Clean(Init(TIMEOUT, 0), steps) { AtMostOneEvent(TIMEOUT, 0, steps); }
    if SampledSends(steps) <= RETRY_CAP { FewSamplesAreClean(TIMEOUT, 0, steps); }
    SendsAreReserved(Init(TIMEOUT, 0), steps);
  }

  /** Before the drop the cursor goes once round and a later call gets the key. */
  lemma KeyTaken() returns (s: State, p: PendingProbe)
    ensures Reachable(s) && s.sweeper == QueueFull(p) && p.id == RETRY_CAP < |s.births| && Events(s.log, RETRY_CAP) == 1
    ensures p.key in s.table.probes && s.table.probes[p.key].id == |s.births| - 1 > RETRY_CAP
  {
    var s4;
    s4, p := ResetBeforeDrop();
    var s5 := Advance(s4, RANGE_SIZE - 1, RETRY_CAP);
    s := ReserveOne(s5, SRC_PORT_MIN + RETRY_CAP);
  }

  /** The drop takes that call's reservation, which nobody will ever report, and the first one is
      reported twice. */
  lemma OneProbeLost() returns (s: State, lost: nat)
    ensures Reachable(s) && lost < |s.births| && Events(s.log, RETRY_CAP) == 2
    ensures forall more :: Run(s, more) ==> Events(End(s, more).log, lost) == 0
  {
    var s6, p := KeyTaken();
    lost := |s6.births| - 1;
    HeldByTable(s6, p.key);
    s := DropReports(s6, p, lost);
    ReachableInv(s);
    forall more | Run(s, more) ensures Events(End(s, more).log, lost) == 0 {
      LostForever(s, more, lost);
    }
  }

  lemma DropLoses(s: State, p: PendingProbe, lost: nat)
    requires s.sweeper == QueueFull(p) && p.id != lost && Weight(s, lost) == 1
    requires p.key in s.table.probes && s.table.probes[p.key].id == lost
    ensures Weight(Next(s, SweepStep(DropRearmed)), lost) == 0
  {
    StepWeight(s, SweepStep(DropRearmed), lost);
  }

  lemma ReportKeepsWeight(s: State, i: nat)
    requires s.sweeper.SweepEmit?
    ensures Weight(Next(s, SweepStep(SweepReport)), i) == Weight(s, i)
  {
    StepWeight(s, SweepStep(SweepReport), i);
  }

  lemma DropReports(s: State, p: PendingProbe, lost: nat) returns (s': State)
    requires Reachable(s) && s.sweeper == QueueFull(p) && p.id != lost && Weight(s, lost) == 1
    requires p.key in s.table.probes && s.table.probes[p.key].id == lost
    ensures Reachable(s') && s'.births == s.births && Weight(s', lost) == 0
    ensures Events(s'.log, p.id) == Events(s.log, p.id) + 1
  {
    DropLoses(s, p, lost);
    var s1 := Reach(s, SweepStep(DropRearmed));
    ReportKeepsWeight(s1, lost);
    s' := Reach(s1, SweepStep(SweepReport));
    ReportCount(s1, p, NoResponse, p.id);
  }

  lemma HeldByTable(s: State, key: ProbeKey)
    requires Reachable(s) && key in s.table.probes
    ensures Weight(s, s.table.probes[key].id) == 1
  {
    var i := s.table.probes[key].id;
    ReachableInv(s);
    assert PerInstance(s, i);
    TableKeyed(s, i);
  }

  lemma ReachableInv(s: State)
    requires Reachable(s)
    ensures Inv(s)
  {
    var steps :| Run(Init(TIMEOUT, 0), steps) && End(Init(TIMEOUT, 0), steps) == s;
    InitInv(TIMEOUT, 0);
    RunExact(Init(TIMEOUT, 0), steps);
  }

  /** A retry waits for its token, and 64 more fill the queue. */
  lemma OldRetryWaits() returns (s: State)
    ensures Reachable(s) && Calm(s, SRC_PORT_MIN + RETRY_CAP + 1) && Below(s) && |s.births| > 0
    ensures s.retry.RetryWaiting? && s.retry.alias.key == Key(SRC_PORT_MIN) && |s.retryChan| == RETRY_CAP
    ensures Key(SRC_PORT_MIN) in s.table.probes
  {
    var one := FillFromStart(1);
    var s1 := Reach(one, RetryStep(RetryTake));
    s := Fill(s1, RETRY_CAP);
  }

  /** Its probe is answered, and the cursor goes once round. */
  lemma FirstPortAgain(s: State) returns (s': State)
    requires Reachable(s) && Calm(s, SRC_PORT_MIN + RETRY_CAP + 1) && Below(s) && |s.births| > 0
    requires Key(SRC_PORT_MIN) in s.table.probes
    ensures Reachable(s') && Calm(s', SRC_PORT_MIN) && s'.retry == s.retry && s'.retryChan == s.retryChan
  {
    var s1 := ResetOne(s, SRC_PORT_MIN);
    assert NoneForTwo(s1);
    s' := Advance(s1, RANGE_SIZE - RETRY_CAP - 1, 0);
    assert PortAt(SRC_PORT_MIN + RETRY_CAP + 1, RANGE_SIZE - RETRY_CAP - 1) == SRC_PORT_MIN;
  }

  /** That old retry can stamp the next owner of the key when it has been put back and is bound
      to be dropped. */
  lemma TouchCanHit() returns (s: State)
    ensures Reachable(s) && Enabled(s, RetryStep(RetryTouch(s.now))) && Hits(s, RetryStep(RetryTouch(s.now)))
  {
    var s1 := OldRetryWaits();
    var s2 := FirstPortAgain(s1);
    var p;
    s, p := PutBack(s2, SRC_PORT_MIN);
  }

  lemma Swept() returns (s: State)
    ensures Reachable(s) && s.sweeper == SweepIdle && s.closer == NotClosed && s.retry == RetryIdle
    ensures s.expired == [Probe(0, SRC_PORT_MIN, 0)] && s.table.probes == map[] && !s.table.isDone
    ensures s.timeout == TIMEOUT && s.retryChan == [] && s.recv == RecvIdle && s.goroutines == [Finished]
    ensures s.openChan == [] && s.wg == 0 && s.log == [] && |s.births| == 1 && s.cancelled == {}
  {
    var s0 := Init(TIMEOUT, 0);
    assert Run(s0, []) && End(s0, []) == s0;
    s := SweepOne(s0, SRC_PORT_MIN);
  }

  /** `Wait` looks at the table, the open-port channel and the wait group: all three can be
      empty while a swept probe has not been reported yet. */
  lemma WaitCanReturnEarly() returns (s: State)
    ensures Reachable(s) && s.closer == NotClosed && |s.births| == 1
    ensures s.table.probes == map[] && s.openChan == [] && s.wg == 0 && Events(s.log, 0) == 0
  {
    s := Swept();
  }

  /** The sweeper puts back the one probe it has swept. */
  lemma PutsBack(s: State, p: PendingProbe) returns (more: seq<Step>)
    requires s.sweeper == SweepIdle && s.expired == [p] && |s.retryChan| < RETRY_CAP
    requires !p.retried && p.retry && CanRearm(s.table, p, s.cancelled)
    ensures Run(s, more)
    ensures End(s, more) == s.(table := s.table.(probes := s.table.probes[p.key := Rearmed(p)]), expired := [],
                               retryChan := s.retryChan + [Rearmed(p)], rearmed := s.rearmed + multiset{p.id})
  {
    var s1 := Next(s, SweepStep(Pop));
    var s2 := Next(s1, SweepStep(Check));
    var s3 := Next(s2, SweepStep(Decide));
    Then(s3, SweepStep(TrySend), []);
    Then(s2, SweepStep(Decide), [SweepStep(TrySend)]);
    Then(s1, SweepStep(Check), [SweepStep(Decide), SweepStep(TrySend)]);
    Then(s, SweepStep(Pop), [SweepStep(Check), SweepStep(Decide), SweepStep(TrySend)]);
    more := [SweepStep(Pop), SweepStep(Check), SweepStep(Decide), SweepStep(TrySend)];
  }

  /** And after it saw the table empty, the sweeper can put its probe back: the channel and the
      wait group are empty when `Wait` looks at them, nobody but the table holds a probe, and it
      has not been reported. */
  lemma TableCanFillAgain() returns (seen: State, more: seq<Step>)
    ensures Reachable(seen) && seen.table.probes == map[] && Run(seen, more)
    ensures var s := End(seen, more);
            && s.openChan == [] && s.wg == 0 && s.closer == NotClosed && NobodyElse(s)
            && |s.births| == 1 && |s.table.probes| == 1 && Events(s.log, 0) == 0
  {
    seen := Swept();
    more := PutsBack(seen, Probe(0, SRC_PORT_MIN, 0));
  }

  /** `Close` up to the moment the table is marked closed. */
  lemma MarkClosed(s: State) returns (s': State)
    requires Reachable(s) && s.closer == NotClosed && s.retry == RetryIdle
    ensures Reachable(s') && s'.table == s.table.(isDone := true) && s'.closer == TableDone
    ensures s' == s.(ssDone := true, cancelled := s.cancelled + {SCANNER_CTX}, retry := RetryStopped,
                     table := s'.table, closer := TableDone)
  {
    var s4 := Reach(s, CloserStep(CloseNext));
    var s5 := Reach(s4, CloserStep(CloseNext));
    var s6 := Reach(s5, RetryStep(RetryStop));
    var s7 := Reach(s6, CloserStep(CloseNext));
    s' := Reach(s7, CloserStep(CloseNext));
  }

  /** The remark in `finishExpiredProbe` that closing always reports Aborted is too strong: the
      table can be closed between the sweeper's check and its decision. */
  lemma LateNoResponse() returns (s: State)
    ensures Reachable(s) && s.table.isDone
    ensures |s.log| == 1 && s.log[0].outcome == NoResponse
  {
    var s1 := Swept();
    var s2 := Reach(s1, SweepStep(Pop));
    var s3 := Reach(s2, SweepStep(Check));
    var s8 := MarkClosed(s3);
    var s9 := Reach(s8, SweepStep(Decide));
    s := Reach(s9, SweepStep(SweepReport));
  }
}
