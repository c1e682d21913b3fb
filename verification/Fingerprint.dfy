/** The order in which `PortIdentifyContext` (core/port/fingerprint/fingerprint.go) tries the
    service rules. Matching a rule, the clock and cancellation are oracles. */
module Fingerprint {
  import opened Types

  type Service = string

  datatype Rules = Rules(onlyRecv: seq<Service>, serviceOrder: seq<Service>, ruleOrder: seq<Service>,
                         groups: map<Service, seq<Service>>)

  /** An empty service name is no match. */
  datatype Match = Match(service: Service, dialError: bool)

  /** What the outside does: by loop turn, whether the context is cancelled and time is left;
      by attempt, what matching gives; and how the receive-only phase goes. */
  datatype World = World(cancelled: nat -> bool, timeLeft: nat -> bool, attempt: nat -> Match,
                         recvTime: bool, recvDials: bool, recvTimeAfterDial: bool, heard: bool, recvService: Service,
                         bad400: bool, fallbackTime: bool, fallback: Match)

  datatype Exit = Found(service: Service) | HeardService(service: Service) | Cancelled | OutOfTime | DialError | Unknown

  // ---------- what counts as tried ----------

  function Grouped(groups: map<Service, seq<Service>>, s: Service): set<Service> {
    {s} + if s in groups then (set g | g in groups[s]) else {}
  }

  function Recorded(groups: map<Service, seq<Service>>, ss: seq<Service>): set<Service> {
    if ss == [] then {} else Recorded(groups, ss[..|ss| - 1]) + Grouped(groups, ss[|ss| - 1])
  }

  /** The services of `order` still to try when those in `done` need no try; trying one also
      does for the services grouped with it. */
  function Remaining(groups: map<Service, seq<Service>>, order: seq<Service>, done: set<Service>): seq<Service> {
    if order == [] then []
    else if order[0] in done then Remaining(groups, order[1..], done)
    else [order[0]] + Remaining(groups, order[1..], done + Grouped(groups, order[0]))
  }

  /** What needs no try once `order` has been gone through. */
  function DoneAfter(groups: map<Service, seq<Service>>, order: seq<Service>, done: set<Service>): set<Service> {
    if order == [] then done
    else DoneAfter(groups, order[1..], if order[0] in done then done else done + Grouped(groups, order[0]))
  }

  /** In the last list a try does for nothing but itself. */
  function Rest(order: seq<Service>, done: set<Service>): seq<Service> {
    if order == [] then []
    else if order[0] in done then Rest(order[1..], done)
    else [order[0]] + Rest(order[1..], done)
  }

  function Heard(r: Rules, ports: seq<Service>, heard: bool): set<Service> {
    Recorded(r.groups, ports) + if heard then Recorded(r.groups, r.onlyRecv) else {}
  }

  function Middle(r: Rules, ports: seq<Service>, heard: bool): seq<Service> {
    Remaining(r.groups, r.serviceOrder, Heard(r, ports, heard))
  }

  function Done(r: Rules, ports: seq<Service>, heard: bool): set<Service> {
    DoneAfter(r.groups, r.serviceOrder, Heard(r, ports, heard))
  }

  /** All attempts, in order, when none of them succeeds. */
  function Schedule(r: Rules, ports: seq<Service>, heard: bool): seq<Service> {
    ports + Middle(r, ports, heard) + Rest(r.ruleOrder, Done(r, ports, heard))
  }

  // ---------- the schedule tries everything once ----------

  lemma {:induction false} RecordedAppend(groups: map<Service, seq<Service>>, a: seq<Service>, b: seq<Service>)
    ensures Recorded(groups, a + b) == Recorded(groups, a) + Recorded(groups, b)
  {
    if b == [] {
      assert a + b == a;
    } else {
      RecordedAppend(groups, a, b[..|b| - 1]);
      assert (a + b)[..|a + b| - 1] == a + b[..|b| - 1];
    }
  }

  lemma {:induction false} RecordedHas(groups: map<Service, seq<Service>>, ss: seq<Service>)
    ensures forall s :: s in ss ==> s in Recorded(groups, ss)
  {
    if ss != [] {
      var front := ss[..|ss| - 1];
      RecordedHas(groups, front);
      assert forall s :: s in ss ==> s in front || s == ss[|ss| - 1];
    }
  }

  lemma {:induction false} RecordedIs(groups: map<Service, seq<Service>>, ss: seq<Service>)
    ensures forall s :: s in Recorded(groups, ss) <==> exists j :: 0 <= j < |ss| && s in Grouped(groups, ss[j])
  {
    if ss != [] {
      var front := ss[..|ss| - 1];
      RecordedIs(groups, front);
      forall s ensures s in Recorded(groups, ss) <==> exists j :: 0 <= j < |ss| && s in Grouped(groups, ss[j]) {
        if s in Recorded(groups, front) {
          var j :| 0 <= j < |front| && s in Grouped(groups, front[j]);
          assert s in Grouped(groups, ss[j]);
        }
        if exists j :: 0 <= j < |ss| && s in Grouped(groups, ss[j]) {
          var j :| 0 <= j < |ss| && s in Grouped(groups, ss[j]);
          if j < |front| { assert s in Grouped(groups, front[j]); }
        }
      }
    }
  }

  lemma {:induction false} RemainingIs(groups: map<Service, seq<Service>>, order: seq<Service>, done: set<Service>)
    ensures NoDup(Remaining(groups, order, done))
    ensures forall s :: s in Remaining(groups, order, done) ==> s in order && s !in done
    ensures forall s :: s in order ==> s in done + Recorded(groups, Remaining(groups, order, done))
  {
    if order != [] {
      var s := order[0];
      if s in done {
        RemainingIs(groups, order[1..], done);
      } else {
        var rest := Remaining(groups, order[1..], done + Grouped(groups, s));
        RemainingIs(groups, order[1..], done + Grouped(groups, s));
        RecordedAppend(groups, [s], rest);
        assert Recorded(groups, [s]) == Grouped(groups, s) by { assert [s][..0] == []; }
        forall x | x in order ensures x in done + Recorded(groups, Remaining(groups, order, done)) {
          assert x == s || x in order[1..];
        }
      }
    }
  }

  lemma {:induction false} RestIs(order: seq<Service>, done: set<Service>)
    ensures forall s :: s in Rest(order, done) <==> s in order && s !in done
    ensures NoDup(order) ==> NoDup(Rest(order, done))
  {
    if order != [] {
      RestIs(order[1..], done);
      if NoDup(order) {
        assert order[0] !in order[1..];
      }
    }
  }

  lemma NoDupConcat(a: seq<Service>, b: seq<Service>)
    requires NoDup(a) && NoDup(b) && forall s :: s in b ==> s !in a
    ensures NoDup(a + b)
  {
    forall i, j | 0 <= i < j < |a + b| ensures (a + b)[i] != (a + b)[j] {
      if j >= |a| { assert (a + b)[j] == b[j - |a|] && b[j - |a|] in b; }
      if i < |a| { assert (a + b)[i] == a[i] && a[i] in a; }
    }
  }

  /** Without repeats inside the port's list and inside the last list no service is tried twice. */
  lemma EachServiceOnce(r: Rules, ports: seq<Service>, heard: bool)
    requires NoDup(ports) && NoDup(r.ruleOrder)
    ensures NoDup(Schedule(r, ports, heard))
  {
    var mid, done := Middle(r, ports, heard), Done(r, ports, heard);
    RemainingIs(r.groups, r.serviceOrder, Heard(r, ports, heard));
    DoneAfterIs(r.groups, r.serviceOrder, Heard(r, ports, heard));
    RecordedHas(r.groups, ports);
    RecordedHas(r.groups, mid);
    NoDupConcat(ports, mid);
    RestIs(r.ruleOrder, done);
    NoDupConcat(ports + mid, Rest(r.ruleOrder, done));
  }

  /** `s` was tried, or grouped with a service that was. */
  ghost predicate TriedVia(r: Rules, tried: seq<Service>, s: Service) {
    s in tried || exists j :: 0 <= j < |tried| && tried[j] in r.groups && s in r.groups[tried[j]]
  }

  lemma RecordedVia(r: Rules, tried: seq<Service>, s: Service)
    requires s in Recorded(r.groups, tried)
    ensures TriedVia(r, tried, s)
  {
    RecordedIs(r.groups, tried);
    var j :| 0 <= j < |tried| && s in Grouped(r.groups, tried[j]);
  }

  /** What needs no try in the last list has been covered. */
  lemma DoneVia(r: Rules, ports: seq<Service>, heard: bool, s: Service)
    requires s in Done(r, ports, heard)
    ensures TriedVia(r, ports + Middle(r, ports, heard), s) || (heard && TriedVia(r, r.onlyRecv, s))
  {
    var mid := Middle(r, ports, heard);
    DoneAfterIs(r.groups, r.serviceOrder, Heard(r, ports, heard));
    RecordedAppend(r.groups, ports, mid);
    if s in Recorded(r.groups, ports + mid) {
      RecordedVia(r, ports + mid, s);
    } else {
      RecordedVia(r, r.onlyRecv, s);
    }
  }

  /** At the end of the schedule every service of every list was tried, grouped with one of the
      port or of the common list that was tried, or checked (itself or through its group) in the
      receive-only phase. */
  lemma NothingIsMissed(r: Rules, ports: seq<Service>, heard: bool, s: Service)
    requires s in ports || s in r.serviceOrder || s in r.ruleOrder
    ensures s in Schedule(r, ports, heard)
            || TriedVia(r, ports + Middle(r, ports, heard), s)
            || (heard && TriedVia(r, r.onlyRecv, s))
  {
    var mid, done := Middle(r, ports, heard), Done(r, ports, heard);
    RemainingIs(r.groups, r.serviceOrder, Heard(r, ports, heard));
    DoneAfterIs(r.groups, r.serviceOrder, Heard(r, ports, heard));
    RestIs(r.ruleOrder, done);
    assert s in ports || s in Rest(r.ruleOrder, done) || s in done;
    if s in done { DoneVia(r, ports, heard, s); }
  }

  // ---------- a try stands in for its group ----------

  /** `a` stands in for `b`: its rule list names `b` as one of its group. */
  predicate StandsIn(groups: map<Service, seq<Service>>, a: Service, b: Service) {
    a in groups && b in groups[a]
  }

  lemma {:induction false} RemainingSkips(groups: map<Service, seq<Service>>, order: seq<Service>, done: set<Service>,
                                          i: nat, j: nat)
    requires i < j < |Remaining(groups, order, done)|
    ensures !StandsIn(groups, Remaining(groups, order, done)[i], Remaining(groups, order, done)[j])
  {
    if order[0] in done {
      RemainingSkips(groups, order[1..], done, i, j);
    } else {
      var done' := done + Grouped(groups, order[0]);
      var rest := Remaining(groups, order[1..], done');
      if i > 0 {
        RemainingSkips(groups, order[1..], done', i - 1, j - 1);
      } else {
        RemainingIs(groups, order[1..], done');
        assert rest[j - 1] in rest;
      }
    }
  }

  lemma StandInsRecorded(groups: map<Service, seq<Service>>, ss: seq<Service>)
    ensures forall a, b :: a in ss && StandsIn(groups, a, b) ==> b in Recorded(groups, ss)
  {
    RecordedIs(groups, ss);
    forall a, b | a in ss && StandsIn(groups, a, b) ensures b in Recorded(groups, ss) {
      var j :| 0 <= j < |ss| && ss[j] == a;
      assert b in Grouped(groups, ss[j]);
    }
  }

  /** No service of the common list or of the last one is tried after a service of the port or of
      the common list whose group it belongs to, nor, when something was heard, if it is one of
      the receive-only services or belongs to the group of one. */
  lemma GroupsStandIn(r: Rules, ports: seq<Service>, heard: bool, i: nat, j: nat)
    requires i < j < |Schedule(r, ports, heard)| && j >= |ports|
    ensures var all := Schedule(r, ports, heard);
            && (i < |ports| + |Middle(r, ports, heard)| ==> !(all[i] in r.groups && all[j] in r.groups[all[i]]))
            && (heard ==> all[j] !in r.onlyRecv)
            && (heard ==> forall s :: s in r.onlyRecv && s in r.groups ==> all[j] !in r.groups[s])
  {
    var mid, done := Middle(r, ports, heard), Done(r, ports, heard);
    var before, all := Heard(r, ports, heard), Schedule(r, ports, heard);
    var rest := Rest(r.ruleOrder, done);
    RemainingIs(r.groups, r.serviceOrder, before);
    DoneAfterIs(r.groups, r.serviceOrder, before);
    RestIs(r.ruleOrder, done);
    StandInsRecorded(r.groups, ports);
    StandInsRecorded(r.groups, mid);
    StandInsRecorded(r.groups, r.onlyRecv);
    RecordedHas(r.groups, r.onlyRecv);
    assert j < |ports| + |mid| ==> all[j] == mid[j - |ports|] && all[j] in mid;
    assert j >= |ports| + |mid| ==> all[j] == rest[j - |ports| - |mid|] && all[j] in rest;
    assert all[j] !in before;
    if i < |ports| {
      assert all[i] == ports[i] && all[i] in ports;
      assert !StandsIn(r.groups, all[i], all[j]);
    } else if i < |ports| + |mid| {
      assert all[i] == mid[i - |ports|] && all[i] in mid;
      if j < |ports| + |mid| { RemainingSkips(r.groups, r.serviceOrder, before, i - |ports|, j - |ports|); }
      assert !StandsIn(r.groups, all[i], all[j]);
    }
    forall s | heard && s in r.onlyRecv && s in r.groups ensures all[j] !in r.groups[s] {
      assert !StandsIn(r.groups, s, all[j]);
    }
  }

  /** `at` gives each of `tried` its place in `order`, and the places rise. */
  predicate Places(at: seq<nat>, tried: seq<Service>, order: seq<Service>) {
    && |at| == |tried|
    && (forall k :: 0 <= k < |at| ==> at[k] < |order| && order[at[k]] == tried[k])
    && forall k, l :: 0 <= k < l < |at| ==> at[k] < at[l]
  }

  /** The services tried come in the order of the list. */
  ghost predicate Ordered(tried: seq<Service>, order: seq<Service>) {
    exists at :: Places(at, tried, order)
  }

  lemma OrderedNext(tried: seq<Service>, order: seq<Service>, taken: bool)
    requires order != [] && Ordered(tried, order[1..])
    ensures Ordered(if taken then [order[0]] + tried else tried, order)
  {
    var at :| Places(at, tried, order[1..]);
    var later: seq<nat> := seq(|at|, k requires 0 <= k < |at| => at[k] + 1);
    assert Places(later, tried, order);
    if taken {
      var at' := [0] + later;
      assert Places(at', [order[0]] + tried, order);
    }
  }

  lemma {:induction false} RemainingOrdered(groups: map<Service, seq<Service>>, order: seq<Service>, done: set<Service>)
    ensures Ordered(Remaining(groups, order, done), order)
  {
    if order == [] {
      assert Places([], Remaining(groups, order, done), order);
    } else {
      var taken := order[0] !in done;
      var done' := if taken then done + Grouped(groups, order[0]) else done;
      RemainingOrdered(groups, order[1..], done');
      OrderedNext(Remaining(groups, order[1..], done'), order, taken);
    }
  }

  lemma {:induction false} RestOrdered(order: seq<Service>, done: set<Service>)
    ensures Ordered(Rest(order, done), order)
  {
    if order == [] {
      assert Places([], Rest(order, done), order);
    } else {
      RestOrdered(order[1..], done);
      OrderedNext(Rest(order[1..], done), order, order[0] !in done);
    }
  }

  /** The port's own services come first and all of them, then common services in the order of
      their list, then others in the order of the last list. */
  lemma ScheduleInOrder(r: Rules, ports: seq<Service>, heard: bool)
    ensures exists mid, rest ::
      Schedule(r, ports, heard) == ports + mid + rest && Ordered(mid, r.serviceOrder) && Ordered(rest, r.ruleOrder)
  {
    var mid, rest := Middle(r, ports, heard), Rest(r.ruleOrder, Done(r, ports, heard));
    RemainingOrdered(r.groups, r.serviceOrder, Heard(r, ports, heard));
    RestOrdered(r.ruleOrder, Done(r, ports, heard));
    assert Schedule(r, ports, heard) == ports + mid + rest;
  }

  // ---------- the schedule turn by turn ----------

  lemma {:induction false} DoneAfterIs(groups: map<Service, seq<Service>>, order: seq<Service>, done: set<Service>)
    ensures DoneAfter(groups, order, done) == done + Recorded(groups, Remaining(groups, order, done))
  {
    if order != [] {
      if order[0] in done {
        DoneAfterIs(groups, order[1..], done);
      } else {
        var s := order[0];
        var rest := Remaining(groups, order[1..], done + Grouped(groups, s));
        DoneAfterIs(groups, order[1..], done + Grouped(groups, s));
        RecordedAppend(groups, [s], rest);
        assert Recorded(groups, [s]) == Grouped(groups, s) by { assert [s][..0] == []; }
      }
    }
  }

  lemma {:induction false} RemainingAppend(groups: map<Service, seq<Service>>, a: seq<Service>, b: seq<Service>,
                                           done: set<Service>)
    ensures Remaining(groups, a + b, done) ==
            Remaining(groups, a, done) + Remaining(groups, b, DoneAfter(groups, a, done))
    ensures DoneAfter(groups, a + b, done) == DoneAfter(groups, b, DoneAfter(groups, a, done))
  {
    if a == [] {
      assert a + b == b;
    } else {
      RemainingAppend(groups, a[1..], b, if a[0] in done then done else done + Grouped(groups, a[0]));
      assert (a + b)[0] == a[0] && (a + b)[1..] == a[1..] + b;
    }
  }

  lemma RemainingTurn(groups: map<Service, seq<Service>>, order: seq<Service>, k: nat, done: set<Service>)
    requires k < |order|
    ensures var tried, now := Remaining(groups, order[..k], done), DoneAfter(groups, order[..k], done);
            var tried', now' := Remaining(groups, order[..k + 1], done), DoneAfter(groups, order[..k + 1], done);
            && tried <= tried' <= Remaining(groups, order, done)
            && (order[k] in now ==> tried' == tried && now' == now)
            && (order[k] !in now ==> tried' == tried + [order[k]] && now' == now + Grouped(groups, order[k]))
  {
    RemainingAppend(groups, order[..k], [order[k]], done);
    assert order[..k + 1] == order[..k] + [order[k]] && [order[k]][1..] == [];
    RemainingAppend(groups, order[..k + 1], order[k + 1..], done);
    assert order == order[..k + 1] + order[k + 1..];
  }

  lemma {:induction false} RestAppend(a: seq<Service>, b: seq<Service>, done: set<Service>)
    ensures Rest(a + b, done) == Rest(a, done) + Rest(b, done)
  {
    if a == [] {
      assert a + b == b;
    } else {
      RestAppend(a[1..], b, done);
      assert (a + b)[0] == a[0] && (a + b)[1..] == a[1..] + b;
    }
  }

  lemma RestTurn(order: seq<Service>, k: nat, done: set<Service>)
    requires k < |order|
    ensures Rest(order[..k], done) <= Rest(order[..k + 1], done) <= Rest(order, done)
    ensures Rest(order[..k + 1], done) == Rest(order[..k], done) + if order[k] in done then [] else [order[k]]
  {
    RestAppend(order[..k], [order[k]], done);
    assert order[..k + 1] == order[..k] + [order[k]] && [order[k]][1..] == [];
    RestAppend(order[..k + 1], order[k + 1..], done);
    assert order == order[..k + 1] + order[k + 1..];
  }

  /** The loop turns of the three lists one after the other. */
  function Turns(r: Rules, ports: seq<Service>): seq<Service> {
    ports + r.serviceOrder + r.ruleOrder
  }

  /** What has been tried before loop turn `turn`. */
  function TriedBefore(r: Rules, ports: seq<Service>, heard: bool, turn: nat): seq<Service>
    requires turn <= |Turns(r, ports)|
  {
    if turn <= |ports| then ports[..turn]
    else if turn <= |ports| + |r.serviceOrder| then
      ports + Remaining(r.groups, r.serviceOrder[..turn - |ports|], Heard(r, ports, heard))
    else
      ports + Middle(r, ports, heard) + Rest(r.ruleOrder[..turn - |ports| - |r.serviceOrder|], Done(r, ports, heard))
  }

  lemma ServiceTurn(r: Rules, ports: seq<Service>, heard: bool, k: nat)
    requires k < |r.serviceOrder|
    ensures Turns(r, ports)[|ports| + k] == r.serviceOrder[k]
    ensures TriedBefore(r, ports, heard, |ports| + k) ==
            ports + Remaining(r.groups, r.serviceOrder[..k], Heard(r, ports, heard))
  {
    if k == 0 { assert ports[..|ports|] == ports && r.serviceOrder[..0] == []; }
  }

  lemma RuleTurn(r: Rules, ports: seq<Service>, heard: bool, k: nat)
    requires k < |r.ruleOrder|
    ensures var turn := |ports| + |r.serviceOrder| + k;
            && Turns(r, ports)[turn] == r.ruleOrder[k]
            && TriedBefore(r, ports, heard, turn) ==
               ports + Middle(r, ports, heard) + Rest(r.ruleOrder[..k], Done(r, ports, heard))
  {
    if k == 0 {
      assert r.ruleOrder[..0] == [] && r.serviceOrder[..|r.serviceOrder|] == r.serviceOrder;
      assert ports[..|ports|] == ports;
      if r.serviceOrder == [] { assert Middle(r, ports, heard) == []; }
    }
  }

  // ---------- the procedure ----------

  /** So many attempts went on: no match and no dial error. */
  ghost predicate WentOn(w: World, n: nat) {
    forall k: nat :: k < n ==> w.attempt(k) == Match("", false)
  }

  /** No turn before `turn` found the context cancelled. */
  ghost predicate Quiet(w: World, turn: nat) {
    forall k: nat :: k < turn ==> !w.cancelled(k)
  }

  predicate ByAttempt(exit: Exit) {
    exit.Found? || exit.DialError?
  }

  /** The last of `n` attempts ended the procedure. */
  ghost predicate AttemptEnds(w: World, exit: Exit, n: nat) {
    && n > 0 && WentOn(w, n - 1)
    && match exit
       case Found(s) => s != "" && w.attempt(n - 1).service == s
       case DialError => w.attempt(n - 1) == Match("", true)
       case _ => false
  }

  /** Turn `turn` ended the procedure, with `n` attempts made in all. */
  ghost predicate TurnEnds(w: World, exit: Exit, turn: nat, n: nat) {
    match exit
    case Cancelled => WentOn(w, n) && w.cancelled(turn)
    case OutOfTime => WentOn(w, n) && !w.cancelled(turn) && !w.timeLeft(turn)
    case _ => !w.cancelled(turn) && w.timeLeft(turn) && AttemptEnds(w, exit, n)
  }

  /** The receive-only phase ended the procedure. */
  predicate ListenEnds(w: World, exit: Exit) {
    match exit
    case OutOfTime => !w.recvTime || (w.recvDials && !w.recvTimeAfterDial)
    case DialError => w.recvTime && !w.recvDials
    case HeardService(s) => w.recvTime && w.recvDials && w.recvTimeAfterDial && w.heard && s == w.recvService && s != ""
    case _ => false
  }

  /** Why and where the procedure ended: in loop turn `turn` with exactly the attempts due by
      then, in the receive-only phase after all the port's services, or at the end of all turns. */
  ghost predicate EndsAt(r: Rules, ports: seq<Service>, w: World, exit: Exit, tried: seq<Service>, turn: nat) {
    && turn <= |Turns(r, ports)| && Quiet(w, turn)
    && (|| (exit == Unknown && turn == |Turns(r, ports)| && tried == Schedule(r, ports, w.heard) && WentOn(w, |tried|))
        || (ListenEnds(w, exit) && turn == |ports| && tried == ports && WentOn(w, |tried|))
        || (turn < |Turns(r, ports)| && TurnEnds(w, exit, turn, |tried|)
            && tried == TriedBefore(r, ports, w.heard, turn) + if ByAttempt(exit) then [Turns(r, ports)[turn]] else []))
  }

  /** One attempt, after `n` others that went on. */
  method Attempt(w: World, n: nat) returns (exit: Option<Exit>)
    requires WentOn(w, n)
    ensures exit.None? ==> WentOn(w, n + 1)
    ensures exit.Some? ==> AttemptEnds(w, exit.value, n + 1)
  {
    var m := w.attempt(n);
    if m.service != "" {
      return Some(Found(m.service));
    } else if m.dialError {
      return Some(DialError);
    }
    exit := None;
  }

  method TryPortServices(ports: seq<Service>, w: World, groups: map<Service, seq<Service>>)
    returns (exit: Option<Exit>, tried: seq<Service>, recorded: set<Service>, turn: nat)
    ensures Quiet(w, turn) && recorded == Recorded(groups, tried)
    ensures exit.None? ==> turn == |ports| && tried == ports && WentOn(w, |tried|)
    ensures exit.Some? ==>
              turn < |ports| && TurnEnds(w, exit.value, turn, |tried|)
              && tried == ports[..turn] + if ByAttempt(exit.value) then [ports[turn]] else []
  {
    tried, recorded := [], {};
    for k := 0 to |ports|
      invariant tried == ports[..k] && recorded == Recorded(groups, tried) && WentOn(w, |tried|) && Quiet(w, k)
    {
      if w.cancelled(k) {
        return Some(Cancelled), tried, recorded, k;
      }
      if !w.timeLeft(k) {
        return Some(OutOfTime), tried, recorded, k;
      }
      assert (tried + [ports[k]])[..k] == tried;
      recorded := recorded + Grouped(groups, ports[k]);
      tried := tried + [ports[k]];
      exit := Attempt(w, k);
      if exit.Some? {
        turn := k;
        return;
      }
    }
    exit, turn := None, |ports|;
  }

  /** The receive-only phase. */
  method Listen(r: Rules, w: World, before: set<Service>) returns (exit: Option<Exit>, recorded: set<Service>)
    ensures exit.None? ==> recorded == before + if w.heard then Recorded(r.groups, r.onlyRecv) else {}
    ensures exit.Some? ==> ListenEnds(w, exit.value)
  {
    recorded := before;
    if !w.recvTime {
      return Some(OutOfTime), recorded;
    }
    if !w.recvDials {
      return Some(DialError), recorded;
    }
    if !w.recvTimeAfterDial {
      return Some(OutOfTime), recorded;
    }
    if w.heard {
      if w.recvService != "" {
        return Some(HeardService(w.recvService)), recorded;
      }
      for k := 0 to |r.onlyRecv|
        invariant recorded == before + Recorded(r.groups, r.onlyRecv[..k])
      {
        assert r.onlyRecv[..k + 1][..k] == r.onlyRecv[..k];
        recorded := recorded + Grouped(r.groups, r.onlyRecv[k]);
      }
      assert r.onlyRecv[..|r.onlyRecv|] == r.onlyRecv;
    }
    exit := None;
  }

  /** The common services that were neither tried nor checked yet; trying one records it. */
  method TryServiceOrder(order: seq<Service>, w: World, groups: map<Service, seq<Service>>,
                         first: nat, before: seq<Service>, done: set<Service>)
    returns (exit: Option<Exit>, tried: seq<Service>, recorded: set<Service>, turn: nat)
    requires WentOn(w, |before|) && Quiet(w, first)
    ensures Quiet(w, turn) && tried <= Remaining(groups, order, done)
    ensures exit.None? ==> turn == first + |order| && WentOn(w, |before| + |tried|)
    ensures exit.None? ==> tried == Remaining(groups, order, done) && recorded == DoneAfter(groups, order, done)
    ensures exit.Some? ==>
              first <= turn < first + |order| && TurnEnds(w, exit.value, turn, |before| + |tried|)
              && tried == Remaining(groups, order[..turn - first], done)
                          + if ByAttempt(exit.value) then [order[turn - first]] else []
  {
    tried, recorded := [], done;
    for k := 0 to |order|
      invariant tried == Remaining(groups, order[..k], done) && recorded == DoneAfter(groups, order[..k], done)
      invariant tried <= Remaining(groups, order, done)
      invariant WentOn(w, |before| + |tried|) && Quiet(w, first + k)
    {
      var s := order[k];
      RemainingTurn(groups, order, k, done);
      if w.cancelled(first + k) {
        return Some(Cancelled), tried, recorded, first + k;
      }
      if s in recorded {
        continue;
      }
      if !w.timeLeft(first + k) {
        return Some(OutOfTime), tried, recorded, first + k;
      }
      recorded := recorded + Grouped(groups, s);
      exit := Attempt(w, |before| + |tried|);
      tried := tried + [s];
      if exit.Some? {
        turn := first + k;
        return;
      }
    }
    assert order[..|order|] == order;
    exit, turn := None, first + |order|;
  }

  /** All other services; a try does for nothing but itself. */
  method TryRuleOrder(order: seq<Service>, w: World, first: nat, before: seq<Service>, done: set<Service>)
    returns (exit: Option<Exit>, tried: seq<Service>, turn: nat)
    requires WentOn(w, |before|) && Quiet(w, first)
    ensures Quiet(w, turn) && tried <= Rest(order, done)
    ensures exit.None? ==> turn == first + |order| && tried == Rest(order, done) && WentOn(w, |before| + |tried|)
    ensures exit.Some? ==>
              first <= turn < first + |order| && TurnEnds(w, exit.value, turn, |before| + |tried|)
              && tried == Rest(order[..turn - first], done)
                          + if ByAttempt(exit.value) then [order[turn - first]] else []
  {
    tried := [];
    for k := 0 to |order|
      invariant tried == Rest(order[..k], done) && tried <= Rest(order, done)
      invariant WentOn(w, |before| + |tried|) && Quiet(w, first + k)
    {
      var s := order[k];
      RestTurn(order, k, done);
      if w.cancelled(first + k) {
        return Some(Cancelled), tried, first + k;
      }
      if s in done {
        continue;
      }
      if !w.timeLeft(first + k) {
        return Some(OutOfTime), tried, first + k;
      }
      exit := Attempt(w, |before| + |tried|);
      tried := tried + [s];
      if exit.Some? {
        turn := first + k;
        return;
      }
    }
    assert order[..|order|] == order;
    exit, turn := None, first + |order|;
  }

  /** The whole procedure: the attempts are a prefix of the schedule, each exit names its cause
      and its turn, and the deferred https attempt follows only an http answer of status 400. */
  method PortIdentify(r: Rules, ports: seq<Service>, w: World)
    returns (exit: Exit, tried: seq<Service>, turn: nat, https: bool, name: Service)
    ensures tried <= Schedule(r, ports, w.heard)
    ensures EndsAt(r, ports, w, exit, tried, turn)
    ensures https <==> exit == Found("http") && w.bad400 && w.fallbackTime
    ensures name == (if https && !w.fallback.dialError && w.fallback.service != "" then w.fallback.service
                     else match exit case Found(s) => s case HeardService(s) => s case _ => "unknown")
  {
    exit, tried, turn := Walk(r, ports, w);
    https := exit == Found("http") && w.bad400 && w.fallbackTime;
    name := match exit case Found(s) => s case HeardService(s) => s case _ => "unknown";
    if https && !w.fallback.dialError && w.fallback.service != "" {
      name := w.fallback.service;
    }
  }

  method Walk(r: Rules, ports: seq<Service>, w: World) returns (exit: Exit, tried: seq<Service>, turn: nat)
    ensures tried <= Schedule(r, ports, w.heard)
    ensures EndsAt(r, ports, w, exit, tried, turn)
  {
    var first, t1, r1, turn1 := TryPortServices(ports, w, r.groups);
    if first.Some? {
      assert Turns(r, ports)[turn1] == ports[turn1];
      return first.value, t1, turn1;
    }
    var second, r2 := Listen(r, w, r1);
    if second.Some? {
      return second.value, t1, turn1;
    }
    exit, tried, turn := WalkOn(r, ports, w, r2);
  }

  /** A common service's turn ended the procedure. */
  lemma EndsInMiddle(r: Rules, ports: seq<Service>, w: World, exit: Exit, mid: seq<Service>, k: nat)
    requires k < |r.serviceOrder| && Quiet(w, |ports| + k)
    requires TurnEnds(w, exit, |ports| + k, |ports| + |mid|) && mid <= Middle(r, ports, w.heard)
    requires mid == Remaining(r.groups, r.serviceOrder[..k], Heard(r, ports, w.heard))
                    + if ByAttempt(exit) then [r.serviceOrder[k]] else []
    ensures ports + mid <= Schedule(r, ports, w.heard)
    ensures EndsAt(r, ports, w, exit, ports + mid, |ports| + k)
  {
    ServiceTurn(r, ports, w.heard, k);
  }

  /** Another service's turn ended it. */
  lemma EndsInRest(r: Rules, ports: seq<Service>, w: World, exit: Exit, rest: seq<Service>, k: nat)
    requires var turn, all := |ports| + |r.serviceOrder| + k, ports + Middle(r, ports, w.heard) + rest;
             k < |r.ruleOrder| && Quiet(w, turn) && TurnEnds(w, exit, turn, |all|)
    requires rest <= Rest(r.ruleOrder, Done(r, ports, w.heard))
    requires rest == Rest(r.ruleOrder[..k], Done(r, ports, w.heard)) + if ByAttempt(exit) then [r.ruleOrder[k]] else []
    ensures ports + Middle(r, ports, w.heard) + rest <= Schedule(r, ports, w.heard)
    ensures EndsAt(r, ports, w, exit, ports + Middle(r, ports, w.heard) + rest, |ports| + |r.serviceOrder| + k)
  {
    RuleTurn(r, ports, w.heard, k);
  }

  /** After the receive-only phase. */
  method WalkOn(r: Rules, ports: seq<Service>, w: World, done: set<Service>)
    returns (exit: Exit, tried: seq<Service>, turn: nat)
    requires WentOn(w, |ports|) && Quiet(w, |ports|) && done == Heard(r, ports, w.heard)
    ensures tried <= Schedule(r, ports, w.heard)
    ensures EndsAt(r, ports, w, exit, tried, turn)
  {
    var third, t3, r3, turn3 := TryServiceOrder(r.serviceOrder, w, r.groups, |ports|, ports, done);
    if third.Some? {
      EndsInMiddle(r, ports, w, third.value, t3, turn3 - |ports|);
      return third.value, ports + t3, turn3;
    }
    exit, tried, turn := WalkRest(r, ports, w, ports + t3, r3);
  }

  method WalkRest(r: Rules, ports: seq<Service>, w: World, before: seq<Service>, done: set<Service>)
    returns (exit: Exit, tried: seq<Service>, turn: nat)
    requires before == ports + Middle(r, ports, w.heard) && done == Done(r, ports, w.heard)
    requires WentOn(w, |before|) && Quiet(w, |ports| + |r.serviceOrder|)
    ensures tried <= Schedule(r, ports, w.heard)
    ensures EndsAt(r, ports, w, exit, tried, turn)
  {
    var fourth, rest;
    fourth, rest, turn := TryRuleOrder(r.ruleOrder, w, |ports| + |r.serviceOrder|, before, done);
    tried := before + rest;
    if fourth.None? {
      exit := Unknown;
      return;
    }
    exit := fourth.value;
    EndsInRest(r, ports, w, exit, rest, turn - |ports| - |r.serviceOrder|);
  }
}
