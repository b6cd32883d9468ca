/** Runs with a single ESI: its lines are dealt to the instances in turn. */
module LoneRuns {
  import opened Types
  import opened Lists
  import opened PlannerSpec
  import opened PlannerSound
  import opened EsiSpec
  import opened InstanceSpec
  import opened InstanceLaws
  import opened KeyTable
  import opened LockHistory
  import opened System
  import opened Chains
  import opened Invariant
  import opened Moves
  import opened OneOrder
  import opened Locks
  import opened Scripts
  import opened Placement

  // ---------- What every such run keeps ----------

  ghost predicate Kept(s: State) {
    && Inv(s) && !s.crashed
    && Exclusive(s.planner.taken, s.net)
    && KeysOk(s.planner.taken, s.log, s.net, {})
    && Replayed(s.nodes, s.log)
  }

  /** The message in flight is received. */
  lemma Delivery(s: State)
    requires Kept(s) && s.net != [] && !Crashes(s, s.net[0])
    ensures Enabled(s, Deliver(0))
    ensures Kept(Perform(s, Deliver(0))) && Received(s, s.net[0], Perform(s, Deliver(0)))
  {
    hide Inv, Perform, Exclusive, KeysOk, Replayed, Process, InRange, KeyHeld, NextNode, Run;
    assert Enabled(s, Deliver(0));
    StepKeeps(s, Deliver(0));
    StepForm(s, Deliver(0));
    StepExclusive(s, Deliver(0));
    StepKeys(s, Deliver(0), {});
    StepReplayed(s, Deliver(0));
  }

  // ---------- One ESI ----------

  function Lines(ops: seq<Op>): (r: seq<Line>)
    ensures |r| == |ops|
    ensures forall i :: 0 <= i < |ops| ==> r[i] == Valid(ops[i])
  {
    seq(|ops|, i requires 0 <= i < |ops| => Valid(ops[i]))
  }

  /** The first k operations were carried out, number i by instance i modulo n. */
  ghost predicate InTurn(log: seq<Event>, name: string, ops: seq<Op>, k: nat, n: nat) {
    && n > 0 && k == |log| <= |ops|
    && forall i :: 0 <= i < k ==> log[i].op == ops[i] && log[i].name == name && log[i].node == i % n
  }

  /** The instance used last when k operations were carried out. */
  function LastFor(k: nat, n: nat): int
    requires n > 0
  {
    if k == 0 then -1 else (k - 1) % n
  }

  /** One ESI, all instances available, k operations carried out. */
  ghost predicate Alone(s: State, ops: seq<Op>, k: nat) {
    && Kept(s)
    && |s.procs| == 1 && s.procs[0].script == Lines(ops)
    && (forall i :: 0 <= i < |s.nodes| ==> s.nodes[i].available)
    && InTurn(s.log, s.procs[0].name, ops, k, |s.nodes|)
  }

  /** Of the first operations, those at positions that leave the remainder r. */
  function Dealt(ops: seq<Op>, n: nat, r: nat): seq<Op>
    requires n > 0
  {
    if ops == [] then []
    else
      var last := |ops| - 1;
      if last % n == r then Dealt(ops[..last], n, r) + [ops[last]] else Dealt(ops[..last], n, r)
  }

  lemma {:induction false} ShareIsDealt(log: seq<Event>, name: string, ops: seq<Op>, n: nat, r: nat)
    requires InTurn(log, name, ops, |log|, n)
    ensures Share(log, r) == Dealt(ops[..|log|], n, r)
  {
    if log != [] {
      var last := |log| - 1;
      ShareIsDealt(log[..last], name, ops, n, r);
      assert ops[..|log|][..last] == ops[..last];
    }
  }

  lemma {:induction false} AllMine(log: seq<Event>, name: string, ops: seq<Op>, n: nat)
    requires InTurn(log, name, ops, |log|, n)
    ensures Applied(log, name) == ops[..|log|]
  {
    if log != [] {
      var last := |log| - 1;
      AllMine(log[..last], name, ops, n);
      assert ops[..|log|] == ops[..last] + [ops[last]];
    }
  }

  /** The operation on line k may be asked for: a GET of a key not held, or a SET or STORE of one that is. */
  predicate MayAsk(ops: seq<Op>, k: nat)
    requires k < |ops|
  {
    if ops[k].Get? then ops[k].key !in HeldKeys(ops[..k]) else ops[k].key in HeldKeys(ops[..k])
  }

  /** The instance whose turn it is knows the key, if it has to. */
  predicate MayRun(ops: seq<Op>, k: nat, n: nat)
    requires k < |ops| && n > 0
  {
    ops[k].Get? || ops[k].key in Created(Dealt(ops[..k], n, k % n))
  }

  lemma HeldMore(ops: seq<Op>, op: Op)
    ensures HeldKeys(ops + [op]) ==
            if op.Get? then HeldKeys(ops) + {op.key}
            else if op.Set? then HeldKeys(ops) else HeldKeys(ops) - {op.key}
  {
    assert (ops + [op])[..|ops|] == ops;
  }

  lemma DealtMore(ops: seq<Op>, op: Op, n: nat, r: nat)
    requires n > 0
    ensures Dealt(ops + [op], n, r) == if |ops| % n == r then Dealt(ops, n, r) + [op] else Dealt(ops, n, r)
  {
    assert (ops + [op])[..|ops|] == ops;
  }

  /** The planner's table holds what the ESI holds. */
  lemma LoneLocks(s: State, ops: seq<Op>, k: nat, key: string)
    requires Alone(s, ops, k) && Noticed(s.log, s.net) == s.log
    ensures KeyHeld(s.planner.taken, key) <==> key in HeldKeys(ops[..k])
    ensures KeyHeld(s.planner.taken, key) ==>
              s.planner.taken[AllocIndex(s.planner.taken, key, Blocked)].name == s.procs[0].name
  {
    hide Inv, Exclusive, Replayed, LockAfter, HeldKeys, Applied;
    var name := s.procs[0].name;
    AllMine(s.log, name, ops, |s.nodes|);
    HeldIsLocked(s.log, key, name);
    HolderIsFirst(s.planner.taken, key);
    assert key !in {};
    var lock := LockAfter(s.log, key);
    if lock.Held? && lock.name != name {
      HeldIsLocked(s.log, key, lock.name);
      NothingApplied(s.log, lock.name);
      NothingHeld();
    }
  }

  /** The lone ESI's next line is line k. */
  lemma LoneCursor(s: State, ops: seq<Op>, k: nat)
    requires Alone(s, ops, k) && s.net == [RunOrder(0, false)]
    ensures s.procs[0].cursor == k
  {
    hide Sound, Wired, Placed, InOrder, OfKnown, QueuesOnScript, Counted, OneOutstanding, Exclusive, KeysOk, Replayed,
         Applied;
    AllMine(s.log, s.procs[0].name, ops, |s.nodes|);
  }

  /** From the run order to the permission. */
  lemma AskLine(s: State, ops: seq<Op>, k: nat) returns (steps: seq<Step>, t: State)
    requires Alone(s, ops, k) && s.net == [RunOrder(0, false)] && k < |ops| && MayAsk(ops, k)
    ensures Runs(s, steps) && t == After(s, steps) && Deliveries(steps)
    ensures Alone(t, ops, k) && t.lastUsed == s.lastUsed && |t.nodes| == |s.nodes|
    ensures t.net == [Permit(0, t.procs[0].name, ops[k])]
  {
    hide Inv, Perform, Exclusive, KeysOk, Replayed, Process, InRange, KeyHeld, NextNode, InTurn, HeldKeys, Enabled,
         Runs, After;
    var d := Deliver(0);
    LoneCursor(s, ops, k);
    Delivery(s);
    var a := Perform(s, d);
    assert a.net == [Instruction(0, s.procs[0].name, ops[k])];
    Delivery(a);
    var b := Perform(a, d);
    LoneLocks(b, ops, k, ops[k].key);
    Delivery(b);
    t := Perform(b, d);
    OneStep(s, d);
    StepMore(s, [d], d);
    StepMore(s, [d] + [d], d);
    steps := [d] + [d] + [d];
  }

  predicate Deliveries(steps: seq<Step>) {
    forall i :: 0 <= i < |steps| ==> steps[i] == Deliver(0)
  }

  /** Equitable Load takes the instances in turn. */
  lemma NextInLine(s: State, k: nat)
    requires |s.nodes| > 0 && s.lastUsed == LastFor(k, |s.nodes|)
    requires forall i :: 0 <= i < |s.nodes| ==> s.nodes[i].available
    ensures NextNode(s) == k % |s.nodes|
  {
    if k > 0 {
      NextSlotIsMod(k - 1, |s.nodes|);
    }
  }

  /** From the permission to the report. */
  lemma CarryLine(s: State, ops: seq<Op>, k: nat) returns (steps: seq<Step>, t: State)
    requires Alone(s, ops, k) && k < |ops| && s.net == [Permit(0, s.procs[0].name, ops[k])]
    requires s.lastUsed == LastFor(k, |s.nodes|) && MayRun(ops, k, |s.nodes|)
    ensures Runs(s, steps) && t == After(s, steps) && Deliveries(steps)
    ensures Alone(t, ops, k + 1) && t.lastUsed == LastFor(k + 1, |t.nodes|) && |t.nodes| == |s.nodes|
    ensures |t.net| == 1 && t.net[0].Reply? && t.net[0].who == 0 && t.net[0].success
  {
    hide Inv, Perform, Exclusive, KeysOk, Replayed, Process, InRange, NextNode, Enabled, Runs, After, Written, InTurn;
    var d, n := Deliver(0), |s.nodes|;
    InTurnPositive(s, ops, k);
    NextInLine(s, k);
    assert s.nodes[0].available;
    Delivery(s);
    var a := Perform(s, d);
    assert a.net == [Apply(0, s.procs[0].name, ops[k], k % n)];
    Succeeds(a, ops, k);
    Delivery(a);
    t := Perform(a, d);
    OneMoreInTurn(s.log, t.log[|s.log|], s.procs[0].name, ops, k, n);
    OneStep(s, d);
    StepMore(s, [d], d);
    steps := [d] + [d];
  }

  lemma InTurnPositive(s: State, ops: seq<Op>, k: nat)
    requires Alone(s, ops, k)
    ensures |s.nodes| > 0 && |s.log| == k
  {}

  lemma OneMoreInTurn(log: seq<Event>, e: Event, name: string, ops: seq<Op>, k: nat, n: nat)
    requires InTurn(log, name, ops, k, n) && k < |ops|
    requires e.op == ops[k] && e.name == name && e.node == k % n
    ensures InTurn(log + [e], name, ops, k + 1, n)
  {}

  /** The instance whose turn it is knows the key. */
  lemma Succeeds(s: State, ops: seq<Op>, k: nat)
    requires Alone(s, ops, k) && k < |ops| && s.net == [Apply(0, s.procs[0].name, ops[k], k % |s.nodes|)]
    requires MayRun(ops, k, |s.nodes|)
    ensures CanExecute(s, s.net[0]) && Process(s.nodes[k % |s.nodes|].store, ops[k]).success
  {
    hide Inv, Exclusive, KeysOk, Replay, Created, Dealt, Circular;
    var n := |s.nodes|;
    var r := k % n;
    ShareIsDealt(s.log, s.procs[0].name, ops, n, r);
    var store := s.nodes[r].store;
    ReplayCircular(|store.blocks|, Share(s.log, r));
    DictionaryIsCreated(|store.blocks|, Share(s.log, r));
    SameKeys(store, Created(Share(s.log, r)), ops[k].key);
  }

  /** From the report to the next run order. */
  lemma ReportLine(s: State, ops: seq<Op>, k: nat) returns (steps: seq<Step>, t: State)
    requires Alone(s, ops, k) && |s.net| == 1 && s.net[0].Reply? && s.net[0].who == 0 && s.net[0].success
    ensures Runs(s, steps) && t == After(s, steps) && Deliveries(steps)
    ensures Alone(t, ops, k) && t.lastUsed == s.lastUsed && |t.nodes| == |s.nodes| && t.net == [RunOrder(0, false)]
  {
    hide Inv, Perform, Exclusive, KeysOk, Replayed, InTurn, Enabled, Runs, After, CheckWhosWaiting;
    var d := Deliver(0);
    Delivery(s);
    var a := Perform(s, d);
    Delivery(a);
    var b := Perform(a, d);
    OneStep(s, d);
    StepMore(s, [d], d);
    t, steps := b, [d] + [d];
    if a.net[0].Notice? {
      Delivery(b);
      StepMore(s, steps, d);
      t, steps := Perform(b, d), steps + [d];
    }
  }

  /** A whole line. */
  lemma WholeLine(s: State, ops: seq<Op>, k: nat) returns (steps: seq<Step>, t: State)
    requires Alone(s, ops, k) && s.net == [RunOrder(0, false)] && k < |ops| && MayAsk(ops, k)
    requires |s.nodes| > 0 && s.lastUsed == LastFor(k, |s.nodes|) && MayRun(ops, k, |s.nodes|)
    ensures Runs(s, steps) && t == After(s, steps) && Deliveries(steps)
    ensures Alone(t, ops, k + 1) && |t.nodes| == |s.nodes| && t.net == [RunOrder(0, false)]
    ensures t.lastUsed == LastFor(k + 1, |t.nodes|)
  {
    hide Alone, Runs, After, LastFor, MayRun, MayAsk;
    var asked, a := AskLine(s, ops, k);
    var carried, b := CarryLine(a, ops, k);
    var reported, c := ReportLine(b, ops, k + 1);
    RunThen(a, carried, reported);
    RunThen(s, asked, carried + reported);
    steps, t := asked + (carried + reported), c;
  }

  // ---------- From the start ----------

  lemma InitReplayed(nodes: seq<Node>)
    requires AllFresh(nodes)
    ensures Replayed(nodes, [])
  {
    forall n | 0 <= n < |nodes|
      ensures |nodes[n].store.blocks| > 0 && nodes[n].store == Replay(|nodes[n].store.blocks|, Share([], n))
    {
      var k: nat :| k > 0 && nodes[n].store == Fresh(k);
    }
  }

  /** The ESI arrives and is started. */
  lemma LoneStart(config: Config, nodes: seq<Node>, ops: seq<Op>) returns (steps: seq<Step>, t: State)
    requires |nodes| > 0 && AllFresh(nodes) && forall i :: 0 <= i < |nodes| ==> nodes[i].available
    ensures Runs(Init(config, [], nodes), steps) && t == After(Init(config, [], nodes), steps)
    ensures Alone(t, ops, 0) && t.nodes == nodes && t.lastUsed == -1 && t.net == [RunOrder(0, false)]
    ensures |steps| == 2 && steps[0] == Arrive(Lines(ops)) && steps[1].StartEsi?
  {
    hide Inv, Perform, Exclusive, KeysOk, Replayed, Runs, After;
    var s := Init(config, [], nodes);
    InitInv(config, [], nodes);
    InitLone(config, nodes);
    var arrive := Arrive(Lines(ops));
    StepForm(s, arrive);
    StepKept(s, arrive);
    var a := Perform(s, arrive);
    var e := NewEsi(config, config.initId);
    assert a.planner.ready == [e] + [] == [e];
    var begin := StartEsi([e]);
    StepForm(a, begin);
    StepKept(a, begin);
    t := Perform(a, begin);
    OneStep(s, arrive);
    StepMore(s, [arrive], begin);
    steps := [arrive] + [begin];
  }

  lemma InitLone(config: Config, nodes: seq<Node>)
    requires AllFresh(nodes)
    ensures Exclusive(Init(config, [], nodes).planner.taken, [])
    ensures KeysOk(Init(config, [], nodes).planner.taken, [], [], {})
    ensures Replayed(nodes, [])
  {
    InitReplayed(nodes);
    assert LockOf([]) == Free;
  }

  lemma StepKept(s: State, step: Step)
    requires Kept(s) && Enabled(s, step) && (step.Arrive? || step.StartEsi?)
    ensures Kept(Perform(s, step))
  {
    hide Inv, Perform, Enabled, Exclusive, KeysOk, Replayed;
    StepForm(s, step);
    StepKeeps(s, step);
    StepExclusive(s, step);
    StepKeys(s, step, {});
    StepReplayed(s, step);
  }

  /** Every line up to k may be asked for and its instance knows the key. */
  predicate GoesThrough(ops: seq<Op>, k: nat, n: nat)
    requires k <= |ops| && n > 0
  {
    forall i :: 0 <= i < k ==> MayAsk(ops, i) && MayRun(ops, i, n)
  }

  /** A lone ESI has its lines carried out one after the other, line i by instance i modulo the number of instances,
      as long as each GET is of a key it does not hold, each SET and STORE of one it does, and the instance whose
      turn it is knows the key. */
  lemma {:induction false} LoneRun(config: Config, nodes: seq<Node>, ops: seq<Op>, k: nat)
    returns (steps: seq<Step>, t: State)
    requires |nodes| > 0 && AllFresh(nodes) && forall i :: 0 <= i < |nodes| ==> nodes[i].available
    requires k <= |ops| && GoesThrough(ops, k, |nodes|)
    ensures Runs(Init(config, [], nodes), steps) && t == After(Init(config, [], nodes), steps)
    ensures FromArrival(steps, ops)
    ensures Alone(t, ops, k) && t.net == [RunOrder(0, false)]
    ensures |t.nodes| == |nodes| && t.lastUsed == LastFor(k, |nodes|)
  {
    hide Inv, Perform, Exclusive, KeysOk, Replayed, Runs, After, MayAsk, MayRun, InTurn;
    if k == 0 {
      steps, t := LoneStart(config, nodes, ops);
    } else {
      var first, a := LoneRun(config, nodes, ops, k - 1);
      var line, b := WholeLine(a, ops, k - 1);
      RunThen(Init(config, [], nodes), first, line);
      steps, t := first + line, b;
    }
  }

  /** The ESI arrives and is started, and then messages are delivered. */
  predicate FromArrival(steps: seq<Step>, ops: seq<Op>) {
    && |steps| >= 2 && steps[0] == Arrive(Lines(ops)) && steps[1].StartEsi?
    && forall i :: 2 <= i < |steps| ==> steps[i] == Deliver(0)
  }

  /** After its last line the ESI finishes. */
  lemma LoneEnd(s: State, ops: seq<Op>) returns (steps: seq<Step>, t: State, e: Esi)
    requires Alone(s, ops, |ops|) && s.net == [RunOrder(0, false)]
    ensures Runs(s, steps) && t == After(s, steps) && Deliveries(steps)
    ensures Kept(t) && t.log == s.log && t.net == [] && t.planner.running == []
    ensures |t.procs| == 1 && t.procs[0].script == Lines(ops) && e in t.planner.finished && Mine(t.procs, e, 0)
  {
    hide Sound, Wired, Placed, InOrder, OfKnown, QueuesOnScript, FlightOnScript, Counted, Exclusive, KeysOk, Replayed,
         Perform, Runs, After, InTurn;
    var d := Deliver(0);
    LoneCursor(s, ops, |ops|);
    Delivery(s);
    var a := Perform(s, d);
    assert a.net == [Finished(0)];
    Delivery(a);
    t := Perform(a, d);
    e := EndBurst(a.planner.config, a.planner.running[0]);
    assert Mine(a.procs, a.planner.running[0], 0);
    OneStep(s, d);
    StepMore(s, [d], d);
    steps := [d] + [d];
  }
}
