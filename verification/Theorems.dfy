/** The main results, for every run from every initial configuration. */
module Theorems {
  import opened Types
  import opened Lists
  import opened Names
  import opened Estimates
  import opened PlannerSpec
  import opened WakeUp
  import opened PlannerSound
  import opened EsiSpec
  import opened InstanceSpec
  import opened InstanceLaws
  import opened KeyTable
  import opened LockHistory
  import opened System
  import opened Invariant
  import opened Moves
  import opened OneOrder
  import opened Locks
  import opened Isolation
  import opened Scripts
  import opened Termination
  import opened Progress
  import opened Deadlock
  import opened NoWakeUp
  import opened Fifo
  import opened Stuck
  import opened Releases
  import opened Distribution
  import EquitableLoad
  import opened Placement
  import opened LoneRuns

  /** A run from the start of the system, with instances just set up, leads to s. */
  ghost predicate Reached(config: Config, keys: seq<string>, nodes: seq<Node>, steps: seq<Step>, s: State) {
    AllFresh(nodes) && Runs(Init(config, keys, nodes), steps) && s == After(Init(config, keys, nodes), steps)
  }

  lemma ReachedInv(config: Config, keys: seq<string>, nodes: seq<Node>, steps: seq<Step>, s: State)
    requires Reached(config, keys, nodes, steps, s)
    ensures Inv(s)
  {
    hide Inv, Runs, After;
    InitInv(config, keys, nodes);
    RunKeeps(Init(config, keys, nodes), steps);
  }

  // ---------- The protocol ----------

  /** Single outstanding order: at most one ESI runs, at most one message is in flight (or a notice with the
      end-of-line report behind it), and it was sent at the order to that ESI. So LINE_OK and FINISHED, which the
      planner credits to the head of its running queue, credit the ESI that caused them. */
  lemma SingleOutstandingOrder(config: Config, keys: seq<string>, nodes: seq<Node>, steps: seq<Step>, s: State)
    requires Reached(config, keys, nodes, steps, s)
    ensures |s.planner.running| <= 1
    ensures |s.net| <= 1 || (|s.net| == 2 && s.net[0].Notice? && s.net[1].LineOk?)
    ensures forall m :: m in s.net ==>
              |s.planner.running| == 1 && m.who < |s.procs| && s.procs[m.who].name == s.planner.running[0].id
    ensures s.net != [] ==> |s.planner.running| == 1 && Carries(s.net[0], s.planner.running[0].id)
  {
    hide Reached, Wired, Placed, InOrder, OfKnown, QueuesOnScript, FlightOnScript, Counted, Everyone, Backed,
         SocketsMatch;
    ReachedInv(config, keys, nodes, steps, s);
  }

  /** Exactly-once, in-order execution: the operations the instances carried out for an ESI are the first lines of its
      script; a finished ESI has had all of them, up to the end or to the first bad line. */
  lemma ExactlyOnce(config: Config, keys: seq<string>, nodes: seq<Node>, steps: seq<Step>, s: State)
    requires Reached(config, keys, nodes, steps, s)
    ensures forall p :: 0 <= p < |s.procs| ==> PrefixOf(Applied(s.log, s.procs[p].name), s.procs[p].script)
    ensures forall e, p :: e in s.planner.finished && Mine(s.procs, e, p) ==>
              Complete(s.procs[p], |Applied(s.log, s.procs[p].name)|)
    ensures forall i :: 0 <= i < |s.log| ==> Belongs(s.procs, s.log[i].name)
  {
    hide Reached, Sound, Wired, Placed, Applied;
    ReachedInv(config, keys, nodes, steps, s);
  }

  /** What the planner is asked about, what the coordinator passes on and what an instance carries out is the line
      that the running ESI has just read, in its own name: the first one not yet carried out, at which its mark
      stands. */
  lemma RelaysOwnLine(config: Config, keys: seq<string>, nodes: seq<Node>, steps: seq<Step>, s: State)
    requires Reached(config, keys, nodes, steps, s) && s.net != []
    requires var m := s.net[0]; m.Instruction? || m.Question? || m.Permit? || m.Apply?
    ensures var m := s.net[0];
            && |s.planner.running| == 1 && m.who < |s.procs| && m.name == s.procs[m.who].name == s.planner.running[0].id
            && var done := |Applied(s.log, m.name)|;
               done < |s.procs[m.who].script| && s.procs[m.who].script[done] == Valid(m.op)
               && s.procs[m.who].mark == done && s.procs[m.who].cursor == done + 1
  {
    hide Reached, Sound, Wired, Placed, InOrder, OfKnown, QueuesOnScript, Counted, Applied;
    ReachedInv(config, keys, nodes, steps, s);
  }

  /** The system stands still, with an ESI running and nothing in flight, if and only if in the run a SET or STORE
      was refused, or delivered to an instance without its key, and the report of that has been delivered as well;
      and then it does so for ever, whatever arrives and whatever the console does. */
  lemma StandsIff(config: Config, keys: seq<string>, nodes: seq<Node>, steps: seq<Step>, s: State)
    requires Reached(config, keys, nodes, steps, s)
    ensures StandsStill(s) <==> s.net == [] && EverStrands(Init(config, keys, nodes), steps)
    ensures StandsStill(s) ==> forall more :: Runs(s, more) ==>
              StandsStill(After(s, more)) && ProductiveIn(more) == 0 && After(s, more).log == s.log
    ensures EverStrands(Init(config, keys, nodes), steps) ==> forall more :: Runs(s, more) ==>
              ProductiveIn(more) <= 1 && After(s, more).log == s.log
  {
    hide Inv, Runs, After, EverStrands;
    InitInv(config, keys, nodes);
    RunLostIff(Init(config, keys, nodes), steps);
    RunKeeps(Init(config, keys, nodes), steps);
    if Lost(s) {
      forall more | Runs(s, more)
        ensures StandsStill(s) ==> StandsStill(After(s, more)) && ProductiveIn(more) == 0
        ensures ProductiveIn(more) <= 1 && After(s, more).log == s.log
      {
        LostForever(s, more);
        if StandsStill(s) {
          StandsForever(s, more);
        }
      }
    }
  }

  /** Conservation: every registered ESI is in exactly one queue, once, and its name finds its own socket. */
  lemma EveryEsiOnce(config: Config, keys: seq<string>, nodes: seq<Node>, steps: seq<Step>, s: State, p: nat)
    requires Reached(config, keys, nodes, steps, s) && p < |s.procs|
    ensures |s.procs| == s.planner.counter - s.planner.config.initId
    ensures |s.planner.ready| + |s.planner.running| + |s.planner.blocked| + |s.planner.finished| == |s.procs|
    ensures Everyone(s.planner)[s.procs[p].name] == 1
    ensures forall q :: 0 <= q < |s.procs| && EqualsIgnoreCase(s.procs[q].name, s.procs[p].name) ==> q == p
    ensures FindSocket(s.planner.sockets, s.procs[p].name) == Some(p)
  {
    hide Reached, Sound, Placed, InOrder, OfKnown, QueuesOnScript, FlightOnScript, Counted, OneOutstanding,
         EqualsIgnoreCase;
    ReachedInv(config, keys, nodes, steps, s);
    Conservation(s.planner);
    OwnSocket(s, p);
    forall q | 0 <= q < |s.procs| && EqualsIgnoreCase(s.procs[q].name, s.procs[p].name)
      ensures q == p
    {
      OwnName(s, q, p);
    }
  }

  lemma OwnName(s: State, q: nat, p: nat)
    requires Wired(s.planner, s.procs) && p < |s.procs| && q < |s.procs|
    ensures EqualsIgnoreCase(s.procs[q].name, s.procs[p].name) ==> q == p
  {
    hide EqualsIgnoreCase, NameOf;
    NamesDistinct(s.planner.config.initId + q, s.planner.config.initId + p);
  }

  lemma OwnSocket(s: State, p: nat)
    requires Inv(s) && p < |s.procs|
    ensures FindSocket(s.planner.sockets, s.procs[p].name) == Some(p)
  {
    hide Placed, InOrder, OfKnown, QueuesOnScript, FlightOnScript, Counted, OneOutstanding, Backed, Everyone,
         FindSocket;
    SocketFound(s.planner.sockets, s.planner.config.initId, p);
  }

  /** Waiting entries and blocked ESIs match one to one, in order, console commands included. */
  lemma WaitersAreBlocked(config: Config, keys: seq<string>, nodes: seq<Node>, steps: seq<Step>, s: State)
    requires Reached(config, keys, nodes, steps, s)
    ensures WaitingNames(s.planner.taken) == Ids(s.planner.blocked) && Distinct(Ids(s.planner.blocked))
  {
    hide Reached;
    ReachedInv(config, keys, nodes, steps, s);
    Apart(s.planner);
  }

  /** No lost wake-up: whoever waits for a key waits for one that somebody holds, and a release of the key, by STORE
      or by the console, leaves nobody waiting for it. */
  lemma NoLostWakeUp(config: Config, keys: seq<string>, nodes: seq<Node>, steps: seq<Step>, s: State, key: string)
    requires Reached(config, keys, nodes, steps, s)
    ensures Backed(s.planner.taken)
    ensures ReleaseKey(s.planner, key) == Some(Woken(s.planner.(taken := RemoveHolder(s.planner.taken, key)), key))
    ensures forall a :: a in ReleaseKey(s.planner, key).value.taken && a.status == Waiting ==> a.key != key
  {
    hide Reached, Wired, Placed, InOrder, OfKnown, QueuesOnScript, FlightOnScript, Counted, OneOutstanding, ReleaseKey,
         Everyone, SocketsMatch;
    ReachedInv(config, keys, nodes, steps, s);
    ReleaseIsFilter(s.planner, key);
  }

  /** The system crashes exactly at a SET or STORE on a key that nobody holds, or when no instance is available. */
  lemma CrashCauses(config: Config, keys: seq<string>, nodes: seq<Node>, steps: seq<Step>, s: State, step: Step)
    requires Reached(config, keys, nodes, steps, s) && Enabled(s, step)
    ensures Perform(s, step).crashed <==> step.Deliver? && Crashes(s, s.net[0])
  {
    hide Reached, Sound, Wired, InOrder, OfKnown, QueuesOnScript, FlightOnScript, Counted, Perform, KeyHeld, Process,
         Written, CheckWhosWaiting;
    ReachedInv(config, keys, nodes, steps, s);
    StepForm(s, step);
  }

  // ---------- What can happen ----------

  /** After a crash nothing happens. Otherwise arrivals, console commands and new instances come at any time; a
      message in flight can be delivered, and it is the oldest one; a turn of the running thread may only sort at any
      time, and may start somebody exactly if scheduling is on, somebody is ready and nobody runs, under every
      algorithm. */
  lemma WhatCanHappen(config: Config, keys: seq<string>, nodes: seq<Node>, steps: seq<Step>, s: State, step: Step)
    requires Reached(config, keys, nodes, steps, s)
    ensures Enabled(s, step) <==>
            && !s.crashed
            && (step.Deliver? ==> s.net != [] && step.i == 0)
            && (step.StartEsi? ==> s.planner.scheduling && s.planner.ready != [] && s.planner.running == [])
            && (step.Tick? || step.StartEsi? ==>
                  && multiset(step.order) == multiset(s.planner.ready)
                  && (config.algorithm == FIFO ==> step.order == s.planner.ready)
                  && (config.algorithm == SJF_SD ==> forall i, j :: 0 <= i < j < |step.order| ==>
                        step.order[i].lastEstimate <= step.order[j].lastEstimate))
            && (step.Join? ==> step.maxEntries > 0)
  {
    hide Reached, Sound, Wired, Placed, InOrder, OfKnown, QueuesOnScript, FlightOnScript, Counted;
    ReachedOrders(config, keys, nodes, steps, s);
    if step.Deliver? && step.i < |s.net| && Oldest(s.net, step.i) {
      ShapeOfNet(s, step.i);
    }
  }

  /** What the steps from outside do, and all that they do: an ESI comes to the front of ready, at the first line of its
      script, with the next name; an instance comes available and empty; `pause` and `resume` turn the switch; `block`
      appends its entry; a sorting turn changes the order of ready. */
  lemma FromOutside(config: Config, keys: seq<string>, nodes: seq<Node>, steps: seq<Step>, s: State, step: Step)
    requires Reached(config, keys, nodes, steps, s) && Enabled(s, step)
    ensures var t := Perform(s, step);
            match step
            case Arrive(script) =>
              exists name :: IsNameOf(name, config.initId + |s.procs|) && t == WithNewEsi(s, name, script)
            case Join(maxEntries) =>
              && t == s.(nodes := t.nodes) && |t.nodes| == |s.nodes| + 1 && t.nodes[..|s.nodes|] == s.nodes
              && t.nodes[|s.nodes|].available && EmptyTables(t.nodes[|s.nodes|].store, maxEntries)
            case Pause => t == s.(planner := s.planner.(scheduling := false))
            case Resume => t == s.(planner := s.planner.(scheduling := true))
            case ConsoleBlock(key, name) =>
              t == s.(planner := s.planner.(taken := s.planner.taken + [Alloc(name, key, Blocked)]))
            case Tick(order) => t == s.(planner := s.planner.(ready := order))
            case _ => true
  {
    hide Reached, Sound, Placed, InOrder, OfKnown, QueuesOnScript, FlightOnScript, Counted, OneOutstanding, Perform,
         NameOf, IsNameOf, Received, ReleaseKey;
    ReachedOrders(config, keys, nodes, steps, s);
    StepForm(s, step);
    if step.Arrive? {
      var name := NameOf(config.initId + |s.procs|);
      NameIff(config.initId + |s.procs|, name);
      assert IsNameOf(name, config.initId + |s.procs|) && Perform(s, step) == WithNewEsi(s, name, step.script);
    }
  }

  function WithNewEsi(s: State, name: string, script: seq<Line>): State {
    s.(planner := s.planner.(
         ready := [Esi(name, 0, s.planner.config.estZero as real, false)] + s.planner.ready,
         sockets := s.planner.sockets + [EsiSocket(name, |s.procs|)],
         counter := s.planner.counter + 1),
       procs := s.procs + [Proc(name, script, 0, 0)],
       obs := s.obs + [Obs(0, [])])
  }

  predicate EmptyTables(store: Instance, maxEntries: nat) {
    && store.dictionary == [] && store.pointer == 0 && store.files == map[] && |store.blocks| == maxEntries
    && forall i :: 0 <= i < maxEntries ==> store.blocks[i] == Block("", 0)
  }

  /** While scheduling is off nobody is started, under every algorithm: until the next `resume` no run order goes out
      but to an ESI that runs already. */
  lemma PausedStartsNobody(config: Config, keys: seq<string>, nodes: seq<Node>, steps: seq<Step>, s: State,
                           more: seq<Step>)
    requires Reached(config, keys, nodes, steps, s) && !s.planner.scheduling
    requires Runs(s, more) && forall i :: 0 <= i < |more| ==> !more[i].Resume?
    ensures !After(s, more).planner.scheduling
    ensures forall i :: 0 <= i < |more| ==> !more[i].StartEsi?
    ensures forall id :: id in Ids(After(s, more).planner.running) ==> id in Ids(s.planner.running)
  {
    hide Reached, Inv, Runs, After;
    ReachedInv(config, keys, nodes, steps, s);
    RunPaused(s, more);
  }

  lemma {:induction false} RunPaused(s: State, steps: seq<Step>)
    requires Inv(s) && !s.planner.scheduling && Runs(s, steps)
    requires forall i :: 0 <= i < |steps| ==> !steps[i].Resume?
    ensures !After(s, steps).planner.scheduling
    ensures forall i :: 0 <= i < |steps| ==> !steps[i].StartEsi?
    ensures forall id :: id in Ids(After(s, steps).planner.running) ==> id in Ids(s.planner.running)
    decreases |steps|
  {
    hide Inv, Perform, Enabled;
    if steps != [] {
      StepKeeps(s, steps[0]);
      StepPaused(s, steps[0]);
      RunPaused(Perform(s, steps[0]), steps[1..]);
    }
  }

  lemma StepPaused(s: State, step: Step)
    requires Inv(s) && Enabled(s, step) && !s.planner.scheduling && !step.Resume?
    ensures !step.StartEsi? && !Perform(s, step).planner.scheduling
    ensures forall id :: id in Ids(Perform(s, step).planner.running) ==> id in Ids(s.planner.running)
  {
    hide Sound, Wired, Placed, InOrder, OfKnown, QueuesOnScript, FlightOnScript, Counted, Perform, CheckWhosWaiting,
         ReleaseKey, ChangeKeyStatus, Process, InRange, KeyHeld, Written, NextNode;
    StepForm(s, step);
    if step.ConsoleUnblock? {
      SwitchStays(s.planner, step.key);
    } else if step.Deliver? && s.net[0].Notice? && ChangeKeyStatus(s.planner, s.net[0].change).Some? {
      ChangeKeepsRunning(s.planner, s.net[0].change);
    } else if step.Deliver? && s.net[0].LineOk? && |s.planner.running| == 1 {
      assert Ids(s.planner.running)[0] == s.planner.running[0].id;
    }
  }

  lemma SwitchStays(ps: Planner, key: string)
    requires Sound(ps) && ReleaseKey(ps, key).Some?
    ensures ReleaseKey(ps, key).value.scheduling == ps.scheduling && ReleaseKey(ps, key).value.running == ps.running
  {
    ReleaseIsFilter(ps, key);
  }

  // ---------- Scheduling ----------

  /** The planner's counter is the number of run orders of the current burst, its estimate the exponential average of
      the earlier ones; for a percentage it lies between the smallest and the largest of EST_ZERO and the bursts. */
  lemma EstimateHistory(config: Config, keys: seq<string>, nodes: seq<Node>, steps: seq<Step>, s: State, e: Esi, p: nat)
    requires Reached(config, keys, nodes, steps, s)
    requires e in s.planner.ready || e in s.planner.running || e in s.planner.blocked || e in s.planner.finished
    requires Mine(s.procs, e, p)
    ensures p < |s.obs| && e.programCounter == s.obs[p].orders
    ensures var c := s.planner.config; var bursts := s.obs[p].bursts; var z := c.estZero as real;
            && e.lastEstimate == Closed(c.alpha / 100.0, 1.0 - c.alpha / 100.0, z, bursts)
            && forall lo: real, hi: real {:trigger Between(lo, hi, z, bursts)} ::
                 0.0 <= c.alpha <= 100.0 && Between(lo, hi, z, bursts) ==> lo <= e.lastEstimate <= hi
  {
    hide Reached, Sound, Wired, Placed, InOrder, OfKnown, QueuesOnScript, FlightOnScript, OneOutstanding, Closed,
         AfterBursts;
    ReachedInv(config, keys, nodes, steps, s);
    var c, bursts := s.planner.config, s.obs[p].bursts;
    var z := c.estZero as real;
    ClosedForm(c.alpha, z, bursts);
    forall lo: real, hi: real {:trigger Between(lo, hi, z, bursts)} |
      0.0 <= c.alpha <= 100.0 && Between(lo, hi, z, bursts)
      ensures lo <= e.lastEstimate <= hi
    {
      EstimateStaysInside(c.alpha, z, bursts, lo, hi);
    }
  }

  predicate Between(lo: real, hi: real, z: real, bursts: seq<nat>) {
    lo <= z <= hi && forall i :: 0 <= i < |bursts| ==> lo <= bursts[i] as real <= hi
  }

  /** Shortest job first, without preemption: a dispatch takes an ESI with the least estimate from the ready queue,
      leaves the others sorted, and happens only while scheduling is on and nobody runs. */
  lemma ShortestFirst(config: Config, keys: seq<string>, nodes: seq<Node>, steps: seq<Step>, s: State, order: seq<Esi>)
    requires Reached(config, keys, nodes, steps, s) && Enabled(s, StartEsi(order))
    requires s.planner.config.algorithm == SJF_SD
    ensures s.planner.scheduling && s.planner.running == []
    ensures var t := Perform(s, StartEsi(order));
            && |t.planner.running| == 1 && order != []
            && t.planner.running[0].id == order[0].id
            && (forall e :: e in s.planner.ready ==> order[0].lastEstimate <= e.lastEstimate)
            && multiset(s.planner.ready) == multiset(t.planner.ready) + multiset{order[0]}
            && Ascending(t.planner.ready)
  {
    hide Reached, Sound, Wired, Placed, InOrder, OfKnown, QueuesOnScript, FlightOnScript, Counted, OneOutstanding,
         Perform;
    ReachedInv(config, keys, nodes, steps, s);
    StepForm(s, StartEsi(order));
    Head(order);
    forall e | e in s.planner.ready
      ensures order[0].lastEstimate <= e.lastEstimate
    {
      assert e in multiset(order);
    }
  }

  lemma ReachedOrders(config: Config, keys: seq<string>, nodes: seq<Node>, steps: seq<Step>, s: State)
    requires Reached(config, keys, nodes, steps, s)
    ensures Inv(s) && MarksRight(s) && s.planner.config == config
    ensures config.algorithm == FIFO ==> NewestFirst(s)
  {
    hide Inv, Runs, After;
    InitInv(config, keys, nodes);
    assert InFront([], [], 0);
    RunKeeps(Init(config, keys, nodes), steps);
    RunOrders(Init(config, keys, nodes), steps);
  }

  /** The ready queue under FIFO: in front the ESIs that never ran, the latest registered first, and behind them those
      that were woken; a ready ESI is marked for repetition exactly if it ran before. */
  lemma FifoOrder(config: Config, keys: seq<string>, nodes: seq<Node>, steps: seq<Step>, s: State)
    requires Reached(config, keys, nodes, steps, s) && config.algorithm == FIFO
    ensures exists n :: InFront(s.planner.ready, s.procs, n)
    ensures forall e, p :: e in s.planner.ready && Mine(s.procs, e, p) ==>
              p < |s.obs| && s.obs[p].orders == 0 && (e.redo <==> s.obs[p].bursts != [])
  {
    hide Reached, Sound, Wired, Placed, InOrder, OfKnown, QueuesOnScript, FlightOnScript, OneOutstanding;
    ReachedOrders(config, keys, nodes, steps, s);
  }

  /** FIFO does not serve in order of registration: a dispatch overtakes an ESI that registered earlier and never ran
      exactly if two ESIs that never ran are ready, which shows at the second place of the queue. */
  lemma FifoOvertakesIff(config: Config, keys: seq<string>, nodes: seq<Node>, steps: seq<Step>, s: State,
                         order: seq<Esi>)
    requires Reached(config, keys, nodes, steps, s) && config.algorithm == FIFO && Enabled(s, StartEsi(order))
    ensures Perform(s, StartEsi(order)).planner.running != []
    ensures Perform(s, StartEsi(order)).planner.running[0].id == order[0].id
    ensures Overtakes(s, order[0]) <==> |s.planner.ready| >= 2 && !s.planner.ready[1].redo
    ensures Overtakes(s, order[0]) <==> exists i, j :: 0 <= i < j < |s.planner.ready| &&
                                                       !s.planner.ready[i].redo && !s.planner.ready[j].redo
  {
    hide Reached, Sound, Wired, Placed, InOrder, OfKnown, QueuesOnScript, FlightOnScript, Counted, OneOutstanding,
         Perform, Overtakes, MarksRight;
    ReachedOrders(config, keys, nodes, steps, s);
    FirstOvertakesIff(s);
    StepForm(s, StartEsi(order));
    var n :| InFront(s.planner.ready, s.procs, n);
    if |s.planner.ready| >= 2 && !s.planner.ready[1].redo {
      assert !s.planner.ready[0].redo;
    }
  }

  // ---------- Distribution ----------

  /** Over every run in which no instance joins, the permitted operations are dealt out evenly: two available
      instances differ by at most one. */
  lemma DealtEvenly(config: Config, keys: seq<string>, nodes: seq<Node>, steps: seq<Step>, s: State, i: nat, j: nat)
    requires Reached(config, keys, nodes, steps, s) && forall x :: 0 <= x < |steps| ==> !steps[x].Join?
    requires i < |nodes| && j < |nodes| && nodes[i].available && nodes[j].available
    ensures PassedTo(Init(config, keys, nodes), steps, i) <= PassedTo(Init(config, keys, nodes), steps, j) + 1
  {
    hide Inv, Runs, After, PassedTo;
    InitInv(config, keys, nodes);
    var free := Availability(nodes);
    assert free[i] && free[j];
    var k := RunPasses(Init(config, keys, nodes), steps, -1, 0);
    EquitableLoad.Fair(free, -1, k, i, j);
  }

  // ---------- Locks ----------

  lemma {:induction false} RunExclusive(s: State, steps: seq<Step>)
    requires Inv(s) && Runs(s, steps) && Exclusive(s.planner.taken, s.net)
    requires forall i :: 0 <= i < |steps| ==> !steps[i].ConsoleBlock?
    ensures Exclusive(After(s, steps).planner.taken, After(s, steps).net)
    decreases |steps|
  {
    hide Inv, Perform, Enabled, Exclusive;
    if steps != [] {
      StepKeeps(s, steps[0]);
      StepExclusive(s, steps[0]);
      RunExclusive(Perform(s, steps[0]), steps[1..]);
    }
  }

  /** Mutual exclusion: from distinct preloaded keys, and as long as the console does not insert entries, no key ever
      has two BLOCKED entries, although it is tested in one message and entered in another. */
  lemma MutualExclusion(config: Config, keys: seq<string>, nodes: seq<Node>, steps: seq<Step>, s: State, key: string)
    requires Reached(config, keys, nodes, steps, s) && Distinct(keys)
    requires forall i :: 0 <= i < |steps| ==> !steps[i].ConsoleBlock?
    ensures Holders(s.planner.taken, key) <= 1
  {
    hide Inv, Runs, After;
    InitInv(config, keys, nodes);
    InitLocks(config, keys, nodes);
    RunExclusive(Init(config, keys, nodes), steps);
  }

  lemma {:induction false} RunKeys(s: State, steps: seq<Step>, pre: set<string>)
    requires Inv(s) && Runs(s, steps) && HarmlessRun(s, steps)
    requires Exclusive(s.planner.taken, s.net) && KeysOk(s.planner.taken, s.log, s.net, pre)
    ensures var t := After(s, steps);
            Inv(t) && Exclusive(t.planner.taken, t.net) && KeysOk(t.planner.taken, t.log, t.net, pre)
    decreases |steps|
  {
    hide Inv, Perform, Enabled, Exclusive, KeysOk, KeyHeld;
    if steps != [] {
      StepKeeps(s, steps[0]);
      StepExclusive(s, steps[0]);
      StepKeys(s, steps[0], pre);
      RunKeys(Perform(s, steps[0]), steps[1..], pre);
    }
  }

  lemma ReachedKeys(config: Config, keys: seq<string>, nodes: seq<Node>, steps: seq<Step>, s: State)
    requires Reached(config, keys, nodes, steps, s) && Distinct(keys)
    requires HarmlessRun(Init(config, keys, nodes), steps)
    ensures Inv(s) && Exclusive(s.planner.taken, s.net) && KeysOk(s.planner.taken, s.log, s.net, AsSet(keys))
  {
    hide Inv, Runs, After;
    InitInv(config, keys, nodes);
    InitLocks(config, keys, nodes);
    RunKeys(Init(config, keys, nodes), steps, AsSet(keys));
  }

  /** Bracketed lock history: the operations carried out on a key that was not preloaded are rounds of GET, any SETs
      and STORE, each round by one ESI, the last one perhaps unfinished; none was ever carried out or permitted on a
      preloaded key. */
  lemma BracketedHistory(config: Config, keys: seq<string>, nodes: seq<Node>, steps: seq<Step>, s: State, key: string)
    requires Reached(config, keys, nodes, steps, s) && Distinct(keys)
    requires HarmlessRun(Init(config, keys, nodes), steps)
    ensures Bracketed(KeyLog(s.log, key))
    ensures key in keys ==> KeyLog(s.log, key) == []
    ensures s.net != [] && (s.net[0].Permit? || s.net[0].Apply?) ==> s.net[0].op.key !in keys
  {
    hide Reached, Inv, Exclusive, Bracketed, Rounds;
    ReachedKeys(config, keys, nodes, steps, s);
    assert LockAfter(s.log, key) != Broken;
    var i := DisciplineIsGrammar(KeyLog(s.log, key));
    BracketsFrom(KeyLog(s.log, key), i);
  }

  lemma BracketsFrom(h: seq<Event>, i: int)
    requires Rounds(h) || OpensAt(h, i)
    ensures Bracketed(h)
  {}

  /** Scripts that keep SET and STORE inside their own windows are never refused: without console commands on keys,
      the planner finds a holder for every SET and STORE, and it is the one who asks. */
  lemma BracketedNeverRefused(config: Config, keys: seq<string>, nodes: seq<Node>, steps: seq<Step>, s: State)
    requires Reached(config, keys, nodes, steps, s) && Distinct(keys)
    requires HarmlessRun(Init(config, keys, nodes), steps)
    requires s.net != [] && s.net[0].Question? && !s.net[0].op.Get?
    requires s.net[0].who < |s.procs| ==> Windowed(s.procs[s.net[0].who].script)
    ensures Ask(s.planner, s.net[0].name, s.net[0].op) == Some(Answer(s.planner, true))
  {
    hide Reached, Inv, Exclusive, KeysOk, Windowed;
    ReachedKeys(config, keys, nodes, steps, s);
    NeverRefused(s, AsSet(keys));
  }

  /** A finished ESI goes on holding a key if and only if its script takes it and does not store it. */
  lemma FinishedHoldsIff(config: Config, keys: seq<string>, nodes: seq<Node>, steps: seq<Step>, s: State, e: Esi,
                         p: nat, key: string)
    requires Reached(config, keys, nodes, steps, s) && Distinct(keys)
    requires HarmlessRun(Init(config, keys, nodes), steps)
    requires e in s.planner.finished && Mine(s.procs, e, p)
    ensures Holder(s.planner.taken, key) == Some(e.id) <==> key in Leftover(s.procs[p].script)
  {
    hide Reached, Inv, Exclusive, KeysOk, Applied, HeldKeys, FirstBad;
    ReachedKeys(config, keys, nodes, steps, s);
    FinishedHolds(s, e, key, AsSet(keys));
    FinishedWhole(s, e, p);
  }

  // ---------- Keys released by the console ----------

  /** In every run in which the console inserts no entries, the operations that the planner grants and the releases
      by the console together keep the lock discipline: on each key rounds of GET, SETs and STORE by one ESI, a round
      ending early only with a release; preloaded keys are taken until they are released. The operations carried out
      are the granted ones in their order, except perhaps for the last. */
  lemma RoundsAndReleases(config: Config, keys: seq<string>, nodes: seq<Node>, steps: seq<Step>, s: State)
    requires Reached(config, keys, nodes, steps, s) && Distinct(keys)
    requires forall x :: 0 <= x < |steps| ==> !steps[x].ConsoleBlock?
    ensures Disciplined(Acts(Init(config, keys, nodes), steps), AsSet(keys))
    ensures CarriesOut(s.log, Grants(Acts(Init(config, keys, nodes), steps)))
  {
    hide Inv, Runs, After, Acts, Disciplined, CarriesOut, Exclusive;
    var start := Init(config, keys, nodes);
    InitInv(config, keys, nodes);
    InitLocks(config, keys, nodes);
    forall key
      ensures LockView(Preloaded(keys), key) == if key in AsSet(keys) then Held("") else Free
    {
      PreloadedHolders(keys, key);
    }
    InitFollows(config, keys, nodes, AsSet(keys));
    RunFollows(start, steps, [], AsSet(keys));
    assert [] + Acts(start, steps) == Acts(start, steps);
  }

  /** So every SET and STORE carried out lies in a window that its ESI opened with a GET and in which only it did
      SETs, whatever the console releases, and a plain map fed with the operations holds the window's value. */
  lemma OwnWindows(config: Config, keys: seq<string>, nodes: seq<Node>, steps: seq<Step>, s: State, i: nat)
    returns (j: int)
    requires Reached(config, keys, nodes, steps, s) && Distinct(keys)
    requires forall x :: 0 <= x < |steps| ==> !steps[x].ConsoleBlock?
    requires i < |s.log| && !s.log[i].op.Get?
    ensures Window(s.log[..i], j, s.log[i].op.key, s.log[i].name)
    ensures s.log[i].op.key in MapOf(s.log[..i])
    ensures MapOf(s.log[..i])[s.log[i].op.key] == ValueSince(s.log[..i], j, s.log[i].op.key)
  {
    hide Reached, Disciplined, CarriesOut, Window, MapOf, ValueSince, Acts;
    RoundsAndReleases(config, keys, nodes, steps, s);
    NamedActors(config, keys, nodes, steps, s, i);
    assert Runs(Init(config, keys, nodes), steps) by { ReachedRuns(config, keys, nodes, steps, s); }
    j := CarriedInWindow(s.log, Acts(Init(config, keys, nodes), steps), i, AsSet(keys));
  }

  lemma ReachedRuns(config: Config, keys: seq<string>, nodes: seq<Node>, steps: seq<Step>, s: State)
    requires Reached(config, keys, nodes, steps, s)
    ensures Runs(Init(config, keys, nodes), steps)
  {}

  lemma NamedActors(config: Config, keys: seq<string>, nodes: seq<Node>, steps: seq<Step>, s: State, i: nat)
    requires Reached(config, keys, nodes, steps, s) && i < |s.log|
    ensures s.log[i].name != ""
  {
    hide Reached, Sound, Placed, InOrder, QueuesOnScript, FlightOnScript, Counted, OneOutstanding;
    ReachedInv(config, keys, nodes, steps, s);
    assert Belongs(s.procs, s.log[i].name);
    var p :| 0 <= p < |s.procs| && s.procs[p].name == s.log[i].name;
    IdsDiffer(config, p, p);
    IdsDiffer(s.planner.config, p, p);
  }

  // ---------- Values ----------

  lemma {:induction false} RunStored(s: State, steps: seq<Step>)
    requires Inv(s) && Runs(s, steps) && Stored(s.nodes, s.log)
    requires forall i :: 0 <= i < |steps| ==> !steps[i].Join?
    ensures Stored(After(s, steps).nodes, After(s, steps).log)
    decreases |steps|
  {
    hide Inv, Perform, Enabled, Stored;
    if steps != [] {
      StepKeeps(s, steps[0]);
      StepStored(s, steps[0]);
      RunStored(Perform(s, steps[0]), steps[1..]);
    }
  }

  /** End-to-end isolation: with one instance that has had no more keys than blocks, every STORE in the history
      closes a window its ESI opened with a GET and in which only it did SETs, and writes the last of these values,
      or the value the key had when the window opened; the files are those written last. */
  lemma EndToEndIsolation(config: Config, keys: seq<string>, node: Node, steps: seq<Step>, s: State, i: nat)
    returns (j: int)
    requires Reached(config, keys, [node], steps, s) && Distinct(keys)
    requires forall x :: 0 <= x < |steps| ==> !steps[x].ConsoleBlock? && !steps[x].Join?
    requires |s.nodes| == 1 && WithinCapacity(s.nodes[0].store)
    requires i < |s.log| && s.log[i].op.Store?
    ensures Window(s.log[..i], j, s.log[i].op.key, s.log[i].name)
    ensures s.log[i].written == ValueSince(s.log[..i], j, s.log[i].op.key)
    ensures s.nodes[0].store.files == FilesOf(s.log)
  {
    hide Inv, Runs, After, Holds, Circular, InRange, WithinCapacity, Window, ValueSince;
    InitInv(config, keys, [node]);
    InitStored(config, keys, node);
    RunStored(Init(config, keys, [node]), steps);
    j := OwnWindows(config, keys, [node], steps, s, i);
  }

  lemma {:induction false} RunReplayed(s: State, steps: seq<Step>)
    requires Inv(s) && Runs(s, steps) && Replayed(s.nodes, s.log)
    ensures Replayed(After(s, steps).nodes, After(s, steps).log)
    decreases |steps|
  {
    hide Inv, Perform, Enabled, Replayed;
    if steps != [] {
      StepKeeps(s, steps[0]);
      StepReplayed(s, steps[0]);
      RunReplayed(Perform(s, steps[0]), steps[1..]);
    }
  }

  /** Whatever happens, every instance is what its share of the operations makes of a fresh one, and a STORE writes
      what was last written into its key's slot on the instance that carries it out, by whatever key and ESI. */
  lemma StoresWriteSlots(config: Config, keys: seq<string>, nodes: seq<Node>, steps: seq<Step>, s: State, i: nat)
    returns (x: int)
    requires Reached(config, keys, nodes, steps, s)
    requires i < |s.log| && s.log[i].op.Store?
    ensures Replayed(s.nodes, s.log)
    ensures var n := s.log[i].node; n < |s.nodes| && |s.nodes[n].store.blocks| > 0
    ensures s.log[i].op.key in Created(Share(s.log[..i], s.log[i].node))
    ensures var n, m := s.log[i].node, |s.nodes[s.log[i].node].store.blocks|;
            && LastInSlot(s.log[..i], x, n, m, SlotFor(s.log[..i], n, m, s.log[i].op.key))
            && s.log[i].written == Put(s.log[x].op)
  {
    hide Inv, Runs, After, Replayed, Created, Share, LastInSlot, SlotFor;
    InitInv(config, keys, nodes);
    InitReplayed(nodes);
    RunReplayed(Init(config, keys, nodes), steps);
    AllReplayed(s.nodes, s.log);
    x := StoreWritesSlot(s.nodes, s.log, i);
  }

  lemma AllReplayed(nodes: seq<Node>, log: seq<Event>)
    requires Replayed(nodes, log)
    ensures AllFaithful(nodes, log)
  {}

  /** In every run, a STORE writes what a plain map would hold if and only if the last write x to the key's slot on
      the instance left the value that the last write w to the key left. If w went to the same instance, x is not
      older than w; and x is w, so that the plain map's value is written, while that instance has not had more keys
      than blocks. */
  lemma PlainMapIff(config: Config, keys: seq<string>, nodes: seq<Node>, steps: seq<Step>, s: State, i: nat)
    returns (w: int, x: int)
    requires Reached(config, keys, nodes, steps, s)
    requires i < |s.log| && s.log[i].op.Store?
    ensures var n := s.log[i].node; n < |s.nodes| && |s.nodes[n].store.blocks| > 0
    ensures s.log[i].op.key in Created(Share(s.log[..i], s.log[i].node)) && s.log[i].op.key in MapOf(s.log[..i])
    ensures Writers(s.nodes, s.log, i, w, x)
    ensures s.log[i].written == MapOf(s.log[..i])[s.log[i].op.key] <==> Put(s.log[x].op) == Put(s.log[w].op)
    ensures s.log[w].node == s.log[i].node ==>
              && w <= x
              && (|Created(Share(s.log[..i], s.log[i].node))| <= |s.nodes[s.log[i].node].store.blocks| ==> w == x)
  {
    hide Reached, Replayed, Created, Share, Writers, MapOf;
    var y := StoresWriteSlots(config, keys, nodes, steps, s, i);
    AllReplayed(s.nodes, s.log);
    w, x := MapValueIff(s.nodes, s.log, i);
  }

  /** Isolation with any number of instances and keys: every STORE closes a window its ESI opened with a GET, and
      writes the window's value under the same condition, exactly. */
  lemma IsolationIff(config: Config, keys: seq<string>, nodes: seq<Node>, steps: seq<Step>, s: State, i: nat)
    returns (j: int, w: int, x: int)
    requires Reached(config, keys, nodes, steps, s) && Distinct(keys)
    requires forall x :: 0 <= x < |steps| ==> !steps[x].ConsoleBlock?
    requires i < |s.log| && s.log[i].op.Store?
    ensures Window(s.log[..i], j, s.log[i].op.key, s.log[i].name)
    ensures var n := s.log[i].node; n < |s.nodes| && |s.nodes[n].store.blocks| > 0
    ensures s.log[i].op.key in Created(Share(s.log[..i], s.log[i].node))
    ensures Writers(s.nodes, s.log, i, w, x)
    ensures s.log[i].written == ValueSince(s.log[..i], j, s.log[i].op.key) <==> Put(s.log[x].op) == Put(s.log[w].op)
    ensures s.log[w].node == s.log[i].node ==>
              && w <= x
              && (|Created(Share(s.log[..i], s.log[i].node))| <= |s.nodes[s.log[i].node].store.blocks| ==> w == x)
  {
    hide Reached, Replayed, Created, Share, Writers, ValueSince, MapOf, Window;
    w, x := PlainMapIff(config, keys, nodes, steps, s, i);
    j := OwnWindows(config, keys, nodes, steps, s, i);
  }

  lemma InitStored(config: Config, keys: seq<string>, node: Node)
    requires AllFresh([node])
    ensures Stored(Init(config, keys, [node]).nodes, Init(config, keys, [node]).log)
  {
    assert [node][0] == node;
    var k: nat :| k > 0 && [node][0].store == Fresh(k);
    FreshCircular(k);
  }

  // ---------- Progress ----------

  /** The system with one available instance that has just been set up. */
  function OneInstance(config: Config, keys: seq<string>, maxEntries: nat): State {
    Init(config, keys, [Node(true, Fresh(maxEntries))])
  }

  /** A run of it in which scripts bracket their keys and the console does nothing to the locks. */
  ghost predicate Peaceful(config: Config, keys: seq<string>, maxEntries: nat, steps: seq<Step>, s: State) {
    && maxEntries > 0 && Distinct(keys)
    && Runs(OneInstance(config, keys, maxEntries), steps) && s == After(OneInstance(config, keys, maxEntries), steps)
    && Undisturbed(OneInstance(config, keys, maxEntries), steps)
  }

  lemma PeacefulOrderly(config: Config, keys: seq<string>, maxEntries: nat, steps: seq<Step>, s: State)
    requires Peaceful(config, keys, maxEntries, steps, s)
    ensures Orderly(s, AsSet(keys)) && Unwoken(s) && Inv(s) && !s.crashed
  {
    hide Inv, Orderly, Runs, After, Undisturbed, Unwoken;
    var start := OneInstance(config, keys, maxEntries);
    InitOrderly(config, keys, maxEntries);
    RunStaysOrderly(start, steps, AsSet(keys));
    OrderlyFacts(start, AsSet(keys));
    OrderlyFacts(s, AsSet(keys));
    InitUnwoken(config, keys, [Node(true, Fresh(maxEntries))]);
    RunUnwoken(start, steps, AsSet(keys)) by { UndisturbedIsHarmless(start, steps); }
  }

  lemma OrderlyFacts(s: State, pre: set<string>)
    requires Orderly(s, pre)
    ensures Inv(s) && !s.crashed && Exclusive(s.planner.taken, s.net) && KeysOk(s.planner.taken, s.log, s.net, pre)
  {}

  lemma UndisturbedIsHarmless(s: State, steps: seq<Step>)
    requires Runs(s, steps) && Undisturbed(s, steps)
    ensures HarmlessRun(s, steps)
  {}

  lemma InitUnwoken(config: Config, keys: seq<string>, nodes: seq<Node>)
    ensures Unwoken(Init(config, keys, nodes))
  {}

  lemma {:induction false} RunUnwoken(s: State, steps: seq<Step>, pre: set<string>)
    requires Inv(s) && Runs(s, steps) && HarmlessRun(s, steps) && Unwoken(s)
    requires Exclusive(s.planner.taken, s.net) && KeysOk(s.planner.taken, s.log, s.net, pre)
    ensures Unwoken(After(s, steps)) && s.planner.blocked <= After(s, steps).planner.blocked
    decreases |steps|
  {
    hide Inv, Perform, Enabled, Exclusive, KeysOk, KeyHeld, Unwoken;
    if steps != [] {
      StepKeeps(s, steps[0]);
      StepExclusive(s, steps[0]);
      StepKeys(s, steps[0], pre);
      StepUnwoken(s, steps[0], pre);
      RunUnwoken(Perform(s, steps[0]), steps[1..], pre);
    }
  }

  /** While the console does nothing to the locks, no ESI is ever woken, with any instances, scripts and preloaded
      keys: the ready ones never ran, no order repeats a line, and whoever is blocked stays so in every such
      continuation. The first who blocked waits for a key that was preloaded, that a finished ESI holds, or that it
      holds itself. */
  lemma NobodyIsWoken(config: Config, keys: seq<string>, nodes: seq<Node>, steps: seq<Step>, s: State)
    requires Reached(config, keys, nodes, steps, s) && Distinct(keys)
    requires HarmlessRun(Init(config, keys, nodes), steps)
    ensures forall e, p :: e in s.planner.ready && Mine(s.procs, e, p) ==>
              !e.redo && p < |s.obs| && s.obs[p] == Obs(0, [])
    ensures s.net != [] && s.net[0].RunOrder? ==> !s.net[0].again
    ensures s.planner.blocked != [] <==> WaitsInVain(s.planner)
    ensures forall more :: Runs(s, more) && HarmlessRun(s, more) ==>
              s.planner.blocked <= After(s, more).planner.blocked
  {
    hide Reached, Inv, Exclusive, KeysOk, Runs, After, WaitsInVain, HarmlessRun;
    ReachedUnwoken(config, keys, nodes, steps, s);
    ReachedKeys(config, keys, nodes, steps, s);
    ReachedOrders(config, keys, nodes, steps, s);
    CountersMatch(s);
    BlockedIffVain(s);
    forall more | Runs(s, more) && HarmlessRun(s, more)
      ensures s.planner.blocked <= After(s, more).planner.blocked
    {
      RunUnwoken(s, more, AsSet(keys));
    }
  }

  lemma ReachedUnwoken(config: Config, keys: seq<string>, nodes: seq<Node>, steps: seq<Step>, s: State)
    requires Reached(config, keys, nodes, steps, s) && Distinct(keys)
    requires HarmlessRun(Init(config, keys, nodes), steps)
    ensures Unwoken(s)
  {
    hide Inv, Exclusive, KeysOk, Runs, After, Unwoken, HarmlessRun;
    InitInv(config, keys, nodes);
    InitLocks(config, keys, nodes);
    InitUnwoken(config, keys, nodes);
    RunUnwoken(Init(config, keys, nodes), steps, AsSet(keys));
  }

  lemma CountersMatch(s: State)
    requires Inv(s)
    ensures forall e, p :: e in s.planner.ready && Mine(s.procs, e, p) ==> p < |s.obs| && s.obs[p].orders == 0
  {
    hide Sound, Wired, Placed, InOrder, OfKnown, QueuesOnScript, FlightOnScript, OneOutstanding;
  }

  /** Termination: in every state of every run, whatever the scripts, the instances, the preloaded keys and the
      console commands so far, the number of deliveries and dispatches still to come is bounded, as long as no ESI
      arrives and the console releases no key that somebody holds. */
  lemma EveryRunEnds(config: Config, keys: seq<string>, nodes: seq<Node>, past: seq<Step>, s: State, future: seq<Step>)
    requires Reached(config, keys, nodes, past, s) && Runs(s, future) && NobodyArrives(s, future)
    ensures ProductiveIn(future) <= Fuel(s)
  {
    hide Reached, Inv, Runs, After, Fuel;
    ReachedInv(config, keys, nodes, past, s);
    RunsAreFinite(s, future);
  }

  /** No delivery and no dispatch is possible, although the planner schedules. */
  ghost predicate AtRestForGood(s: State) {
    s.planner.scheduling && forall step :: Productive(step) ==> !Enabled(s, step)
  }

  lemma RestsEmpty(s: State, pre: set<string>)
    requires Orderly(s, pre) && AtRestForGood(s)
    ensures !s.crashed && s.net == [] && s.planner.ready == [] && s.planner.running == []
  {
    hide Inv, Exclusive, KeysOk, Stored, WaitsForLine, Windowed, Enabled;
    if s.net != [] || s.planner.ready != [] {
      var step := Moving(s, pre);
    }
  }

  /** Where no delivery and no dispatch is possible, the unfinished ESIs are the blocked ones, and there are any if
      and only if somebody waits for a key that was preloaded, that a finished ESI holds, or that it holds itself;
      nobody has crashed. No circle of several waiters is needed, or possible without one of these. */
  lemma UnfinishedIff(config: Config, keys: seq<string>, maxEntries: nat, steps: seq<Step>, s: State)
    requires Peaceful(config, keys, maxEntries, steps, s) && AtRestForGood(s)
    ensures !s.crashed && |s.planner.finished| + |s.planner.blocked| == |s.procs|
    ensures |s.planner.finished| < |s.procs| <==> WaitsInVain(s.planner)
  {
    hide Peaceful, Orderly, AtRestForGood, WaitsInVain, Inv, Unwoken;
    PeacefulOrderly(config, keys, maxEntries, steps, s);
    RestsEmpty(s, AsSet(keys));
    QueueBounds(s);
    BlockedIffVain(s);
  }

  /** Deadlock freedom: with scripts that take no preloaded key and no key they hold already, and that store what they
      take, in whatever order, nobody ever blocks; and where no delivery and no dispatch is possible, everybody is
      finished and its script, up to the end or the first bad line, and nothing else, has been carried out. */
  lemma EveryRunFinishes(config: Config, keys: seq<string>, maxEntries: nat, steps: seq<Step>, s: State)
    requires Peaceful(config, keys, maxEntries, steps, s)
    requires forall p :: 0 <= p < |s.procs| ==> Tidy(s.procs[p].script, AsSet(keys))
    ensures !s.crashed && s.planner.blocked == []
    ensures AtRestForGood(s) ==>
              && |s.planner.finished| == |s.procs|
              && forall p :: 0 <= p < |s.procs| ==>
                   Applied(s.log, s.procs[p].name) == OpsOf(s.procs[p].script, FirstBad(s.procs[p].script))
  {
    hide Peaceful, Orderly, AtRestForGood, Inv, Unwoken, Tidy, Applied, FirstBad;
    PeacefulOrderly(config, keys, maxEntries, steps, s);
    NobodyBlocks(s, AsSet(keys));
    if AtRestForGood(s) {
      RestsEmpty(s, AsSet(keys));
      QueueBounds(s);
      forall p | 0 <= p < |s.procs|
        ensures Applied(s.log, s.procs[p].name) == OpsOf(s.procs[p].script, FirstBad(s.procs[p].script))
      {
        var e := RecordOf(s, p);
        FinishedWhole(s, e, p);
      }
    }
  }
}
