/** While the invariant holds, each step takes one of the explicit forms below. */
module Moves {
  import opened Types
  import opened Lists
  import opened PlannerSpec
  import opened PlannerSound
  import opened EsiSpec
  import opened InstanceSpec
  import opened System
  import opened Invariant
  import opened WakeUp
  import opened InstanceLaws
  import CoordinatorSpec
  import EquitableLoad

  // ---------- The next state, message by message ----------

  function AfterRunOrder(s: State, m: Msg): State
    requires m.RunOrder? && m.who < |s.procs|
  {
    var ran := Run(s.procs[m.who], m.who, m.again);
    s.(net := [ran.sent], procs := s.procs[m.who := ran.proc])
  }

  function AfterInstruction(s: State, m: Msg): State
    requires m.Instruction?
  {
    s.(net := [Question(m.who, m.name, m.op)])
  }

  /** An answer that blocks nobody: a permission, or a refusal of SET or STORE, after which nothing is in flight. */
  function AfterAnswer(s: State, m: Msg, granted: bool): State
    requires m.Question?
  {
    s.(net := if granted then [Permit(m.who, m.name, m.op)] else [])
  }

  function CloseBurst(o: Obs): Obs {
    Obs(0, o.bursts + [o.orders])
  }

  function AfterDenial(s: State, m: Msg): State
    requires m.Question? && |s.planner.running| == 1 && m.who < |s.obs|
  {
    var e := EndBurst(s.planner.config, s.planner.running[0]);
    s.(planner := s.planner.(running := [], blocked := s.planner.blocked + [e],
                             taken := s.planner.taken + [Alloc(m.name, m.op.key, Waiting)]),
       net := [],
       obs := s.obs[m.who := CloseBurst(s.obs[m.who])])
  }

  /** The instance the coordinator picks, or -1. */
  function NextNode(s: State): int {
    if -1 <= s.lastUsed < |s.nodes| then CoordinatorSpec.Choose(Availability(s.nodes), s.lastUsed) else -1
  }

  function AfterPermit(s: State, m: Msg, node: nat): State
    requires m.Permit?
  {
    s.(lastUsed := node, net := [Apply(m.who, m.name, m.op, node)])
  }

  predicate CanExecute(s: State, m: Msg) {
    m.Apply? && m.node < |s.nodes| && InRange(s.nodes[m.node].store)
  }

  function AfterApply(s: State, m: Msg): State
    requires CanExecute(s, m)
  {
    var before := s.nodes[m.node].store;
    var outcome := Process(before, m.op);
    s.(nodes := s.nodes[m.node := s.nodes[m.node].(store := outcome.instance)],
       log := if outcome.success then s.log + [Event(m.name, m.op, m.node, Written(before, m.op))] else s.log,
       net := [Reply(m.who, m.name, m.op, m.node, outcome.success)])
  }

  function AfterReply(s: State, m: Msg): State
    requires m.Reply?
  {
    s.(net := if m.success then CoordinatorSpec.Report(m.who, m.name, m.op) else [])
  }

  function AfterNotice(s: State, m: Msg): State
    requires m.Notice? && ChangeKeyStatus(s.planner, m.change).Some?
  {
    s.(planner := ChangeKeyStatus(s.planner, m.change).value, net := [LineOk(m.who)])
  }

  function OneMoreOrder(o: Obs): Obs {
    o.(orders := o.orders + 1)
  }

  function AfterLineOk(s: State, m: Msg): State
    requires m.LineOk? && |s.planner.running| == 1 && m.who < |s.obs|
  {
    var e := s.planner.running[0];
    s.(planner := s.planner.(running := [e.(programCounter := e.programCounter + 1)]),
       net := [RunOrder(m.who, false)],
       obs := s.obs[m.who := OneMoreOrder(s.obs[m.who])])
  }

  function AfterFinished(s: State, m: Msg): State
    requires m.Finished? && |s.planner.running| == 1 && m.who < |s.obs|
  {
    var e := EndBurst(s.planner.config, s.planner.running[0]);
    s.(planner := s.planner.(running := [], finished := s.planner.finished + [e]),
       net := [],
       obs := s.obs[m.who := CloseBurst(s.obs[m.who])])
  }

  function AfterStart(s: State, order: seq<Esi>, w: nat): State
    requires order != [] && w < |s.obs|
  {
    var e := order[0];
    s.(planner := s.planner.(ready := order[1..],
                             running := [e.(programCounter := e.programCounter + 1, redo := false)]),
       net := [RunOrder(w, e.redo)],
       obs := s.obs[w := OneMoreOrder(s.obs[w])])
  }

  function AfterArrival(s: State, script: seq<Line>): State {
    s.(planner := PlannerSpec.Register(s.planner, |s.procs|),
       procs := s.procs + [Proc(IdOf(s.planner.config, |s.procs|), script, 0, 0)],
       obs := s.obs + [Obs(0, [])])
  }

  function AfterUnblock(s: State, key: string): State
    requires ReleaseKey(s.planner, key).Some?
  {
    s.(planner := ReleaseKey(s.planner, key).value)
  }

  /** The two ways to crash: SET or STORE on a key that nobody holds, and no instance to pass an operation to. */
  predicate Crashes(s: State, m: Msg) {
    || (m.Question? && !m.op.Get? && !KeyHeld(s.planner.taken, m.op.key))
    || (m.Permit? && forall n :: 0 <= n < |s.nodes| ==> !s.nodes[n].available)
  }

  /** The message at the head of the network takes s to t. */
  ghost predicate Received(s: State, m: Msg, t: State) {
    var ps := s.planner;
    || (Crashes(s, m) && t == s.(crashed := true))
    || (m.RunOrder? && m.who < |s.procs| && t == AfterRunOrder(s, m))
    || (m.Instruction? && t == AfterInstruction(s, m))
    || (m.Question? && m.op.Get? && KeyHeld(ps.taken, m.op.key) && |ps.running| == 1 && m.who < |s.obs|
        && t == AfterDenial(s, m))
    || (m.Question? && m.op.Get? && !KeyHeld(ps.taken, m.op.key) && t == AfterAnswer(s, m, true))
    || (m.Question? && !m.op.Get? && KeyHeld(ps.taken, m.op.key)
        && t == AfterAnswer(s, m, ps.taken[AllocIndex(ps.taken, m.op.key, Blocked)].name == m.name))
    || (m.Permit? && 0 <= NextNode(s) < |s.nodes| && s.nodes[NextNode(s)].available
        && t == AfterPermit(s, m, NextNode(s)))
    || (CanExecute(s, m) && t == AfterApply(s, m))
    || (m.Reply? && t == AfterReply(s, m))
    || (m.Notice? && ChangeKeyStatus(ps, m.change).Some? && t == AfterNotice(s, m))
    || (m.LineOk? && |ps.running| == 1 && m.who < |s.obs| && t == AfterLineOk(s, m))
    || (m.Finished? && |ps.running| == 1 && m.who < |s.obs| && t == AfterFinished(s, m))
  }

  ghost predicate Moved(s: State, step: Step, t: State) {
    match step
    case Deliver(i) => i == 0 && s.net != [] && Received(s, s.net[0], t)
    case StartEsi(order) =>
      && s.net == [] && s.planner.running == [] && order != [] && (forall e :: e in order ==> e in s.planner.ready)
      && exists w: nat :: w < |s.obs| && Mine(s.procs, order[0], w) && t == AfterStart(s, order, w)
    case Tick(order) =>
      t == s.(planner := s.planner.(ready := order)) && (forall e :: e in order ==> e in s.planner.ready)
    case Arrive(script) => t == AfterArrival(s, script)
    case Pause => t == s.(planner := s.planner.(scheduling := false))
    case Resume => t == s.(planner := s.planner.(scheduling := true))
    case ConsoleBlock(key, name) => t == s.(planner := LoadKey(s.planner, key, name))
    case ConsoleUnblock(key) => ReleaseKey(s.planner, key).Some? && t == AfterUnblock(s, key)
    case Join(maxEntries) => t == s.(nodes := s.nodes + [Node(true, Fresh(maxEntries))])
  }

  // ---------- Observations ----------

  lemma NoOrders(sent: seq<Msg>, p: nat)
    requires forall m :: m in sent ==> !m.RunOrder?
    ensures OrdersIn(sent, p) == 0
  {
    if sent != [] {
      Head(sent);
      NoOrders(sent[1..], p);
    }
  }

  /** A step that sends no run order and keeps the running queue leaves no trace in the observations. */
  lemma NothingObserved(s: State, effect: Effect)
    requires |s.obs| == |s.procs| == |effect.state.procs|
    requires forall p :: 0 <= p < |s.procs| ==> effect.state.procs[p].name == s.procs[p].name
    requires Ids(effect.state.planner.running) == Ids(s.planner.running)
    requires forall m :: m in effect.sent ==> !m.RunOrder?
    ensures Observe(s, effect) == effect.state.(net := effect.state.net + effect.sent, obs := s.obs)
  {
    forall p | 0 <= p < |s.procs|
      ensures Observed(s, effect, p) == s.obs[p]
    {
      NoOrders(effect.sent, p);
    }
    assert Observe(s, effect).obs == s.obs;
  }

  /** A run order goes out to ESI w and nobody leaves the running queue. */
  lemma OrderObserved(s: State, effect: Effect, w: nat, again: bool)
    requires |s.obs| == |s.procs| && effect.state.procs == s.procs && w < |s.procs|
    requires effect.sent == [RunOrder(w, again)]
    requires forall id :: id in Ids(s.planner.running) ==> id in Ids(effect.state.planner.running)
    ensures Observe(s, effect) ==
            effect.state.(net := effect.state.net + effect.sent, obs := s.obs[w := OneMoreOrder(s.obs[w])])
  {
    forall p | 0 <= p < |s.procs|
      ensures Observed(s, effect, p) == if p == w then OneMoreOrder(s.obs[w]) else s.obs[p]
    {
      assert OrdersIn(effect.sent[1..], p) == 0;
    }
    assert Observe(s, effect).obs == s.obs[w := OneMoreOrder(s.obs[w])];
  }

  /** The running ESI leaves its queue: its burst is closed, nobody else's observations change. */
  lemma BurstObserved(s: State, effect: Effect, w: nat)
    requires Wired(s.planner, s.procs) && |s.obs| == |s.procs| && RunningIs(s, w)
    requires effect.state.planner.running == [] && effect.state.procs == s.procs
    requires forall m :: m in effect.sent ==> !m.RunOrder?
    ensures Observe(s, effect) ==
            effect.state.(net := effect.state.net + effect.sent, obs := s.obs[w := CloseBurst(s.obs[w])])
  {
    assert Ids(s.planner.running) == [s.procs[w].name];
    assert Ids([]) == [];
    forall p | 0 <= p < |s.procs|
      ensures Observed(s, effect, p) == if p == w then CloseBurst(s.obs[w]) else s.obs[p]
    {
      NoOrders(effect.sent, p);
      IdsDiffer(s.planner.config, p, w);
      assert IsRunning(s, p) <==> p == w;
    }
    assert Observe(s, effect).obs == s.obs[w := CloseBurst(s.obs[w])];
  }

  // ---------- Every step has its form ----------

  lemma CrashForm(s: State)
    requires |s.obs| == |s.procs|
    ensures Observe(s, Crash(s)) == s.(crashed := true)
  {
    NothingObserved(s, Crash(s));
    assert s.net + [] == s.net;
  }

  lemma SocketOf(ps: Planner, procs: seq<Proc>, e: Esi, w: nat)
    requires Sound(ps) && Wired(ps, procs) && Mine(procs, e, w)
    ensures FindSocket(ps.sockets, e.id) == Some(w)
  {
    SocketFound(ps.sockets, ps.config.initId, w);
  }

  /** The network holds one message, or a notice and the end-of-line report behind it. */
  lemma ShapeOfNet(s: State, i: nat)
    requires OneOutstanding(s.planner.running, s.procs, s.net)
    requires i < |s.net| && Oldest(s.net, i)
    ensures i == 0 && Owned(s.planner.running, s.procs, s.net[0])
    ensures RunningIs(s, s.net[0].who) && s.net[0].who < |s.procs|
    ensures RemoveAt(s.net, 0) == if s.net[0].Notice? then [LineOk(s.net[0].who)] else []
  {
    assert |s.net| == 2 ==> ChannelOf(s.net[0]) == ChannelOf(s.net[1]);
  }

  lemma PermitForm(s: State)
    requires Inv(s) && Enabled(s, Deliver(0)) && s.net[0].Permit?
    ensures Received(s, s.net[0], Perform(s, Deliver(0)))
  {
    hide Sound, Wired, Circular, InOrder, OfKnown, QueuesOnScript, FlightOnScript, Tallies, CoordinatorSpec.Choose,
         Availability, Execute, AnswerQuestion, CountLine, PlannerSpec.Finish, ChangeKeyStatus, Run;
    ShapeOfNet(s, 0);
    var node := CoordinatorSpec.Choose(Availability(s.nodes), s.lastUsed);
    ChosenNode(s.nodes, s.lastUsed);
    if node < 0 {
      CrashForm(s);
    } else {
      NothingObserved(s, Act(s, Deliver(0)));
      assert node == NextNode(s) && Perform(s, Deliver(0)) == AfterPermit(s, s.net[0], node);
    }
  }

  lemma ChosenNode(nodes: seq<Node>, last: int)
    requires -1 <= last < |nodes|
    ensures var node := CoordinatorSpec.Choose(Availability(nodes), last);
            if node < 0 then forall n :: 0 <= n < |nodes| ==> !nodes[n].available
            else node < |nodes| && nodes[node].available
  {
    EquitableLoad.ChooseIsNext(Availability(nodes), last);
    assert forall n :: 0 <= n < |nodes| ==> nodes[n].available == Availability(nodes)[n];
  }

  lemma QuestionForm(s: State)
    requires Inv(s) && Enabled(s, Deliver(0)) && s.net[0].Question?
    ensures Received(s, s.net[0], Perform(s, Deliver(0)))
  {
    hide Sound, Wired, Placed, InOrder, OfKnown, QueuesOnScript, FlightOnScript;
    ShapeOfNet(s, 0);
    var m := s.net[0];
    AskSound(s.planner, m.name, m.op);
    if Ask(s.planner, m.name, m.op).None? {
      CrashForm(s);
    } else if m.op.Get? && KeyHeld(s.planner.taken, m.op.key) {
      DenialForm(s);
    } else {
      NothingObserved(s, Act(s, Deliver(0)));
    }
  }

  lemma DenialForm(s: State)
    requires Inv(s) && Enabled(s, Deliver(0)) && s.net[0].Question?
    requires s.net[0].op.Get? && KeyHeld(s.planner.taken, s.net[0].op.key)
    ensures Received(s, s.net[0], Perform(s, Deliver(0)))
  {
    hide Sound, Wired, Placed, InOrder, OfKnown, QueuesOnScript, FlightOnScript, BlockEsi;
    ShapeOfNet(s, 0);
    DenySound(s.planner, s.net[0].name, s.net[0].op.key);
    BurstObserved(s, Act(s, Deliver(0)), s.net[0].who);
  }

  lemma ApplyForm(s: State)
    requires Inv(s) && Enabled(s, Deliver(0)) && s.net[0].Apply?
    ensures Received(s, s.net[0], Perform(s, Deliver(0)))
  {
    hide Sound, Wired, Circular, InOrder, OfKnown, QueuesOnScript, FlightOnScript, Process, Written;
    ShapeOfNet(s, 0);
    CircularInRange(s.nodes[s.net[0].node].store);
    NothingObserved(s, Act(s, Deliver(0)));
  }

  /** Messages that leave the planner alone and cannot fail. */
  lemma RelayForm(s: State)
    requires Inv(s) && Enabled(s, Deliver(0))
    requires s.net[0].RunOrder? || s.net[0].Instruction? || s.net[0].Reply?
    ensures Received(s, s.net[0], Perform(s, Deliver(0)))
  {
    hide Sound, Wired, Placed, InOrder, OfKnown, QueuesOnScript, FlightOnScript, Tallies, Execute, Forward, CountLine,
         AnswerQuestion, PlannerSpec.Finish, ChangeKeyStatus, Observe;
    ShapeOfNet(s, 0);
    NothingObserved(s, Act(s, Deliver(0)));
  }

  lemma NoticeForm(s: State)
    requires Inv(s) && Enabled(s, Deliver(0)) && s.net[0].Notice?
    ensures Received(s, s.net[0], Perform(s, Deliver(0)))
  {
    hide Sound, Wired, Placed, InOrder, OfKnown, QueuesOnScript, CheckWhosWaiting, Woken, Tallies, Execute, Forward,
         AnswerQuestion, CountLine, PlannerSpec.Finish, Run, Observe, ChangeKeyStatus;
    ShapeOfNet(s, 0);
    var m := s.net[0];
    assert m.change.status != Waiting;
    ChangeKeySound(s.planner, m.change);
    ChangeKeepsRunning(s.planner, m.change);
    NothingObserved(s, Act(s, Deliver(0)));
  }

  /** The table changes with a notice, neither the running queue nor the switch does. */
  lemma ChangeKeepsRunning(ps: Planner, change: Alloc)
    requires Sound(ps) && ChangeKeyStatus(ps, change).Some?
    ensures var after := ChangeKeyStatus(ps, change).value;
            after.running == ps.running && after.scheduling == ps.scheduling
  {
    if change.status == Released {
      ReleaseIsFilter(ps, change.key);
    }
  }

  lemma LineOkForm(s: State)
    requires Inv(s) && Enabled(s, Deliver(0)) && s.net[0].LineOk?
    ensures Received(s, s.net[0], Perform(s, Deliver(0)))
  {
    hide Sound, Wired, Placed, InOrder, OfKnown, QueuesOnScript, FlightOnScript, FindSocket, Tallies, Execute, Forward,
         AnswerQuestion, PlannerSpec.Finish, ChangeKeyStatus, Run, Observe;
    ShapeOfNet(s, 0);
    var w, e := s.net[0].who, s.planner.running[0];
    SocketOf(s.planner, s.procs, e, w);
    var effect := Act(s, Deliver(0));
    var counted := e.(programCounter := e.programCounter + 1);
    assert s.planner.running[0 := counted] == [counted];
    assert Ids([counted]) == Ids(s.planner.running);
    OrderObserved(s, effect, w, false);
  }

  lemma FinishedForm(s: State)
    requires Inv(s) && Enabled(s, Deliver(0)) && s.net[0].Finished?
    ensures Received(s, s.net[0], Perform(s, Deliver(0)))
  {
    hide Sound, Wired, Placed, InOrder, OfKnown, QueuesOnScript, FlightOnScript;
    ShapeOfNet(s, 0);
    assert s.planner.running[1..] == [];
    BurstObserved(s, Act(s, Deliver(0)), s.net[0].who);
  }

  lemma StartForm(s: State, order: seq<Esi>)
    requires Inv(s) && Enabled(s, StartEsi(order))
    ensures Moved(s, StartEsi(order), Perform(s, StartEsi(order)))
  {
    hide Sound, Wired, Placed, InOrder, OfKnown, QueuesOnScript, FlightOnScript, FindSocket;
    DispatchSound(s.planner, order);
    SortedFromReady(s.planner, order);
    SortSound(s.planner, order);
    var e := order[0];
    var w := OwnerOf(s, e);
    SocketOf(s.planner, s.procs, e, w);
    assert Ids(s.planner.running) == [];
    var started := e.(programCounter := e.programCounter + 1, redo := false);
    assert [started] + s.planner.running == [started];
    OrderObserved(s, Act(s, StartEsi(order)), w, e.redo);
    assert w < |s.obs| && Mine(s.procs, order[0], w);
    assert Perform(s, StartEsi(order)) == AfterStart(s, order, w);
  }

  lemma OwnerOf(s: State, e: Esi) returns (w: nat)
    requires Inv(s)
    requires e in s.planner.ready || e in s.planner.running || e in s.planner.blocked || e in s.planner.finished
    ensures Mine(s.procs, e, w) && w < |s.procs|
  {
    w := Known(s.planner, e);
  }

  lemma SortedFromReady(ps: Planner, order: seq<Esi>)
    requires SortResult(ps.config.algorithm, ps.ready, order)
    ensures forall e :: e in order ==> e in ps.ready
  {
    forall e | e in order
      ensures e in ps.ready
    {
      assert multiset(order) == multiset(ps.ready);
      assert e in multiset(order);
    }
  }

  lemma ArrivalForm(s: State, script: seq<Line>)
    requires Inv(s) && Enabled(s, Arrive(script))
    ensures Perform(s, Arrive(script)) == AfterArrival(s, script)
  {
    hide Sound, Placed, InOrder, OfKnown, QueuesOnScript, FlightOnScript;
    var effect := Act(s, Arrive(script));
    var t := Perform(s, Arrive(script));
    forall p | 0 <= p < |t.procs|
      ensures Observed(s, effect, p) == if p < |s.procs| then s.obs[p] else Obs(0, [])
    {}
    assert t.obs == s.obs + [Obs(0, [])];
    assert t.net == s.net;
  }

  /** Steps that send nothing and leave ESIs and the running queue alone. */
  lemma AsideForm(s: State, step: Step)
    requires Inv(s) && Enabled(s, step)
    requires step.Tick? || step.Pause? || step.Resume? || step.ConsoleBlock? || step.ConsoleUnblock? || step.Join?
    ensures Moved(s, step, Perform(s, step))
  {
    hide Sound, Wired, Placed, InOrder, OfKnown, QueuesOnScript, FlightOnScript, CheckWhosWaiting, Woken;
    if step.ConsoleUnblock? {
      ReleaseIsFilter(s.planner, step.key);
      ReleaseKeepsRunning(s.planner, step.key);
    } else if step.Tick? {
      SortedFromReady(s.planner, step.order);
    }
    NothingObserved(s, Act(s, step));
    assert s.net + [] == s.net;
  }

  lemma ReleaseKeepsRunning(ps: Planner, key: string)
    requires Sound(ps)
    ensures ReleaseKey(ps, key).Some? && ReleaseKey(ps, key).value.running == ps.running
  {
    ReleaseIsFilter(ps, key);
  }

  lemma StepForm(s: State, step: Step)
    requires Inv(s) && Enabled(s, step)
    ensures Moved(s, step, Perform(s, step))
  {
    hide Sound, Wired, Placed, InOrder, OfKnown, QueuesOnScript, FlightOnScript, Counted, Perform, Received;
    match step
    case Deliver(i) =>
      ShapeOfNet(s, i);
      match s.net[0] {
        case Question(_, _, _) => QuestionForm(s);
        case Permit(_, _, _) => PermitForm(s);
        case Apply(_, _, _, _) => ApplyForm(s);
        case Notice(_, _) => NoticeForm(s);
        case LineOk(_) => LineOkForm(s);
        case Finished(_) => FinishedForm(s);
        case _ => RelayForm(s);
      }
    case StartEsi(order) => StartForm(s, order);
    case Arrive(script) => ArrivalForm(s, script);
    case _ => AsideForm(s, step);
  }
}
