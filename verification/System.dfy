/** Planner, coordinator, ESIs and instances as one step system. One step is one message handler, one turn of the
    planner's running thread, one console command or one arrival. */
module System {
  import opened Types
  import opened Lists
  import opened PlannerSpec
  import opened EsiSpec
  import opened InstanceSpec
  import CoordinatorSpec

  datatype Node = Node(available: bool, store: Instance)

  /** An operation that instance number `node` carried out; `written` is what a STORE wrote to its file. */
  datatype Event = Event(name: string, op: Op, node: nat, written: string)

  /** Run orders sent to an ESI since it was dispatched, and the lengths of its earlier stays in the running queue. */
  datatype Obs = Obs(orders: nat, bursts: seq<nat>)

  /** `log` and `obs` are observations: no handler reads them. `crashed` is a null dereference in some process. */
  datatype State = State(
    planner: Planner,
    procs: seq<Proc>,
    net: seq<Msg>,
    nodes: seq<Node>,
    lastUsed: int,
    log: seq<Event>,
    obs: seq<Obs>,
    crashed: bool)

  datatype Step =
    | Arrive(script: seq<Line>)
    | Tick(order: seq<Esi>)
    | StartEsi(order: seq<Esi>)
    | Deliver(i: nat)
    | Pause
    | Resume
    | ConsoleBlock(key: string, name: string)
    | ConsoleUnblock(key: string)
    | Join(maxEntries: nat)

  /** A state without the messages just sent, and those messages. */
  datatype Effect = Effect(state: State, sent: seq<Msg>)

  datatype Channel =
    | ToEsi(who: nat) | EsiToPlanner(who: nat) | EsiToCoordinator(who: nat)
    | CoordinatorToPlanner | ToThread(who: nat) | ToNode(node: nat) | FromNode(node: nat)

  function ChannelOf(m: Msg): Channel {
    match m
    case RunOrder(who, _) => ToEsi(who)
    case Finished(who) => EsiToPlanner(who)
    case Instruction(who, _, _) => EsiToCoordinator(who)
    case Question(_, _, _) => CoordinatorToPlanner
    case Permit(who, _, _) => ToThread(who)
    case Apply(_, _, _, node) => ToNode(node)
    case Reply(_, _, _, node, _) => FromNode(node)
    case Notice(_, _) => CoordinatorToPlanner
    case LineOk(_) => CoordinatorToPlanner
  }

  /** Only the oldest message of a connection can be received. */
  predicate Oldest(net: seq<Msg>, i: nat)
    requires i < |net|
  {
    forall j :: 0 <= j < i ==> ChannelOf(net[j]) != ChannelOf(net[i])
  }

  predicate Enabled(s: State, step: Step) {
    && !s.crashed
    && match step
       case Tick(order) => SortResult(s.planner.config.algorithm, s.planner.ready, order)
       case StartEsi(order) => CanDispatch(s.planner) && SortResult(s.planner.config.algorithm, s.planner.ready, order)
       case Deliver(i) => i < |s.net| && Oldest(s.net, i)
       case Join(maxEntries) => maxEntries > 0
       case _ => true
  }

  function Crash(s: State): Effect {
    Effect(s.(crashed := true), [])
  }

  function WithPlanner(s: State, result: Option<Planner>): Effect {
    match result
    case None => Crash(s)
    case Some(planner) => Effect(s.(planner := planner), [])
  }

  function WithOrder(s: State, result: Option<Ordered>): Effect {
    match result
    case None => Crash(s)
    case Some(o) => Effect(s.(planner := o.planner), [RunOrder(o.socket, o.again)])
  }

  function Availability(nodes: seq<Node>): (r: seq<bool>)
    ensures |r| == |nodes|
  {
    seq(|nodes|, i requires 0 <= i < |nodes| => nodes[i].available)
  }

  /** The planner answers a question; a denial sends nothing on. */
  function AnswerQuestion(s: State, who: nat, name: string, op: Op): Effect {
    match Ask(s.planner, name, op)
    case None => Crash(s)
    case Some(a) => Effect(s.(planner := a.planner), if a.granted then [Permit(who, name, op)] else [])
  }

  /** The coordinator picks an instance and passes the operation on. */
  function Forward(s: State, who: nat, name: string, op: Op): Effect {
    if !(-1 <= s.lastUsed < |s.nodes|) then Crash(s)
    else
      var node := CoordinatorSpec.Choose(Availability(s.nodes), s.lastUsed);
      if node < 0 then Crash(s) else Effect(s.(lastUsed := node), [Apply(who, name, op, node)])
  }

  function Written(before: Instance, op: Op): string
    requires InRange(before)
  {
    if op.Store? && Has(before, op.key) then Read(before, op.key) else ""
  }

  /** An instance carries the operation out and reports. */
  function Execute(s: State, who: nat, name: string, op: Op, node: nat): Effect {
    if node >= |s.nodes| || !InRange(s.nodes[node].store) then Crash(s)
    else
      var before := s.nodes[node].store;
      var outcome := Process(before, op);
      var log := if outcome.success then s.log + [Event(name, op, node, Written(before, op))] else s.log;
      Effect(s.(nodes := s.nodes[node := s.nodes[node].(store := outcome.instance)], log := log),
             [Reply(who, name, op, node, outcome.success)])
  }

  function Receive(s: State, m: Msg): Effect {
    match m
    case RunOrder(who, again) =>
      if who >= |s.procs| then Crash(s)
      else
        var ran := Run(s.procs[who], who, again);
        Effect(s.(procs := s.procs[who := ran.proc]), [ran.sent])
    case Instruction(who, name, op) => Effect(s, [Question(who, name, op)])
    case Question(who, name, op) => AnswerQuestion(s, who, name, op)
    case Permit(who, name, op) => Forward(s, who, name, op)
    case Apply(who, name, op, node) => Execute(s, who, name, op, node)
    case Reply(who, name, op, _, success) => Effect(s, if success then CoordinatorSpec.Report(who, name, op) else [])
    case Notice(_, change) => WithPlanner(s, ChangeKeyStatus(s.planner, change))
    case LineOk(_) => WithOrder(s, CountLine(s.planner))
    case Finished(_) => WithPlanner(s, Finish(s.planner))
  }

  function Act(s: State, step: Step): Effect
    requires Enabled(s, step)
  {
    match step
    case Arrive(script) =>
      var planner := PlannerSpec.Register(s.planner, |s.procs|);
      var proc := Proc(NewEsi(s.planner.config, s.planner.counter).id, script, 0, 0);
      Effect(s.(planner := planner, procs := s.procs + [proc]), [])
    case Tick(order) => Effect(s.(planner := s.planner.(ready := order)), [])
    case StartEsi(order) => if order == [] then Crash(s) else WithOrder(s, Dispatch(s.planner, order))
    case Deliver(i) =>
      var effect := Receive(s.(net := RemoveAt(s.net, i)), s.net[i]);
      if effect.state.crashed then Crash(s) else effect
    case Pause => Effect(s.(planner := s.planner.(scheduling := false)), [])
    case Resume => Effect(s.(planner := s.planner.(scheduling := true)), [])
    case ConsoleBlock(key, name) => Effect(s.(planner := LoadKey(s.planner, key, name)), [])
    case ConsoleUnblock(key) => WithPlanner(s, ReleaseKey(s.planner, key))
    case Join(maxEntries) => Effect(s.(nodes := s.nodes + [Node(true, Fresh(maxEntries))]), [])
  }

  // ---------- Observations ----------

  function OrdersIn(sent: seq<Msg>, p: nat): nat {
    if sent == [] then 0
    else (if sent[0].RunOrder? && sent[0].who == p then 1 else 0) + OrdersIn(sent[1..], p)
  }

  predicate IsRunning(s: State, p: nat)
    requires p < |s.procs|
  {
    s.procs[p].name in Ids(s.planner.running)
  }

  /** What is seen of ESI p in a step: run orders sent to it, and whether it left the running queue. */
  function Observed(s: State, effect: Effect, p: nat): Obs
    requires p < |effect.state.procs|
  {
    var o := if p < |s.obs| then s.obs[p] else Obs(0, []);
    var orders := o.orders + OrdersIn(effect.sent, p);
    if p < |s.procs| && IsRunning(s, p) && !IsRunning(effect.state, p) then Obs(0, o.bursts + [orders])
    else Obs(orders, o.bursts)
  }

  function Observe(s: State, effect: Effect): State {
    effect.state.(net := effect.state.net + effect.sent,
                  obs := seq(|effect.state.procs|, p requires 0 <= p < |effect.state.procs| => Observed(s, effect, p)))
  }

  function Perform(s: State, step: Step): State
    requires Enabled(s, step)
  {
    Observe(s, Act(s, step))
  }

  // ---------- Runs ----------

  function Init(config: Config, keys: seq<string>, nodes: seq<Node>): State {
    State(PlannerSpec.Start(config, keys), [], [], nodes, -1, [], [], false)
  }

  predicate Runs(s: State, steps: seq<Step>)
    decreases |steps|
  {
    steps == [] || (Enabled(s, steps[0]) && Runs(Perform(s, steps[0]), steps[1..]))
  }

  function After(s: State, steps: seq<Step>): State
    requires Runs(s, steps)
    decreases |steps|
  {
    if steps == [] then s else After(Perform(s, steps[0]), steps[1..])
  }
}
