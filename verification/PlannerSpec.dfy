/** What each handler of the planner (planner/src/launcher.c) does to its queues, as functions on values.
    `None` stands for the dereference of a null pointer, which ends the process. */
module PlannerSpec {
  import opened Types
  import opened Lists
  import opened Names
  import opened Estimates

  datatype Algorithm = FIFO | SJF_SD

  datatype Config = Config(algorithm: Algorithm, alpha: real, estZero: int, initId: int)

  datatype Planner = Planner(
    config: Config,
    ready: seq<Esi>,
    running: seq<Esi>,
    blocked: seq<Esi>,
    finished: seq<Esi>,
    sockets: seq<EsiSocket>,
    taken: seq<Alloc>,
    counter: int,
    scheduling: bool)

  /** A planner and the run order it sent. */
  datatype Ordered = Ordered(planner: Planner, socket: nat, again: bool)

  /** A planner and its answer to a permission question. */
  datatype Answer = Answer(planner: Planner, granted: bool)

  function Preloaded(keys: seq<string>): (r: seq<Alloc>)
    ensures |r| == |keys|
    ensures forall i :: 0 <= i < |keys| ==> r[i] == Alloc("", keys[i], Blocked)
  {
    seq(|keys|, i requires 0 <= i < |keys| => Alloc("", keys[i], Blocked))
  }

  function Start(config: Config, keys: seq<string>): Planner {
    Planner(config, [], [], [], [], [], Preloaded(keys), config.initId, true)
  }

  // ---------- Registration ----------

  function NewEsi(config: Config, counter: int): Esi {
    Esi(NameOf(counter), 0, config.estZero as real, false)
  }

  function Register(ps: Planner, socket: nat): Planner {
    var e := NewEsi(ps.config, ps.counter);
    ps.(ready := [e] + ps.ready,
        sockets := ps.sockets + [EsiSocket(e.id, socket)],
        counter := ps.counter + 1)
  }

  /** The socket of the first entry whose name equals `id` up to case. */
  function FindSocket(sockets: seq<EsiSocket>, id: string): Option<nat> {
    if sockets == [] then None
    else if EqualsIgnoreCase(id, sockets[0].id) then Some(sockets[0].socket)
    else FindSocket(sockets[1..], id)
  }

  // ---------- Scheduling ----------

  predicate Ascending(q: seq<Esi>) {
    forall i, j :: 0 <= i < j < |q| ==> q[i].lastEstimate <= q[j].lastEstimate
  }

  /** What `sorting_queues` may turn the ready queue into; nothing is said about the order of equal estimates. */
  predicate SortResult(algorithm: Algorithm, before: seq<Esi>, after: seq<Esi>) {
    match algorithm
    case FIFO => after == before
    case SJF_SD => multiset(after) == multiset(before) && Ascending(after)
  }

  predicate CanDispatch(ps: Planner) {
    ps.scheduling && ps.ready != [] && ps.running == []
  }

  /** One turn of `running_thread` that starts the first ESI of the sorted ready queue. */
  function Dispatch(ps: Planner, sorted: seq<Esi>): Option<Ordered>
    requires sorted != []
  {
    var e := sorted[0];
    match FindSocket(ps.sockets, e.id)
    case None => None
    case Some(socket) =>
      var started := e.(programCounter := e.programCounter + 1, redo := false);
      Some(Ordered(ps.(ready := sorted[1..], running := [started] + ps.running), socket, e.redo))
  }

  function CountLine(ps: Planner): Option<Ordered> {
    if ps.running == [] then None
    else
      var e := ps.running[0];
      var counted := e.(programCounter := e.programCounter + 1);
      match FindSocket(ps.sockets, e.id)
      case None => None
      case Some(socket) => Some(Ordered(ps.(running := ps.running[0 := counted]), socket, false))
  }

  /** The burst of an ESI that leaves the running queue ends. */
  function EndBurst(config: Config, e: Esi): Esi {
    e.(lastEstimate := Estimation(config.alpha, e.programCounter, e.lastEstimate), programCounter := 0)
  }

  function Finish(ps: Planner): Option<Planner> {
    if ps.running == [] then None
    else Some(ps.(running := ps.running[1..], finished := ps.finished + [EndBurst(ps.config, ps.running[0])]))
  }

  // ---------- Keys ----------

  function BlockEsi(ps: Planner, name: string): Option<Planner> {
    var i := EsiIndex(ps.running, name);
    if i == |ps.running| then None
    else Some(ps.(running := RemoveAt(ps.running, i), blocked := ps.blocked + [EndBurst(ps.config, ps.running[i])]))
  }

  function LoadKey(ps: Planner, key: string, name: string): Planner {
    ps.(taken := ps.taken + [Alloc(name, key, Blocked)])
  }

  function WaitForKey(ps: Planner, key: string, name: string): Planner {
    ps.(taken := ps.taken + [Alloc(name, key, Waiting)])
  }

  /** True when somebody holds the key. */
  predicate KeyHeld(taken: seq<Alloc>, key: string) {
    AllocIndex(taken, key, Blocked) < |taken|
  }

  /** The wake-up loop: each turn takes the first waiter off the list and its ESI off the blocked queue. */
  function CheckWhosWaiting(ps: Planner, key: string): Option<Planner>
    decreases |ps.taken|
  {
    var i := AllocIndex(ps.taken, key, Waiting);
    if i == |ps.taken| then Some(ps)
    else
      var j := EsiIndex(ps.blocked, ps.taken[i].name);
      if j == |ps.blocked| then None
      else
        CheckWhosWaiting(
          ps.(taken := RemoveAt(ps.taken, i),
              blocked := RemoveAt(ps.blocked, j),
              ready := ps.ready + [ps.blocked[j].(redo := true)]),
          key)
  }

  function RemoveHolder(taken: seq<Alloc>, key: string): seq<Alloc> {
    var i := AllocIndex(taken, key, Blocked);
    if i < |taken| then RemoveAt(taken, i) else taken
  }

  function ReleaseKey(ps: Planner, key: string): Option<Planner> {
    CheckWhosWaiting(ps.(taken := RemoveHolder(ps.taken, key)), key)
  }

  function ChangeKeyStatus(ps: Planner, change: Alloc): Option<Planner> {
    match change.status
    case Blocked => Some(LoadKey(ps, change.key, change.name))
    case Waiting => Some(WaitForKey(ps, change.key, change.name))
    case Released => ReleaseKey(ps, change.key)
  }

  /** The answer to CAN_ESI_GET_KEY, CAN_ESI_SET_KEY and CAN_ESI_STORE_KEY. */
  function Ask(ps: Planner, name: string, op: Op): Option<Answer> {
    match op
    case Get(key) =>
      if !KeyHeld(ps.taken, key) then Some(Answer(ps, true))
      else (
        match BlockEsi(ps, name)
        case None => None
        case Some(denied) => Some(Answer(WaitForKey(denied, key, name), false)))
    case Set(_, _) | Store(_) =>
      var i := AllocIndex(ps.taken, op.key, Blocked);
      if i == |ps.taken| then None
      else Some(Answer(ps, ps.taken[i].name == name))
  }
}
