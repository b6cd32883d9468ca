/** The protocol invariant: at most one order is outstanding, it belongs to the one ESI in the running queue, and
    every ESI's cursor, mark and redo flag agree with the operations carried out for it. */
module Invariant {
  import opened Types
  import opened PlannerSpec
  import opened PlannerSound
  import opened EsiSpec
  import opened InstanceLaws
  import opened Estimates
  import opened System

  // ---------- The parts of the invariant ----------

  /** ESI number, name, socket and planner entry go together. */
  ghost predicate Wired(planner: Planner, procs: seq<Proc>) {
    && |procs| == Registered(planner) == |planner.sockets|
    && (forall p :: 0 <= p < |procs| ==> procs[p].name == IdOf(planner.config, p))
    && (forall p :: 0 <= p < |planner.sockets| ==> planner.sockets[p].socket == p)
  }

  /** The instances' tables are well formed and the last used index is one of theirs. */
  ghost predicate Placed(nodes: seq<Node>, lastUsed: int) {
    && (forall n :: 0 <= n < |nodes| ==> Circular(nodes[n].store))
    && -1 <= lastUsed < |nodes|
  }

  /** An operation on its way to an instance goes to one that exists. */
  predicate Addressed(net: seq<Msg>, nodes: seq<Node>) {
    net != [] && net[0].Apply? ==> net[0].node < |nodes|
  }

  /** The record e is that of ESI number p. */
  predicate Mine(procs: seq<Proc>, e: Esi, p: int) {
    0 <= p < |procs| && procs[p].name == e.id
  }

  predicate Carries(m: Msg, name: string) {
    match m
    case Instruction(_, n, _) => n == name
    case Question(_, n, _) => n == name
    case Permit(_, n, _) => n == name
    case Apply(_, n, _, _) => n == name
    case Reply(_, n, _, _, _) => n == name
    case Notice(_, change) => change.name == name
    case _ => true
  }

  /** The message was sent at an order to the ESI in the running queue, and names it if it names anybody. */
  ghost predicate Owned(running: seq<Esi>, procs: seq<Proc>, m: Msg) {
    && |running| == 1
    && Mine(procs, running[0], m.who)
    && Carries(m, running[0].id)
  }

  /** At most one order is in progress. */
  ghost predicate OneOutstanding(running: seq<Esi>, procs: seq<Proc>, net: seq<Msg>) {
    || net == []
    || (|net| == 1 && !net[0].Notice? && Owned(running, procs, net[0]))
    || (|net| == 2 && net[0].Notice? && net[1] == LineOk(net[0].who) && Owned(running, procs, net[0]))
  }

  /** The operations carried out for an ESI, oldest first. */
  function Applied(log: seq<Event>, name: string): seq<Op> {
    if log == [] then []
    else
      var last := |log| - 1;
      if log[last].name == name then Applied(log[..last], name) + [log[last].op] else Applied(log[..last], name)
  }

  /** The operations are the first lines of the script. */
  ghost predicate PrefixOf(ops: seq<Op>, script: seq<Line>) {
    && |ops| <= |script|
    && forall i :: 0 <= i < |ops| ==> script[i] == Valid(ops[i])
  }

  /** The next line to run is the first one not carried out. */
  predicate AtRest(proc: Proc, done: nat) {
    proc.cursor == done
  }

  /** The first line not carried out has been read, and the mark is at its beginning. */
  predicate Parked(proc: Proc, done: nat) {
    done < |proc.script| && proc.script[done].Valid? && proc.cursor == done + 1 && proc.mark == done
  }

  /** Everything up to the end of the script, or to its first bad line, has been carried out. */
  predicate Complete(proc: Proc, done: nat) {
    done == |proc.script| || (done < |proc.script| && proc.script[done].Garbage?)
  }

  /** What the message in flight says about its ESI. */
  ghost predicate Stage(m: Msg, proc: Proc, done: nat, log: seq<Event>) {
    match m
    case RunOrder(_, again) => if again then Parked(proc, done) else AtRest(proc, done)
    case Finished(_) => Complete(proc, done)
    case Instruction(_, _, op) => Parked(proc, done) && proc.script[done] == Valid(op)
    case Question(_, _, op) => Parked(proc, done) && proc.script[done] == Valid(op)
    case Permit(_, _, op) => Parked(proc, done) && proc.script[done] == Valid(op)
    case Apply(_, _, op, _) => Parked(proc, done) && proc.script[done] == Valid(op)
    case Reply(_, name, op, _, success) => success ==> AtRest(proc, done) && LastIs(log, name, op)
    case Notice(_, change) =>
      && AtRest(proc, done)
      && (change.status == Blocked || change.status == Released)
      && LastIs(log, change.name, if change.status == Blocked then Get(change.key) else Store(change.key))
    case LineOk(_) => AtRest(proc, done)
  }

  predicate LastIs(log: seq<Event>, name: string, op: Op) {
    log != [] && log[|log| - 1].name == name && log[|log| - 1].op == op
  }

  function Done(log: seq<Event>, proc: Proc): nat {
    |Applied(log, proc.name)|
  }

  /** Exactly-once, in-order execution: the operations carried out are the beginning of the script. */
  ghost predicate InOrder(procs: seq<Proc>, log: seq<Event>) {
    forall p :: 0 <= p < |procs| ==> PrefixOf(Applied(log, procs[p].name), procs[p].script)
  }

  predicate Belongs(procs: seq<Proc>, name: string) {
    exists p :: 0 <= p < |procs| && procs[p].name == name
  }

  /** Whatever was carried out was carried out for a registered ESI. */
  ghost predicate OfKnown(procs: seq<Proc>, log: seq<Event>) {
    forall i :: 0 <= i < |log| ==> Belongs(procs, log[i].name)
  }

  /** What a queue says about the cursors of its ESIs. */
  ghost predicate QueuesOnScript(ps: Planner, procs: seq<Proc>, log: seq<Event>) {
    && (forall e, p :: e in ps.ready && Mine(procs, e, p) ==>
          if e.redo then Parked(procs[p], Done(log, procs[p])) else AtRest(procs[p], Done(log, procs[p])))
    && (forall e, p :: e in ps.blocked && Mine(procs, e, p) ==> Parked(procs[p], Done(log, procs[p])))
    && (forall e, p :: e in ps.finished && Mine(procs, e, p) ==> Complete(procs[p], Done(log, procs[p])))
  }

  ghost predicate FlightOnScript(net: seq<Msg>, procs: seq<Proc>, log: seq<Event>) {
    net != [] && net[0].who < |procs| ==>
      Stage(net[0], procs[net[0].who], Done(log, procs[net[0].who]), log)
  }

  ghost predicate Tallies(config: Config, e: Esi, obs: seq<Obs>, p: int) {
    && 0 <= p < |obs|
    && e.programCounter == obs[p].orders
    && e.lastEstimate == AfterBursts(config.alpha, config.estZero as real, obs[p].bursts)
  }

  /** The planner's counters and estimates are those of the observed run orders and bursts. */
  ghost predicate Counted(ps: Planner, procs: seq<Proc>, obs: seq<Obs>) {
    && |obs| == |procs|
    && (forall e, p :: e in ps.running && Mine(procs, e, p) ==> Tallies(ps.config, e, obs, p))
    && (forall e, p :: (e in ps.ready || e in ps.blocked || e in ps.finished) && Mine(procs, e, p) ==>
          Tallies(ps.config, e, obs, p) && e.programCounter == 0)
  }

  ghost predicate Inv(s: State) {
    && Sound(s.planner)
    && Wired(s.planner, s.procs)
    && Placed(s.nodes, s.lastUsed)
    && Addressed(s.net, s.nodes)
    && OneOutstanding(s.planner.running, s.procs, s.net)
    && InOrder(s.procs, s.log)
    && OfKnown(s.procs, s.log)
    && QueuesOnScript(s.planner, s.procs, s.log)
    && FlightOnScript(s.net, s.procs, s.log)
    && Counted(s.planner, s.procs, s.obs)
  }

  lemma AppliedGrows(log: seq<Event>, event: Event, name: string)
    ensures Applied(log + [event], name) ==
            if event.name == name then Applied(log, name) + [event.op] else Applied(log, name)
  {
    assert (log + [event])[..|log|] == log;
  }

  /** The ESI in the running queue is ESI number w. */
  ghost predicate RunningIs(s: State, w: nat) {
    |s.planner.running| == 1 && Mine(s.procs, s.planner.running[0], w)
  }
}
