/** Runs that show each limit of the code. */
module Examples {
  import opened Types
  import opened Lists
  import opened Names
  import opened PlannerSpec
  import opened WakeUp
  import opened PlannerSound
  import opened EsiSpec
  import opened InstanceSpec
  import opened InstanceLaws
  import opened KeyTable
  import opened LockHistory
  import opened System
  import opened Chains
  import opened Invariant
  import opened Moves
  import opened OneOrder
  import opened Locks
  import opened Isolation
  import opened Scripts
  import opened Termination
  import opened Progress
  import opened Fifo
  import opened Stuck
  import opened Placement
  import opened LoneRuns
  import opened Releases
  import opened Theorems
  import Limits

  function Alike(count: nat, maxEntries: nat): seq<Node> {
    seq(count, _ => Node(true, Fresh(maxEntries)))
  }

  lemma AlikeFresh(count: nat, maxEntries: nat)
    requires maxEntries > 0
    ensures AllFresh(Alike(count, maxEntries))
    ensures forall i :: 0 <= i < count ==> Alike(count, maxEntries)[i].available
  {
    forall n | 0 <= n < count
      ensures Alike(count, maxEntries)[n].store == Fresh(maxEntries)
    {}
  }

  // ---------- Order of service ----------

  /** Two ESIs arrive and FIFO starts the second, although the first has never run. */
  lemma LaterArrivalFirst(config: Config) returns (steps: seq<Step>, s: State, order: seq<Esi>)
    requires config.algorithm == FIFO
    ensures Reached(config, [], [], steps, s) && steps == [Arrive([]), Arrive([])] && Enabled(s, StartEsi(order))
    ensures Overtakes(s, order[0])
    ensures Perform(s, StartEsi(order)).planner.running != []
    ensures Perform(s, StartEsi(order)).planner.running[0].id == NameOf(config.initId + 1)
  {
    hide Inv, Perform, Runs, After, Overtakes;
    var arrive := Arrive([]);
    var i := Init(config, [], []);
    InitInv(config, [], []);
    StepForm(i, arrive);
    StepKeeps(i, arrive);
    var a := Perform(i, arrive);
    StepForm(a, arrive);
    s := Perform(a, arrive);
    OneStep(i, arrive);
    StepMore(i, [arrive], arrive);
    steps := [arrive] + [arrive];
    order := s.planner.ready;
    assert order == [NewEsi(config, config.initId + 1), NewEsi(config, config.initId)];
    FifoOvertakesIff(config, [], [], steps, s, order);
  }

  // ---------- Console block ----------

  /** The console enters a key that was preloaded a second time. */
  lemma BlockedTwice(config: Config, key: string, name: string) returns (steps: seq<Step>, s: State)
    ensures Reached(config, [key], [], steps, s) && steps == [ConsoleBlock(key, name)]
    ensures Holders(s.planner.taken, key) == 2
  {
    hide Inv, Perform, Runs, After;
    var i, step := Init(config, [key], []), ConsoleBlock(key, name);
    InitInv(config, [key], []);
    StepForm(i, step);
    OneStep(i, step);
    steps, s := [step], Perform(i, step);
    PreloadedHolders([key], key);
    Appended(Preloaded([key]), Alloc(name, key, Blocked), key);
  }

  // ---------- Keys that are not stored ----------

  /** A script that takes a key and ends: nobody else gets the key for as long as the console does not release it. */
  lemma KeyLost(config: Config, key: string) returns (steps: seq<Step>, s: State, e: Esi)
    ensures Reached(config, [], Alike(1, 1), steps, s) && FromArrival(steps, [Get(key)])
    ensures e in s.planner.finished && s.planner.running == [] && s.net == []
    ensures Holder(s.planner.taken, key) == Some(e.id)
    ensures forall more :: Runs(s, more) && HarmlessRun(s, more) ==> Limits.Leaked(After(s, more), e.id, key)
  {
    hide Inv, Runs, After, Exclusive, KeysOk, Replayed, GoesThrough, InTurn, FirstBad, HeldKeys;
    var ops := [Get(key)];
    assert GoesThrough(ops, 1, 1) by { OneGet(key); }
    var first, a := LoneReached(config, 1, 1, ops, 1);
    var last, t, f := LoneEnd(a, ops);
    RunThen(Init(config, [], Alike(1, 1)), first, last);
    steps, s, e := first + last, t, f;
    OneGet(key);
    NoConsoleIsHarmless(Init(config, [], Alike(1, 1)), steps);
    FinishedHoldsIff(config, [], Alike(1, 1), steps, s, e, 0, key);
    IdListed(s.planner.finished, e);
    forall more | Runs(s, more) && HarmlessRun(s, more)
      ensures Limits.Leaked(After(s, more), e.id, key)
    {
      Limits.LeakedForever(s, more, e.id, key, {});
    }
  }

  lemma OneGet(key: string)
    ensures GoesThrough([Get(key)], 1, 1) && HeldKeys([Get(key)]) == {key}
    ensures Leftover(Lines([Get(key)])) == {key}
  {
    hide HeldKeys;
    var ops := [Get(key)];
    assert ops[..0] == [] && ops == [] + [Get(key)];
    NothingHeld();
    HeldMore([], Get(key));
    assert Lines(ops)[1..] == [];
    assert FirstBad(Lines(ops)) == 1;
    assert OpsOf(Lines(ops), 1) == ops;
  }

  lemma IdListed(q: seq<Esi>, e: Esi)
    requires e in q
    ensures e.id in Ids(q)
  {
    var i :| 0 <= i < |q| && q[i] == e;
    assert Ids(q)[i] == e.id;
  }

  // ---------- Waking up ----------

  /** An ESI waits for a preloaded key; the console releases it, and the ESI is ready again, to repeat its line. */
  lemma WokenByConsole(config: Config, key: string) returns (steps: seq<Step>, s: State)
    ensures Reached(config, [key], [], steps, s)
    ensures steps != [] && steps[0] == Arrive([Valid(Get(key))]) && steps[|steps| - 1] == ConsoleUnblock(key)
    ensures |s.planner.ready| == 1 && s.planner.ready[0].redo && s.planner.taken == []
  {
    hide Inv, Perform, Enabled, Runs, After, KeyHeld, AllocIndex, Process, InRange, NextNode, ReleaseKey;
    var d, step := Deliver(0), ConsoleUnblock(key);
    var first, a := FirstStarts(config, [key], [Valid(Get(key))]);
    var b := AsksAbout(a, Get(key));
    PreloadedFirst(key);
    Received1(b);
    var c := Perform(b, d);
    DeniedFirst(a, b, c, key);
    assert Enabled(c, step) by { AnyConsole(c, step); }
    StepForm(c, step);
    StepKeeps(c, step);
    s := Perform(c, step);
    OnlyWaiterWoken(c, s, key);
    StepMore(a, [d] + [d], d);
    StepMore(a, [d] + [d] + [d], step);
    RunThen(Init(config, [key], []), first, [d] + [d] + [d] + [step]);
    steps := first + ([d] + [d] + [d] + [step]);
  }

  lemma OnlyWaiterWoken(c: State, s: State, key: string)
    requires Inv(c) && Inv(s) && |c.procs| == 1 && c.planner.running == [] && c.planner.blocked != []
    requires |c.planner.taken| == 2 && c.planner.taken[0] == Alloc("", key, Blocked)
    requires c.planner.taken[1].key == key && c.planner.taken[1].status == Waiting
    requires ReleaseKey(c.planner, key).Some? && s == AfterUnblock(c, key)
    ensures |s.planner.ready| == 1 && s.planner.ready[0].redo && s.planner.taken == []
  {
    hide Wired, Placed, InOrder, OfKnown, QueuesOnScript, FlightOnScript, Counted, OneOutstanding, Sound, ReleaseKey;
    ReleaseIsFilter(c.planner, key);
    ReleasedQueues(c.planner, key);
    assert RemoveHolder(c.planner.taken, key) == [c.planner.taken[1]];
    assert Without([c.planner.taken[1]], key) == [];
    QueueBounds(c);
    QueueBounds(s);
    assert s.planner.blocked == [] by { NobodyWaitsHere(s); }
    assert s.planner.ready[0] in s.planner.ready;
  }

  lemma NobodyWaitsHere(s: State)
    requires Inv(s) && s.planner.taken == []
    ensures s.planner.blocked == []
  {
    hide Wired, Placed, InOrder, OfKnown, QueuesOnScript, FlightOnScript, Counted, OneOutstanding, Everyone;
    assert |WaitingNames(s.planner.taken)| == |s.planner.blocked|;
  }

  // ---------- Waiting in vain ----------

  /** A script that takes a key twice waits for itself. */
  lemma WaitsForItself(config: Config, key: string) returns (steps: seq<Step>, s: State)
    ensures Reached(config, [], Alike(1, 1), steps, s)
    ensures exists run :: FromArrival(run, [Get(key), Get(key)]) && steps == run + [Deliver(0), Deliver(0), Deliver(0)]
    ensures s.net == [] && s.planner.running == [] && s.planner.blocked != []
    ensures Holder(s.planner.taken, key) == Some(s.planner.blocked[0].id)
    ensures Alloc(s.planner.blocked[0].id, key, Waiting) in s.planner.taken
  {
    hide Inv, Runs, After, Perform, Enabled, Exclusive, Replayed, GoesThrough, KeyHeld, InTurn, HeldKeys, KeysOk;
    var ops, d := [Get(key), Get(key)], Deliver(0);
    GetTwice(key);
    var run, a := LoneReached(config, 1, 1, ops, 1);
    LoneCursor(a, ops, 1);
    LoneLocks(a, ops, 1, key);
    var b := AsksAbout(a, Get(key));
    Received1(b);
    s := Perform(b, d);
    HolderIsFirst(a.planner.taken, key);
    Appended(a.planner.taken, Alloc(a.procs[0].name, key, Waiting), key);
    DeniedFirst(a, b, s, key);
    StepMore(a, [d] + [d], d);
    RunThen(Init(config, [], Alike(1, 1)), run, [d] + [d] + [d]);
    steps := run + ([d] + [d] + [d]);
    assert [d] + [d] + [d] == [d, d, d];
  }

  lemma GetTwice(key: string)
    ensures GoesThrough([Get(key), Get(key)], 1, 1) && key in HeldKeys([Get(key), Get(key)][..1])
  {
    hide HeldKeys;
    var ops := [Get(key), Get(key)];
    assert ops[..0] == [] && ops[..1] == [] + [Get(key)];
    NothingHeld();
    HeldMore([], Get(key));
  }

  lemma DeniedFirst(a: State, b: State, s: State, key: string)
    requires Inv(a) && |a.procs| == 1 && a.net == [RunOrder(0, false)]
    requires Inv(b) && b.planner == a.planner && b.net == [Question(0, a.procs[0].name, Get(key))]
    requires KeyHeld(b.planner.taken, key) && Received(b, b.net[0], s) && Inv(s)
    ensures s.net == [] && s.planner.running == [] && s.planner.blocked != []
    ensures s.planner.blocked[0].id == a.procs[0].name
    ensures s.planner.taken == a.planner.taken + [Alloc(a.procs[0].name, key, Waiting)]
  {
    hide Sound, Placed, InOrder, OfKnown, QueuesOnScript, FlightOnScript, Counted, KeyHeld;
    Conservation(s.planner);
    assert s.planner.blocked == a.planner.blocked + [EndBurst(a.planner.config, a.planner.running[0])];
    if a.planner.blocked != [] {
      assert false by { OneEsi(a); }
    }
  }

  /** With one ESI, which runs, nobody is blocked. */
  lemma OneEsi(s: State)
    requires Inv(s) && |s.procs| == 1 && |s.planner.running| == 1
    ensures s.planner.blocked == []
  {
    QueueBounds(s);
  }

  // ---------- Standing still ----------

  /** Two instances: the SET that follows a GET goes to the instance that does not have the key, and that is the
      end. */
  lemma SetElsewhere(config: Config, maxEntries: nat, key: string, value: string) returns (steps: seq<Step>, s: State)
    requires maxEntries > 0
    ensures Reached(config, [], Alike(2, maxEntries), steps, s) && FromArrival(steps, [Get(key), Set(key, value)])
    ensures StandsStill(s) && |s.log| == 1
    ensures forall more :: Runs(s, more) ==> StandsStill(After(s, more)) && ProductiveIn(more) == 0
  {
    hide Inv, Runs, After, Exclusive, KeysOk, Replayed, GoesThrough, InTurn;
    var ops, d := [Get(key), Set(key, value)], Deliver(0);
    GetThenSet(key, value);
    var first, a := LoneReached(config, 2, maxEntries, ops, 1);
    var asked, b := AskLine(a, ops, 1);
    OtherInstanceLacks(b, ops, key);
    Limits.OtherInstanceStrands(b);
    RunThen(Init(config, [], Alike(2, maxEntries)), first, asked);
    RunThen(Init(config, [], Alike(2, maxEntries)), first + asked, [d, d, d]);
    steps := first + asked + [d, d, d];
    s := After(b, [d, d, d]);
  }

  /** One ESI arrives in an otherwise empty system and is started. */
  lemma FirstStarts(config: Config, keys: seq<string>, script: seq<Line>) returns (steps: seq<Step>, s: State)
    ensures Runs(Init(config, keys, []), steps) && s == After(Init(config, keys, []), steps)
    ensures |steps| == 2 && steps[0] == Arrive(script) && s.planner.running != []
    ensures Inv(s) && !s.crashed && s.net == [RunOrder(0, false)] && s.planner.taken == Preloaded(keys) && s.nodes == []
    ensures |s.procs| == 1 && s.procs[0] == Proc(NameOf(config.initId), script, 0, 0)
  {
    hide Inv, Perform, Runs, After;
    var i, arrive := Init(config, keys, []), Arrive(script);
    InitInv(config, keys, []);
    StepForm(i, arrive);
    StepKeeps(i, arrive);
    var a := Perform(i, arrive);
    var e := NewEsi(config, config.initId);
    assert a.planner.ready == [e] + [] == [e];
    var begin := StartEsi([e]);
    StepForm(a, begin);
    StepKeeps(a, begin);
    s := Perform(a, begin);
    OneStep(i, arrive);
    StepMore(i, [arrive], begin);
    steps := [arrive] + [begin];
  }

  /** The message in flight is received, whatever the console did to the locks before. */
  lemma Received1(s: State)
    requires Inv(s) && !s.crashed && s.net != []
    ensures Enabled(s, Deliver(0)) && Inv(Perform(s, Deliver(0))) && Received(s, s.net[0], Perform(s, Deliver(0)))
  {
    hide Inv, Perform, Received;
    StepForm(s, Deliver(0));
    StepKeeps(s, Deliver(0));
  }

  /** The ESI reads the line and the planner is asked. */
  lemma AsksAbout(s: State, op: Op) returns (t: State)
    requires Inv(s) && !s.crashed && s.net == [RunOrder(0, false)] && |s.procs| == 1
    requires s.procs[0].cursor < |s.procs[0].script| && s.procs[0].script[s.procs[0].cursor] == Valid(op)
    ensures Runs(s, [Deliver(0)] + [Deliver(0)]) && t == After(s, [Deliver(0)] + [Deliver(0)])
    ensures Inv(t) && !t.crashed && t.net == [Question(0, s.procs[0].name, op)] && |t.procs| == 1
    ensures t.planner == s.planner && t.nodes == s.nodes && t.log == s.log && t.lastUsed == s.lastUsed
  {
    hide Inv, Perform, Enabled, Runs, After, KeyHeld, Process, InRange, NextNode;
    var d := Deliver(0);
    Received1(s);
    var a := Perform(s, d);
    assert a.net == [Instruction(0, s.procs[0].name, op)];
    Received1(a);
    t := Perform(a, d);
    OneStep(s, d);
    StepMore(s, [d], d);
  }

  /** A SET of a preloaded key is refused, and its ESI keeps the processor for ever. */
  lemma SetRefused(config: Config, key: string, value: string) returns (steps: seq<Step>, s: State)
    ensures Reached(config, [key], [], steps, s) && StandsStill(s)
    ensures steps != [] && steps[0] == Arrive([Valid(Set(key, value))])
    ensures EverStrands(Init(config, [key], []), steps)
  {
    hide Inv, Perform, Enabled, Runs, After, EverStrands, AllocIndex, KeyHeld, Process, InRange, NextNode;
    var d := Deliver(0);
    var first, a := FirstStarts(config, [key], [Valid(Set(key, value))]);
    var b := AsksAbout(a, Set(key, value));
    PreloadedFirst(key);
    EsiNamed(config.initId);
    Received1(b);
    s := Perform(b, d);
    StepMore(a, [d] + [d], d);
    RunThen(Init(config, [key], []), first, [d] + [d] + [d]);
    steps := first + ([d] + [d] + [d]);
    StandsIff(config, [key], [], steps, s);
  }

  lemma EsiNamed(i: int)
    ensures NameOf(i) != ""
  {
    NamesDistinct(i, i);
  }

  /** A SET of a key that nobody holds crashes the planner. */
  lemma SetOfFreeKey(config: Config, key: string, value: string) returns (steps: seq<Step>, s: State)
    ensures Reached(config, [], [], steps, s) && s.crashed
    ensures steps != [] && steps[0] == Arrive([Valid(Set(key, value))])
  {
    hide Inv, Perform, Enabled, Runs, After, Process, InRange, NextNode;
    var d := Deliver(0);
    var first, a := FirstStarts(config, [], [Valid(Set(key, value))]);
    var b := AsksAbout(a, Set(key, value));
    assert b.planner.taken == [] && !KeyHeld([], key);
    Received1(b);
    s := Perform(b, d);
    StepMore(a, [d] + [d], d);
    RunThen(Init(config, [], []), first, [d] + [d] + [d]);
    steps := first + ([d] + [d] + [d]);
  }

  lemma PreloadedFirst(key: string)
    ensures KeyHeld(Preloaded([key]), key)
    ensures AllocIndex(Preloaded([key]), key, Blocked) == 0 && Preloaded([key])[0].name == ""
  {}

  lemma GetThenSet(key: string, value: string)
    ensures GoesThrough([Get(key), Set(key, value)], 1, 2) && MayAsk([Get(key), Set(key, value)], 1)
  {
    hide HeldKeys;
    var ops := [Get(key), Set(key, value)];
    assert ops[..0] == [] && ops[..1] == [] + [Get(key)];
    NothingHeld();
    HeldMore([], Get(key));
  }

  lemma OtherInstanceLacks(s: State, ops: seq<Op>, key: string)
    requires Alone(s, ops, 1) && |s.nodes| == 2
    ensures !Has(s.nodes[1].store, key) && |s.log| == 1
  {
    hide Inv, Exclusive, KeysOk, Circular;
    assert s.log[0].node == 0;
    NoShare(s.log, 1);
    assert s.nodes[1].store == Replay(|s.nodes[1].store.blocks|, []);
  }

  // ---------- The initial value ----------

  /** A key that is taken and stored unchanged is written as "Default" and a terminator, eight characters. */
  lemma DefaultStored(config: Config, key: string) returns (steps: seq<Step>, s: State)
    ensures Reached(config, [], Alike(1, 1), steps, s) && FromArrival(steps, [Get(key), Store(key)])
    ensures |s.log| == 2 && s.log[1].op == Store(key)
    ensures s.log[1].written == ['D', 'e', 'f', 'a', 'u', 'l', 't', '\0']
    ensures |s.nodes| == 1 && s.nodes[0].store.files == map[key := ['D', 'e', 'f', 'a', 'u', 'l', 't', '\0']]
  {
    hide Inv, Runs, After, Exclusive, KeysOk, GoesThrough, Replay, Share, Process, InRange, Has, Read, Circular, InTurn;
    var ops := [Get(key), Store(key)];
    GetThenStore(key);
    steps, s := LoneReached(config, 1, 1, ops, 2);
    AlreadyTwo(s, ops);
    StoredDefault(s, ops, key);
  }

  lemma AlreadyTwo(s: State, ops: seq<Op>)
    requires Alone(s, ops, 2) && |ops| == 2
    ensures |s.log| == 2 && s.log[1].op == ops[1] && s.log[1].node == 1 % |s.nodes|
  {
    hide Kept;
  }

  lemma GetThenStore(key: string)
    ensures GoesThrough([Get(key), Store(key)], 2, 1)
  {
    hide HeldKeys, Dealt, Created;
    var ops := [Get(key), Store(key)];
    assert ops[..0] == [] && ops[..1] == [] + [Get(key)];
    NothingHeld();
    NothingCreated();
    NothingDealt(1, 0);
    HeldMore([], Get(key));
    DealtMore([], Get(key), 1, 0);
    CreatedMore([], Get(key));
  }

  lemma StoredDefault(s: State, ops: seq<Op>, key: string)
    requires Alone(s, ops, 2) && ops == [Get(key), Store(key)] && |s.nodes| == 1 && |s.nodes[0].store.blocks| == 1
    ensures |s.log| == 2 && s.log[1].written == ['D', 'e', 'f', 'a', 'u', 'l', 't', '\0']
    ensures s.nodes[0].store.files == map[key := ['D', 'e', 'f', 'a', 'u', 'l', 't', '\0']]
  {
    hide Inv, Exclusive, KeysOk, Replay, Share, Process, Circular;
    assert Faithful(s.nodes, s.log, 1);
    ShareIsDealt(s.log, s.procs[0].name, ops, 1, 0);
    PrefixShare(s.log, s.procs[0].name, ops, 1, 1, 0);
    assert ops[..0] == [] && ops[..1] == [] + [Get(key)] && ops[..2] == ops[..1] + [Store(key)];
    NothingDealt(1, 0);
    DealtMore([], Get(key), 1, 0);
    DealtMore(ops[..1], Store(key), 1, 0);
    ReplayMore(1, [], Get(key));
    ReplayMore(1, [] + [Get(key)], Store(key));
    NothingReplayed(1);
    TableAfterGet(key);
    TableAfterStore(key);
  }

  lemma TableAfterStore(key: string)
    ensures var before := OneBlock([Entry(0, key, 8)], DEFAULT_VALUE);
            && InRange(before) && Has(before, key)
            && Read(before, key) == ['D', 'e', 'f', 'a', 'u', 'l', 't', '\0']
            && Process(before, Store(key)).instance.files == map[key := ['D', 'e', 'f', 'a', 'u', 'l', 't', '\0']]
  {}

  // ---------- Past capacity ----------

  /** One block: the GET of a second key puts the initial value in place of what was set for the first. */
  lemma ValueLost(config: Config, a: string, b: string, value: string)
    returns (steps: seq<Step>, s: State, line: seq<Step>, t: State)
    requires a != b && value != DEFAULT_VALUE
    ensures Reached(config, [], Alike(1, 1), steps, s) && FromArrival(steps, [Get(a), Set(a, value), Get(b)])
    ensures Runs(s, line) && t == After(s, line) && |t.log| == 3 && t.log[2].op == Get(b)
    ensures Inv(s) && Inv(t) && |s.nodes| == |t.nodes| == 1
    ensures InRange(s.nodes[0].store) && Has(s.nodes[0].store, a) && Read(s.nodes[0].store, a) == value
    ensures InRange(t.nodes[0].store) && Has(t.nodes[0].store, a) && Read(t.nodes[0].store, a) == DEFAULT_VALUE
  {
    hide Inv, Runs, After, Exclusive, KeysOk, GoesThrough, Replay, Share, Process, InRange, Has, Read, Circular;
    var ops := [Get(a), Set(a, value), Get(b)];
    ValueLostGoes(a, b, value);
    steps, s := LoneReached(config, 1, 1, ops, 2);
    line, t := WholeLine(s, ops, 2);
    InitInv(config, [], Alike(1, 1)) by { AlikeFresh(1, 1); }
    RunSizes(s, line);
    ShareIsDealt(s.log, s.procs[0].name, ops, 1, 0);
    ShareIsDealt(t.log, t.procs[0].name, ops, 1, 0);
    ValueLostTables(a, b, value);
  }

  lemma ValueLostGoes(a: string, b: string, value: string)
    requires a != b
    ensures var ops := [Get(a), Set(a, value), Get(b)];
            && GoesThrough(ops, 2, 1) && MayAsk(ops, 2) && MayRun(ops, 2, 1)
            && Dealt(ops[..2], 1, 0) == [Get(a), Set(a, value)] && Dealt(ops[..3], 1, 0) == ops
  {
    hide HeldKeys, Dealt, Created;
    var ops := [Get(a), Set(a, value), Get(b)];
    assert ops[..0] == [] && ops[..1] == [] + [Get(a)];
    assert ops[..2] == ops[..1] + [Set(a, value)] && ops[..3] == ops[..2] + [Get(b)];
    NothingHeld();
    NothingDealt(1, 0);
    HeldMore([], Get(a));
    HeldMore(ops[..1], Set(a, value));
    DealtMore([], Get(a), 1, 0);
    DealtMore(ops[..1], Set(a, value), 1, 0);
    DealtMore(ops[..2], Get(b), 1, 0);
    CreatedMore([], Get(a));
    assert [Get(a)] == [] + [Get(a)] && ops == ops[..2] + [Get(b)];
  }

  lemma ValueLostTables(a: string, b: string, value: string)
    requires a != b
    ensures var i := Replay(1, [Get(a), Set(a, value)]); InRange(i) && Has(i, a) && Read(i, a) == value
    ensures var i := Replay(1, [Get(a), Set(a, value), Get(b)]); InRange(i) && Has(i, a) && Read(i, a) == DEFAULT_VALUE
  {
    hide Process, Replay, Has, Read;
    assert [] + [Get(a)] == [Get(a)] && [Get(a)] + [Set(a, value)] == [Get(a), Set(a, value)];
    assert [Get(a), Set(a, value)] + [Get(b)] == [Get(a), Set(a, value), Get(b)];
    ReplayMore(1, [], Get(a));
    ReplayMore(1, [Get(a)], Set(a, value));
    ReplayMore(1, [Get(a), Set(a, value)], Get(b));
    assert Replay(1, []) == Fresh(1) by { NothingReplayed(1); }
    TableAfterGet(a);
    TableAfterSet(a, value);
    TableAfterSecond(a, b, value);
  }

  lemma NothingReplayed(m: nat)
    requires m > 0
    ensures Replay(m, []) == Fresh(m)
  {}

  function OneBlock(dictionary: seq<Entry>, value: string): Instance {
    Instance(dictionary, [Block(value, |value|)], 0, map[])
  }

  lemma TableAfterGet(a: string)
    ensures InRange(Fresh(1)) && Process(Fresh(1), Get(a)).instance == OneBlock([Entry(0, a, 8)], DEFAULT_VALUE)
  {
    assert Fresh(1).dictionary == [] && Fresh(1).blocks == [Block("", 0)];
  }

  lemma TableAfterSet(a: string, value: string)
    ensures var before, after := OneBlock([Entry(0, a, 8)], DEFAULT_VALUE), OneBlock([Entry(0, a, |value|)], value);
            && InRange(before) && Process(before, Set(a, value)).instance == after
            && InRange(after) && Has(after, a) && Read(after, a) == value
  {}

  lemma TableAfterSecond(a: string, b: string, value: string)
    requires a != b
    ensures var before := OneBlock([Entry(0, a, |value|)], value);
            var after := OneBlock([Entry(0, b, 8), Entry(0, a, |value|)], DEFAULT_VALUE);
            && InRange(before) && Process(before, Get(b)).instance == after
            && InRange(after) && Has(after, a) && Read(after, a) == DEFAULT_VALUE
  {
    var dictionary := [Entry(0, a, |value|)];
    assert dictionary[1..] == [];
    assert EntryIndex(dictionary, b) == 1;
    var both := [Entry(0, b, 8)] + dictionary;
    assert both[1..] == dictionary;
    assert EntryIndex(both, a) == 1;
  }

  // ---------- Console unblock, and block once more ----------

  /** The console releases a key that an ESI took and did not store: the ESI's window is open, and nobody holds the
      key. */
  lemma TakenAway(config: Config, key: string) returns (steps: seq<Step>, s: State)
    ensures Reached(config, [], Alike(1, 1), steps, s)
    ensures exists run :: FromArrival(run, [Get(key)]) && steps == run + [ConsoleUnblock(key)]
    ensures LockAfter(s.log, key).Held? && Holder(s.planner.taken, key) == None
  {
    hide Inv, Runs, After, Perform, Enabled, Exclusive, Replayed, GoesThrough, LockAfter, KeyHeld, ReleaseKey;
    var ops, step := [Get(key)], ConsoleUnblock(key);
    OneGet(key);
    var run, a := LoneReached(config, 1, 1, ops, 1);
    assert ops[..1] == ops;
    LoneHolds(a, ops, key);
    assert Enabled(a, step) by { AnyConsole(a, step); }
    StepForm(a, step);
    ReleasedNow(a, key);
    s := Perform(a, step);
    StepMore(Init(config, [], Alike(1, 1)), run, step);
    steps := run + [step];
  }

  /** The console enters an ESI as holder of a key that the ESI has stored: its next STORE is carried out without any
      window. */
  lemma GivenByConsole(config: Config, key: string) returns (steps: seq<Step>, s: State)
    ensures Reached(config, [], Alike(1, 1), steps, s)
    ensures exists run :: FromArrival(run, [Get(key), Store(key), Store(key)])
                          && steps == run + [ConsoleBlock(key, NameOf(config.initId))] + Five()
    ensures |s.log| == 3 && s.log[2].op == Store(key) && forall j, name :: !Window(s.log[..2], j, key, name)
  {
    hide Inv, Runs, After, Perform, Enabled, Exclusive, Replayed, GoesThrough, KeyHeld, HeldKeys, KeysOk;
    var ops := [Get(key), Store(key), Store(key)];
    TwoStores(key);
    var run, a := LoneReached(config, 1, 1, ops, 2);
    LoneName(config, run, a);
    var step := ConsoleBlock(key, NameOf(config.initId));
    assert Enabled(a, step) by { AnyConsole(a, step); }
    StepForm(a, step);
    StepKeeps(a, step);
    LoneCursor(a, ops, 2);
    LoneLocks(a, ops, 2, key);
    NowHeld(a.planner.taken, key, NameOf(config.initId));
    OneInstanceKnows(a, ops, key);
    var b := Perform(a, step);
    s := StoreGoesThrough(b, key);
    StepMore(Init(config, [], Alike(1, 1)), run, step);
    RunThen(Init(config, [], Alike(1, 1)), run + [step], Five());
    steps := run + [step] + Five();
    NoWindow(a.log, s.log, key);
  }

  lemma NoWindow(before: seq<Event>, log: seq<Event>, key: string)
    requires |before| == 2 && before[1].op == Store(key) && before <= log
    ensures forall j, name :: !Window(log[..2], j, key, name)
  {
    assert log[..2] == before;
  }

  function Five(): seq<Step> {
    [Deliver(0)] + [Deliver(0)] + ([Deliver(0)] + [Deliver(0)] + [Deliver(0)])
  }

  lemma TwoStores(key: string)
    ensures var ops := [Get(key), Store(key), Store(key)];
            && GoesThrough(ops, 2, 1) && HeldKeys(ops[..2]) == {} && Created(Dealt(ops[..2], 1, 0)) == [key]
  {
    hide HeldKeys, Created, Dealt;
    var ops := [Get(key), Store(key), Store(key)];
    assert ops[..0] == [] && ops[..1] == [] + [Get(key)] && ops[..2] == ops[..1] + [Store(key)];
    NothingHeld();
    NothingCreated();
    NothingDealt(1, 0);
    HeldMore([], Get(key));
    HeldMore(ops[..1], Store(key));
    DealtMore([], Get(key), 1, 0);
    DealtMore(ops[..1], Store(key), 1, 0);
    CreatedMore([], Get(key));
    CreatedMore(ops[..1], Store(key));
    assert [] + [key] == [key];
  }

  lemma LoneName(config: Config, run: seq<Step>, s: State)
    requires Reached(config, [], Alike(1, 1), run, s) && |s.procs| == 1
    ensures s.procs[0].name == NameOf(config.initId)
  {
    hide Reached, Sound, Placed, InOrder, OfKnown, QueuesOnScript, FlightOnScript, Counted, OneOutstanding, NameOf;
    ReachedOrders(config, [], Alike(1, 1), run, s);
  }

  lemma NowHeld(taken: seq<Alloc>, key: string, name: string)
    requires !KeyHeld(taken, key)
    ensures var after := taken + [Alloc(name, key, Blocked)];
            KeyHeld(after, key) && after[AllocIndex(after, key, Blocked)].name == name
  {
    hide KeyHeld, AllocIndex;
    HolderIsFirst(taken, key);
    Appended(taken, Alloc(name, key, Blocked), key);
    HolderIsFirst(taken + [Alloc(name, key, Blocked)], key);
  }

  lemma OneInstanceKnows(s: State, ops: seq<Op>, key: string)
    requires Alone(s, ops, 2) && |s.nodes| == 1 && s.lastUsed == LastFor(2, 1)
    requires Created(Dealt(ops[..2], 1, 0)) == [key]
    ensures NextNode(s) == 0 && s.nodes[0].available && InRange(s.nodes[0].store) && Has(s.nodes[0].store, key)
  {
    hide Inv, Exclusive, KeysOk, Replay, Created, Dealt, Circular, NextNode;
    NextInLine(s, 2);
    ShareIsDealt(s.log, s.procs[0].name, ops, 1, 0);
    var store := s.nodes[0].store;
    ReplayCircular(|store.blocks|, Share(s.log, 0));
    DictionaryIsCreated(|store.blocks|, Share(s.log, 0));
    SameKeys(store, Created(Share(s.log, 0)), key);
  }

  /** With its key held in its name and known to the one instance, a STORE is carried out. */
  lemma StoreGoesThrough(s: State, key: string) returns (t: State)
    requires Inv(s) && !s.crashed && s.net == [RunOrder(0, false)] && |s.procs| == 1
    requires s.procs[0].cursor < |s.procs[0].script| && s.procs[0].script[s.procs[0].cursor] == Valid(Store(key))
    requires KeyHeld(s.planner.taken, key)
    requires s.planner.taken[AllocIndex(s.planner.taken, key, Blocked)].name == s.procs[0].name
    requires NextNode(s) == 0 && |s.nodes| == 1 && s.nodes[0].available
    requires InRange(s.nodes[0].store) && Has(s.nodes[0].store, key)
    ensures Runs(s, Five()) && t == After(s, Five())
    ensures |t.log| == |s.log| + 1 && s.log <= t.log && t.log[|s.log|].op == Store(key)
  {
    hide Inv, Perform, Enabled, Runs, After, KeyHeld, AllocIndex, InRange, Has, Process, Written, NextNode;
    var d := Deliver(0);
    var a := AsksAbout(s, Store(key));
    Received1(a);
    var b := Perform(a, d);
    SameChoice(s, b);
    Received1(b);
    var c := Perform(b, d);
    SucceedsIff(c.nodes[0].store, Store(key));
    Received1(c);
    t := Perform(c, d);
    OneStep(a, d);
    StepMore(a, [d], d);
    StepMore(a, [d] + [d], d);
    RunThen(s, [d] + [d], [d] + [d] + [d]);
  }

  lemma SameChoice(s: State, t: State)
    requires t.nodes == s.nodes && t.lastUsed == s.lastUsed
    ensures NextNode(t) == NextNode(s)
  {}

  lemma AnyConsole(s: State, step: Step)
    requires !s.crashed && (step.ConsoleBlock? || step.ConsoleUnblock?)
    ensures Enabled(s, step)
  {}

  /** What a lone ESI has taken and not stored is locked in history and table. */
  lemma LoneHolds(s: State, ops: seq<Op>, key: string)
    requires Alone(s, ops, |ops|) && s.net == [RunOrder(0, false)] && key in HeldKeys(ops)
    ensures KeyHeld(s.planner.taken, key) && LockAfter(s.log, key).Held?
  {
    hide Kept, HeldKeys, LockAfter, KeyHeld, InTurn;
    assert ops[..|ops|] == ops;
    LoneLocks(s, ops, |ops|, key);
    HolderIsFirst(s.planner.taken, key);
    KeptView(s, key);
  }

  lemma KeptView(s: State, key: string)
    requires Kept(s) && s.net == [RunOrder(0, false)]
    ensures LockView(s.planner.taken, key) == LockAfter(s.log, key)
  {
    hide Inv, Exclusive, Replayed, LockAfter, LockView;
    assert key !in {};
  }

  lemma ReleasedNow(s: State, key: string)
    requires Inv(s) && Exclusive(s.planner.taken, s.net) && ReleaseKey(s.planner, key).Some?
    ensures Holder(ReleaseKey(s.planner, key).value.taken, key) == None
  {
    hide Wired, Placed, InOrder, OfKnown, QueuesOnScript, FlightOnScript, Counted, OneOutstanding, Sound, ReleaseKey;
    ReleasedView(s.planner, key, key, s.net);
  }

  // ---------- Isolation ----------

  lemma PrefixShare(log: seq<Event>, name: string, ops: seq<Op>, n: nat, i: nat, r: nat)
    requires InTurn(log, name, ops, |log|, n) && i <= |log|
    ensures Share(log[..i], r) == Dealt(ops[..i], n, r)
  {
    ShareIsDealt(log[..i], name, ops, n, r);
  }

  /** A lone run in terms of the whole system. */
  lemma LoneReached(config: Config, count: nat, maxEntries: nat, ops: seq<Op>, k: nat)
    returns (steps: seq<Step>, s: State)
    requires count > 0 && maxEntries > 0 && k <= |ops| && GoesThrough(ops, k, count)
    ensures Reached(config, [], Alike(count, maxEntries), steps, s) && FromArrival(steps, ops)
    ensures Alone(s, ops, k) && |s.nodes| == count && s.net == [RunOrder(0, false)] && s.lastUsed == LastFor(k, count)
    ensures forall n :: 0 <= n < count ==> |s.nodes[n].store.blocks| == maxEntries
  {
    hide Inv, Runs, After, Replayed, Exclusive, KeysOk, GoesThrough, InTurn;
    var nodes := Alike(count, maxEntries);
    AlikeFresh(count, maxEntries);
    steps, s := LoneRun(config, nodes, ops, k);
    InitInv(config, [], nodes);
    RunSizes(Init(config, [], nodes), steps);
  }

  function SharedBlockScript(a: string, b: string, value: string): seq<Op> {
    [Get(a), Get(b), Set(b, value), Store(a)]
  }

  lemma SharedBlockPrefixes(a: string, b: string, value: string)
    ensures var ops := SharedBlockScript(a, b, value);
            && ops[..0] == [] && ops[..1] == [] + [Get(a)] && ops[..2] == ops[..1] + [Get(b)]
            && ops[..3] == ops[..2] + [Set(b, value)]
  {}

  lemma SharedBlockMayAsk(a: string, b: string, value: string)
    requires a != b
    ensures forall i :: 0 <= i < 4 ==> MayAsk(SharedBlockScript(a, b, value), i)
  {
    hide HeldKeys;
    var ops := SharedBlockScript(a, b, value);
    SharedBlockPrefixes(a, b, value);
    NothingHeld();
    HeldMore([], Get(a));
    HeldMore(ops[..1], Get(b));
    HeldMore(ops[..2], Set(b, value));
  }

  lemma SharedBlockCreated(a: string, b: string, value: string)
    requires a != b
    ensures var ops := SharedBlockScript(a, b, value);
            Created(Dealt(ops[..2], 1, 0)) == [a, b] && Created(Dealt(ops[..3], 1, 0)) == [a, b]
  {
    hide Dealt, Created;
    var ops := SharedBlockScript(a, b, value);
    SharedBlockPrefixes(a, b, value);
    NothingDealt(1, 0);
    DealtMore([], Get(a), 1, 0);
    DealtMore(ops[..1], Get(b), 1, 0);
    DealtMore(ops[..2], Set(b, value), 1, 0);
    assert Dealt(ops[..2], 1, 0) == [Get(a), Get(b)];
    CreatedOne(a);
    CreatedTwo(Get(a), Get(b));
    CreatedMore([Get(a), Get(b)], Set(b, value));
  }

  lemma SharedBlockGoes(a: string, b: string, value: string)
    requires a != b
    ensures GoesThrough(SharedBlockScript(a, b, value), 4, 1)
    ensures Created(Dealt(SharedBlockScript(a, b, value)[..2], 1, 0)) == [a, b]
  {
    hide HeldKeys, Dealt, Created, MayAsk;
    SharedBlockMayAsk(a, b, value);
    SharedBlockCreated(a, b, value);
  }

  /** One instance with one block: the STORE of the first key writes the value set for the second. */
  lemma SharedBlock(config: Config, a: string, b: string, value: string) returns (steps: seq<Step>, s: State)
    requires a != b && value != DEFAULT_VALUE
    ensures Reached(config, [], Alike(1, 1), steps, s) && FromArrival(steps, SharedBlockScript(a, b, value))
    ensures |s.log| == 4 && s.log[3].op == Store(a) && s.log[3].written == value
    ensures Window(s.log[..3], 0, a, s.log[3].name) && ValueSince(s.log[..3], 0, a) == DEFAULT_VALUE
  {
    hide Inv, Runs, After, Exclusive, KeysOk, GoesThrough, Created, Share, Dealt, Reached, Faithful, SlotFor;
    var ops := SharedBlockScript(a, b, value);
    SharedBlockGoes(a, b, value);
    steps, s := LoneReached(config, 1, 1, ops, 4);
    var x := StoreWritesSlot(s.nodes, s.log, 3);
    PrefixShare(s.log, s.procs[0].name, ops, 1, 2, 0);
    assert s.log[..3][..2] == s.log[..2] && s.log[..2][..1] == s.log[..1] && s.log[..1][..0] == [];
    assert WritesSlot(s.log[..3], 2, 0, 1, 0);
    assert SlotFor(s.log[..3], 0, 1, a) < 1;
    assert x == 2;
    assert ValueSince(s.log[..1], 0, a) == DEFAULT_VALUE;
    assert ValueSince(s.log[..2], 0, a) == ValueSince(s.log[..1], 0, a);
  }

  function StaleCopyScript(k: string, j: string, value: string): seq<Op> {
    [Get(k), Get(j), Store(k), Get(k), Set(k, value), Store(k)]
  }

  lemma StaleCopyPrefixes(k: string, j: string, value: string)
    ensures var ops := StaleCopyScript(k, j, value);
            && ops[..0] == [] && ops[..1] == [] + [Get(k)] && ops[..2] == ops[..1] + [Get(j)]
            && ops[..3] == ops[..2] + [Store(k)] && ops[..4] == ops[..3] + [Get(k)]
            && ops[..5] == ops[..4] + [Set(k, value)]
  {}

  lemma StaleCopyMayAsk(k: string, j: string, value: string)
    requires k != j
    ensures forall i :: 0 <= i < 6 ==> MayAsk(StaleCopyScript(k, j, value), i)
  {
    hide HeldKeys;
    var ops := StaleCopyScript(k, j, value);
    StaleCopyPrefixes(k, j, value);
    NothingHeld();
    HeldMore([], Get(k));
    HeldMore(ops[..1], Get(j));
    HeldMore(ops[..2], Store(k));
    HeldMore(ops[..3], Get(k));
    HeldMore(ops[..4], Set(k, value));
  }

  lemma StaleCopyDealt(k: string, j: string, value: string)
    ensures var ops := StaleCopyScript(k, j, value);
            && Dealt(ops[..2], 2, 0) == [Get(k)] && Dealt(ops[..4], 2, 0) == [Get(k), Store(k)]
            && Dealt(ops[..3], 2, 1) == [Get(j)] && Dealt(ops[..5], 2, 1) == [Get(j), Get(k)]
  {
    hide Dealt;
    var ops := StaleCopyScript(k, j, value);
    StaleCopyPrefixes(k, j, value);
    forall r | 0 <= r < 2
      ensures Dealt(ops[..2], 2, r) == if r == 0 then [Get(k)] else [Get(j)]
      ensures Dealt(ops[..3], 2, r) == Dealt(ops[..2], 2, r) + if r == 0 then [Store(k)] else []
      ensures Dealt(ops[..4], 2, r) == Dealt(ops[..3], 2, r) + if r == 0 then [] else [Get(k)]
      ensures Dealt(ops[..5], 2, r) == Dealt(ops[..4], 2, r) + if r == 0 then [Set(k, value)] else []
    {
      NothingDealt(2, r);
      DealtMore([], Get(k), 2, r);
      DealtMore(ops[..1], Get(j), 2, r);
      DealtMore(ops[..2], Store(k), 2, r);
      DealtMore(ops[..3], Get(k), 2, r);
      DealtMore(ops[..4], Set(k, value), 2, r);
    }
  }

  lemma NothingCreated()
    ensures Created([]) == []
  {}

  lemma NothingDealt(n: nat, r: nat)
    requires n > 0
    ensures Dealt([], n, r) == []
  {}

  lemma StaleCopyCreated(k: string, j: string)
    requires k != j
    ensures Created([Get(k)]) == [k] && Created([Get(k), Store(k)]) == [k]
    ensures Created([Get(j)]) == [j] && Created([Get(j), Get(k)]) == [j, k]
  {
    hide Created;
    CreatedOne(k);
    CreatedOne(j);
    CreatedTwo(Get(k), Store(k));
    CreatedTwo(Get(j), Get(k));
  }

  lemma CreatedOne(key: string)
    ensures Created([Get(key)]) == [key]
  {
    assert [] + [Get(key)] == [Get(key)];
    CreatedMore([], Get(key));
  }

  lemma CreatedTwo(first: Op, second: Op)
    ensures Created([first, second]) ==
            if second.Get? && second.key !in Created([first]) then Created([first]) + [second.key] else Created([first])
  {
    assert [first] + [second] == [first, second];
    CreatedMore([first], second);
  }

  lemma StaleCopyGoes(k: string, j: string, value: string)
    requires k != j
    ensures GoesThrough(StaleCopyScript(k, j, value), 6, 2)
    ensures Created(Dealt(StaleCopyScript(k, j, value)[..3], 2, 1)) == [j]
    ensures Created(Dealt(StaleCopyScript(k, j, value)[..5], 2, 1)) == [j, k]
  {
    hide HeldKeys, Dealt, Created, MayAsk;
    StaleCopyMayAsk(k, j, value);
    StaleCopyDealt(k, j, value);
    StaleCopyCreated(k, j);
  }

  /** The last write that the second instance makes to the key's slot is the creation of its own copy. */
  lemma StaleCopyWriter(log: seq<Event>, name: string, m: nat, k: string, j: string, value: string, x: int)
    requires k != j && m >= 2 && InTurn(log, name, StaleCopyScript(k, j, value), |log|, 2) && |log| == 6
    requires k in Created(Share(log[..5], 1))
    requires LastInSlot(log[..5], x, 1, m, SlotFor(log[..5], 1, m, k))
    ensures x == 3
  {
    hide Created, Share, Dealt, GoesThrough;
    var ops := StaleCopyScript(k, j, value);
    StaleCopyGoes(k, j, value);
    PrefixShare(log, name, ops, 2, 3, 1);
    PrefixShare(log, name, ops, 2, 5, 1);
    assert log[..5][..3] == log[..3];
    assert InstanceLaws.Number([j, k], k) == 1;
    SmallMod(1, m);
    assert WritesSlot(log[..5], 3, 1, m, 1);
  }

  /** Two instances with room for everything: every operation is carried out, the SET by one instance and the STORE
      that follows it by the other, which writes the initial value. */
  lemma StaleCopy(config: Config, maxEntries: nat, k: string, j: string, value: string)
    returns (steps: seq<Step>, s: State)
    requires k != j && value != DEFAULT_VALUE && maxEntries >= 2
    ensures Reached(config, [], Alike(2, maxEntries), steps, s) && FromArrival(steps, StaleCopyScript(k, j, value))
    ensures |s.log| == 6 && s.log[5].op == Store(k) && s.log[5].written == DEFAULT_VALUE
    ensures Window(s.log[..5], 3, k, s.log[5].name) && ValueSince(s.log[..5], 3, k) == value
  {
    hide Inv, Runs, After, Exclusive, KeysOk, GoesThrough, Created, Share, Dealt, Reached, Faithful, LastInSlot,
         SlotFor;
    var ops := StaleCopyScript(k, j, value);
    StaleCopyGoes(k, j, value);
    steps, s := LoneReached(config, 2, maxEntries, ops, 6);
    var x := StoreWritesSlot(s.nodes, s.log, 5);
    StaleCopyWriter(s.log, s.procs[0].name, maxEntries, k, j, value, x);
  }
}
