/** The planner as its program updates it: queues and tables are fields, handlers are methods. A result `ok` that is
    false stands for the dereference of a null pointer. */
module PlannerProcess {
  import opened Types
  import opened Lists
  import opened Names
  import opened Estimates
  import opened PlannerSpec
  import opened WakeUp
  import opened PlannerSound

  // ---------- What the handlers promise, in terms of lists ----------

  /** The same ESIs, by estimate. */
  ghost predicate Sorted(before: seq<Esi>, after: seq<Esi>) {
    && multiset(after) == multiset(before)
    && forall i, j :: 0 <= i < j < |after| ==> after[i].lastEstimate <= after[j].lastEstimate
  }

  /** The first socket entry for the name. */
  predicate SocketAt(sockets: seq<EsiSocket>, i: int, id: string) {
    && 0 <= i < |sockets| && EqualsIgnoreCase(id, sockets[i].id)
    && forall j :: 0 <= j < i ==> !EqualsIgnoreCase(id, sockets[j].id)
  }

  /** An ESI at the end of its burst: the estimate is averaged with the burst, the counter starts again. */
  function BurstOver(alpha: real, e: Esi): Esi {
    Esi(e.id, 0, (alpha / 100.0) * (e.programCounter as real) + (1.0 - alpha / 100.0) * e.lastEstimate, e.redo)
  }

  lemma BurstEnds(config: Config, e: Esi)
    ensures EndBurst(config, e) == BurstOver(config.alpha, e)
  {}

  /** The ESI at place i of the running queue has gone to the end of the blocked queue. */
  function Stopped(ps: Planner, i: nat): Planner
    requires i < |ps.running|
  {
    ps.(running := ps.running[..i] + ps.running[i + 1..],
        blocked := ps.blocked + [BurstOver(ps.config.alpha, ps.running[i])])
  }

  predicate SomebodyHolds(taken: seq<Alloc>, key: string) {
    exists a :: a in taken && a.key == key && a.status == Blocked
  }

  predicate FirstHolder(taken: seq<Alloc>, i: int, key: string) {
    && 0 <= i < |taken| && taken[i].key == key && taken[i].status == Blocked
    && forall j :: 0 <= j < i ==> !(taken[j].key == key && taken[j].status == Blocked)
  }

  /** The first holder's entry is gone, the key's waiters are ready again behind the others, and their entries are
      gone. */
  ghost function AfterRelease(ps: Planner, key: string): Planner {
    var i := AllocIndex(ps.taken, key, Blocked);
    var left := if i < |ps.taken| then ps.taken[..i] + ps.taken[i + 1..] else ps.taken;
    var names := Waiters(left, key);
    ps.(ready := ps.ready + Redo(Pick(ps.blocked, names)),
        blocked := Drop(ps.blocked, names),
        taken := Without(left, key))
  }

  lemma ReleasedIs(ps: Planner, key: string)
    ensures AfterRelease(ps, key) == Woken(ps.(taken := RemoveHolder(ps.taken, key)), key)
  {}

  lemma HoldersIff(taken: seq<Alloc>, key: string)
    ensures KeyHeld(taken, key) <==> SomebodyHolds(taken, key)
    ensures KeyHeld(taken, key) ==> FirstHolder(taken, AllocIndex(taken, key, Blocked), key)
    ensures forall i :: FirstHolder(taken, i, key) ==> i == AllocIndex(taken, key, Blocked)
  {
    var i := AllocIndex(taken, key, Blocked);
    if i < |taken| {
      assert taken[i] in taken;
    }
  }

  class PlannerQueues {
    const config: Config
    var ready: seq<Esi>
    var running: seq<Esi>
    var blocked: seq<Esi>
    var finished: seq<Esi>
    var sockets: seq<EsiSocket>
    var taken: seq<Alloc>
    var counter: int
    var scheduling: bool

    function State(): Planner
      reads this
    {
      Planner(config, ready, running, blocked, finished, sockets, taken, counter, scheduling)
    }

    constructor (config: Config, keys: seq<string>)
      ensures State() == Start(config, keys)
      ensures State() == Planner(config, [], [], [], [], [], taken, config.initId, true)
      ensures |taken| == |keys| && forall i :: 0 <= i < |keys| ==> taken[i] == Alloc("", keys[i], Blocked)
    {
      this.config := config;
      ready, running, blocked, finished, sockets, taken := [], [], [], [], [], [];
      counter, scheduling := config.initId, true;
      new;
      var b := 0;
      while b < |keys|
        invariant 0 <= b <= |keys|
        invariant State() == Start(config, keys).(taken := Preloaded(keys[..b]))
      {
        LoadKey(keys[b], "");
        assert Preloaded(keys[..b + 1]) == Preloaded(keys[..b]) + [Alloc("", keys[b], Blocked)];
        b := b + 1;
      }
      assert keys[..b] == keys;
    }

    // ---------- Registration ----------

    method RegisterEsi(socket: nat) returns (name: string)
      modifies this
      ensures State() == Register(old(State()), socket)
      ensures IsNameOf(name, old(counter))
      ensures State() == old(State()).(ready := [Esi(name, 0, config.estZero as real, false)] + old(ready),
                                       sockets := old(sockets) + [EsiSocket(name, socket)],
                                       counter := old(counter) + 1)
    {
      NameIff(counter, NameOf(counter));
      name := NameOf(counter);
      counter := counter + 1;
      var e := Esi(name, 0, config.estZero as real, false);
      sockets := sockets + [EsiSocket(name, socket)];
      ready := [e] + ready;
    }

    // ---------- Scheduling ----------

    method SortByBurst()
      modifies this`ready
      ensures multiset(ready) == multiset(old(ready)) && Ascending(ready)
      ensures forall i, j :: 0 <= i < j < |ready| ==> ready[i].lastEstimate <= ready[j].lastEstimate
    {
      var sorted: seq<Esi> := [];
      var k := 0;
      while k < |ready|
        invariant 0 <= k <= |ready| && ready == old(ready)
        invariant multiset(sorted) == multiset(ready[..k])
        invariant Ascending(sorted)
      {
        sorted := InsertByBurst(sorted, ready[k]);
        assert ready[..k + 1] == ready[..k] + [ready[k]];
        k := k + 1;
      }
      assert ready[..k] == ready;
      ready := sorted;
    }

    method SortingQueues()
      modifies this`ready
      ensures SortResult(config.algorithm, old(ready), ready)
      ensures config.algorithm == FIFO ==> ready == old(ready)
      ensures config.algorithm == SJF_SD ==> Sorted(old(ready), ready)
    {
      if config.algorithm == SJF_SD && |ready| > 1 {
        SortByBurst();
      }
    }

    method SearchSocket(id: string) returns (socket: Option<nat>)
      ensures socket == FindSocket(sockets, id)
      ensures socket.Some? ==>
                exists i :: 0 <= i < |sockets| && SocketAt(sockets, i, id) && sockets[i].socket == socket.value
      ensures socket == None ==> forall i :: 0 <= i < |sockets| ==> !EqualsIgnoreCase(id, sockets[i].id)
    {
      var i := 0;
      while i < |sockets| && !EqualsIgnoreCase(id, sockets[i].id)
        invariant 0 <= i <= |sockets|
        invariant forall j :: 0 <= j < i ==> !EqualsIgnoreCase(id, sockets[j].id)
        invariant FindSocket(sockets[i..], id) == FindSocket(sockets, id)
      {
        i := i + 1;
      }
      socket := if i < |sockets| then Some(sockets[i].socket) else None;
      assert i < |sockets| ==> SocketAt(sockets, i, id);
    }

    /** One turn of `running_thread`: it sorts, and starts the first ESI if scheduling is on and nobody runs. */
    method RunningTurn() returns (ok: bool, sent: Option<Msg>, ghost sorted: seq<Esi>)
      modifies this
      ensures SortResult(config.algorithm, old(ready), sorted)
      ensures !CanDispatch(old(State())) ==> ok && sent == None && State() == old(State()).(ready := sorted)
      ensures CanDispatch(old(State())) ==> sorted != [] && ok == Dispatch(old(State()), sorted).Some?
      ensures CanDispatch(old(State())) && ok ==>
                var o := Dispatch(old(State()), sorted).value;
                State() == o.planner && sent == Some(RunOrder(o.socket, o.again))
      ensures config.algorithm == FIFO ==> sorted == old(ready)
      ensures config.algorithm == SJF_SD ==> Sorted(old(ready), sorted)
      ensures !old(scheduling) || old(ready) == [] || old(running) != [] ==>
                ok && sent == None && State() == old(State()).(ready := sorted)
      ensures old(scheduling) && old(ready) != [] && old(running) == [] && !ok ==>
                && sorted != []
                && forall i :: 0 <= i < |old(sockets)| ==> !EqualsIgnoreCase(sorted[0].id, old(sockets)[i].id)
      ensures old(scheduling) && old(ready) != [] && old(running) == [] && ok ==>
                && sorted != [] && sent.Some? && sent.value.RunOrder? && sent.value.again == sorted[0].redo
                && (exists i :: 0 <= i < |old(sockets)| && SocketAt(old(sockets), i, sorted[0].id)
                                && old(sockets)[i].socket == sent.value.who)
                && State() == old(State()).(
                     ready := sorted[1..],
                     running := [Esi(sorted[0].id, sorted[0].programCounter + 1, sorted[0].lastEstimate, false)])
    {
      hide EqualsIgnoreCase, FindSocket, Sorted;
      SortingQueues();
      sorted := ready;
      assert |multiset(sorted)| == |multiset(old(ready))| by {
        assert multiset(sorted) == multiset(old(ready));
      }
      ok, sent := true, None;
      if scheduling {
        if ready != [] && running == [] {
          var e := ready[0];
          ready := ready[1..];
          running := [e.(programCounter := e.programCounter + 1)] + running;
          var socket := SearchSocket(e.id);
          if socket == None {
            ok := false;
          } else {
            sent := Some(RunOrder(socket.value, e.redo));
            running := running[0 := running[0].(redo := false)];
            assert running == [running[0]];
          }
        }
      }
    }

    method ExecutionLineOk() returns (ok: bool, sent: Option<Msg>)
      modifies this
      ensures ok == CountLine(old(State())).Some?
      ensures ok ==>
                var o := CountLine(old(State())).value;
                State() == o.planner && sent == Some(RunOrder(o.socket, o.again))
      ensures old(running) != [] && !ok ==>
                forall i :: 0 <= i < |old(sockets)| ==> !EqualsIgnoreCase(old(running)[0].id, old(sockets)[i].id)
      ensures ok ==>
                && old(running) != [] && sent.Some? && sent.value.RunOrder? && !sent.value.again
                && (exists i :: 0 <= i < |old(sockets)| && SocketAt(old(sockets), i, old(running)[0].id)
                                && old(sockets)[i].socket == sent.value.who)
                && State() == old(State()).(
                     running := [old(running)[0].(programCounter := old(running)[0].programCounter + 1)]
                                + old(running)[1..])
    {
      ok, sent := false, None;
      if running != [] {
        running := running[0 := running[0].(programCounter := running[0].programCounter + 1)];
        var socket := SearchSocket(running[0].id);
        if socket != None {
          ok, sent := true, Some(RunOrder(socket.value, false));
        }
      }
    }

    method ExecutionFinished() returns (ok: bool)
      modifies this
      ensures ok == Finish(old(State())).Some?
      ensures ok ==> State() == Finish(old(State())).value
      ensures ok <==> old(running) != []
      ensures ok ==> State() == old(State()).(running := old(running)[1..],
                                              finished := old(finished) + [BurstOver(config.alpha, old(running)[0])])
    {
      ok := running != [];
      if ok {
        var e := running[0];
        BurstEnds(config, e);
        running := running[1..];
        e := e.(lastEstimate := Estimation(config.alpha, e.programCounter, e.lastEstimate));
        e := e.(programCounter := 0);
        finished := finished + [e];
      }
    }

    // ---------- Keys ----------

    method LoadKey(key: string, name: string)
      modifies this`taken
      ensures State() == PlannerSpec.LoadKey(old(State()), key, name)
      ensures State() == old(State()).(taken := old(taken) + [Alloc(name, key, Blocked)])
    {
      taken := taken + [Alloc(name, key, Blocked)];
    }

    method WaitForKey(key: string, name: string)
      modifies this`taken
      ensures State() == PlannerSpec.WaitForKey(old(State()), key, name)
      ensures State() == old(State()).(taken := old(taken) + [Alloc(name, key, Waiting)])
    {
      taken := taken + [Alloc(name, key, Waiting)];
    }

    method BlockEsi(name: string) returns (ok: bool)
      modifies this
      ensures ok == PlannerSpec.BlockEsi(old(State()), name).Some?
      ensures ok ==> State() == PlannerSpec.BlockEsi(old(State()), name).value
      ensures ok <==> name in Ids(old(running))
      ensures ok ==> State() == Stopped(old(State()), EsiIndex(old(running), name))
    {
      if name in Ids(running) {
        var k :| 0 <= k < |running| && Ids(running)[k] == name;
        assert running[k].id == name;
      }
      var i := EsiIndex(running, name);
      ok := i < |running|;
      if ok {
        var e := running[i];
        BurstEnds(config, e);
        running := RemoveAt(running, i);
        e := e.(lastEstimate := Estimation(config.alpha, e.programCounter, e.lastEstimate));
        e := e.(programCounter := 0);
        blocked := blocked + [e];
      }
    }

    /** Takes the first ESI called `name` off the blocked queue: the inner loop of the wake-up. */
    method TakeBlocked(name: string) returns (found: Option<Esi>)
      modifies this`blocked
      ensures var j := EsiIndex(old(blocked), name);
              if j == |old(blocked)| then found == None && blocked == old(blocked)
              else found == Some(old(blocked)[j]) && blocked == old(blocked)[..j] + old(blocked)[j + 1..]
    {
      found := None;
      var q := 0;
      while q < |blocked| && found == None
        invariant found == None ==> q <= |blocked| && blocked == old(blocked) && q <= EsiIndex(old(blocked), name)
        invariant found.Some? ==>
                    var j := EsiIndex(old(blocked), name);
                    j < |old(blocked)| && found == Some(old(blocked)[j]) && blocked == RemoveAt(old(blocked), j)
        decreases found == None, |blocked| - q
      {
        if blocked[q].id == name {
          found := Some(blocked[q]);
          blocked := RemoveAt(blocked, q);
        }
        q := q + 1;
      }
    }

    /** The wake-up loop. While waiting entries and blocked ESIs match, it moves exactly the key's waiters, in waiting
        order, to the end of the ready queue, and leaves everybody else in place. */
    method CheckWhosWaiting(key: string) returns (ok: bool)
      modifies this`taken, this`blocked, this`ready
      ensures old(WaitingNames(taken) == Ids(blocked) && Distinct(Ids(blocked))) ==>
                ok && State() == old(Woken(State(), key))
      ensures ok == PlannerSpec.CheckWhosWaiting(old(State()), key).Some?
      ensures ok ==> State() == PlannerSpec.CheckWhosWaiting(old(State()), key).value
    {
      hide PlannerSpec.CheckWhosWaiting, AllocIndex, EsiIndex, WaitingNames, Woken, Distinct;
      if WaitingNames(taken) == Ids(blocked) && Distinct(Ids(blocked)) {
        WakeIsFilter(State(), key);
      }
      var i := AllocIndex(taken, key, Waiting);
      while i < |taken|
        invariant i == AllocIndex(taken, key, Waiting)
        invariant PlannerSpec.CheckWhosWaiting(State(), key) == PlannerSpec.CheckWhosWaiting(old(State()), key)
        decreases |taken|
      {
        WakeTurn(State(), key);
        var name := taken[i].name;
        taken := RemoveAt(taken, i);
        var found := TakeBlocked(name);
        if found == None {
          return false;
        }
        ready := ready + [found.value.(redo := true)];
        i := AllocIndex(taken, key, Waiting);
      }
      WakeTurn(State(), key);
      ok := true;
    }

    method ReleaseKey(key: string) returns (ok: bool)
      modifies this
      ensures ok == PlannerSpec.ReleaseKey(old(State()), key).Some?
      ensures ok ==> State() == PlannerSpec.ReleaseKey(old(State()), key).value
      ensures old(WaitingNames(taken) == Ids(blocked) && Distinct(Ids(blocked))) ==>
                ok && State() == AfterRelease(old(State()), key)
    {
      hide PlannerSpec.CheckWhosWaiting, WaitingNames, Distinct, Woken, AfterRelease, RemoveHolder;
      RemoveHolderWaiting(taken, key);
      ReleasedIs(State(), key);
      taken := RemoveHolder(taken, key);
      ok := CheckWhosWaiting(key);
    }

    method ChangeKeyStatus(change: Alloc) returns (ok: bool)
      modifies this
      ensures ok == PlannerSpec.ChangeKeyStatus(old(State()), change).Some?
      ensures ok ==> State() == PlannerSpec.ChangeKeyStatus(old(State()), change).value
      ensures change.status != AllocStatus.Released ==> ok && State() == old(State()).(taken := old(taken) + [change])
      ensures change.status == AllocStatus.Released ==>
                old(WaitingNames(taken) == Ids(blocked) && Distinct(Ids(blocked))) ==>
                ok && State() == AfterRelease(old(State()), change.key)
    {
      match change.status {
        case Blocked => LoadKey(change.key, change.name); ok := true;
        case Waiting => WaitForKey(change.key, change.name); ok := true;
        case Released => ok := ReleaseKey(change.key);
      }
    }

    /** CAN_ESI_GET_KEY, CAN_ESI_SET_KEY and CAN_ESI_STORE_KEY. */
    method AnswerQuestion(name: string, op: Op) returns (ok: bool, granted: bool)
      modifies this
      ensures ok == Ask(old(State()), name, op).Some?
      ensures ok ==> Answer(State(), granted) == Ask(old(State()), name, op).value
      ensures op.Get? && !SomebodyHolds(old(taken), op.key) ==> ok && granted && State() == old(State())
      ensures op.Get? && SomebodyHolds(old(taken), op.key) ==>
                && ok == (name in Ids(old(running)))
                && (ok ==>
                      && !granted
                      && State() == Stopped(old(State()), EsiIndex(old(running), name)).(
                                      taken := old(taken) + [Alloc(name, op.key, Waiting)]))
      ensures !op.Get? ==> ok == SomebodyHolds(old(taken), op.key)
      ensures !op.Get? && ok ==>
                && State() == old(State())
                && (granted <==> exists i :: FirstHolder(old(taken), i, op.key) && old(taken)[i].name == name)
    {
      HoldersIff(taken, op.key);
      if op.Get? {
        granted := !KeyHeld(taken, op.key);
        ok := true;
        if !granted {
          ok := BlockEsi(name);
          if ok {
            ok := ChangeKeyStatus(Alloc(name, op.key, Waiting));
          }
        }
      } else {
        var i := AllocIndex(taken, op.key, Blocked);
        ok := i < |taken|;
        granted := ok && taken[i].name == name;
      }
    }

    // ---------- Console ----------

    method Pause()
      modifies this`scheduling
      ensures !scheduling && State() == old(State()).(scheduling := false)
    {
      scheduling := false;
    }

    method Resume()
      modifies this`scheduling
      ensures scheduling && State() == old(State()).(scheduling := true)
    {
      scheduling := true;
    }

    method Block(key: string, name: string)
      modifies this`taken
      ensures State() == PlannerSpec.LoadKey(old(State()), key, name)
      ensures State() == old(State()).(taken := old(taken) + [Alloc(name, key, Blocked)])
    {
      LoadKey(key, name);
    }

    method Unblock(key: string) returns (ok: bool)
      modifies this
      ensures ok == PlannerSpec.ReleaseKey(old(State()), key).Some?
      ensures ok ==> State() == PlannerSpec.ReleaseKey(old(State()), key).value
      ensures old(WaitingNames(taken) == Ids(blocked) && Distinct(Ids(blocked))) ==>
                ok && State() == AfterRelease(old(State()), key)
    {
      ok := ReleaseKey(key);
    }
  }

  /** Puts an ESI behind those whose estimate is not larger. */
  method InsertByBurst(q: seq<Esi>, e: Esi) returns (r: seq<Esi>)
    requires Ascending(q)
    ensures Ascending(r) && multiset(r) == multiset(q) + multiset{e}
  {
    var i := 0;
    while i < |q| && q[i].lastEstimate <= e.lastEstimate
      invariant 0 <= i <= |q|
      invariant forall j :: 0 <= j < i ==> q[j].lastEstimate <= e.lastEstimate
    {
      i := i + 1;
    }
    assert q == q[..i] + q[i..];
    r := q[..i] + [e] + q[i..];
  }
}
