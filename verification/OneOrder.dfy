/** Every step keeps the protocol invariant. */
module OneOrder {
  import opened Types
  import opened Lists
  import opened PlannerSpec
  import opened WakeUp
  import opened PlannerSound
  import opened EsiSpec
  import opened InstanceSpec
  import opened InstanceLaws
  import opened System
  import opened Invariant
  import opened Moves

  predicate SameQueues(a: Planner, b: Planner) {
    && a.config == b.config && a.ready == b.ready && a.running == b.running && a.blocked == b.blocked
    && a.finished == b.finished && a.sockets == b.sockets && a.counter == b.counter
  }

  /** A step that changes the planner's keys, the switch or the instances, and nothing else. */
  lemma AsideKeeps(s: State, t: State)
    requires Inv(s) && Sound(t.planner) && SameQueues(s.planner, t.planner) && Placed(t.nodes, t.lastUsed)
    requires t.procs == s.procs && t.net == s.net && t.log == s.log && t.obs == s.obs
    requires |s.nodes| <= |t.nodes|
    ensures Inv(t)
  {
    hide Sound, Placed, InOrder, OfKnown, FlightOnScript, OneOutstanding;
  }

  // ---------- Lines read and carried out ----------

  /** Reading a line: from rest the next one, from a parked state the same one again. */
  lemma LineRead(proc: Proc, who: nat, again: bool, log: seq<Event>)
    requires PrefixOf(Applied(log, proc.name), proc.script)
    requires if again then Parked(proc, Done(log, proc)) else AtRest(proc, Done(log, proc))
    ensures var ran := Run(proc, who, again);
            && ran.proc.name == proc.name && ran.proc.script == proc.script
            && ran.sent.who == who && !ran.sent.Notice? && !ran.sent.Apply? && Carries(ran.sent, proc.name)
            && Stage(ran.sent, ran.proc, Done(log, proc), log)
  {}

  lemma RunSends(proc: Proc, who: nat, again: bool)
    ensures Run(proc, who, again).sent.Instruction? || Run(proc, who, again).sent.Finished?
    ensures Run(proc, who, again).proc.name == proc.name && Run(proc, who, again).proc.script == proc.script
  {}

  /** The mark goes to the line that is read, and the cursor behind it, whether it parses or not; at the end of the
      script neither moves past it. */
  lemma CursorMoves(proc: Proc, who: nat, again: bool)
    ensures var from := if again then proc.mark else proc.cursor;
            && Run(proc, who, again).proc.mark == from
            && Run(proc, who, again).proc.cursor == (if from < |proc.script| then from + 1 else from)
            && (Run(proc, who, again).sent.Finished? <==> from >= |proc.script| || proc.script[from].Garbage?)
  {}

  /** Nobody but the running ESI changed: the other queues' ESIs are where they were. */
  lemma OthersStay(s: State, procs: seq<Proc>, log: seq<Event>, w: nat)
    requires Inv(s) && RunningIs(s, w) && |procs| == |s.procs|
    requires forall p :: 0 <= p < |s.procs| ==> procs[p].name == s.procs[p].name
    requires forall p :: 0 <= p < |s.procs| && p != w ==>
               procs[p] == s.procs[p] && Applied(log, s.procs[p].name) == Applied(s.log, s.procs[p].name)
    ensures QueuesOnScript(s.planner, procs, log)
    ensures Counted(s.planner, procs, s.obs)
    ensures OfKnown(s.procs, log) ==> OfKnown(procs, log)
  {
    hide Sound, Placed, FlightOnScript, OneOutstanding, QueuesOnScript, Counted, Applied;
    OthersOnScript(s, procs, log, w);
    OthersCounted(s, procs);
    forall name | Belongs(s.procs, name)
      ensures Belongs(procs, name)
    {
      var p :| 0 <= p < |s.procs| && s.procs[p].name == name;
      assert procs[p].name == name;
    }
  }

  lemma OthersOnScript(s: State, procs: seq<Proc>, log: seq<Event>, w: nat)
    requires Inv(s) && RunningIs(s, w) && |procs| == |s.procs|
    requires forall p :: 0 <= p < |s.procs| ==> procs[p].name == s.procs[p].name
    requires forall p :: 0 <= p < |s.procs| && p != w ==>
               procs[p] == s.procs[p] && Applied(log, s.procs[p].name) == Applied(s.log, s.procs[p].name)
    ensures QueuesOnScript(s.planner, procs, log)
  {
    hide Sound, Placed, FlightOnScript, OneOutstanding, Counted, Applied, Parked, AtRest, Complete, OfKnown, InOrder;
    Apart(s.planner);
    assert s.planner.running[0] in s.planner.running;
    assert forall e, p :: Mine(procs, e, p) <==> Mine(s.procs, e, p);
  }

  lemma OthersCounted(s: State, procs: seq<Proc>)
    requires Counted(s.planner, s.procs, s.obs) && |procs| == |s.procs|
    requires forall p :: 0 <= p < |s.procs| ==> procs[p].name == s.procs[p].name
    ensures Counted(s.planner, procs, s.obs)
  {
    assert forall e, p :: Mine(procs, e, p) <==> Mine(s.procs, e, p);
  }

  lemma RunOrderKeeps(s: State, m: Msg)
    requires Inv(s) && s.net == [m] && m.RunOrder? && m.who < |s.procs|
    ensures Inv(AfterRunOrder(s, m))
  {
    hide Sound, Placed, Counted, QueuesOnScript, OfKnown, Run, Parked, Complete, LastIs, Applied, PrefixOf;
    LineRead(s.procs[m.who], m.who, m.again, s.log);
    OthersStay(s, AfterRunOrder(s, m).procs, s.log, m.who);
  }

  /** The stages in which the line has been read and is being asked about or passed on. */
  lemma RelayKeeps(s: State, m: Msg, t: State)
    requires Inv(s) && s.net == [m]
    requires t.planner == s.planner && t.procs == s.procs && t.nodes == s.nodes && t.log == s.log && t.obs == s.obs
    requires -1 <= t.lastUsed < |t.nodes|
    requires t.net == [] || (|t.net| == 1 && t.net[0].who == m.who && Passed(m, t.net[0]))
    requires Addressed(t.net, t.nodes)
    ensures Inv(t)
  {
    hide Sound, Wired, Counted, QueuesOnScript, OfKnown, InOrder, Circular, Parked, Complete, Applied;
  }

  predicate Passed(m: Msg, n: Msg) {
    || (m.Instruction? && n == Question(m.who, m.name, m.op))
    || (m.Question? && n == Permit(m.who, m.name, m.op))
    || (m.Permit? && n.Apply? && n == Apply(m.who, m.name, m.op, n.node))
  }

  /** Carrying out the line that was read brings the ESI to rest behind it. */
  lemma ExecutedLine(s: State, event: Event, w: nat)
    requires Inv(s) && w < |s.procs| && event.name == s.procs[w].name
    requires Parked(s.procs[w], Done(s.log, s.procs[w]))
    requires s.procs[w].script[Done(s.log, s.procs[w])] == Valid(event.op)
    ensures forall p :: 0 <= p < |s.procs| && p != w ==>
              Applied(s.log + [event], s.procs[p].name) == Applied(s.log, s.procs[p].name)
    ensures InOrder(s.procs, s.log + [event]) && OfKnown(s.procs, s.log + [event])
    ensures AtRest(s.procs[w], Done(s.log + [event], s.procs[w]))
  {
    hide Sound, Placed, FlightOnScript, OneOutstanding, QueuesOnScript, Counted, Applied;
    forall p | 0 <= p < |s.procs| && p != w
      ensures Applied(s.log + [event], s.procs[p].name) == Applied(s.log, s.procs[p].name)
    {
      IdsDiffer(s.planner.config, p, w);
      AppliedGrows(s.log, event, s.procs[p].name);
    }
    AppliedGrows(s.log, event, event.name);
    assert Belongs(s.procs, event.name);
  }

  lemma ApplyKeeps(s: State, m: Msg)
    requires Inv(s) && s.net == [m] && CanExecute(s, m)
    ensures Inv(AfterApply(s, m))
  {
    hide Sound, Process, Circular, Counted, QueuesOnScript, OfKnown, InOrder, Applied, Written;
    var t := AfterApply(s, m);
    KeepsCircular(s.nodes[m.node].store, m.op);
    if t.net[0].success {
      var event := t.log[|s.log|];
      assert t.log == s.log + [event];
      ExecutedLine(s, event, m.who);
      OthersStay(s, t.procs, t.log, m.who);
    }
  }

  lemma ReplyKeeps(s: State, m: Msg)
    requires Inv(s) && s.net == [m] && m.Reply?
    ensures Inv(AfterReply(s, m))
  {
    hide Sound, Wired, Placed, Counted, QueuesOnScript, OfKnown, InOrder, Applied;
  }

  // ---------- Leaving the running queue ----------

  /** The queues after the running ESI moved to the blocked or the finished queue. */
  lemma MovedTallies(s: State, planner: Planner, w: nat)
    requires Inv(s) && RunningIs(s, w)
    requires planner.config == s.planner.config && planner.running == [] && planner.ready == s.planner.ready
    requires var e := EndBurst(s.planner.config, s.planner.running[0]);
             || (planner.blocked == s.planner.blocked + [e] && planner.finished == s.planner.finished)
             || (planner.finished == s.planner.finished + [e] && planner.blocked == s.planner.blocked)
    ensures Counted(planner, s.procs, s.obs[w := CloseBurst(s.obs[w])])
  {
    hide Sound, Placed, FlightOnScript, OneOutstanding, QueuesOnScript, InOrder, OfKnown;
    Apart(s.planner);
    var r := s.planner.running[0];
    assert r in s.planner.running;
    var e := EndBurst(s.planner.config, r);
    var bursts := s.obs[w].bursts;
    assert (bursts + [s.obs[w].orders])[..|bursts|] == bursts;
    forall p | Mine(s.procs, e, p)
      ensures p == w
    {
      IdsDiffer(s.planner.config, p, w);
    }
    assert forall f :: f in planner.blocked || f in planner.finished ==>
             f == e || f in s.planner.blocked || f in s.planner.finished;
  }

  lemma DenialKeeps(s: State, m: Msg)
    requires Inv(s) && s.net == [m] && m.Question? && m.op.Get? && KeyHeld(s.planner.taken, m.op.key)
    ensures m.who < |s.obs| && |s.planner.running| == 1
    ensures Inv(AfterDenial(s, m))
  {
    hide Sound, Placed, InOrder, OfKnown, Applied, KeyHeld, Tallies;
    DenySound(s.planner, m.name, m.op.key);
    var t := AfterDenial(s, m);
    MovedTallies(s, t.planner, m.who);
    MovedOnScript(s, t.planner, m.who);
  }

  lemma FinishedKeeps(s: State, m: Msg)
    requires Inv(s) && s.net == [m] && m.Finished?
    ensures m.who < |s.obs| && |s.planner.running| == 1
    ensures Inv(AfterFinished(s, m))
  {
    hide Sound, Placed, InOrder, OfKnown, Applied, Tallies;
    FinishSound(s.planner);
    var t := AfterFinished(s, m);
    assert s.planner.running[1..] == [];
    MovedTallies(s, t.planner, m.who);
    MovedOnScript(s, t.planner, m.who);
  }

  /** A denied ESI is parked on its line; a finished one has nothing left to do. */
  lemma MovedOnScript(s: State, planner: Planner, w: nat)
    requires Inv(s) && RunningIs(s, w) && s.net != [] && s.net[0].who == w
    requires planner.ready == s.planner.ready
    requires var e := EndBurst(s.planner.config, s.planner.running[0]);
             || (s.net[0].Question?
                 && planner.blocked == s.planner.blocked + [e] && planner.finished == s.planner.finished)
             || (s.net[0].Finished?
                 && planner.finished == s.planner.finished + [e] && planner.blocked == s.planner.blocked)
    ensures QueuesOnScript(planner, s.procs, s.log)
  {
    hide Sound, Placed, OneOutstanding, Counted, InOrder, OfKnown, Applied;
    var e := EndBurst(s.planner.config, s.planner.running[0]);
    forall p | Mine(s.procs, e, p)
      ensures p == w
    {
      IdsDiffer(s.planner.config, p, w);
    }
    assert forall f :: f in planner.blocked ==> f == e || f in s.planner.blocked;
    assert forall f :: f in planner.finished ==> f == e || f in s.planner.finished;
  }

  // ---------- Run orders ----------

  lemma LineOkKeeps(s: State, m: Msg)
    requires Inv(s) && s.net == [m] && m.LineOk?
    ensures m.who < |s.obs| && |s.planner.running| == 1
    ensures Inv(AfterLineOk(s, m))
  {
    hide Sound, Placed, InOrder, OfKnown, Applied, QueuesOnScript, Counted;
    var e := s.planner.running[0];
    var counted := e.(programCounter := e.programCounter + 1);
    assert s.planner.running[0 := counted] == [counted];
    CountLineSound(s.planner);
    LineOkTallies(s, m.who);
  }

  lemma LineOkTallies(s: State, w: nat)
    requires Inv(s) && RunningIs(s, w)
    ensures w < |s.obs|
    ensures var e := s.planner.running[0];
            var planner := s.planner.(running := [e.(programCounter := e.programCounter + 1)]);
            && Counted(planner, s.procs, s.obs[w := OneMoreOrder(s.obs[w])])
            && QueuesOnScript(planner, s.procs, s.log)
  {
    hide Sound, Placed, InOrder, OfKnown, Applied, FlightOnScript, OneOutstanding;
    var e := s.planner.running[0];
    var counted := e.(programCounter := e.programCounter + 1);
    assert e in s.planner.running;
    Apart(s.planner);
    forall p | Mine(s.procs, e, p)
      ensures p == w
    {
      IdsDiffer(s.planner.config, p, w);
    }
    assert forall p :: Mine(s.procs, counted, p) ==> Mine(s.procs, e, p);
  }

  lemma StartKeeps(s: State, order: seq<Esi>, w: nat)
    requires Inv(s) && Enabled(s, StartEsi(order)) && order != [] && w < |s.obs| && s.net == []
    requires Mine(s.procs, order[0], w) && forall e :: e in order ==> e in s.planner.ready
    ensures Inv(AfterStart(s, order, w))
  {
    hide Sound, Placed, InOrder, OfKnown, Applied, SortResult, Parked, AtRest, Counted;
    var t := AfterStart(s, order, w);
    var e := order[0];
    assert [e.(programCounter := e.programCounter + 1, redo := false)] + s.planner.running == t.planner.running;
    DispatchSound(s.planner, order);
    assert Dispatch(s.planner, order).value.planner == t.planner;
    assert e in order;
    assert forall f :: f in t.planner.ready ==> f in order;
    StartCounted(s, order, w);
  }

  lemma StartCounted(s: State, order: seq<Esi>, w: nat)
    requires Inv(s) && order != [] && w < |s.obs| && Sound(AfterStart(s, order, w).planner)
    requires Mine(s.procs, order[0], w) && forall e :: e in order ==> e in s.planner.ready
    ensures var t := AfterStart(s, order, w); Counted(t.planner, t.procs, t.obs)
  {
    hide Sound, Placed, InOrder, OfKnown, Applied, QueuesOnScript, FlightOnScript, OneOutstanding;
    var t := AfterStart(s, order, w);
    var e := order[0];
    Apart(t.planner);
    assert e in order && t.planner.running[0] in t.planner.running;
    assert forall f :: f in t.planner.ready ==> f in order;
    forall p | Mine(s.procs, e, p)
      ensures p == w
    {
      IdsDiffer(s.planner.config, p, w);
    }
    assert forall p :: Mine(s.procs, t.planner.running[0], p) ==> Mine(s.procs, e, p);
  }

  lemma TickKeeps(s: State, order: seq<Esi>)
    requires Inv(s) && Enabled(s, Tick(order)) && forall e :: e in order ==> e in s.planner.ready
    ensures Inv(s.(planner := s.planner.(ready := order)))
  {
    hide Sound, Placed, InOrder, OfKnown, Applied, SortResult, Parked, FlightOnScript, OneOutstanding, Tallies;
    SortSound(s.planner, order);
  }

  // ---------- Keys ----------

  lemma ReleasedKeeps(s: State, t: State, key: string)
    requires Inv(s) && ReleaseKey(s.planner, key).Some? && t.planner == ReleaseKey(s.planner, key).value
    requires t.procs == s.procs && t.log == s.log && t.obs == s.obs && t.nodes == s.nodes && t.lastUsed == s.lastUsed
    requires OneOutstanding(s.planner.running, t.procs, t.net) && FlightOnScript(t.net, t.procs, t.log)
    requires Addressed(t.net, t.nodes)
    ensures Inv(t)
  {
    hide Sound, Placed, InOrder, OfKnown, Applied, Parked, FlightOnScript, OneOutstanding, CheckWhosWaiting;
    ReleaseSound(s.planner, key);
    ReleasedQueues(s.planner, key);
    forall e, p | e in t.planner.ready && e !in s.planner.ready && Mine(t.procs, e, p)
      ensures e.redo && exists b :: b in s.planner.blocked && e == b.(redo := true) && Mine(s.procs, b, p)
    {
      var b :| b in s.planner.blocked && e == b.(redo := true);
      assert Mine(s.procs, b, p);
    }
  }

  /** Whoever is ready after a release was ready before, or was blocked and is now marked for repetition. */
  lemma ReleasedQueues(ps: Planner, key: string)
    requires Sound(ps)
    ensures ReleaseKey(ps, key).Some?
    ensures var after := ReleaseKey(ps, key).value;
            && after.config == ps.config && after.running == ps.running && after.finished == ps.finished
            && after.sockets == ps.sockets && after.counter == ps.counter
            && (forall e :: e in after.blocked ==> e in ps.blocked)
            && (forall e :: e in after.ready ==>
                  e in ps.ready || (e.redo && exists b :: b in ps.blocked && e == b.(redo := true)))
  {
    hide Sound, CheckWhosWaiting;
    ReleaseIsFilter(ps, key);
    var names := Waiters(RemoveHolder(ps.taken, key), key);
    forall e: Esi
      ensures e in Drop(ps.blocked, names) ==> e in ps.blocked
      ensures e in Pick(ps.blocked, names) ==> e in ps.blocked
    {
      PickKeeps(ps.blocked, names, e);
    }
  }

  lemma NoticeKeeps(s: State, m: Msg)
    requires Inv(s) && s.net == [m, LineOk(m.who)] && m.Notice? && ChangeKeyStatus(s.planner, m.change).Some?
    ensures Inv(AfterNotice(s, m))
  {
    hide Sound, Placed, Wired, InOrder, OfKnown, Applied, QueuesOnScript, Counted, ReleaseKey;
    var t := AfterNotice(s, m);
    if m.change.status == Released {
      ReleasedKeeps(s, t, m.change.key);
    } else {
      LoadKeySound(s.planner, m.change.key, m.change.name);
      AsideKeeps(s.(net := t.net), t);
    }
  }

  // ---------- Arrivals ----------

  lemma Newcomer(s: State)
    requires Inv(s)
    ensures Applied(s.log, IdOf(s.planner.config, |s.procs|)) == []
    ensures forall f ::
              f in s.planner.ready || f in s.planner.running || f in s.planner.blocked || f in s.planner.finished ==>
              f.id != IdOf(s.planner.config, |s.procs|)
  {
    hide Sound, Placed, QueuesOnScript, Counted, FlightOnScript, OneOutstanding;
    var id := IdOf(s.planner.config, |s.procs|);
    forall f | f in s.planner.ready || f in s.planner.running || f in s.planner.blocked || f in s.planner.finished
      ensures f.id != id
    {
      var p := Known(s.planner, f);
      IdsDiffer(s.planner.config, p, |s.procs|);
    }
    forall i | 0 <= i < |s.log|
      ensures s.log[i].name != id
    {
      var p :| 0 <= p < |s.procs| && s.procs[p].name == s.log[i].name;
      IdsDiffer(s.planner.config, p, |s.procs|);
    }
    NothingApplied(s.log, id);
  }

  lemma NothingApplied(log: seq<Event>, name: string)
    requires forall i :: 0 <= i < |log| ==> log[i].name != name
    ensures Applied(log, name) == []
  {}

  /** A newcomer has done nothing and nothing has been asked of it. */
  lemma ArrivalKeeps(s: State, script: seq<Line>)
    requires Inv(s)
    ensures Inv(AfterArrival(s, script))
  {
    hide Sound, Placed, Applied, Counted, QueuesOnScript, EsiSpec.Run, OfKnown, Stage;
    RegisterSound(s.planner, |s.procs|);
    Newcomer(s);
    ArrivalQueues(s, script);
    StillKnown(s.procs, AfterArrival(s, script).procs, s.log);
  }

  lemma ArrivalQueues(s: State, script: seq<Line>)
    requires Inv(s)
    ensures var t := AfterArrival(s, script);
            QueuesOnScript(t.planner, t.procs, t.log) && Counted(t.planner, t.procs, t.obs)
  {
    hide Sound, Placed, Applied, InOrder, OfKnown, FlightOnScript, OneOutstanding, QueuesOnScript, Counted, Register;
    var t := AfterArrival(s, script);
    var n := |s.procs|;
    var e := NewEsi(s.planner.config, s.planner.counter);
    Newcomer(s);
    assert e.id == IdOf(s.planner.config, n);
    ReadyAfterArrival(s.planner, n);
    forall f, p | Mine(t.procs, f, p) && p != n
      ensures Mine(s.procs, f, p)
    {}
    forall p | Mine(t.procs, e, p)
      ensures p == n
    {
      IdsDiffer(s.planner.config, p, n);
    }
    ArrivedOnScript(s, t, e);
    ArrivedCounted(s, t, e);
  }

  lemma ReadyAfterArrival(ps: Planner, socket: nat)
    ensures var after := Register(ps, socket);
            && after.ready == [NewEsi(ps.config, ps.counter)] + ps.ready && after.running == ps.running
            && after.blocked == ps.blocked && after.finished == ps.finished && after.config == ps.config
  {}

  /** The newcomer e is alone with its number. */
  ghost predicate Joined(s: State, t: State, e: Esi) {
    && t.planner.config == s.planner.config && t.planner.ready == [e] + s.planner.ready
    && t.planner.running == s.planner.running && t.planner.blocked == s.planner.blocked
    && t.planner.finished == s.planner.finished
    && |t.procs| == |s.procs| + 1 && (forall p :: 0 <= p < |s.procs| ==> t.procs[p] == s.procs[p])
    && (forall p :: Mine(t.procs, e, p) ==> p == |s.procs|)
    && (forall f ::
          f in s.planner.ready || f in s.planner.running || f in s.planner.blocked || f in s.planner.finished ==>
          !Mine(t.procs, f, |s.procs|))
  }

  lemma ArrivedOnScript(s: State, t: State, e: Esi)
    requires Joined(s, t, e) && QueuesOnScript(s.planner, s.procs, s.log) && t.log == s.log && !e.redo
    requires AtRest(t.procs[|s.procs|], Done(s.log, t.procs[|s.procs|]))
    ensures QueuesOnScript(t.planner, t.procs, t.log)
  {
    hide Applied, AtRest, Parked, Complete;
    assert forall f, p :: Mine(t.procs, f, p) ==> p == |s.procs| || Mine(s.procs, f, p);
  }

  lemma ArrivedCounted(s: State, t: State, e: Esi)
    requires Joined(s, t, e) && Counted(s.planner, s.procs, s.obs) && t.obs == s.obs + [Obs(0, [])]
    requires e.programCounter == 0 && e.lastEstimate == s.planner.config.estZero as real
    ensures Counted(t.planner, t.procs, t.obs)
  {
    assert forall f, p :: Mine(t.procs, f, p) ==> p == |s.procs| || Mine(s.procs, f, p);
  }

  lemma StillKnown(procs: seq<Proc>, more: seq<Proc>, log: seq<Event>)
    requires OfKnown(procs, log) && procs <= more
    ensures OfKnown(more, log)
  {
    forall i | 0 <= i < |log|
      ensures Belongs(more, log[i].name)
    {
      assert Belongs(procs, log[i].name);
      var p :| 0 <= p < |procs| && procs[p].name == log[i].name;
      assert more[p].name == log[i].name;
    }
  }

  // ---------- Every step, every run ----------

  lemma ReceivedKeeps(s: State, t: State)
    requires Inv(s) && s.net != [] && Received(s, s.net[0], t)
    ensures Inv(t)
  {
    hide Sound, Placed, Wired, InOrder, OfKnown, QueuesOnScript, FlightOnScript, Counted, InRange, Process, Ask,
         KeyHeld;
    var m := s.net[0];
    assert s.net == if m.Notice? then [m, LineOk(m.who)] else [m];
    if t == s.(crashed := true) {
      AsideKeeps(s, t);
    } else {
      match m
      case RunOrder(_, _) => RunOrderKeeps(s, m);
      case Question(_, _, _) => QuestionKeeps(s, m, t);
      case Apply(_, _, _, _) => ApplyKeeps(s, m);
      case Reply(_, _, _, _, _) => ReplyKeeps(s, m);
      case Notice(_, _) => NoticeKeeps(s, m);
      case LineOk(_) => LineOkKeeps(s, m);
      case Finished(_) => FinishedKeeps(s, m);
      case Instruction(_, _, _) => PlacedBounds(s); RelayKeeps(s, m, t);
      case Permit(_, _, _) => RelayKeeps(s, m, t);
    }
  }

  lemma QuestionKeeps(s: State, m: Msg, t: State)
    requires Inv(s) && s.net == [m] && m.Question? && Received(s, m, t) && t != s.(crashed := true)
    ensures Inv(t)
  {
    hide Sound, Placed, Wired, InOrder, OfKnown, QueuesOnScript, FlightOnScript, Counted, KeyHeld, AllocIndex;
    if m.op.Get? && KeyHeld(s.planner.taken, m.op.key) {
      DenialKeeps(s, m);
    } else {
      PlacedBounds(s);
      RelayKeeps(s, m, t);
    }
  }

  lemma PlacedBounds(s: State)
    requires Inv(s)
    ensures -1 <= s.lastUsed < |s.nodes|
  {}

  /** The protocol invariant is kept by every step, console commands and arrivals included. */
  lemma StepKeeps(s: State, step: Step)
    requires Inv(s) && Enabled(s, step)
    ensures Inv(Perform(s, step))
  {
    hide Sound, Wired, InOrder, OfKnown, QueuesOnScript, FlightOnScript, Counted, Perform, Received, Circular;
    var t := Perform(s, step);
    StepForm(s, step);
    match step
    case Deliver(i) => ReceivedKeeps(s, t);
    case StartEsi(order) =>
      var w: nat :| w < |s.obs| && Mine(s.procs, order[0], w) && t == AfterStart(s, order, w);
      StartKeeps(s, order, w);
    case Tick(order) => TickKeeps(s, order);
    case Arrive(script) => ArrivalKeeps(s, script);
    case Pause => SwitchSound(s.planner, false); AsideKeeps(s, t);
    case Resume => SwitchSound(s.planner, true); AsideKeeps(s, t);
    case ConsoleBlock(key, name) => LoadKeySound(s.planner, key, name); AsideKeeps(s, t);
    case ConsoleUnblock(key) => ReleasedKeeps(s, t, key);
    case Join(maxEntries) =>
      FreshCircular(maxEntries);
      assert forall n :: 0 <= n < |s.nodes| ==> t.nodes[n] == s.nodes[n];
      AsideKeeps(s, t);
  }

  lemma SwitchSound(ps: Planner, on: bool)
    requires Sound(ps)
    ensures Sound(ps.(scheduling := on))
  {}

  lemma FreshCircular(maxEntries: nat)
    requires maxEntries > 0
    ensures Circular(Fresh(maxEntries))
  {}

  /** Instances that have just been set up. */
  ghost predicate AllFresh(nodes: seq<Node>) {
    forall n :: 0 <= n < |nodes| ==> exists k: nat :: k > 0 && nodes[n].store == Fresh(k)
  }

  lemma InitInv(config: Config, keys: seq<string>, nodes: seq<Node>)
    requires AllFresh(nodes)
    ensures Inv(Init(config, keys, nodes))
  {
    StartSound(config, keys);
    hide Sound;
    forall n | 0 <= n < |nodes|
      ensures Circular(nodes[n].store)
    {
      var k: nat :| k > 0 && nodes[n].store == Fresh(k);
      FreshCircular(k);
    }
  }

  lemma {:induction false} RunKeeps(s: State, steps: seq<Step>)
    requires Inv(s) && Runs(s, steps)
    ensures Inv(After(s, steps))
    decreases |steps|
  {
    hide Inv, Perform, Enabled;
    if steps != [] {
      StepKeeps(s, steps[0]);
      RunKeeps(Perform(s, steps[0]), steps[1..]);
    }
  }
}
