/** Without console commands on locks nobody is ever woken: an ESI keeps the processor until it finishes or blocks, so
    whoever blocks waits for a key that nobody will ever release. */
module NoWakeUp {
  import opened Types
  import opened Lists
  import opened PlannerSpec
  import opened WakeUp
  import opened PlannerSound
  import opened EsiSpec
  import opened InstanceSpec
  import opened KeyTable
  import opened LockHistory
  import opened System
  import opened Invariant
  import opened Moves
  import opened OneOrder
  import opened Locks

  /** The holder `name` of the key that ESI `waiter` waits for will not release it: it is nobody, for a preloaded
      key, or the waiter itself, or it has finished. */
  predicate Gone(ps: Planner, name: string, waiter: string) {
    name == "" || name == waiter || name in Ids(ps.finished)
  }

  predicate Blocks(b: Alloc, a: Alloc) {
    a.status == Waiting && b.status == Blocked && b.key == a.key
  }

  /** The ready ESIs never ran and hold nothing, nobody waits for the running one, and the first who blocked waits
      for a key that is gone. */
  ghost predicate Unwoken(s: State) {
    && (forall e :: e in s.planner.ready ==> !e.redo)
    && (s.net != [] && s.net[0].RunOrder? ==> !s.net[0].again)
    && (forall b :: b in s.planner.taken && b.status == Blocked ==> b.name == "" || Belongs(s.procs, b.name))
    && (forall b, e :: b in s.planner.taken && b.status == Blocked && e in s.planner.ready ==> b.name != e.id)
    && (forall a, b, r :: a in s.planner.taken && b in s.planner.taken && r in s.planner.running && Blocks(b, a) ==>
          b.name != r.id)
    && (s.planner.blocked != [] ==> FirstForGood(s.planner, s.planner.blocked[0].id))
  }

  ghost predicate FirstForGood(ps: Planner, first: string) {
    forall a, b :: a in ps.taken && b in ps.taken && Blocks(b, a) && a.name == first ==> Gone(ps, b.name, a.name)
  }

  lemma SameTableUnwoken(s: State, t: State)
    requires Unwoken(s) && t.planner.taken == s.planner.taken && t.planner.blocked == s.planner.blocked
    requires forall e :: e in t.planner.ready ==> e in s.planner.ready
    requires forall r :: r in t.planner.running ==> exists q :: q in s.planner.running && q.id == r.id
    requires forall id :: id in Ids(s.planner.finished) ==> id in Ids(t.planner.finished)
    requires |s.procs| <= |t.procs| && forall p :: 0 <= p < |s.procs| ==> t.procs[p].name == s.procs[p].name
    requires t.net != [] && t.net[0].RunOrder? ==> !t.net[0].again
    ensures Unwoken(t)
  {
    forall b | b in t.planner.taken && b.status == Blocked && b.name != ""
      ensures Belongs(t.procs, b.name)
    {
      BelongsStill(s.procs, t.procs, b.name);
    }
  }

  lemma BelongsStill(procs: seq<Proc>, more: seq<Proc>, name: string)
    requires Belongs(procs, name) && |procs| <= |more|
    requires forall p :: 0 <= p < |procs| ==> more[p].name == procs[p].name
    ensures Belongs(more, name)
  {
    var p :| 0 <= p < |procs| && procs[p].name == name;
    assert more[p].name == name;
  }

  lemma DispatchUnwoken(s: State, order: seq<Esi>, w: nat)
    requires Inv(s) && Unwoken(s) && s.net == [] && s.planner.running == [] && order != []
    requires w < |s.obs| && forall e :: e in order ==> e in s.planner.ready
    ensures Unwoken(AfterStart(s, order, w))
  {
    hide Inv, Belongs;
    assert order[0] in s.planner.ready;
    assert forall e :: e in order[1..] ==> e in order;
  }

  lemma ArrivalUnwoken(s: State, script: seq<Line>)
    requires Inv(s) && Unwoken(s)
    ensures Unwoken(AfterArrival(s, script))
  {
    hide Sound, Placed, InOrder, OfKnown, QueuesOnScript, FlightOnScript, OneOutstanding, Counted;
    var t := AfterArrival(s, script);
    forall b | b in s.planner.taken && b.status == Blocked && b.name != ""
      ensures Belongs(t.procs, b.name) && b.name != IdOf(s.planner.config, |s.procs|)
    {
      var p :| 0 <= p < |s.procs| && s.procs[p].name == b.name;
      assert t.procs[p].name == b.name;
      IdsDiffer(s.planner.config, p, |s.procs|);
    }
    IdsDiffer(s.planner.config, |s.procs|, |s.procs|);
  }

  /** The first who blocks: nobody else is blocked, and the ready ones hold nothing. */
  lemma DenialUnwoken(s: State, m: Msg)
    requires Inv(s) && Unwoken(s) && s.net == [m] && m.Question? && m.op.Get? && KeyHeld(s.planner.taken, m.op.key)
    requires |s.planner.running| == 1 && m.who < |s.obs|
    ensures Unwoken(AfterDenial(s, m))
  {
    hide Placed, InOrder, OfKnown, QueuesOnScript, FlightOnScript, Counted, KeyHeld, Sound, Wired;
    var t := AfterDenial(s, m);
    var a := Alloc(m.name, m.op.key, Waiting);
    assert t.planner.taken == s.planner.taken + [a];
    if s.planner.blocked == [] {
      NobodyWaits(s);
      forall b | b in s.planner.taken && Blocks(b, a)
        ensures Gone(t.planner, b.name, a.name)
      {
        HolderAtRest(s, b);
      }
    } else {
      AskerIsNew(s, m);
    }
  }

  lemma NobodyWaits(s: State)
    requires Inv(s) && s.planner.blocked == []
    ensures forall a :: a in s.planner.taken ==> a.status != Waiting
  {
    hide Placed, InOrder, OfKnown, QueuesOnScript, FlightOnScript, Counted, OneOutstanding, Wired, Everyone, Backed,
         SocketsMatch;
    forall a | a in s.planner.taken
      ensures a.status != Waiting
    {
      var i :| 0 <= i < |s.planner.taken| && s.planner.taken[i] == a;
      if a.status == Waiting {
        WaiterListed(s.planner.taken, i);
        assert false;
      }
    }
  }

  /** While nobody is blocked, whoever holds a key runs or has finished. */
  lemma HolderAtRest(s: State, b: Alloc)
    requires Inv(s) && Unwoken(s) && s.planner.blocked == [] && b in s.planner.taken && b.status == Blocked
    ensures b.name == "" || b.name in Ids(s.planner.running) || b.name in Ids(s.planner.finished)
  {
    hide Placed, InOrder, OfKnown, QueuesOnScript, FlightOnScript, Counted, OneOutstanding, Backed, SocketsMatch;
    if b.name != "" {
      var p :| 0 <= p < |s.procs| && s.procs[p].name == b.name;
      Conservation(s.planner);
      assert Everyone(s.planner)[IdOf(s.planner.config, p)] == 1;
      forall i | 0 <= i < |s.planner.ready|
        ensures Ids(s.planner.ready)[i] != b.name
      {
        assert s.planner.ready[i] in s.planner.ready;
      }
    }
  }

  lemma AskerIsNew(s: State, m: Msg)
    requires Inv(s) && s.net == [m] && m.Question? && s.planner.blocked != []
    ensures m.name != s.planner.blocked[0].id
  {
    hide Placed, InOrder, OfKnown, QueuesOnScript, FlightOnScript, Counted, Sound, Wired;
    Apart(s.planner);
    assert s.planner.running[0] in s.planner.running && s.planner.blocked[0] in s.planner.blocked;
  }

  /** A key is entered that nobody waits for. */
  lemma TakenUnwoken(s: State, m: Msg)
    requires Inv(s) && Unwoken(s) && Exclusive(s.planner.taken, s.net)
    requires s.net == [m, LineOk(m.who)] && m.Notice? && m.change.status == Blocked
    ensures Unwoken(AfterNotice(s, m))
  {
    hide Placed, InOrder, OfKnown, QueuesOnScript, FlightOnScript, Counted, Sound, Wired, Unwoken;
    var a := m.change;
    assert Taking(m, a.key) && Holders(s.planner.taken, a.key) == 0;
    forall w | w in s.planner.taken && w.status == Waiting
      ensures w.key != a.key
    {
      WaitedHasHolder(s, w);
    }
    Apart(s.planner);
    assert s.planner.running[0] in s.planner.running;
    assert s.procs[m.who].name == a.name;
    EntryUnwoken(s, AfterNotice(s, m), Alloc(a.name, a.key, Blocked));
  }

  lemma EntryUnwoken(s: State, t: State, entry: Alloc)
    requires Unwoken(s) && t.planner == s.planner.(taken := s.planner.taken + [entry]) && t.procs == s.procs
    requires entry.status == Blocked && Belongs(s.procs, entry.name)
    requires forall e :: e in s.planner.ready ==> e.id != entry.name
    requires forall a :: a in s.planner.taken && a.status == Waiting ==> a.key != entry.key
    requires t.net != [] && t.net[0].RunOrder? ==> !t.net[0].again
    ensures Unwoken(t)
  {
    hide Belongs;
    assert forall a :: a in t.planner.taken && a.status == Waiting ==> a in s.planner.taken;
    assert forall a, b :: Blocks(b, a) && a in t.planner.taken && b in t.planner.taken ==> b in s.planner.taken;
  }

  lemma WaitedHasHolder(s: State, w: Alloc)
    requires Inv(s) && w in s.planner.taken && w.status == Waiting
    ensures Holders(s.planner.taken, w.key) > 0
  {
    hide Placed, InOrder, OfKnown, QueuesOnScript, FlightOnScript, Counted, OneOutstanding, Wired, Everyone,
         SocketsMatch;
    WaitedIsHeld(s.planner.taken, w);
    HolderIsFirst(s.planner.taken, w.key);
  }

  /** The running ESI releases a key that nobody waits for. */
  lemma ReleasedUnwoken(s: State, m: Msg, pre: set<string>)
    requires Inv(s) && Unwoken(s) && KeysOk(s.planner.taken, s.log, s.net, pre)
    requires s.net == [m, LineOk(m.who)] && m.Notice? && m.change.status == AllocStatus.Released
    requires ChangeKeyStatus(s.planner, m.change).Some?
    ensures Unwoken(AfterNotice(s, m)) && AfterNotice(s, m).planner.blocked == s.planner.blocked
  {
    hide Placed, InOrder, OfKnown, QueuesOnScript, Counted, Sound, Wired, LockAfter, AllocIndex;
    var key, taken := m.change.key, s.planner.taken;
    LastLock(s.log, m.change.name, Store(key));
    if key in pre {
      UntouchedIsFree(s.log, key);
    }
    assert Holder(taken, key) == Some(m.change.name);
    HolderIsFirst(taken, key);
    var b := HolderEntry(taken, key);
    forall a | a in taken && a.status == Waiting
      ensures a.key != key
    {
      assert s.planner.running[0] in s.planner.running;
      assert !Blocks(b, a);
    }
    RemovedInside(taken, key);
    WakeNone(s.planner.(taken := RemoveHolder(taken, key)), key);
  }

  lemma HolderEntry(taken: seq<Alloc>, key: string) returns (b: Alloc)
    requires KeyHeld(taken, key)
    ensures b in taken && b.key == key && b.status == Blocked && Holder(taken, key) == Some(b.name)
  {
    HolderIsFirst(taken, key);
    b := taken[AllocIndex(taken, key, Blocked)];
  }

  lemma RemovedInside(taken: seq<Alloc>, key: string)
    ensures forall a :: a in RemoveHolder(taken, key) ==> a in taken
  {}

  lemma ReceivedUnwoken(s: State, t: State, pre: set<string>)
    requires Inv(s) && Unwoken(s) && Exclusive(s.planner.taken, s.net) && KeysOk(s.planner.taken, s.log, s.net, pre)
    requires s.net != [] && Received(s, s.net[0], t) && !t.crashed
    ensures Unwoken(t) && s.planner.blocked <= t.planner.blocked
  {
    hide Placed, InOrder, OfKnown, QueuesOnScript, Counted, Sound, Wired, KeyHeld, Exclusive, KeysOk, Unwoken, Process,
         InRange, NextNode, CheckWhosWaiting, Written, Run;
    var m := s.net[0];
    if m.Notice? {
      if m.change.status == Blocked {
        TakenUnwoken(s, m);
      } else {
        ReleasedUnwoken(s, m, pre);
      }
    } else if m.Question? && m.op.Get? && KeyHeld(s.planner.taken, m.op.key) {
      DenialUnwoken(s, m);
    } else if m.Finished? {
      FinishUnwoken(s, m);
    } else if m.RunOrder? {
      RunSends(s.procs[m.who], m.who, m.again);
      SameTableUnwoken(s, t);
    } else {
      RelayUnwoken(s, t);
    }
  }

  lemma RelayUnwoken(s: State, t: State)
    requires Unwoken(s) && s.net != [] && Received(s, s.net[0], t) && !t.crashed && |s.planner.running| == 1
    requires var m := s.net[0]; !m.Notice? && !m.Finished? && !m.RunOrder?
    requires s.net[0].Question? && s.net[0].op.Get? ==> !KeyHeld(s.planner.taken, s.net[0].op.key)
    ensures Unwoken(t) && t.planner.blocked == s.planner.blocked
  {
    hide KeyHeld, Unwoken, Process, InRange, NextNode, ChangeKeyStatus, Written, EndBurst, AllocIndex;
    assert s.planner.running[0] in s.planner.running;
    SameTableUnwoken(s, t);
  }

  lemma FinishUnwoken(s: State, m: Msg)
    requires Unwoken(s) && m.Finished? && |s.planner.running| == 1 && m.who < |s.obs|
    ensures Unwoken(AfterFinished(s, m))
  {
    hide Unwoken;
    IdsConcat(s.planner.finished, [EndBurst(s.planner.config, s.planner.running[0])]);
    SameTableUnwoken(s, AfterFinished(s, m));
  }

  lemma StepUnwoken(s: State, step: Step, pre: set<string>)
    requires Inv(s) && Enabled(s, step) && Harmless(s, step)
    requires Unwoken(s) && Exclusive(s.planner.taken, s.net) && KeysOk(s.planner.taken, s.log, s.net, pre)
    ensures Unwoken(Perform(s, step)) && s.planner.blocked <= Perform(s, step).planner.blocked
  {
    hide Sound, Wired, Placed, InOrder, OfKnown, QueuesOnScript, FlightOnScript, Counted, OneOutstanding, Perform,
         KeyHeld, Exclusive, KeysOk, Received, ReleaseKey;
    var t := Perform(s, step);
    StepForm(s, step);
    match step
    case Deliver(_) => if t.crashed { CrashOnly(s, t); } else { ReceivedUnwoken(s, t, pre); }
    case StartEsi(order) =>
      var w: nat :| w < |s.obs| && Mine(s.procs, order[0], w) && t == AfterStart(s, order, w);
      DispatchUnwoken(s, order, w);
    case Arrive(script) => ArrivalUnwoken(s, script);
    case ConsoleUnblock(key) => ReleaseFree(s.planner, key); SameTableUnwoken(s, t);
    case _ => SameTableUnwoken(s, t);
  }
}
