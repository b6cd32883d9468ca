/** When everything rests: who is not finished, and why; and scripts with which everybody finishes. */
module Deadlock {
  import opened Types
  import opened Lists
  import opened PlannerSpec
  import opened WakeUp
  import opened PlannerSound
  import opened KeyTable
  import opened LockHistory
  import opened System
  import opened Invariant
  import opened Moves
  import opened Locks
  import opened Isolation
  import opened Scripts
  import opened Termination
  import opened Progress
  import opened NoWakeUp

  // ---------- Tidy scripts ----------

  /** A GET is of a key that was not preloaded and that the ESI does not hold already. */
  ghost predicate FreshGets(script: seq<Line>, pre: set<string>) {
    forall i {:trigger script[i]} ::
      0 <= i < |script| && GoodLines(script, i) && script[i].Valid? && script[i].op.Get? ==>
      script[i].op.key !in pre && script[i].op.key !in HeldKeys(OpsOf(script, i))
  }

  /** Such GETs only, and everything taken is stored. */
  ghost predicate Tidy(script: seq<Line>, pre: set<string>) {
    FreshGets(script, pre) && Leftover(script) == {}
  }

  /** Every GET is of a key that comes, in the common order, after all keys held. */
  ghost predicate Ordered(script: seq<Line>, rank: string -> nat) {
    forall i {:trigger script[i]} ::
      0 <= i < |script| && GoodLines(script, i) && script[i].Valid? && script[i].op.Get? ==>
      forall h :: h in HeldKeys(OpsOf(script, i)) ==> rank(h) < rank(script[i].op.key)
  }

  /** Every line is good, brackets its key, respects the common order, and everything taken is stored. */
  ghost predicate WellBehaved(script: seq<Line>, rank: string -> nat) {
    GoodLines(script, |script|) && Windowed(script) && Ordered(script, rank) && HeldKeys(OpsOf(script, |script|)) == {}
  }

  /** No line takes one of the keys. */
  predicate Avoids(script: seq<Line>, pre: set<string>) {
    forall i :: 0 <= i < |script| ==> script[i].Valid? && script[i].op.Get? ==> script[i].op.key !in pre
  }

  lemma AllGood(script: seq<Line>)
    requires GoodLines(script, |script|)
    ensures FirstBad(script) == |script|
  {}

  /** Well behaved scripts that leave the preloaded keys alone are tidy, whatever the order they share. */
  lemma OrderIsTidy(script: seq<Line>, rank: string -> nat, pre: set<string>)
    requires WellBehaved(script, rank) && Avoids(script, pre)
    ensures Tidy(script, pre)
  {
    hide HeldKeys;
    AllGood(script);
  }

  // ---------- Blocked and finished ESIs ----------

  /** The waiting entry of a blocked ESI. */
  lemma EntryOf(s: State, b: Esi) returns (a: Alloc)
    requires Inv(s) && b in s.planner.blocked
    ensures a in s.planner.taken && a.status == Waiting && a.name == b.id
  {
    hide Wired, Placed, OfKnown, QueuesOnScript, Counted, InOrder, FlightOnScript, OneOutstanding, Everyone, Backed,
         SocketsMatch;
    var i :| 0 <= i < |s.planner.blocked| && s.planner.blocked[i] == b;
    assert WaitingNames(s.planner.taken)[i] == b.id;
    a := ListedWaiter(s.planner.taken, i);
  }

  lemma {:induction false} ListedWaiter(taken: seq<Alloc>, i: nat) returns (a: Alloc)
    requires i < |WaitingNames(taken)|
    ensures a in taken && a.status == Waiting && a.name == WaitingNames(taken)[i]
  {
    if taken[0].status == Waiting && i == 0 {
      a := taken[0];
    } else {
      a := ListedWaiter(taken[1..], if taken[0].status == Waiting then i - 1 else i);
    }
  }

  /** A registered ESI that is neither ready nor running is blocked or finished. */
  lemma RecordOf(s: State, q: nat) returns (e: Esi)
    requires Inv(s) && s.planner.ready == [] && s.planner.running == [] && q < |s.procs|
    ensures e in s.planner.blocked || e in s.planner.finished
    ensures Mine(s.procs, e, q)
  {
    hide Sound, Placed, OfKnown, QueuesOnScript, Counted, InOrder, FlightOnScript, OneOutstanding;
    Conservation(s.planner);
    var id := IdOf(s.planner.config, q);
    assert Everyone(s.planner)[id] == 1;
    if id in Ids(s.planner.blocked) {
      e := NamedIn(s.planner.blocked, id);
    } else {
      assert id in Ids(s.planner.finished);
      e := NamedIn(s.planner.finished, id);
    }
  }

  lemma NamedIn(queue: seq<Esi>, id: string) returns (e: Esi)
    requires id in Ids(queue)
    ensures e in queue && e.id == id
  {
    var i :| 0 <= i < |Ids(queue)| && Ids(queue)[i] == id;
    e := queue[i];
  }

  /** While the planner schedules, either a productive step can be taken or nothing runs, is ready or is in flight. */
  lemma Moving(s: State, pre: set<string>) returns (step: Step)
    requires Orderly(s, pre) && s.planner.scheduling && (s.net != [] || s.planner.ready != [])
    ensures Productive(step) && Enabled(s, step)
  {
    hide Inv, Exclusive, KeysOk, Stored, Windowed, WaitsForLine;
    if s.net != [] {
      step := Deliver(0);
    } else {
      step := StartEsi(SortBy(s.planner.config.algorithm, s.planner.ready));
    }
  }

  // ---------- Why somebody is not finished ----------

  /** Somebody waits for a key that was preloaded, that a finished ESI holds, or that it holds itself. */
  ghost predicate WaitsInVain(ps: Planner) {
    exists a :: a in ps.taken && VainFor(ps, a)
  }

  predicate VainFor(ps: Planner, a: Alloc) {
    a.status == Waiting && Holder(ps.taken, a.key).Some? && Gone(ps, Holder(ps.taken, a.key).value, a.name)
  }

  /** Whoever blocked first waits in vain. */
  lemma FirstWaitsInVain(s: State) returns (a: Alloc)
    requires Inv(s) && Unwoken(s) && s.planner.blocked != []
    ensures a in s.planner.taken && VainFor(s.planner, a)
  {
    hide Wired, Placed, InOrder, OfKnown, QueuesOnScript, FlightOnScript, Counted, OneOutstanding, Everyone,
         SocketsMatch;
    a := EntryOf(s, s.planner.blocked[0]);
    WaitedIsHeld(s.planner.taken, a);
    var b := HolderEntry(s.planner.taken, a.key);
    assert Blocks(b, a);
  }

  lemma BlockedIffVain(s: State)
    requires Inv(s) && Unwoken(s)
    ensures s.planner.blocked != [] <==> WaitsInVain(s.planner)
  {
    hide Inv, Unwoken;
    if s.planner.blocked != [] {
      var a := FirstWaitsInVain(s);
    }
    if a :| a in s.planner.taken && VainFor(s.planner, a) {
      var b := WaiterIsBlocked(s, a);
    }
  }

  // ---------- Tidy scripts never block ----------

  /** With tidy scripts nobody ever waits in vain, so nobody ever blocks. */
  lemma NobodyBlocks(s: State, pre: set<string>)
    requires Orderly(s, pre) && Unwoken(s)
    requires forall p :: 0 <= p < |s.procs| ==> Tidy(s.procs[p].script, pre)
    ensures s.planner.blocked == []
  {
    hide Orderly, Inv, Unwoken, Tidy, KeysOk, Exclusive, Stored, Windowed, WaitsForLine;
    OrderlyInv(s, pre);
    if s.planner.blocked != [] {
      var a := FirstWaitsInVain(s);
      NotInVain(s, a, pre);
    }
  }

  lemma NotInVain(s: State, a: Alloc, pre: set<string>)
    requires Orderly(s, pre) && a in s.planner.taken && a.status == Waiting
    requires forall p :: 0 <= p < |s.procs| ==> Tidy(s.procs[p].script, pre)
    ensures !VainFor(s.planner, a)
  {
    hide Sound, Placed, OfKnown, FlightOnScript, Counted, Exclusive, Stored, Windowed, Applied, HeldKeys, LockAfter,
         OneOutstanding, FirstBad, QueuesOnScript;
    var b := WaiterIsBlocked(s, a);
    var p := OwnerOf(s, b);
    var script, ops := s.procs[p].script, Applied(s.log, a.name);
    assert script[|ops|] == Valid(Get(a.key));
    PrefixOps(ops, script);
    assert a.key !in pre && a.key !in HeldKeys(ops);
    NotPreloaded(s, a.key, pre);
    RestingHolds(s, a.name, a.key, pre) by { NotRunning(s, a, b); }
    forall e | e in s.planner.finished
      ensures Holder(s.planner.taken, a.key) != Some(e.id)
    {
      TidyFinished(s, e, a.key, pre);
    }
    FinishedIds(s);
  }

  lemma NotRunning(s: State, a: Alloc, b: Esi)
    requires Inv(s) && b in s.planner.blocked && b.id == a.name
    ensures a.name != "" && forall r :: r in s.planner.running ==> r.id != a.name
  {
    hide Wired, Placed, InOrder, OfKnown, QueuesOnScript, FlightOnScript, Counted, OneOutstanding;
    Apart(s.planner);
    var p := Known(s.planner, b);
    IdsDiffer(s.planner.config, p, p);
  }

  lemma FinishedIds(s: State)
    ensures forall id :: id in Ids(s.planner.finished) ==> exists e :: e in s.planner.finished && e.id == id
  {
    forall id | id in Ids(s.planner.finished)
      ensures exists e :: e in s.planner.finished && e.id == id
    {
      var e := NamedIn(s.planner.finished, id);
    }
  }

  lemma TidyFinished(s: State, e: Esi, key: string, pre: set<string>)
    requires Orderly(s, pre) && e in s.planner.finished
    requires forall p :: 0 <= p < |s.procs| ==> Tidy(s.procs[p].script, pre)
    ensures Holder(s.planner.taken, key) != Some(e.id)
  {
    hide Sound, Placed, OfKnown, FlightOnScript, Counted, Exclusive, KeysOk, Stored, Windowed, WaitsForLine, Applied,
         HeldKeys, OneOutstanding, FirstBad;
    FinishedHolds(s, e, key, pre);
    var p := OwnerOf(s, e);
    FinishedWhole(s, e, p);
  }

  // ---------- Some order the sort may produce ----------

  function Insert(e: Esi, q: seq<Esi>): (r: seq<Esi>)
    ensures multiset(r) == multiset(q) + multiset{e}
  {
    if q == [] then [e]
    else if e.lastEstimate <= q[0].lastEstimate then [e] + q
    else
      Head(q);
      [q[0]] + Insert(e, q[1..])
  }

  lemma {:induction false} InsertAscends(e: Esi, q: seq<Esi>)
    requires Ascending(q)
    ensures Ascending(Insert(e, q))
  {
    if q != [] && e.lastEstimate > q[0].lastEstimate {
      InsertAscends(e, q[1..]);
      var rest := Insert(e, q[1..]);
      assert multiset(rest) == multiset(q[1..]) + multiset{e};
      forall f | f in rest
        ensures q[0].lastEstimate <= f.lastEstimate
      {
        assert f in multiset(rest);
      }
      FirstAscends(q[0], rest);
    }
  }

  lemma FirstAscends(e: Esi, q: seq<Esi>)
    requires Ascending(q) && forall f :: f in q ==> e.lastEstimate <= f.lastEstimate
    ensures Ascending([e] + q)
  {}

  function SortBy(algorithm: Algorithm, q: seq<Esi>): (r: seq<Esi>)
    ensures SortResult(algorithm, q, r)
  {
    if algorithm == FIFO then q
    else if q == [] then []
    else
      Head(q);
      var rest := SortBy(algorithm, q[1..]);
      InsertAscends(q[0], rest);
      Insert(q[0], rest)
  }
}
