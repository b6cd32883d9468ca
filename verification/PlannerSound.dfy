/** What every handler of the planner keeps, on the planner's own data and without any assumption on the messages. */
module PlannerSound {
  import opened Types
  import opened Lists
  import opened Names
  import opened PlannerSpec
  import opened WakeUp

  /** The name of the p-th ESI to register. */
  function IdOf(config: Config, p: nat): string {
    NameOf(config.initId + p)
  }

  /** The names of the first `n` ESIs. */
  function NameRange(config: Config, n: nat): (r: seq<string>)
    ensures |r| == n
    ensures forall p :: 0 <= p < n ==> r[p] == IdOf(config, p)
  {
    seq(n, p requires 0 <= p => IdOf(config, p))
  }

  function Registered(ps: Planner): int {
    ps.counter - ps.config.initId
  }

  /** The names found in the four queues, with repetitions. */
  function Everyone(ps: Planner): multiset<string> {
    multiset(Ids(ps.ready)) + multiset(Ids(ps.running)) + multiset(Ids(ps.blocked)) + multiset(Ids(ps.finished))
  }

  ghost predicate HasHolder(taken: seq<Alloc>, key: string) {
    exists b :: b in taken && b.key == key && b.status == Blocked
  }

  /** Every waiter waits for a key that somebody holds. */
  ghost predicate Backed(taken: seq<Alloc>) {
    forall a :: a in taken && a.status == Waiting ==> HasHolder(taken, a.key)
  }

  ghost predicate SocketsMatch(ps: Planner) {
    && |ps.sockets| == Registered(ps)
    && (forall p :: 0 <= p < |ps.sockets| ==> ps.sockets[p].id == IdOf(ps.config, p))
  }

  /** The planner's own invariant. */
  ghost predicate Sound(ps: Planner) {
    && Registered(ps) >= 0
    && SocketsMatch(ps)
    && Everyone(ps) == multiset(NameRange(ps.config, Registered(ps)))
    && WaitingNames(ps.taken) == Ids(ps.blocked)
    && Backed(ps.taken)
    && |ps.running| <= 1
  }

  // ---------- What the invariant means ----------

  lemma IdsDiffer(config: Config, p: nat, q: nat)
    ensures IdOf(config, p) == IdOf(config, q) <==> p == q
    ensures IdOf(config, p) != ""
  {
    NamesDistinct(config.initId + p, config.initId + q);
  }

  lemma NameRangeDistinct(config: Config, n: nat)
    ensures Distinct(NameRange(config, n))
  {
    forall i, j | 0 <= i < j < n
      ensures NameRange(config, n)[i] != NameRange(config, n)[j]
    {
      IdsDiffer(config, i, j);
    }
  }

  lemma AtMostOnce(ps: Planner, id: string)
    requires Sound(ps)
    ensures multiset(Ids(ps.ready))[id] + multiset(Ids(ps.running))[id]
            + multiset(Ids(ps.blocked))[id] + multiset(Ids(ps.finished))[id] <= 1
  {
    NameRangeDistinct(ps.config, Registered(ps));
    DistinctCounts(NameRange(ps.config, Registered(ps)), id);
    assert Everyone(ps)[id] <= 1;
  }

  /** A name found in some queue is the name of a registered ESI. */
  lemma NameKnown(ps: Planner, id: string) returns (p: nat)
    requires Sound(ps) && id in Everyone(ps)
    ensures p < Registered(ps) && id == IdOf(ps.config, p)
  {
    var names := NameRange(ps.config, Registered(ps));
    assert id in names;
    p :| 0 <= p < |names| && names[p] == id;
  }

  /** Conservation: each registered ESI is in exactly one of the four queues, once, and nobody else is in any. */
  lemma Conservation(ps: Planner)
    requires Sound(ps)
    ensures |ps.ready| + |ps.running| + |ps.blocked| + |ps.finished| == Registered(ps)
    ensures forall p {:trigger IdOf(ps.config, p)} :: 0 <= p < Registered(ps) ==> Everyone(ps)[IdOf(ps.config, p)] == 1
    ensures forall id :: id in Everyone(ps) ==>
              exists p {:trigger IdOf(ps.config, p)} :: 0 <= p < Registered(ps) && id == IdOf(ps.config, p)
  {
    assert |Everyone(ps)| == |NameRange(ps.config, Registered(ps))|;
    forall p {:trigger IdOf(ps.config, p)} | 0 <= p < Registered(ps)
      ensures Everyone(ps)[IdOf(ps.config, p)] == 1
    {
      AtMostOnce(ps, IdOf(ps.config, p));
      assert NameRange(ps.config, Registered(ps))[p] == IdOf(ps.config, p);
    }
    forall id | id in Everyone(ps)
      ensures exists p {:trigger IdOf(ps.config, p)} :: 0 <= p < Registered(ps) && id == IdOf(ps.config, p)
    {
      var p := NameKnown(ps, id);
    }
  }

  lemma InQueue(q: seq<Esi>, e: Esi)
    requires e in q
    ensures multiset(Ids(q))[e.id] >= 1
  {
    var i :| 0 <= i < |q| && q[i] == e;
    assert Ids(q)[i] == e.id;
    assert e.id in Ids(q);
  }

  /** ESIs of different queues, or at different places of one queue, have different names. */
  lemma Apart(ps: Planner)
    requires Sound(ps)
    ensures Distinct(Ids(ps.ready)) && Distinct(Ids(ps.blocked)) && Distinct(Ids(ps.finished))
    ensures forall e, f :: e in ps.ready && f in ps.running ==> e.id != f.id
    ensures forall e, f :: e in ps.ready && f in ps.blocked ==> e.id != f.id
    ensures forall e, f :: e in ps.blocked && f in ps.running ==> e.id != f.id
    ensures forall e, f :: e in ps.finished && f in ps.ready ==> e.id != f.id
    ensures forall e, f :: e in ps.finished && f in ps.running ==> e.id != f.id
    ensures forall e, f :: e in ps.finished && f in ps.blocked ==> e.id != f.id
  {
    var w, r, b, f := Ids(ps.ready), Ids(ps.running), Ids(ps.blocked), Ids(ps.finished);
    forall id
      ensures multiset(w)[id] + multiset(r)[id] + multiset(b)[id] + multiset(f)[id] <= 1
    {
      AtMostOnce(ps, id);
    }
    CountsDistinct(w);
    CountsDistinct(b);
    CountsDistinct(f);
    Disjoint(ps.ready, ps.running);
    Disjoint(ps.ready, ps.blocked);
    Disjoint(ps.blocked, ps.running);
    Disjoint(ps.finished, ps.ready);
    Disjoint(ps.finished, ps.running);
    Disjoint(ps.finished, ps.blocked);
  }

  lemma Disjoint(q: seq<Esi>, r: seq<Esi>)
    requires forall id :: multiset(Ids(q))[id] + multiset(Ids(r))[id] <= 1
    ensures forall e, f :: e in q && f in r ==> e.id != f.id
  {
    forall e, f | e in q && f in r
      ensures e.id != f.id
    {
      InQueue(q, e);
      InQueue(r, f);
    }
  }

  /** Looking a name up finds the socket it was registered with, although the comparison ignores case. */
  lemma {:induction false} SocketFound(sockets: seq<EsiSocket>, lo: int, p: nat)
    requires p < |sockets|
    requires forall i {:trigger sockets[i]} :: 0 <= i < |sockets| ==> sockets[i].id == NameOf(lo + i)
    ensures FindSocket(sockets, NameOf(lo + p)) == Some(sockets[p].socket)
  {
    hide NameOf, EqualsIgnoreCase;
    NamesDistinct(lo + p, lo);
    assert sockets[0].id == NameOf(lo + 0);
    if p > 0 {
      var rest := sockets[1..];
      assert forall i {:trigger rest[i]} :: 0 <= i < |rest| ==>
               rest[i] == sockets[i + 1] && rest[i].id == NameOf(lo + 1 + i);
      SocketFound(rest, lo + 1, p - 1);
      assert lo + 1 + (p - 1) == lo + p;
    }
  }

  /** A registered ESI is known by its number. */
  lemma Known(ps: Planner, e: Esi) returns (p: nat)
    requires Sound(ps)
    requires e in ps.ready || e in ps.running || e in ps.blocked || e in ps.finished
    ensures p < Registered(ps) && e.id == IdOf(ps.config, p)
    ensures FindSocket(ps.sockets, e.id) == Some(ps.sockets[p].socket)
  {
    assert e.id in Everyone(ps) by {
      if e in ps.ready { InQueue(ps.ready, e); }
      else if e in ps.running { InQueue(ps.running, e); }
      else if e in ps.blocked { InQueue(ps.blocked, e); }
      else { InQueue(ps.finished, e); }
    }
    p := NameKnown(ps, e.id);
    SocketFound(ps.sockets, ps.config.initId, p);
  }

  // ---------- Every handler keeps it ----------

  lemma StartSound(config: Config, keys: seq<string>)
    ensures Sound(Start(config, keys))
  {
    NoWaiters(Preloaded(keys));
    assert Ids([]) == [];
    assert NameRange(config, 0) == [];
  }

  lemma NoWaiters(taken: seq<Alloc>)
    requires forall a :: a in taken ==> a.status == Blocked
    ensures WaitingNames(taken) == []
  {}

  lemma RegisterSound(ps: Planner, socket: nat)
    requires Sound(ps)
    ensures Sound(Register(ps, socket))
  {
    RegisterSockets(ps, socket);
    RegisterEveryone(ps, socket);
  }

  lemma RegisterSockets(ps: Planner, socket: nat)
    requires Sound(ps)
    ensures SocketsMatch(Register(ps, socket))
  {
    assert NewEsi(ps.config, ps.counter).id == IdOf(ps.config, Registered(ps));
  }

  lemma RegisterEveryone(ps: Planner, socket: nat)
    requires Sound(ps)
    ensures Everyone(Register(ps, socket)) == multiset(NameRange(ps.config, Registered(ps) + 1))
  {
    var e := NewEsi(ps.config, ps.counter);
    assert e.id == IdOf(ps.config, Registered(ps));
    IdsConcat([e], ps.ready);
    assert Ids([e]) == [e.id];
    NameRangeGrows(ps.config, Registered(ps));
    assert Everyone(Register(ps, socket)) == Everyone(ps) + multiset{e.id};
  }

  lemma NameRangeGrows(config: Config, n: nat)
    ensures NameRange(config, n + 1) == NameRange(config, n) + [IdOf(config, n)]
  {}

  lemma SortSound(ps: Planner, sorted: seq<Esi>)
    requires Sound(ps) && SortResult(ps.config.algorithm, ps.ready, sorted)
    ensures Sound(ps.(ready := sorted))
  {
    IdsPermuted(ps.ready, sorted);
  }

  lemma {:induction false} IdsPermuted(q: seq<Esi>, r: seq<Esi>)
    requires multiset(q) == multiset(r)
    ensures multiset(Ids(q)) == multiset(Ids(r))
    decreases |q|
  {
    assert |multiset(q)| == |multiset(r)|;
    if q != [] {
      Head(q);
      assert q[0] in multiset(r);
      var i :| 0 <= i < |r| && r[i] == q[0];
      Removed(q, r, i);
      IdsPermuted(q[1..], RemoveAt(r, i));
      IdsCount(q[0], q[1..]);
      RemovedId(r, i);
    }
  }

  lemma Removed(q: seq<Esi>, r: seq<Esi>, i: nat)
    requires multiset(q) == multiset(r) && q != [] && i < |r| && r[i] == q[0]
    ensures multiset(q[1..]) == multiset(RemoveAt(r, i))
  {
    assert q == [q[0]] + q[1..];
    assert multiset(q[1..]) == multiset(q) - multiset{q[0]};
  }

  lemma RemovedId(q: seq<Esi>, i: nat)
    requires i < |q|
    ensures multiset(Ids(q)) == multiset(Ids(RemoveAt(q, i))) + multiset{q[i].id}
  {
    assert Ids(RemoveAt(q, i)) == RemoveAt(Ids(q), i);
  }

  lemma DispatchSound(ps: Planner, sorted: seq<Esi>)
    requires Sound(ps) && CanDispatch(ps)
    requires SortResult(ps.config.algorithm, ps.ready, sorted)
    ensures sorted != []
    ensures Dispatch(ps, sorted).Some?
    ensures Sound(Dispatch(ps, sorted).value.planner)
  {
    assert |multiset(sorted)| == |multiset(ps.ready)| by { assert multiset(sorted) == multiset(ps.ready); }
    SortSound(ps, sorted);
    var p := Known(ps.(ready := sorted), sorted[0]);
    IdsFirst(sorted);
    var started := sorted[0].(programCounter := sorted[0].programCounter + 1, redo := false);
    assert [started] + ps.running == [started];
    assert Ids([started]) == [sorted[0].id];
  }

  lemma CountLineSound(ps: Planner)
    requires Sound(ps) && ps.running != []
    ensures CountLine(ps).Some?
    ensures Sound(CountLine(ps).value.planner)
  {
    var p := Known(ps, ps.running[0]);
    assert Ids(CountLine(ps).value.planner.running) == Ids(ps.running);
  }

  lemma FinishSound(ps: Planner)
    requires Sound(ps) && ps.running != []
    ensures Finish(ps).Some?
    ensures Sound(Finish(ps).value)
  {
    var e := EndBurst(ps.config, ps.running[0]);
    IdsFirst(ps.running);
    IdsConcat(ps.finished, [e]);
    assert Ids([e]) == [e.id];
  }

  lemma LoadKeySound(ps: Planner, key: string, name: string)
    requires Sound(ps)
    ensures Sound(LoadKey(ps, key, name))
  {
    var a := Alloc(name, key, Blocked);
    WaitingNamesConcat(ps.taken, [a]);
    assert WaitingNames([a]) == [];
    forall w | w in ps.taken + [a] && w.status == Waiting
      ensures HasHolder(ps.taken + [a], w.key)
    {
      var b :| b in ps.taken && b.key == w.key && b.status == Blocked;
      assert b in ps.taken + [a];
    }
  }

  /** A denied GET moves the asking ESI and adds its waiting entry. */
  lemma DenySound(ps: Planner, name: string, key: string)
    requires Sound(ps) && KeyHeld(ps.taken, key)
    requires ps.running != [] && ps.running[0].id == name
    ensures BlockEsi(ps, name) ==
            Some(ps.(running := [], blocked := ps.blocked + [EndBurst(ps.config, ps.running[0])]))
    ensures Sound(WaitForKey(BlockEsi(ps, name).value, key, name))
  {
    var e := EndBurst(ps.config, ps.running[0]);
    assert RemoveAt(ps.running, 0) == [];
    IdsFirst(ps.running);
    assert Ids([]) == [] && Ids([e]) == [name];
    IdsConcat(ps.blocked, [e]);
    var a := Alloc(name, key, Waiting);
    WaitingNamesConcat(ps.taken, [a]);
    assert WaitingNames([a]) == [name];
    var h := ps.taken[AllocIndex(ps.taken, key, Blocked)];
    forall w | w in ps.taken + [a] && w.status == Waiting
      ensures HasHolder(ps.taken + [a], w.key)
    {
      if w in ps.taken {
        var b :| b in ps.taken && b.key == w.key && b.status == Blocked;
        assert b in ps.taken + [a];
      } else {
        assert h in ps.taken + [a];
      }
    }
  }

  lemma AskSound(ps: Planner, name: string, op: Op)
    requires Sound(ps) && ps.running != [] && ps.running[0].id == name
    ensures Ask(ps, name, op).Some? ==> Sound(Ask(ps, name, op).value.planner)
    ensures op.Get? ==> Ask(ps, name, op).Some?
  {
    if op.Get? && KeyHeld(ps.taken, op.key) {
      DenySound(ps, name, op.key);
    }
  }

  lemma RemoveHolderWaiting(taken: seq<Alloc>, key: string)
    ensures WaitingNames(RemoveHolder(taken, key)) == WaitingNames(taken)
  {
    var i := AllocIndex(taken, key, Blocked);
    if i < |taken| {
      assert taken == taken[..i] + ([taken[i]] + taken[i + 1..]);
      WaitingNamesConcat(taken[..i], [taken[i]] + taken[i + 1..]);
      WaitingNamesConcat([taken[i]], taken[i + 1..]);
      WaitingNamesConcat(taken[..i], taken[i + 1..]);
    }
  }

  /** A release ends normally and is a filter; afterwards nobody waits for the key. */
  lemma ReleaseIsFilter(ps: Planner, key: string)
    requires Sound(ps)
    ensures ReleaseKey(ps, key) == Some(Woken(ps.(taken := RemoveHolder(ps.taken, key)), key))
    ensures WaitingNames(ReleaseKey(ps, key).value.taken) == Ids(ReleaseKey(ps, key).value.blocked)
    ensures forall a :: a in ReleaseKey(ps, key).value.taken && a.status == Waiting ==> a.key != key
  {
    var mid := ps.(taken := RemoveHolder(ps.taken, key));
    RemoveHolderWaiting(ps.taken, key);
    Apart(ps);
    WakeIsFilter(mid, key);
    forall a | a in Without(mid.taken, key) && a.status == Waiting
      ensures a.key != key
    {
      WithoutKeeps(mid.taken, key, a);
    }
  }

  /** The release of a key that nobody holds does nothing. */
  lemma ReleaseFree(ps: Planner, key: string)
    requires Sound(ps) && !KeyHeld(ps.taken, key)
    ensures ReleaseKey(ps, key) == Some(ps)
  {
    hide SocketsMatch, Everyone;
    forall a | a in ps.taken && a.status == Waiting
      ensures KeyHeld(ps.taken, a.key)
    {
      WaitedIsHeld(ps.taken, a);
    }
    WakeNone(ps, key);
  }

  lemma WaitedIsHeld(taken: seq<Alloc>, a: Alloc)
    requires Backed(taken) && a in taken && a.status == Waiting
    ensures KeyHeld(taken, a.key)
  {
    var b :| b in taken && b.key == a.key && b.status == Blocked;
    var i :| 0 <= i < |taken| && taken[i] == b;
  }

  lemma ReleaseSound(ps: Planner, key: string)
    requires Sound(ps)
    ensures ReleaseKey(ps, key).Some?
    ensures Sound(ReleaseKey(ps, key).value)
  {
    ReleaseIsFilter(ps, key);
    var names := Waiters(RemoveHolder(ps.taken, key), key);
    PickAndDrop(ps.blocked, names);
    IdsConcat(ps.ready, Redo(Pick(ps.blocked, names)));
    ReleaseBacked(ps.taken, key);
  }

  lemma ReleaseBacked(taken: seq<Alloc>, key: string)
    requires Backed(taken)
    ensures Backed(Without(RemoveHolder(taken, key), key))
  {
    var mid := RemoveHolder(taken, key);
    var i := AllocIndex(taken, key, Blocked);
    assert forall a :: a in mid ==> a in taken;
    forall w | w in Without(mid, key) && w.status == Waiting
      ensures HasHolder(Without(mid, key), w.key)
    {
      WithoutKeeps(mid, key, w);
      var b :| b in taken && b.key == w.key && b.status == Blocked;
      var j :| 0 <= j < |taken| && taken[j] == b;
      assert b in mid by {
        if i < |taken| {
          assert mid[if j < i then j else j - 1] == b;
        }
      }
      WithoutKeeps(mid, key, b);
    }
  }

  lemma ChangeKeySound(ps: Planner, change: Alloc)
    requires Sound(ps) && change.status != Waiting
    ensures ChangeKeyStatus(ps, change).Some?
    ensures Sound(ChangeKeyStatus(ps, change).value)
  {
    if change.status == Blocked {
      LoadKeySound(ps, change.key, change.name);
    } else {
      ReleaseSound(ps, change.key);
    }
  }
}
