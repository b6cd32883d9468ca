/** The wake-up loop of the planner: it moves exactly the ESIs that wait for the released key. */
module WakeUp {
  import opened Types
  import opened Lists
  import opened PlannerSpec

  // ---------- Waiting entries and blocked ESIs ----------

  /** The names in the WAITING entries, in list order. */
  function WaitingNames(taken: seq<Alloc>): seq<string> {
    if taken == [] then []
    else if taken[0].status == Waiting then [taken[0].name] + WaitingNames(taken[1..])
    else WaitingNames(taken[1..])
  }

  lemma WaitingNamesConcat(s: seq<Alloc>, t: seq<Alloc>)
    ensures WaitingNames(s + t) == WaitingNames(s) + WaitingNames(t)
  {
    if s == [] {
      assert s + t == t;
    } else {
      assert (s + t)[1..] == s[1..] + t;
      WaitingNamesConcat(s[1..], t);
    }
  }

  /** The list without its WAITING entries for the key. */
  function Without(taken: seq<Alloc>, key: string): seq<Alloc> {
    if taken == [] then []
    else if taken[0].key == key && taken[0].status == Waiting then Without(taken[1..], key)
    else [taken[0]] + Without(taken[1..], key)
  }

  lemma WithoutKeeps(taken: seq<Alloc>, key: string, a: Alloc)
    ensures a in Without(taken, key) <==> a in taken && !(a.key == key && a.status == Waiting)
  {}

  ghost function Waiters(taken: seq<Alloc>, key: string): set<string> {
    set a | a in taken && a.key == key && a.status == Waiting :: a.name
  }

  /** The ESIs whose name is in the set, in queue order. */
  function Pick(q: seq<Esi>, names: set<string>): seq<Esi> {
    if q == [] then []
    else if q[0].id in names then [q[0]] + Pick(q[1..], names)
    else Pick(q[1..], names)
  }

  /** The ESIs whose name is not in the set, in queue order. */
  function Drop(q: seq<Esi>, names: set<string>): seq<Esi> {
    if q == [] then []
    else if q[0].id in names then Drop(q[1..], names)
    else [q[0]] + Drop(q[1..], names)
  }

  lemma PickKeeps(q: seq<Esi>, names: set<string>, e: Esi)
    ensures e in Pick(q, names) <==> e in q && e.id in names
    ensures e in Drop(q, names) <==> e in q && e.id !in names
  {}

  /** The filters look at one element after the other and keep the order of what they keep. */
  lemma {:induction false} FiltersInOrder(t: seq<Alloc>, a: Alloc, key: string, q: seq<Esi>, e: Esi, names: set<string>)
    ensures Without([], key) == [] && Pick([], names) == [] && Drop([], names) == []
    ensures Without(t + [a], key) == Without(t, key) + if a.key == key && a.status == Waiting then [] else [a]
    ensures Pick(q + [e], names) == Pick(q, names) + if e.id in names then [e] else []
    ensures Drop(q + [e], names) == Drop(q, names) + if e.id in names then [] else [e]
    decreases |t| + |q|
  {
    if t != [] {
      assert (t + [a])[1..] == t[1..] + [a];
      FiltersInOrder(t[1..], a, key, q, e, names);
    } else {
      assert t + [a] == [a] && [a][1..] == [];
      if q != [] {
        assert (q + [e])[1..] == q[1..] + [e];
        FiltersInOrder(t, a, key, q[1..], e, names);
      } else {
        assert q + [e] == [e] && [e][1..] == [];
      }
    }
  }

  function Redo(q: seq<Esi>): (r: seq<Esi>)
    ensures |r| == |q|
    ensures forall i :: 0 <= i < |q| ==> r[i] == Esi(q[i].id, q[i].programCounter, q[i].lastEstimate, true)
    ensures Ids(r) == Ids(q)
  {
    seq(|q|, i requires 0 <= i < |q| => q[i].(redo := true))
  }

  lemma {:induction false} PickAndDrop(q: seq<Esi>, names: set<string>)
    ensures multiset(Ids(Pick(q, names))) + multiset(Ids(Drop(q, names))) == multiset(Ids(q))
  {
    if q != [] {
      PickAndDrop(q[1..], names);
      Head(q);
      IdsCount(q[0], q[1..]);
      IdsCount(q[0], if q[0].id in names then Pick(q[1..], names) else Drop(q[1..], names));
    }
  }

  lemma IdsCount(e: Esi, q: seq<Esi>)
    ensures multiset(Ids([e] + q)) == multiset{e.id} + multiset(Ids(q))
  {
    assert Ids([e] + q) == [e.id] + Ids(q);
  }

  lemma IdsFirst(q: seq<Esi>)
    requires q != []
    ensures Ids(q) == [q[0].id] + Ids(q[1..])
  {}

  lemma IdsConcat(s: seq<Esi>, t: seq<Esi>)
    ensures Ids(s + t) == Ids(s) + Ids(t)
  {}

  lemma DistinctTail(taken: seq<Alloc>)
    requires taken != [] && Distinct(WaitingNames(taken))
    ensures Distinct(WaitingNames(taken[1..]))
    ensures taken[0].status == Waiting ==> taken[0].name !in WaitingNames(taken[1..])
  {
    var rest := WaitingNames(taken[1..]);
    var c := |WaitingNames(taken)| - |rest|;
    assert forall x :: 0 <= x < |rest| ==> rest[x] == WaitingNames(taken)[x + c];
    if taken[0].status == Waiting {
      assert WaitingNames(taken)[0] == taken[0].name;
    }
  }

  lemma {:induction false} UniqueWaiter(taken: seq<Alloc>, i: nat, j: nat)
    requires Distinct(WaitingNames(taken))
    requires i <= j < |taken|
    requires taken[i].status == Waiting && taken[j].status == Waiting && taken[i].name == taken[j].name
    ensures i == j
  {
    DistinctTail(taken);
    if i > 0 {
      UniqueWaiter(taken[1..], i - 1, j - 1);
    } else if j > 0 {
      WaiterListed(taken[1..], j - 1);
    }
  }

  /** A waiting entry at the head of the list pairs with the ESI at the head of the queue. */
  lemma HeadsMatch(t: seq<Alloc>, b: seq<Esi>)
    requires WaitingNames(t) == Ids(b)
    requires t != [] && t[0].status == Waiting
    ensures b != [] && b[0].id == t[0].name
    ensures WaitingNames(t[1..]) == Ids(b[1..])
  {
    assert Ids(b)[0] == t[0].name;
    assert Ids(b[1..]) == Ids(b)[1..];
  }

  lemma WaiterListed(taken: seq<Alloc>, i: nat)
    requires i < |taken| && taken[i].status == Waiting
    ensures taken[i].name in WaitingNames(taken)
  {
    if i > 0 {
      WaiterListed(taken[1..], i - 1);
    }
  }

  // ---------- The wake-up loop refines a filter ----------

  /** One turn of the loop, as the planner's functions have it. */
  lemma WakeTurn(ps: Planner, key: string)
    ensures CheckWhosWaiting(ps, key) ==
            var i := AllocIndex(ps.taken, key, Waiting);
            if i == |ps.taken| then Some(ps)
            else
              var j := EsiIndex(ps.blocked, ps.taken[i].name);
              if j == |ps.blocked| then None
              else
                CheckWhosWaiting(
                  ps.(taken := RemoveAt(ps.taken, i),
                      blocked := RemoveAt(ps.blocked, j),
                      ready := ps.ready + [ps.blocked[j].(redo := true)]),
                  key)
  {}

  /** The state in which the key's waiters have been moved, in waiting order, to the end of the ready queue. */
  ghost function Woken(ps: Planner, key: string): Planner {
    var names := Waiters(ps.taken, key);
    ps.(ready := ps.ready + Redo(Pick(ps.blocked, names)),
        blocked := Drop(ps.blocked, names),
        taken := Without(ps.taken, key))
  }

  /** The loop's progress: the entries `done` and the ESIs `kept` have been passed over, `t` and `b` are to be
      seen. */
  ghost predicate Passing(key: string, names: set<string>, done: seq<Alloc>, t: seq<Alloc>, kept: seq<Esi>, b: seq<Esi>)
  {
    && WaitingNames(t) == Ids(b)
    && (forall a :: a in done ==> !(a.key == key && a.status == Waiting))
    && (forall e :: e in kept ==> e.id !in names)
    && (forall a :: a in t && a.status == Waiting ==> (a.key == key <==> a.name in names))
  }

  lemma {:induction false} WakeFrom(ps: Planner, key: string, names: set<string>,
                                    done: seq<Alloc>, t: seq<Alloc>, kept: seq<Esi>, b: seq<Esi>)
    requires Passing(key, names, done, t, kept, b)
    ensures CheckWhosWaiting(ps.(taken := done + t, blocked := kept + b), key) ==
            Some(ps.(ready := ps.ready + Redo(Pick(b, names)),
                     blocked := kept + Drop(b, names),
                     taken := done + Without(t, key)))
    decreases |t|
  {
    if t == [] {
      WakeNone(ps.(taken := done + t, blocked := kept + b), key);
      assert b == [];
      assert ps.ready + Redo([]) == ps.ready;
    } else {
      Head(t);
      Shift(done, t[0], t[1..]);
      Shift(done, t[0], Without(t[1..], key));
      if t[0].status != Waiting {
        WakeFrom(ps, key, names, done + [t[0]], t[1..], kept, b);
      } else {
        HeadsMatch(t, b);
        Head(b);
        if t[0].key != key {
          Shift(kept, b[0], b[1..]);
          Shift(kept, b[0], Drop(b[1..], names));
          WakeFrom(ps, key, names, done + [t[0]], t[1..], kept + [b[0]], b[1..]);
        } else {
          WakeOne(ps, key, names, done, t, kept, b);
          var woken := b[0].(redo := true);
          WakeFrom(ps.(ready := ps.ready + [woken]), key, names, done, t[1..], kept, b[1..]);
          RedoFirst(b[0], Pick(b[1..], names));
          Shift(ps.ready, woken, Redo(Pick(b[1..], names)));
        }
      }
    }
  }

  lemma WakeNone(ps: Planner, key: string)
    requires forall a :: a in ps.taken ==> !(a.key == key && a.status == Waiting)
    ensures CheckWhosWaiting(ps, key) == Some(ps)
  {
    assert AllocIndex(ps.taken, key, Waiting) == |ps.taken|;
  }

  lemma RedoFirst(e: Esi, q: seq<Esi>)
    ensures Redo([e] + q) == [e.(redo := true)] + Redo(q)
  {}

  /** One turn of the loop. */
  lemma WakeOne(ps: Planner, key: string, names: set<string>,
                done: seq<Alloc>, t: seq<Alloc>, kept: seq<Esi>, b: seq<Esi>)
    requires Passing(key, names, done, t, kept, b)
    requires t != [] && b != [] && t[0].key == key && t[0].status == Waiting && t[0].name == b[0].id
    ensures CheckWhosWaiting(ps.(taken := done + t, blocked := kept + b), key) ==
            CheckWhosWaiting(ps.(taken := done + t[1..], blocked := kept + b[1..],
                                 ready := ps.ready + [b[0].(redo := true)]), key)
  {
    assert (done + t)[|done|] == t[0] && (kept + b)[|kept|] == b[0];
    assert AllocIndex(done + t, key, Waiting) == |done|;
    assert t[0] in t && b[0].id in names;
    assert EsiIndex(kept + b, t[0].name) == |kept|;
    assert RemoveAt(done + t, |done|) == done + t[1..];
    assert RemoveAt(kept + b, |kept|) == kept + b[1..];
  }

  /** While waiting entries and blocked ESIs match, the wake-up loop ends normally and is a filter. */
  lemma WakeIsFilter(ps: Planner, key: string)
    requires WaitingNames(ps.taken) == Ids(ps.blocked) && Distinct(Ids(ps.blocked))
    ensures CheckWhosWaiting(ps, key) == Some(Woken(ps, key))
    ensures WaitingNames(Woken(ps, key).taken) == Ids(Woken(ps, key).blocked)
  {
    var names := Waiters(ps.taken, key);
    forall a | a in ps.taken && a.status == Waiting
      ensures a.key == key <==> a.name in names
    {
      if a.name in names {
        var c :| c in ps.taken && c.key == key && c.status == Waiting && c.name == a.name;
        var i, j :| 0 <= i < |ps.taken| && 0 <= j < |ps.taken| && ps.taken[i] == a && ps.taken[j] == c;
        UniqueWaiter(ps.taken, if i <= j then i else j, if i <= j then j else i);
      }
    }
    WakeFrom(ps, key, names, [], ps.taken, [], ps.blocked);
    assert [] + ps.taken == ps.taken && [] + ps.blocked == ps.blocked;
    assert [] + Without(ps.taken, key) == Without(ps.taken, key);
    assert [] + Drop(ps.blocked, names) == Drop(ps.blocked, names);
    FilterKeepsMatch(ps.taken, ps.blocked, key, names);
  }

  lemma {:induction false} FilterKeepsMatch(t: seq<Alloc>, b: seq<Esi>, key: string, names: set<string>)
    requires WaitingNames(t) == Ids(b)
    requires forall a :: a in t && a.status == Waiting ==> (a.key == key <==> a.name in names)
    ensures WaitingNames(Without(t, key)) == Ids(Drop(b, names))
  {
    if t != [] {
      assert forall x :: x in t[1..] ==> x in t;
      if t[0].status == Waiting {
        HeadsMatch(t, b);
        FilterKeepsMatch(t[1..], b[1..], key, names);
        WaitingFirst(t[0], Without(t[1..], key));
        IdsConcat([b[0]], Drop(b[1..], names));
      } else {
        FilterKeepsMatch(t[1..], b, key, names);
        WaitingFirst(t[0], Without(t[1..], key));
      }
    }
  }

  lemma WaitingFirst(a: Alloc, rest: seq<Alloc>)
    ensures WaitingNames([a] + rest) == (if a.status == Waiting then [a.name] else []) + WaitingNames(rest)
  {
    assert ([a] + rest)[1..] == rest;
  }
}
