/** Counting and finding BLOCKED entries in `taken_keys`. */
module KeyTable {
  import opened Types
  import opened Lists
  import opened PlannerSpec
  import opened WakeUp

  predicate IsHolder(a: Alloc, key: string) {
    a.key == key && a.status == Blocked
  }

  /** The number of BLOCKED entries for the key. */
  function Holders(taken: seq<Alloc>, key: string): nat {
    if taken == [] then 0
    else (if IsHolder(taken[0], key) then 1 else 0) + Holders(taken[1..], key)
  }

  /** The name in the first BLOCKED entry for the key. */
  function Holder(taken: seq<Alloc>, key: string): Option<string> {
    if taken == [] then None
    else if IsHolder(taken[0], key) then Some(taken[0].name)
    else Holder(taken[1..], key)
  }

  lemma {:induction false} HolderIsFirst(taken: seq<Alloc>, key: string)
    ensures KeyHeld(taken, key) <==> Holder(taken, key).Some?
    ensures KeyHeld(taken, key) ==> Holder(taken, key) == Some(taken[AllocIndex(taken, key, Blocked)].name)
    ensures Holder(taken, key).Some? <==> Holders(taken, key) > 0
  {
    if taken != [] {
      HolderIsFirst(taken[1..], key);
    }
  }

  lemma {:induction false} Appended(taken: seq<Alloc>, a: Alloc, key: string)
    ensures Holders(taken + [a], key) == Holders(taken, key) + if IsHolder(a, key) then 1 else 0
    ensures Holder(taken + [a], key) ==
            if Holder(taken, key).Some? then Holder(taken, key)
            else if IsHolder(a, key) then Some(a.name) else None
  {
    if taken == [] {
      assert taken + [a] == [a];
    } else {
      assert (taken + [a])[1..] == taken[1..] + [a];
      Appended(taken[1..], a, key);
    }
  }

  /** A new entry goes behind the old ones: it makes `name` the first holder only of a key that had none. */
  lemma LoadedHolder(ps: Planner, key: string, name: string, k: string)
    ensures Holder(LoadKey(ps, key, name).taken, k) ==
            if k == key && Holder(ps.taken, key) == None then Some(name) else Holder(ps.taken, k)
    ensures |LoadKey(ps, key, name).taken| == |ps.taken| + 1
    ensures forall i :: 0 <= i < |ps.taken| ==> LoadKey(ps, key, name).taken[i] == ps.taken[i]
    ensures LoadKey(ps, key, name).taken[|ps.taken|] == Alloc(name, key, Blocked)
  {
    Appended(ps.taken, Alloc(name, key, Blocked), k);
  }

  /** A release removes the first BLOCKED entry for its key and nothing else. */
  lemma FirstHolderRemoved(front: seq<Alloc>, h: Alloc, back: seq<Alloc>, key: string)
    requires IsHolder(h, key) && forall a :: a in front ==> !IsHolder(a, key)
    ensures RemoveHolder(front + [h] + back, key) == front + back
    ensures RemoveHolder(front, key) == front
  {
    var taken := front + [h] + back;
    assert forall i :: 0 <= i < |front| ==> taken[i] == front[i];
    assert taken[|front|] == h;
    var i := AllocIndex(taken, key, Blocked);
    if i < |front| {
      assert IsHolder(front[i], key);
    }
    assert i == |front|;
    assert RemoveAt(taken, |front|) == front + back;
    assert AllocIndex(front, key, Blocked) == |front|;
  }

  lemma {:induction false} WithoutWaiters(taken: seq<Alloc>, released: string, key: string)
    ensures Holders(Without(taken, released), key) == Holders(taken, key)
    ensures Holder(Without(taken, released), key) == Holder(taken, key)
  {
    if taken != [] {
      WithoutWaiters(taken[1..], released, key);
      assert ([taken[0]] + Without(taken[1..], released))[1..] == Without(taken[1..], released);
    }
  }

  lemma RemoveHolderTail(taken: seq<Alloc>, key: string)
    requires taken != []
    ensures RemoveHolder(taken, key) ==
            if IsHolder(taken[0], key) then taken[1..] else [taken[0]] + RemoveHolder(taken[1..], key)
  {
    var i := AllocIndex(taken, key, Blocked);
    if 0 < i < |taken| {
      assert taken[..i] == [taken[0]] + taken[1..][..i - 1];
      assert taken[i + 1..] == taken[1..][i..];
    } else if i == |taken| {
      Head(taken);
    }
  }

  /** Removing the first holder takes one BLOCKED entry for that key and leaves other keys alone. */
  lemma {:induction false} HolderRemoved(taken: seq<Alloc>, released: string, key: string)
    ensures Holders(RemoveHolder(taken, released), key) ==
            if key == released && Holders(taken, key) > 0 then Holders(taken, key) - 1 else Holders(taken, key)
    ensures key != released ==> Holder(RemoveHolder(taken, released), key) == Holder(taken, key)
  {
    if taken != [] {
      RemoveHolderTail(taken, released);
      if !IsHolder(taken[0], released) {
        HolderRemoved(taken[1..], released, key);
        var rest := RemoveHolder(taken[1..], released);
        assert ([taken[0]] + rest)[1..] == rest;
      }
    }
  }

  /** The table after a release. */
  lemma TableReleased(taken: seq<Alloc>, released: string, key: string)
    ensures var after := Without(RemoveHolder(taken, released), released);
            && Holders(after, key) ==
               (if key == released && Holders(taken, key) > 0 then Holders(taken, key) - 1 else Holders(taken, key))
            && (key != released ==> Holder(after, key) == Holder(taken, key))
  {
    HolderRemoved(taken, released, key);
    WithoutWaiters(RemoveHolder(taken, released), released, key);
  }
}
