/** Any number of instances and keys: what every instance holds is given by its own share of the history. */
module Placement {
  import opened Types
  import opened Lists
  import opened InstanceSpec
  import opened InstanceLaws
  import opened System
  import opened Invariant
  import opened Moves
  import opened OneOrder
  import opened Isolation

  // ---------- Each instance's share ----------

  /** The operations carried out by instance n, oldest first. */
  function Share(log: seq<Event>, n: int): seq<Op> {
    if log == [] then []
    else
      var last := |log| - 1;
      if log[last].node == n then Share(log[..last], n) + [log[last].op] else Share(log[..last], n)
  }

  lemma ShareGrows(log: seq<Event>, e: Event, n: int)
    ensures Share(log + [e], n) == if e.node == n then Share(log, n) + [e.op] else Share(log, n)
  {
    assert (log + [e])[..|log|] == log;
  }

  lemma NoShare(log: seq<Event>, n: int)
    requires forall i :: 0 <= i < |log| ==> log[i].node != n
    ensures Share(log, n) == []
  {}

  /** The instance that carried event i out knew the key, if it had to, and a STORE wrote what it read. */
  ghost predicate Faithful(nodes: seq<Node>, log: seq<Event>, i: int)
    requires 0 <= i < |log|
  {
    var e := log[i];
    && e.node < |nodes| && |nodes[e.node].store.blocks| > 0
    && var before := Replay(|nodes[e.node].store.blocks|, Share(log[..i], e.node));
       && InRange(before)
       && (!e.op.Get? ==> Has(before, e.op.key))
       && (e.op.Store? ==> e.written == Read(before, e.op.key))
  }

  /** Every instance is what its share of the history makes of a fresh one. */
  ghost predicate Replayed(nodes: seq<Node>, log: seq<Event>) {
    && (forall n :: 0 <= n < |nodes| ==>
          && |nodes[n].store.blocks| > 0
          && nodes[n].store == Replay(|nodes[n].store.blocks|, Share(log, n)))
    && AllFaithful(nodes, log)
  }

  ghost predicate AllFaithful(nodes: seq<Node>, log: seq<Event>) {
    forall i :: 0 <= i < |log| ==> Faithful(nodes, log, i)
  }

  lemma FaithfulPrefix(nodes: seq<Node>, log: seq<Event>, count: nat)
    requires AllFaithful(nodes, log) && count <= |log|
    ensures AllFaithful(nodes, log[..count])
  {
    forall i | 0 <= i < count
      ensures Faithful(nodes, log[..count], i)
    {
      assert Faithful(nodes, log, i) && log[..count][..i] == log[..i];
    }
  }

  lemma ReplayMore(m: nat, ops: seq<Op>, op: Op)
    requires m > 0
    ensures InRange(Replay(m, ops)) && Replay(m, ops + [op]) == Process(Replay(m, ops), op).instance
  {
    CircularInRange(Replay(m, ops));
    assert (ops + [op])[..|ops|] == ops;
  }

  lemma ApplyReplayed(s: State, m: Msg)
    requires Replayed(s.nodes, s.log) && CanExecute(s, m)
    ensures Replayed(AfterApply(s, m).nodes, AfterApply(s, m).log)
  {
    hide Circular, Process, Replay, Share, InRange;
    var t := AfterApply(s, m);
    var inst := s.nodes[m.node].store;
    var size := |inst.blocks|;
    ReplayMore(size, Share(s.log, m.node), m.op);
    RowsStay(inst, m.op, m.op.key) by { ReplayCircular(size, Share(s.log, m.node)); }
    if t.net[0].success {
      var e := t.log[|s.log|];
      assert t.log == s.log + [e];
      forall n | 0 <= n < |t.nodes|
        ensures t.nodes[n].store == Replay(|t.nodes[n].store.blocks|, Share(t.log, n))
      {
        ShareGrows(s.log, e, n);
      }
      FaithfulBefore(s, t, |s.log|);
      NewFaithful(s, m);
    } else {
      assert t.nodes == s.nodes;
    }
  }

  lemma ReplayCircular(m: nat, ops: seq<Op>)
    requires m > 0
    ensures Circular(Replay(m, ops)) && InRange(Replay(m, ops)) && |Replay(m, ops).blocks| == m
  {
    CircularInRange(Replay(m, ops));
  }

  /** What was carried out faithfully stays so, as long as the instances keep their size. */
  lemma FaithfulBefore(s: State, t: State, count: nat)
    requires count <= |s.log| && count <= |t.log| && t.log[..count] == s.log[..count]
    requires forall i :: 0 <= i < count ==> Faithful(s.nodes, s.log, i)
    requires |s.nodes| <= |t.nodes|
    requires forall n :: 0 <= n < |s.nodes| ==> |t.nodes[n].store.blocks| == |s.nodes[n].store.blocks|
    ensures forall i :: 0 <= i < count ==> Faithful(t.nodes, t.log, i)
  {
    forall i | 0 <= i < count
      ensures Faithful(t.nodes, t.log, i)
    {
      assert s.log[..count][i] == t.log[..count][i];
      assert s.log[..count][..i] == s.log[..i] && t.log[..count][..i] == t.log[..i];
      assert Faithful(s.nodes, s.log, i);
    }
  }

  lemma NewFaithful(s: State, m: Msg)
    requires Replayed(s.nodes, s.log) && CanExecute(s, m) && AfterApply(s, m).net[0].success
    ensures Faithful(AfterApply(s, m).nodes, AfterApply(s, m).log, |s.log|)
  {
    hide Circular, Replay, Share;
    var t := AfterApply(s, m);
    assert t.log[..|s.log|] == s.log;
    ReplayCircular(|s.nodes[m.node].store.blocks|, Share(s.log, m.node));
    RowsStay(s.nodes[m.node].store, m.op, m.op.key);
  }

  lemma JoinReplayed(s: State, maxEntries: nat)
    requires Replayed(s.nodes, s.log) && maxEntries > 0
    ensures Replayed(s.nodes + [Node(true, Fresh(maxEntries))], s.log)
  {
    var nodes := s.nodes + [Node(true, Fresh(maxEntries))];
    forall i | 0 <= i < |s.log|
      ensures s.log[i].node != |s.nodes|
    {
      assert Faithful(s.nodes, s.log, i);
    }
    NoShare(s.log, |s.nodes|);
    FaithfulBefore(s, s.(nodes := nodes), |s.log|);
  }

  lemma StepReplayed(s: State, step: Step)
    requires Inv(s) && Enabled(s, step) && Replayed(s.nodes, s.log)
    ensures Replayed(Perform(s, step).nodes, Perform(s, step).log)
  {
    hide Inv, Perform, Enabled, Replayed, Process, InRange, Written, NextNode;
    StepForm(s, step);
    if step.Deliver? && s.net[0].Apply? && Perform(s, step) != s.(crashed := true) {
      ApplyReplayed(s, s.net[0]);
    } else if step.Join? {
      JoinEnabled(s, step);
      JoinReplayed(s, step.maxEntries);
    }
  }

  /** Instances keep their number of blocks. */
  lemma StepSizes(s: State, step: Step)
    requires Inv(s) && Enabled(s, step)
    ensures |s.nodes| <= |Perform(s, step).nodes|
    ensures forall n :: 0 <= n < |s.nodes| ==>
              |Perform(s, step).nodes[n].store.blocks| == |s.nodes[n].store.blocks|
  {
    hide Inv, Perform, Enabled, Written, NextNode, InRange, Process;
    StepForm(s, step);
    if step.Deliver? && s.net[0].Apply? && Perform(s, step) != s.(crashed := true) {
      BlocksStay(s.nodes[s.net[0].node].store, s.net[0].op);
    }
  }

  lemma BlocksStay(inst: Instance, op: Op)
    requires InRange(inst)
    ensures |Process(inst, op).instance.blocks| == |inst.blocks|
  {}

  lemma {:induction false} RunSizes(s: State, steps: seq<Step>)
    requires Inv(s) && Runs(s, steps)
    ensures |s.nodes| <= |After(s, steps).nodes|
    ensures forall n :: 0 <= n < |s.nodes| ==>
              |After(s, steps).nodes[n].store.blocks| == |s.nodes[n].store.blocks|
    decreases |steps|
  {
    hide Inv, Perform, Enabled;
    if steps != [] {
      StepKeeps(s, steps[0]);
      StepSizes(s, steps[0]);
      RunSizes(Perform(s, steps[0]), steps[1..]);
    }
  }

  lemma JoinEnabled(s: State, step: Step)
    requires Enabled(s, step) && step.Join?
    ensures step.maxEntries > 0
  {}

  // ---------- Creation numbers ----------

  lemma {:induction false} ShareOfPrefix(log: seq<Event>, x: nat, n: int)
    requires x <= |log|
    ensures Share(log[..x], n) <= Share(log, n)
    decreases |log|
  {
    if x < |log| {
      var before := log[..|log| - 1];
      assert log == before + [log[|log| - 1]];
      ShareGrows(before, log[|log| - 1], n);
      ShareOfPrefix(before, x, n);
      assert before[..x] == log[..x];
    } else {
      assert log[..x] == log;
    }
  }

  /** Keys are created once and keep their numbers. */
  lemma {:induction false} CreatedGrows(ops: seq<Op>, more: seq<Op>)
    requires ops <= more
    ensures Created(ops) <= Created(more) && Distinct(Created(more))
    decreases |more|
  {
    if more != [] {
      var before := more[..|more| - 1];
      if |ops| == |more| {
        assert ops == more;
        CreatedGrows(before, before);
      } else {
        CreatedGrows(ops, before);
      }
    }
  }

  lemma NumberStays(created: seq<string>, more: seq<string>, key: string)
    requires created <= more && Distinct(more) && key in created
    ensures Number(created, key) == Number(more, key)
  {
    assert more[Number(created, key)] == key == more[Number(more, key)];
  }

  lemma CreatedMore(ops: seq<Op>, op: Op)
    ensures Created(ops + [op]) ==
            if op.Get? && op.key !in Created(ops) then Created(ops) + [op.key] else Created(ops)
  {
    assert (ops + [op])[..|ops|] == ops;
  }

  // ---------- Writes to a slot ----------

  /** The value an operation gives its key. */
  function Put(op: Op): string {
    if op.Set? then op.value else DEFAULT_VALUE
  }

  /** Event x writes into slot `slot` of instance n, which has m blocks. */
  predicate WritesSlot(log: seq<Event>, x: int, n: int, m: nat, slot: int)
    requires m > 0
  {
    && 0 <= x < |log| && log[x].node == n
    && var created := Created(Share(log[..x], n));
       match log[x].op
       case Get(key) => key !in created && |created| % m == slot
       case Set(key, _) => key in created && Number(created, key) % m == slot
       case Store(_) => false
  }

  /** Event x is the last that wrote into the slot. */
  predicate LastInSlot(log: seq<Event>, x: int, n: int, m: nat, slot: int)
    requires m > 0
  {
    WritesSlot(log, x, n, m, slot) && forall y :: x < y < |log| ==> !WritesSlot(log, y, n, m, slot)
  }

  lemma SlotWriteBefore(log: seq<Event>, e: Event, x: int, n: int, m: nat, slot: int)
    requires m > 0 && 0 <= x < |log|
    ensures WritesSlot(log + [e], x, n, m, slot) == WritesSlot(log, x, n, m, slot)
  {
    assert (log + [e])[..x] == log[..x];
  }

  /** The last write to a slot by position. */
  lemma {:induction false} SlotWriter(log: seq<Event>, n: int, m: nat, slot: nat) returns (x: int)
    requires m > 0 && LastWrite(Share(log, n), m, slot).Some?
    ensures LastInSlot(log, x, n, m, slot) && LastWrite(Share(log, n), m, slot) == Some(Put(log[x].op))
  {
    var last := |log| - 1;
    var before, e := log[..last], log[last];
    assert log == before + [e];
    ShareGrows(before, e, n);
    var ops := Share(before, n);
    assert (ops + [e.op])[..|ops|] == ops;
    if WritesSlot(log, last, n, m, slot) {
      x := last;
    } else {
      x := SlotWriter(before, n, m, slot);
      forall y | 0 <= y < last
        ensures WritesSlot(log, y, n, m, slot) == WritesSlot(before, y, n, m, slot)
      {
        SlotWriteBefore(before, e, y, n, m, slot);
      }
    }
  }

  /** The slot of a created key has been written. */
  lemma {:induction false} SlotUsed(ops: seq<Op>, m: nat, key: string)
    requires m > 0 && key in Created(ops)
    ensures LastWrite(ops, m, Number(Created(ops), key) % m).Some?
  {
    var earlier, op := ops[..|ops| - 1], ops[|ops| - 1];
    CreatedGrows(earlier, ops);
    if key in Created(earlier) {
      NumberStays(Created(earlier), Created(ops), key);
      SlotUsed(earlier, m, key);
    } else {
      assert Created(ops) == Created(earlier) + [key];
    }
  }

  /** The slot that a key has on an instance. */
  function SlotFor(log: seq<Event>, n: int, m: nat, key: string): nat
    requires m > 0 && key in Created(Share(log, n))
  {
    Number(Created(Share(log, n)), key) % m
  }

  /** A STORE writes what was last written into its key's slot on its instance, by whatever key and ESI. */
  lemma StoreWritesSlot(nodes: seq<Node>, log: seq<Event>, i: nat) returns (x: int)
    requires AllFaithful(nodes, log) && i < |log| && log[i].op.Store?
    ensures log[i].node < |nodes| && |nodes[log[i].node].store.blocks| > 0
    ensures log[i].op.key in Created(Share(log[..i], log[i].node))
    ensures var n, m := log[i].node, |nodes[log[i].node].store.blocks|;
            && LastInSlot(log[..i], x, n, m, SlotFor(log[..i], n, m, log[i].op.key))
            && log[i].written == Put(log[x].op)
  {
    hide Replay, Created, LastWrite, LastInSlot, Circular, Number;
    assert Faithful(nodes, log, i);
    var n, key := log[i].node, log[i].op.key;
    var m, ops := |nodes[n].store.blocks|, Share(log[..i], n);
    DictionaryIsCreated(m, ops);
    var before := Replay(m, ops);
    ReplayCircular(m, ops);
    SameKeys(before, Created(ops), key);
    SlotOfCreated(before, Created(ops), EntryIndex(before.dictionary, key));
    var slot := SlotFor(log[..i], n, m, key);
    SlotsHoldLastWrite(m, ops, slot);
    SlotUsed(ops, m, key);
    x := SlotWriter(log[..i], n, m, slot);
    assert log[..i][x] == log[x] by { WriterInRange(log[..i], x, n, m, slot); }
  }

  lemma WriterInRange(log: seq<Event>, x: int, n: int, m: nat, slot: nat)
    requires m > 0 && LastInSlot(log, x, n, m, slot)
    ensures 0 <= x < |log| && log[x].node == n
  {}

  // ---------- Exactly when a STORE writes its own window's value ----------

  /** Event x gives the key its value in the plain map: the GET that creates it, or a SET. */
  predicate WritesKey(log: seq<Event>, x: int, key: string) {
    && 0 <= x < |log| && log[x].op.key == key
    && if log[x].op.Get? then key !in MapOf(log[..x]) else log[x].op.Set? && key in MapOf(log[..x])
  }

  predicate LastOfKey(log: seq<Event>, x: int, key: string) {
    WritesKey(log, x, key) && forall y :: x < y < |log| ==> !WritesKey(log, y, key)
  }

  lemma {:induction false} KeyWriter(log: seq<Event>, key: string) returns (w: int)
    requires key in MapOf(log)
    ensures LastOfKey(log, w, key) && MapOf(log)[key] == Put(log[w].op)
  {
    var last := |log| - 1;
    if WritesKey(log, last, key) {
      w := last;
    } else {
      w := KeyWriter(log[..last], key);
      forall y | 0 <= y < last
        ensures WritesKey(log, y, key) == WritesKey(log[..last], y, key)
      {
        assert log[..last][..y] == log[..y];
      }
    }
  }

  lemma {:induction false} CreatedInMap(log: seq<Event>, n: int, key: string)
    requires key in Created(Share(log, n))
    ensures key in MapOf(log)
  {
    var before, e := log[..|log| - 1], log[|log| - 1];
    assert log == before + [e];
    ShareGrows(before, e, n);
    var ops := Share(before, n);
    assert (ops + [e.op])[..|ops|] == ops;
    if key in Created(ops) {
      CreatedInMap(before, n, key);
    }
  }

  /** What gives a key its value is a write into the key's slot on that instance. */
  lemma OwnWriteInSlot(nodes: seq<Node>, log: seq<Event>, w: int, key: string)
    requires AllFaithful(nodes, log) && WritesKey(log, w, key)
    ensures log[w].node < |nodes| && |nodes[log[w].node].store.blocks| > 0
    ensures key in Created(Share(log, log[w].node))
    ensures var n, m := log[w].node, |nodes[log[w].node].store.blocks|;
            WritesSlot(log, w, n, m, SlotFor(log, n, m, key))
  {
    hide Replay, Circular, Number;
    assert Faithful(nodes, log, w);
    var n, m := log[w].node, |nodes[log[w].node].store.blocks|;
    var ops := Share(log[..w], n);
    assert log[..w + 1] == log[..w] + [log[w]];
    ShareGrows(log[..w], log[w], n);
    assert (ops + [log[w].op])[..|ops|] == ops;
    ShareOfPrefix(log, w + 1, n);
    CreatedGrows(ops + [log[w].op], Share(log, n));
    DictionaryIsCreated(m, ops);
    SameKeys(Replay(m, ops), Created(ops), key);
    if log[w].op.Get? && key in Created(ops) {
      CreatedInMap(log[..w], n, key);
    }
    NumberStays(Created(ops + [log[w].op]), Created(Share(log, n)), key);
    if log[w].op.Get? {
      LastNumber(Created(ops), key);
    }
  }

  lemma LastNumber(created: seq<string>, key: string)
    ensures Number(created + [key], key) == |created|
  {}

  /** While there are at most as many keys as blocks, a write into a key's slot is a write to the key. */
  lemma SlotIsOwn(nodes: seq<Node>, log: seq<Event>, x: int, n: int, key: string)
    requires AllFaithful(nodes, log) && 0 <= n < |nodes| && |nodes[n].store.blocks| > 0
    requires key in Created(Share(log, n)) && |Created(Share(log, n))| <= |nodes[n].store.blocks|
    requires var m := |nodes[n].store.blocks|; WritesSlot(log, x, n, m, SlotFor(log, n, m, key))
    ensures log[x].op.key == key
  {
    hide Replay, Circular, Number;
    var m := |nodes[n].store.blocks|;
    var ops, all := Share(log[..x], n), Created(Share(log, n));
    assert log[..x + 1] == log[..x] + [log[x]];
    ShareGrows(log[..x], log[x], n);
    assert (ops + [log[x].op])[..|ops|] == ops;
    ShareOfPrefix(log, x + 1, n);
    CreatedGrows(ops + [log[x].op], Share(log, n));
    var created := Created(ops + [log[x].op]);
    var own := log[x].op.key;
    NumberStays(created, all, own);
    if log[x].op.Get? {
      LastNumber(Created(ops), own);
    } else {
      NumberStays(Created(ops), created, own);
    }
    SmallMod(Number(all, own), m);
    SmallMod(Number(all, key), m);
    assert all[Number(all, own)] == all[Number(all, key)];
  }

  lemma SmallMod(k: nat, m: nat)
    requires k < m
    ensures k % m == k
  {}

  /** The key's write w and its slot's write x, as STORE number i finds them. */
  ghost predicate Writers(nodes: seq<Node>, log: seq<Event>, i: nat, w: int, x: int)
    requires i < |log| && log[i].node < |nodes| && |nodes[log[i].node].store.blocks| > 0
    requires log[i].op.key in Created(Share(log[..i], log[i].node))
  {
    var n, m, key := log[i].node, |nodes[log[i].node].store.blocks|, log[i].op.key;
    LastOfKey(log[..i], w, key) && LastInSlot(log[..i], x, n, m, SlotFor(log[..i], n, m, key))
  }

  /** A STORE writes what a plain map would hold exactly if the last write to the key's slot on the instance, by
      whatever key, left the value that the key's own last write left. If that one went to the same instance, the
      other is not older; and it is the same one while the instance has not had more keys than blocks. */
  lemma MapValueIff(nodes: seq<Node>, log: seq<Event>, i: nat) returns (w: int, x: int)
    requires AllFaithful(nodes, log) && i < |log| && log[i].op.Store?
    ensures log[i].node < |nodes| && |nodes[log[i].node].store.blocks| > 0
    ensures log[i].op.key in Created(Share(log[..i], log[i].node)) && log[i].op.key in MapOf(log[..i])
    ensures Writers(nodes, log, i, w, x)
    ensures log[i].written == MapOf(log[..i])[log[i].op.key] <==> Put(log[x].op) == Put(log[w].op)
    ensures log[w].node == log[i].node ==> w <= x
    ensures log[w].node == log[i].node ==>
              |Created(Share(log[..i], log[i].node))| <= |nodes[log[i].node].store.blocks| ==> w == x
  {
    hide AllFaithful, Created, Share, LastInSlot, LastOfKey, MapOf, Number;
    var key, before := log[i].op.key, log[..i];
    x := StoreWritesSlot(nodes, log, i);
    CreatedInMap(before, log[i].node, key);
    w := KeyWriter(before, key);
    LastFacts(before, w, x, log[i].node, |nodes[log[i].node].store.blocks|,
              SlotFor(before, log[i].node, |nodes[log[i].node].store.blocks|, key), key);
    assert before[w] == log[w] && before[x] == log[x];
    if log[w].node == log[i].node {
      FaithfulPrefix(nodes, log, i);
      SameInstance(nodes, before, w, x, log[i].node, key);
    }
  }

  lemma LastFacts(log: seq<Event>, w: int, x: int, n: int, m: nat, slot: int, key: string)
    requires m > 0 && LastOfKey(log, w, key) && LastInSlot(log, x, n, m, slot)
    ensures 0 <= w < |log| && 0 <= x < |log|
  {}

  lemma SameInstance(nodes: seq<Node>, log: seq<Event>, w: int, x: int, n: int, key: string)
    requires AllFaithful(nodes, log) && 0 <= n < |nodes| && |nodes[n].store.blocks| > 0
    requires key in Created(Share(log, n)) && LastOfKey(log, w, key) && log[w].node == n
    requires LastInSlot(log, x, n, |nodes[n].store.blocks|, SlotFor(log, n, |nodes[n].store.blocks|, key))
    ensures w <= x
    ensures |Created(Share(log, n))| <= |nodes[n].store.blocks| ==> w == x
  {
    hide Created, Share, SlotFor, MapOf, Faithful;
    OwnWriteInSlot(nodes, log, w, key);
    if |Created(Share(log, n))| <= |nodes[n].store.blocks| && w < x {
      assert !WritesKey(log, x, key);
      SlotIsOwn(nodes, log, x, n, key);
      FaithfulPrefix(nodes, log, x);
      assert log[..x][..w] == log[..w] && log[..x][w] == log[w];
      OwnWriteInSlot(nodes, log[..x], w, key);
      CreatedInMap(log[..x], n, key);
      assert false;
    }
  }
}
