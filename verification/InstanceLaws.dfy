/** The circular slot table against independent readings of the operation history. */
module InstanceLaws {
  import opened Types
  import opened InstanceSpec

  // ---------- Shape of the tables ----------

  /** Keys are distinct, and slots run backwards from the pointer. */
  ghost predicate Circular(inst: Instance) {
    && |inst.blocks| > 0
    && inst.pointer == |inst.dictionary| % |inst.blocks|
    && (forall i, j :: 0 <= i < j < |inst.dictionary| ==> inst.dictionary[i].key != inst.dictionary[j].key)
    && (forall i :: 0 <= i < |inst.dictionary| ==>
          inst.dictionary[i].slot == (|inst.dictionary| - 1 - i) % |inst.blocks|)
  }

  lemma CircularInRange(inst: Instance)
    requires Circular(inst)
    ensures InRange(inst)
  {}

  lemma NextSlotIsMod(n: nat, m: nat)
    requires m > 0
    ensures NextSlot(n % m, m) == (n + 1) % m
  {
    var q, r := n / m, n % m;
    assert n == m * q + r;
    if r + 1 == m {
      assert n + 1 == m * (q + 1) + 0;
      ModIs(n + 1, m, q + 1, 0);
    } else {
      ModIs(n + 1, m, q, r + 1);
    }
  }

  lemma ModIs(n: int, m: int, q: int, r: int)
    requires m > 0 && 0 <= r < m && n == m * q + r
    ensures n % m == r
  {
    var d := n / m - q;
    assert n == m * (n / m) + n % m;
    assert m * (n / m) - m * q == m * d;
    assert m * d == r - n % m;
    assert d > 0 ==> m * d >= m;
    assert d < 0 ==> m * d <= -m;
  }

  lemma KeepsCircular(inst: Instance, op: Op)
    requires Circular(inst)
    ensures InRange(inst)
    ensures Circular(Process(inst, op).instance)
    ensures |Process(inst, op).instance.blocks| == |inst.blocks|
  {
    CircularInRange(inst);
    if op.Get? && !Has(inst, op.key) {
      NextSlotIsMod(|inst.dictionary|, |inst.blocks|);
    }
  }

  /** No two keys share a slot exactly while there are at most as many keys as blocks. */
  lemma SharedSlots(inst: Instance)
    requires Circular(inst)
    ensures (forall i, j :: 0 <= i < j < |inst.dictionary| ==> inst.dictionary[i].slot != inst.dictionary[j].slot)
            <==> |inst.dictionary| <= |inst.blocks|
  {
    var n, m := |inst.dictionary|, |inst.blocks|;
    if n <= m {
      forall i, j | 0 <= i < j < n
        ensures inst.dictionary[i].slot != inst.dictionary[j].slot
      {
        ModIs(n - 1 - i, m, 0, n - 1 - i);
        ModIs(n - 1 - j, m, 0, n - 1 - j);
      }
    } else {
      var q, r := (n - 1) / m, (n - 1) % m;
      assert n - 1 - m == m * (q - 1) + r;
      ModIs(n - 1 - m, m, q - 1, r);
      assert inst.dictionary[0].slot == inst.dictionary[m].slot;
    }
  }

  // ---------- Every operation sequence ----------

  function Replay(maxEntries: nat, ops: seq<Op>): (r: Instance)
    requires maxEntries > 0
    ensures Circular(r) && |r.blocks| == maxEntries
  {
    if ops == [] then Fresh(maxEntries)
    else
      var before := Replay(maxEntries, ops[..|ops| - 1]);
      KeepsCircular(before, ops[|ops| - 1]);
      Process(before, ops[|ops| - 1]).instance
  }

  /** The keys in the order of their first GET. */
  function Created(ops: seq<Op>): seq<string> {
    if ops == [] then []
    else
      var before := Created(ops[..|ops| - 1]);
      match ops[|ops| - 1]
      case Get(key) => if key in before then before else before + [key]
      case _ => before
  }

  /** The creation number of a key. */
  function Number(created: seq<string>, key: string): (i: nat)
    requires key in created
    ensures i < |created| && created[i] == key
  {
    if created[|created| - 1] == key then |created| - 1 else Number(created[..|created| - 1], key)
  }

  /** The value written last to any key whose creation number leaves the residue `slot`. */
  function LastWrite(ops: seq<Op>, maxEntries: nat, slot: nat): Option<string>
    requires maxEntries > 0
  {
    if ops == [] then None
    else
      var earlier := ops[..|ops| - 1];
      var created := Created(earlier);
      match ops[|ops| - 1]
      case Get(key) =>
        if key !in created && |created| % maxEntries == slot then Some(DEFAULT_VALUE)
        else LastWrite(earlier, maxEntries, slot)
      case Set(key, value) =>
        if key in created && Number(created, key) % maxEntries == slot then Some(value)
        else LastWrite(earlier, maxEntries, slot)
      case Store(_) => LastWrite(earlier, maxEntries, slot)
  }

  ghost predicate ListsCreated(inst: Instance, created: seq<string>) {
    && |inst.dictionary| == |created|
    && forall i :: 0 <= i < |created| ==> inst.dictionary[i].key == created[|created| - 1 - i]
  }

  /** The dictionary lists the created keys, newest first. */
  lemma {:induction false} DictionaryIsCreated(maxEntries: nat, ops: seq<Op>)
    requires maxEntries > 0
    ensures ListsCreated(Replay(maxEntries, ops), Created(ops))
  {
    if ops != [] {
      var earlier := ops[..|ops| - 1];
      DictionaryIsCreated(maxEntries, earlier);
      CircularInRange(Replay(maxEntries, earlier));
      ListsMore(Replay(maxEntries, earlier), Created(earlier), ops[|ops| - 1]);
    }
  }

  lemma ListsMore(inst: Instance, created: seq<string>, op: Op)
    requires InRange(inst) && ListsCreated(inst, created)
    ensures ListsCreated(Process(inst, op).instance,
                         if op.Get? && op.key !in created then created + [op.key] else created)
  {
    SameKeys(inst, created, op.key);
  }

  lemma SameKeys(inst: Instance, created: seq<string>, key: string)
    requires ListsCreated(inst, created)
    ensures key in created <==> Has(inst, key)
  {
    if key in created {
      var p :| 0 <= p < |created| && created[p] == key;
      assert inst.dictionary[|created| - 1 - p].key == key;
    }
  }

  /** In every used slot lies the last write among all keys that share it, however many keys there are. */
  lemma {:induction false} SlotsHoldLastWrite(maxEntries: nat, ops: seq<Op>, slot: nat)
    requires slot < maxEntries
    ensures Replay(maxEntries, ops).blocks[slot].data ==
            (match LastWrite(ops, maxEntries, slot) case Some(value) => value case None => "")
  {
    if ops != [] {
      var earlier, op := ops[..|ops| - 1], ops[|ops| - 1];
      SlotsHoldLastWrite(maxEntries, earlier, slot);
      DictionaryIsCreated(maxEntries, earlier);
      SlotAfter(Replay(maxEntries, earlier), Created(earlier), op, slot);
    }
  }

  /** What one operation writes into a slot. */
  lemma SlotAfter(inst: Instance, created: seq<string>, op: Op, slot: nat)
    requires Circular(inst) && InRange(inst) && ListsCreated(inst, created) && slot < |inst.blocks|
    ensures Process(inst, op).instance.blocks[slot].data ==
            if op.Get? && op.key !in created && |created| % |inst.blocks| == slot then DEFAULT_VALUE
            else if op.Set? && op.key in created && Number(created, op.key) % |inst.blocks| == slot then op.value
            else inst.blocks[slot].data
  {
    hide Number, Circular, ListsCreated;
    assert inst.pointer == |created| % |inst.blocks| by { PointerOf(inst, created); }
    SameKeys(inst, created, op.key);
    if op.Set? && op.key in created {
      SlotOfCreated(inst, created, EntryIndex(inst.dictionary, op.key));
    }
  }

  lemma PointerOf(inst: Instance, created: seq<string>)
    requires Circular(inst) && ListsCreated(inst, created)
    ensures inst.pointer == |created| % |inst.blocks|
  {}

  lemma SlotOfCreated(inst: Instance, created: seq<string>, i: nat)
    requires Circular(inst) && ListsCreated(inst, created) && i < |inst.dictionary|
    ensures inst.dictionary[i].key in created
    ensures inst.dictionary[i].slot == Number(created, inst.dictionary[i].key) % |inst.blocks|
  {
    NumberOfRow(inst, created, i);
  }

  /** The row at position i belongs to the key created |dictionary|-1-i-th. */
  lemma NumberOfRow(inst: Instance, created: seq<string>, i: nat)
    requires Circular(inst) && ListsCreated(inst, created) && i < |created|
    ensures inst.dictionary[i].key in created
    ensures Number(created, inst.dictionary[i].key) == |created| - 1 - i
  {
    var key := inst.dictionary[i].key;
    assert created[|created| - 1 - i] == key;
    var n := Number(created, key);
    assert inst.dictionary[|created| - 1 - n].key == key;
  }

  // ---------- Refinement of a plain map ----------

  function MapStep(m: map<string, string>, op: Op): map<string, string> {
    match op
    case Get(key) => if key in m then m else m[key := DEFAULT_VALUE]
    case Set(key, value) => if key in m then m[key := value] else m
    case Store(_) => m
  }

  ghost predicate Holds(inst: Instance, m: map<string, string>)
    requires InRange(inst)
  {
    && (forall key :: key in m <==> Has(inst, key))
    && (forall key :: key in m ==> Read(inst, key) == m[key])
  }

  ghost predicate SizesAgree(inst: Instance)
    requires InRange(inst)
  {
    forall i :: 0 <= i < |inst.dictionary| ==>
      inst.dictionary[i].size == inst.blocks[inst.dictionary[i].slot].dataSize
  }

  lemma RowIndex(inst: Instance, i: nat)
    requires Circular(inst) && i < |inst.dictionary|
    ensures EntryIndex(inst.dictionary, inst.dictionary[i].key) == i
  {}

  /** Between the two states, `op` changed no value but its own key's. */
  ghost predicate OnlyOwnKey(inst: Instance, after: Instance, op: Op, key: string) {
    && InRange(inst) && InRange(after)
    && (Has(after, key) <==> Has(inst, key) || (op.Get? && op.key == key))
    && (Has(after, key) ==>
          Read(after, key) ==
          if op.key == key && op.Set? then op.value
          else if Has(inst, key) then Read(inst, key) else DEFAULT_VALUE)
  }

  lemma ReadAfter(inst: Instance, op: Op, key: string)
    requires Circular(inst) && InRange(inst)
    requires |Process(inst, op).instance.dictionary| <= |inst.blocks|
    ensures OnlyOwnKey(inst, Process(inst, op).instance, op, key)
  {
    KeepsCircular(inst, op);
    if op.Get? && !Has(inst, op.key) {
      ReadAfterCreate(inst, op.key, key);
    } else if op.Set? && Has(inst, op.key) {
      ReadAfterSet(inst, op, key);
    }
  }

  lemma ReadAfterCreate(inst: Instance, created: string, key: string)
    requires Circular(inst) && InRange(inst) && !Has(inst, created)
    requires |inst.dictionary| < |inst.blocks|
    ensures var after := Create(inst, created);
            && InRange(after)
            && (Has(after, key) <==> Has(inst, key) || created == key)
            && (Has(inst, key) ==> Read(after, key) == Read(inst, key))
            && (created == key ==> Read(after, key) == DEFAULT_VALUE)
  {
    KeepsCircular(inst, Get(created));
    var after := Create(inst, created);
    var rows, i := after.dictionary, EntryIndex(inst.dictionary, key);
    assert rows[1..] == inst.dictionary;
    SharedSlots(after);
    if created != key && i < |inst.dictionary| {
      assert rows[i + 1] == inst.dictionary[i];
      assert rows[0].slot != rows[i + 1].slot;
    }
  }

  lemma ReadAfterSet(inst: Instance, op: Op, key: string)
    requires Circular(inst) && InRange(inst) && op.Set? && Has(inst, op.key)
    requires |inst.dictionary| <= |inst.blocks|
    ensures var after := Process(inst, op).instance;
            && InRange(after)
            && (Has(after, key) <==> Has(inst, key))
            && (Has(inst, key) ==> Read(after, key) == if op.key == key then op.value else Read(inst, key))
  {
    KeepsCircular(inst, op);
    var after := Process(inst, op).instance;
    var i, j := EntryIndex(inst.dictionary, op.key), EntryIndex(inst.dictionary, key);
    SharedSlots(inst);
    if j < |inst.dictionary| {
      assert after.dictionary[j].key == key;
      RowIndex(after, j);
      assert i < j ==> inst.dictionary[i].slot != inst.dictionary[j].slot;
      assert j < i ==> inst.dictionary[j].slot != inst.dictionary[i].slot;
    } else {
      assert forall x :: 0 <= x < |after.dictionary| ==> after.dictionary[x].key == inst.dictionary[x].key;
    }
  }

  /** Within capacity, an operation does to the stored values what it does to a plain map. */
  lemma SimulatesMap(inst: Instance, op: Op, m: map<string, string>)
    requires Circular(inst) && InRange(inst) && Holds(inst, m)
    requires |Process(inst, op).instance.dictionary| <= |inst.blocks|
    ensures InRange(Process(inst, op).instance)
    ensures Holds(Process(inst, op).instance, MapStep(m, op))
    ensures Process(inst, op).success == (op.Get? || op.key in m)
    ensures op.Store? && op.key in m ==> Process(inst, op).instance.files == inst.files[op.key := m[op.key]]
  {
    KeepsCircular(inst, op);
    var after := Process(inst, op).instance;
    CircularInRange(after);
    forall key
      ensures Has(after, key) <==> key in MapStep(m, op)
      ensures key in MapStep(m, op) ==> Read(after, key) == MapStep(m, op)[key]
    {
      ReadAfter(inst, op, key);
      SimulatesKey(inst, after, op, m, key);
    }
    assert op.key in m <==> Has(inst, op.key);
  }

  lemma SimulatesKey(inst: Instance, after: Instance, op: Op, m: map<string, string>, key: string)
    requires InRange(inst) && Holds(inst, m) && OnlyOwnKey(inst, after, op, key)
    ensures Has(after, key) <==> key in MapStep(m, op)
    ensures key in MapStep(m, op) ==> Read(after, key) == MapStep(m, op)[key]
  {
    assert key in m <==> Has(inst, key);
  }

  /** Within capacity, the size kept in a row is the size of its block. */
  lemma SizesKept(inst: Instance, op: Op)
    requires Circular(inst) && InRange(inst) && SizesAgree(inst)
    requires |Process(inst, op).instance.dictionary| <= |inst.blocks|
    ensures InRange(Process(inst, op).instance) && SizesAgree(Process(inst, op).instance)
  {
    KeepsCircular(inst, op);
    var after := Process(inst, op).instance;
    CircularInRange(after);
    SharedSlots(after);
    if op.Get? && !Has(inst, op.key) {
      assert after.dictionary[1..] == inst.dictionary;
      forall i | 0 <= i < |after.dictionary|
        ensures after.dictionary[i].size == after.blocks[after.dictionary[i].slot].dataSize
      {
        if i > 0 {
          assert after.dictionary[i] == inst.dictionary[i - 1];
          assert after.dictionary[0].slot != after.dictionary[i].slot;
        }
      }
    } else if op.Set? && Has(inst, op.key) {
      var j := EntryIndex(inst.dictionary, op.key);
      forall i | 0 <= i < |after.dictionary|
        ensures after.dictionary[i].size == after.blocks[after.dictionary[i].slot].dataSize
      {
        assert i < j ==> after.dictionary[i].slot != after.dictionary[j].slot;
        assert j < i ==> after.dictionary[j].slot != after.dictionary[i].slot;
      }
    }
  }
}
