/** What an instance (instance/src/launcher.c) does with one operation, as a function on values. */
module InstanceSpec {
  import opened Types

  /** A row of `diccio_table`. */
  datatype Entry = Entry(slot: nat, key: string, size: nat)

  /** A row of `blocks_table`. */
  datatype Block = Block(data: string, dataSize: nat)

  /** The tables, the circular pointer and the files under the mounting point. */
  datatype Instance = Instance(dictionary: seq<Entry>, blocks: seq<Block>, pointer: nat, files: map<string, string>)

  datatype Outcome = Outcome(instance: Instance, success: bool)

  /** The initial value of a key; its size is taken with `sizeof`, so the terminator is stored too. */
  const DEFAULT_VALUE: string := "Default" + ['\0']

  function Fresh(maxEntries: nat): Instance {
    Instance([], seq(maxEntries, i => Block("", 0)), 0, map[])
  }

  /** Position of the first row for the key, or the length of the table. */
  function EntryIndex(dictionary: seq<Entry>, key: string): (i: nat)
    ensures i <= |dictionary|
    ensures i < |dictionary| ==> dictionary[i].key == key
    ensures forall j :: 0 <= j < i ==> dictionary[j].key != key
  {
    if dictionary == [] then 0
    else if dictionary[0].key == key then 0
    else
      var i := EntryIndex(dictionary[1..], key);
      assert forall j :: 0 < j < |dictionary| ==> dictionary[j] == dictionary[1..][j - 1];
      1 + i
  }

  predicate Has(inst: Instance, key: string) {
    EntryIndex(inst.dictionary, key) < |inst.dictionary|
  }

  predicate InRange(inst: Instance) {
    && inst.pointer < |inst.blocks|
    && forall i :: 0 <= i < |inst.dictionary| ==> inst.dictionary[i].slot < |inst.blocks|
  }

  /** The value a STORE of the key would write. */
  function Read(inst: Instance, key: string): string
    requires InRange(inst) && Has(inst, key)
  {
    inst.blocks[inst.dictionary[EntryIndex(inst.dictionary, key)].slot].data
  }

  function CopyToBlock(inst: Instance, slot: nat, value: string): Instance
    requires slot < |inst.blocks|
  {
    inst.(blocks := inst.blocks[slot := Block(value, |value|)])
  }

  function NextSlot(pointer: nat, maxEntries: nat): nat {
    if pointer + 1 == maxEntries then 0 else pointer + 1
  }

  function Create(inst: Instance, key: string): Instance
    requires InRange(inst)
  {
    var entry := Entry(inst.pointer, key, |DEFAULT_VALUE|);
    CopyToBlock(inst, inst.pointer, DEFAULT_VALUE).(
      dictionary := [entry] + inst.dictionary,
      pointer := NextSlot(inst.pointer, |inst.blocks|))
  }

  function Dump(inst: Instance, i: nat): Instance
    requires InRange(inst) && i < |inst.dictionary|
  {
    inst.(files := inst.files[inst.dictionary[i].key := inst.blocks[inst.dictionary[i].slot].data])
  }

  function Process(inst: Instance, op: Op): Outcome
    requires InRange(inst)
  {
    var i := EntryIndex(inst.dictionary, op.key);
    match op
    case Get(key) =>
      if i == |inst.dictionary| then Outcome(Create(inst, key), true) else Outcome(inst, true)
    case Set(key, value) =>
      if i == |inst.dictionary| then Outcome(inst, false)
      else
        var entry := inst.dictionary[i];
        var resized := inst.dictionary[i := entry.(size := |value|)];
        Outcome(CopyToBlock(inst, entry.slot, value).(dictionary := resized), true)
    case Store(key) =>
      if i == |inst.dictionary| then Outcome(inst, false) else Outcome(Dump(inst, i), true)
  }
}
