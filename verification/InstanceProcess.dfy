/** The instance as its program updates it: the block table is an array, the dictionary a list. */
module InstanceProcess {
  import opened Types
  import opened InstanceSpec

  predicate Known(dictionary: seq<Entry>, key: string) {
    exists j :: 0 <= j < |dictionary| && dictionary[j].key == key
  }

  /** The row that a scan for the key stops at. */
  predicate FirstRow(dictionary: seq<Entry>, i: int, key: string) {
    0 <= i < |dictionary| && dictionary[i].key == key && forall j :: 0 <= j < i ==> dictionary[j].key != key
  }

  class InstanceTables {
    var dictionary: seq<Entry>
    var blocks: array<Block>
    var pointer: nat
    var files: map<string, string>

    function State(): Instance
      reads this, blocks
    {
      Instance(dictionary, blocks[..], pointer, files)
    }

    ghost predicate Valid()
      reads this, blocks
    {
      InRange(State())
    }

    /** `initialize_entry_table`. */
    constructor (maxEntries: nat)
      requires maxEntries > 0
      ensures Valid() && fresh(blocks)
      ensures State() == Fresh(maxEntries)
      ensures dictionary == [] && pointer == 0 && files == map[]
      ensures blocks.Length == maxEntries && forall i :: 0 <= i < maxEntries ==> blocks[i] == Block("", 0)
    {
      dictionary, pointer, files := [], 0, map[];
      blocks := new Block[maxEntries];
      new;
      var a := 0;
      while a < maxEntries
        invariant 0 <= a <= maxEntries && blocks.Length == maxEntries && fresh(blocks)
        invariant dictionary == [] && pointer == 0 && files == map[]
        invariant forall i :: 0 <= i < a ==> blocks[i] == Block("", 0)
      {
        blocks[a] := Block("", 0);
        a := a + 1;
      }
      assert blocks[..] == Fresh(maxEntries).blocks;
    }

    /** The scan for a key's row. */
    method FindEntry(key: string) returns (found: bool, row: nat)
      ensures found == Has(State(), key)
      ensures found ==> row == EntryIndex(dictionary, key)
      ensures found ==> row < |dictionary| && dictionary[row].key == key
      ensures found ==> forall j :: 0 <= j < row ==> dictionary[j].key != key
      ensures !found ==> forall j :: 0 <= j < |dictionary| ==> dictionary[j].key != key
    {
      found, row := false, 0;
      var a := 0;
      while a < |dictionary| && !found
        invariant 0 <= a <= |dictionary|
        invariant !found ==> a <= EntryIndex(dictionary, key)
        invariant found ==> row < |dictionary| && row == EntryIndex(dictionary, key)
        decreases !found, |dictionary| - a
      {
        if dictionary[a].key == key {
          found, row := true, a;
        }
        a := a + 1;
      }
    }

    method CopyValueToBlock(slot: nat, value: string)
      requires slot < blocks.Length
      modifies blocks
      ensures blocks[..] == old(blocks[..])[slot := Block(value, |value|)]
    {
      blocks[slot] := Block(value, |value|);
    }

    method DumpEntry(row: nat)
      requires Valid() && row < |dictionary|
      modifies this`files
      ensures State() == Dump(old(State()), row)
      ensures files == old(files)[dictionary[row].key := blocks[dictionary[row].slot].data]
      ensures dictionary == old(dictionary) && blocks == old(blocks) && pointer == old(pointer)
    {
      files := files[dictionary[row].key := blocks[dictionary[row].slot].data];
    }

    method ProcessInstruction(op: Op) returns (success: bool)
      requires Valid()
      modifies this, blocks
      ensures blocks == old(blocks)
      ensures Outcome(State(), success) == Process(old(State()), op)
      ensures op.Get? && !Known(old(dictionary), op.key) ==>
                && success && old(pointer) < |old(blocks[..])|
                && dictionary == [Entry(old(pointer), op.key, 8)] + old(dictionary)
                && blocks[..] == old(blocks[..])[old(pointer) := Block("Default" + ['\0'], 8)]
                && pointer == (if old(pointer) + 1 == blocks.Length then 0 else old(pointer) + 1)
                && files == old(files)
      ensures op.Get? && Known(old(dictionary), op.key) ==> success && State() == old(State())
      ensures !op.Get? ==> success == Known(old(dictionary), op.key)
      ensures !op.Get? && !success ==> State() == old(State())
      ensures op.Set? && success ==>
                exists i ::
                  && FirstRow(old(dictionary), i, op.key) && old(dictionary)[i].slot < |old(blocks[..])|
                  && dictionary == old(dictionary)[i := Entry(old(dictionary)[i].slot, op.key, |op.value|)]
                  && blocks[..] == old(blocks[..])[old(dictionary)[i].slot := Block(op.value, |op.value|)]
                  && pointer == old(pointer) && files == old(files)
      ensures op.Store? && success ==>
                exists i ::
                  && FirstRow(old(dictionary), i, op.key) && old(dictionary)[i].slot < |old(blocks[..])|
                  && State() == old(State()).(
                       files := old(files)[op.key := old(blocks[..])[old(dictionary)[i].slot].data])
    {
      var found, row := FindEntry(op.key);
      success := false;
      match op {
        case Get(key) =>
          if !found {
            var entry := Entry(pointer, key, |DEFAULT_VALUE|);
            dictionary := [entry] + dictionary;
            CopyValueToBlock(entry.slot, DEFAULT_VALUE);
            pointer := pointer + 1;
            if pointer == blocks.Length {
              pointer := 0;
            }
          }
          success := true;
        case Set(key, value) =>
          if found {
            dictionary := dictionary[row := dictionary[row].(size := |value|)];
            CopyValueToBlock(dictionary[row].slot, value);
            success := true;
          }
        case Store(key) =>
          if found {
            DumpEntry(row);
            success := true;
          }
      }
    }
  }
}
