/** With one instance, what is stored and written is what a plain map would hold, one ESI at a time. */
module Isolation {
  import opened Types
  import opened InstanceSpec
  import opened InstanceLaws
  import opened LockHistory
  import opened System
  import opened Invariant
  import opened Moves

  /** The plain map after the operations. */
  function MapOf(log: seq<Event>): map<string, string> {
    if log == [] then map[] else MapStep(MapOf(log[..|log| - 1]), log[|log| - 1].op)
  }

  /** The files after the operations. */
  function FilesOf(log: seq<Event>): map<string, string> {
    if log == [] then map[]
    else
      var before, e := FilesOf(log[..|log| - 1]), log[|log| - 1];
      if e.op.Store? then before[e.op.key := e.written] else before
  }

  /** Each STORE wrote the value the plain map held at that moment. */
  ghost predicate WritesMap(log: seq<Event>) {
    forall i :: 0 <= i < |log| && log[i].op.Store? ==>
      log[i].op.key in MapOf(log[..i]) && log[i].written == MapOf(log[..i])[log[i].op.key]
  }

  ghost predicate WithinCapacity(inst: Instance) {
    |inst.dictionary| <= |inst.blocks|
  }

  /** The one instance holds the keys that were ever operated on, and the files are those written; within capacity,
      it holds the plain map. */
  ghost predicate Stored(nodes: seq<Node>, log: seq<Event>) {
    && |nodes| == 1
    && Circular(nodes[0].store) && InRange(nodes[0].store)
    && nodes[0].store.files == FilesOf(log)
    && (forall key :: KeyLog(log, key) != [] ==> Has(nodes[0].store, key))
    && (WithinCapacity(nodes[0].store) ==> Holds(nodes[0].store, MapOf(log)) && WritesMap(log))
  }

  lemma FoldsGrow(log: seq<Event>, e: Event)
    ensures MapOf(log + [e]) == MapStep(MapOf(log), e.op)
    ensures FilesOf(log + [e]) == if e.op.Store? then FilesOf(log)[e.op.key := e.written] else FilesOf(log)
    ensures forall key :: KeyLog(log + [e], key) == if e.op.key == key then KeyLog(log, key) + [e] else KeyLog(log, key)
  {
    assert (log + [e])[..|log|] == log;
  }

  /** Rows are never removed, and an operation that succeeds leaves a row for its key. */
  lemma RowsStay(inst: Instance, op: Op, key: string)
    requires Circular(inst) && InRange(inst)
    ensures Has(inst, key) ==> Has(Process(inst, op).instance, key)
    ensures Process(inst, op).success ==> Has(Process(inst, op).instance, op.key)
    ensures |inst.dictionary| <= |Process(inst, op).instance.dictionary|
    ensures |inst.blocks| == |Process(inst, op).instance.blocks|
    ensures !Process(inst, op).success ==> Process(inst, op).instance == inst
    ensures op.Store? && Process(inst, op).success ==>
              Process(inst, op).instance.files == inst.files[op.key := Written(inst, op)]
    ensures !op.Store? ==> Process(inst, op).instance.files == inst.files
  {
    hide Circular;
    if Has(inst, key) {
      RowStays(inst, op, key);
    }
    if Has(inst, op.key) {
      RowStays(inst, op, op.key);
    }
  }

  lemma RowStays(inst: Instance, op: Op, key: string)
    requires InRange(inst) && Has(inst, key)
    ensures Has(Process(inst, op).instance, key)
  {
    var after := Process(inst, op).instance;
    var i := EntryIndex(inst.dictionary, key);
    assert after.dictionary[i + |after.dictionary| - |inst.dictionary|].key == key;
  }

  lemma ApplyStored(s: State, m: Msg)
    requires Stored(s.nodes, s.log) && CanExecute(s, m)
    ensures Stored(AfterApply(s, m).nodes, AfterApply(s, m).log)
  {
    hide Circular, Process, Holds, WritesMap, Written;
    var t := AfterApply(s, m);
    var inst, after := s.nodes[0].store, t.nodes[0].store;
    KeepsCircular(inst, m.op);
    CircularInRange(after);
    forall key
      ensures Has(inst, key) ==> Has(after, key)
    {
      RowsStay(inst, m.op, key);
    }
    RowsStay(inst, m.op, m.op.key);
    if t.net[0].success {
      var e := t.log[|s.log|];
      assert t.log == s.log + [e];
      FoldsGrow(s.log, e);
      if WithinCapacity(after) {
        SimulatesMap(inst, m.op, MapOf(s.log));
        WritesGrow(s, m, e);
      }
    }
  }

  lemma WritesGrow(s: State, m: Msg, e: Event)
    requires Stored(s.nodes, s.log) && CanExecute(s, m)
    requires Holds(s.nodes[0].store, MapOf(s.log)) && WritesMap(s.log)
    requires e == Event(m.name, m.op, m.node, Written(s.nodes[0].store, m.op))
    requires Process(s.nodes[0].store, m.op).success
    ensures WritesMap(s.log + [e])
  {
    var log := s.log + [e];
    forall i | 0 <= i < |log| && log[i].op.Store?
      ensures log[i].op.key in MapOf(log[..i]) && log[i].written == MapOf(log[..i])[log[i].op.key]
    {
      if i < |s.log| {
        assert log[..i] == s.log[..i] && log[i] == s.log[i];
      } else {
        assert log[..i] == s.log;
        assert Has(s.nodes[0].store, m.op.key);
      }
    }
  }

  /** No step changes what is stored except the execution of an operation. */
  lemma StepStored(s: State, step: Step)
    requires Inv(s) && Enabled(s, step) && !step.Join?
    requires Stored(s.nodes, s.log)
    ensures Stored(Perform(s, step).nodes, Perform(s, step).log)
  {
    hide Inv, Perform, Enabled, Stored, Process, InRange, Written;
    StepForm(s, step);
    if step.Deliver? && s.net[0].Apply? && Perform(s, step) != s.(crashed := true) {
      ApplyStored(s, s.net[0]);
    }
  }

  // ---------- Each STORE writes its own window's value ----------

  /** The value of `key` according to the operations since position `j`: the last SET behind `j`, or else what the key
      had when the GET at `j` opened the window. */
  function ValueSince(log: seq<Event>, j: nat, key: string): string
    requires j < |log|
  {
    var last := |log| - 1;
    if last == j then (if key in MapOf(log[..j]) then MapOf(log[..j])[key] else DEFAULT_VALUE)
    else if log[last].op.Set? && log[last].op.key == key then log[last].op.value
    else ValueSince(log[..last], j, key)
  }

  /** From position `j` to the end, the key belongs to `name`: a GET at `j`, then nothing but its own SETs. */
  ghost predicate Window(log: seq<Event>, j: int, key: string, name: string) {
    && 0 <= j < |log|
    && log[j].name == name && log[j].op == Get(key)
    && forall x :: j < x < |log| && log[x].op.key == key ==> log[x].name == name && log[x].op.Set?
  }

  /** Inside a window the plain map holds the window's value. */
  lemma {:induction false} WindowMap(log: seq<Event>, j: nat, key: string, name: string)
    requires Window(log, j, key, name)
    ensures key in MapOf(log) && MapOf(log)[key] == ValueSince(log, j, key)
    decreases |log|
  {
    var last := |log| - 1;
    if last > j {
      WindowMap(log[..last], j, key, name);
      assert log[..last][..j] == log[..j];
    }
  }
}
