/** Mutual exclusion and the lock history of every key. */
module Locks {
  import opened Types
  import opened Lists
  import opened PlannerSpec
  import opened PlannerSound
  import opened InstanceSpec
  import opened KeyTable
  import opened LockHistory
  import opened System
  import opened Invariant
  import opened Moves

  // ---------- Mutual exclusion ----------

  /** The message is a GET of the key that has been permitted and not yet entered into the table. */
  predicate Taking(m: Msg, key: string) {
    match m
    case Permit(_, _, op) => op == Get(key)
    case Apply(_, _, op, _) => op == Get(key)
    case Reply(_, _, op, _, success) => success && op == Get(key)
    case Notice(_, change) => change.key == key && change.status == Blocked
    case _ => false
  }

  /** At most one BLOCKED entry per key, and none for a key that is being taken. */
  ghost predicate Exclusive(taken: seq<Alloc>, net: seq<Msg>) {
    && (forall key :: Holders(taken, key) <= 1)
    && (net != [] ==> forall key :: Taking(net[0], key) ==> Holders(taken, key) == 0)
  }

  lemma SameTableExclusive(s: State, t: State)
    requires Exclusive(s.planner.taken, s.net) && t.planner.taken == s.planner.taken
    requires t.net != [] && s.net != [] ==> forall key :: Taking(t.net[0], key) ==> Taking(s.net[0], key)
    requires t.net != [] && s.net == [] ==> forall key :: !Taking(t.net[0], key)
    ensures Exclusive(t.planner.taken, t.net)
  {}

  lemma ReleaseExclusive(ps: Planner, key: string, net: seq<Msg>)
    requires Sound(ps) && Exclusive(ps.taken, net)
    ensures ReleaseKey(ps, key).Some? && Exclusive(ReleaseKey(ps, key).value.taken, net)
  {
    hide Sound, CheckWhosWaiting;
    ReleaseIsFilter(ps, key);
    forall k
      ensures Holders(ReleaseKey(ps, key).value.taken, k) <= Holders(ps.taken, k)
    {
      TableReleased(ps.taken, key, k);
    }
  }

  lemma ReceivedExclusive(s: State, m: Msg, t: State)
    requires Inv(s) && s.net != [] && m == s.net[0] && Received(s, m, t) && !t.crashed
    requires Exclusive(s.planner.taken, s.net)
    ensures Exclusive(t.planner.taken, t.net)
  {
    hide Sound, Wired, Placed, InOrder, OfKnown, QueuesOnScript, FlightOnScript, Counted, InRange, Process,
         CheckWhosWaiting;
    if m.Question? && m.op.Get? && KeyHeld(s.planner.taken, m.op.key) {
      forall k ensures Holders(t.planner.taken, k) <= 1 {
        Appended(s.planner.taken, Alloc(m.name, m.op.key, Waiting), k);
      }
    } else if m.Question? {
      HolderIsFirst(s.planner.taken, m.op.key);
    } else if m.Notice? && m.change.status == Blocked {
      forall k ensures Holders(t.planner.taken, k) <= 1 {
        Appended(s.planner.taken, Alloc(m.change.name, m.change.key, Blocked), k);
      }
    } else if m.Notice? && m.change.status == AllocStatus.Released {
      ReleaseExclusive(s.planner, m.change.key, s.net);
    } else if m.Notice? {
      forall k ensures Holders(t.planner.taken, k) <= 1 {
        Appended(s.planner.taken, Alloc(m.change.name, m.change.key, Waiting), k);
      }
    } else {
      SameTableExclusive(s, t);
    }
  }

  lemma CrashOnly(s: State, t: State)
    requires !s.crashed && t.crashed && s.net != [] && Received(s, s.net[0], t)
    ensures t == s.(crashed := true) && Crashes(s, s.net[0])
  {
    hide KeyHeld, InRange, Process, Written, CheckWhosWaiting;
  }

  /** Mutual exclusion survives every step but the console's `block`, which inserts entries unasked. */
  lemma StepExclusive(s: State, step: Step)
    requires Inv(s) && Enabled(s, step) && !step.ConsoleBlock?
    requires Exclusive(s.planner.taken, s.net)
    ensures var t := Perform(s, step); Exclusive(t.planner.taken, t.net)
  {
    hide Sound, Wired, Placed, InOrder, OfKnown, QueuesOnScript, FlightOnScript, Counted, Perform, Received,
         CheckWhosWaiting;
    var t := Perform(s, step);
    StepForm(s, step);
    match step
    case Deliver(i) => if t.crashed { CrashOnly(s, t); } else { ReceivedExclusive(s, s.net[0], t); }
    case ConsoleUnblock(key) => ReleaseExclusive(s.planner, key, s.net);
    case StartEsi(order) => SameTableExclusive(s, t);
    case _ => SameTableExclusive(s, t);
  }

  // ---------- The table against the history ----------

  function LockView(taken: seq<Alloc>, key: string): Lock {
    match Holder(taken, key)
    case None => Free
    case Some(name) => Held(name)
  }

  /** The carried out operations the planner has heard of. */
  function Noticed(log: seq<Event>, net: seq<Msg>): seq<Event> {
    if net != [] && ((net[0].Reply? && net[0].success) || net[0].Notice?) && log != [] then log[..|log| - 1] else log
  }

  /** Permission was rightly given: nobody holds a key to be taken, and a key to be used is held by the one using
      it. */
  ghost predicate RightlyGranted(taken: seq<Alloc>, pre: set<string>, m: Msg) {
    m.Permit? || m.Apply? ==>
      m.op.key !in pre && LockView(taken, m.op.key) == if m.op.Get? then Free else Held(m.name)
  }

  /** `pre` are the preloaded keys. */
  ghost predicate KeysOk(taken: seq<Alloc>, log: seq<Event>, net: seq<Msg>, pre: set<string>) {
    && (forall key :: key !in pre ==> LockView(taken, key) == LockAfter(Noticed(log, net), key))
    && (forall key :: LockAfter(log, key) != Broken)
    && (forall key :: key in pre ==> Holder(taken, key) == Some("") && KeyLog(log, key) == [])
    && (net != [] ==> RightlyGranted(taken, pre, net[0]))
  }

  lemma SameTableKeys(s: State, t: State, pre: set<string>)
    requires KeysOk(s.planner.taken, s.log, s.net, pre) && t.planner.taken == s.planner.taken && t.log == s.log
    requires Noticed(t.log, t.net) == Noticed(s.log, s.net)
    requires t.net != [] ==> RightlyGranted(t.planner.taken, pre, t.net[0])
    ensures KeysOk(t.planner.taken, t.log, t.net, pre)
  {}

  lemma WaiterKeys(s: State, t: State, pre: set<string>, a: Alloc)
    requires KeysOk(s.planner.taken, s.log, s.net, pre)
    requires t.planner.taken == s.planner.taken + [a] && a.status == Waiting
    requires t.log == s.log && t.net == [] && Noticed(s.log, s.net) == s.log
    ensures KeysOk(t.planner.taken, t.log, t.net, pre)
  {
    forall key
      ensures Holder(t.planner.taken, key) == Holder(s.planner.taken, key)
    {
      Appended(s.planner.taken, a, key);
    }
  }

  lemma QuestionKeys(s: State, m: Msg, t: State, pre: set<string>)
    requires Inv(s) && s.net == [m] && m.Question? && Received(s, m, t) && !t.crashed
    requires KeysOk(s.planner.taken, s.log, s.net, pre)
    ensures KeysOk(t.planner.taken, t.log, t.net, pre)
  {
    hide Sound, Placed, InOrder, OfKnown, QueuesOnScript, FlightOnScript, Counted;
    HolderIsFirst(s.planner.taken, m.op.key);
    if m.op.Get? && KeyHeld(s.planner.taken, m.op.key) {
      WaiterKeys(s, t, pre, Alloc(m.name, m.op.key, Waiting));
    } else {
      IdsDiffer(s.planner.config, m.who, m.who);
      assert m.name != "";
      SameTableKeys(s, t, pre);
    }
  }

  /** An operation carried out with permission keeps the discipline; the table follows with the notice. */
  lemma ApplyKeys(s: State, m: Msg, pre: set<string>)
    requires Inv(s) && s.net == [m] && CanExecute(s, m)
    requires KeysOk(s.planner.taken, s.log, s.net, pre)
    ensures KeysOk(AfterApply(s, m).planner.taken, AfterApply(s, m).log, AfterApply(s, m).net, pre)
  {
    hide Sound, Wired, Placed, InOrder, OfKnown, QueuesOnScript, FlightOnScript, Counted, InRange, Process, Written,
         LockAfter;
    var t := AfterApply(s, m);
    if t.net[0].success {
      var e := t.log[|s.log|];
      assert t.log == s.log + [e] && Noticed(t.log, t.net) == s.log;
      forall key
        ensures LockAfter(t.log, key) != Broken
        ensures key in pre ==> KeyLog(t.log, key) == []
      {
        LockGrows(s.log, e, key);
        assert t.log[..|s.log|] == s.log;
      }
    }
  }

  /** The lock that the last, unnoticed operation found and left. */
  lemma LastLock(log: seq<Event>, name: string, op: Op)
    requires LastIs(log, name, op) && LockAfter(log, op.key) != Broken
    ensures LockAfter(log[..|log| - 1], op.key) == if op.Get? then Free else Held(name)
    ensures LockAfter(log, op.key) == if op.Store? then Free else Held(name)
    ensures forall key :: key != op.key ==> LockAfter(log, key) == LockAfter(log[..|log| - 1], key)
    ensures op.Set? ==> forall key :: LockAfter(log, key) == LockAfter(log[..|log| - 1], key)
    ensures KeyLog(log, op.key) != []
  {
    hide LockAfter;
    var before, e := log[..|log| - 1], log[|log| - 1];
    forall key
      ensures LockAfter(log, key) ==
              if key == op.key then LockStep(LockAfter(before, key), e) else LockAfter(before, key)
    {
      LastStep(log, key);
    }
    LastListed(log);
  }

  lemma LastStep(log: seq<Event>, key: string)
    requires log != []
    ensures var before, e := log[..|log| - 1], log[|log| - 1];
            LockAfter(log, key) ==
            if e.op.key == key then LockStep(LockAfter(before, key), e) else LockAfter(before, key)
  {
    hide LockAfter;
    var before, e := log[..|log| - 1], log[|log| - 1];
    assert log == before + [e];
    LockGrows(before, e, key);
  }

  lemma LastListed(log: seq<Event>)
    requires log != []
    ensures KeyLog(log, log[|log| - 1].op.key) != []
  {}

  lemma ReplyKeys(s: State, m: Msg, pre: set<string>)
    requires Inv(s) && s.net == [m] && m.Reply?
    requires KeysOk(s.planner.taken, s.log, s.net, pre)
    ensures KeysOk(AfterReply(s, m).planner.taken, AfterReply(s, m).log, AfterReply(s, m).net, pre)
  {
    hide Sound, Wired, Placed, InOrder, OfKnown, QueuesOnScript, Counted, LockAfter;
    if m.success {
      LastLock(s.log, m.name, m.op);
    }
  }

  lemma NoticeKeys(s: State, m: Msg, pre: set<string>)
    requires Inv(s) && s.net == [m, LineOk(m.who)] && m.Notice? && ChangeKeyStatus(s.planner, m.change).Some?
    requires KeysOk(s.planner.taken, s.log, s.net, pre) && Exclusive(s.planner.taken, s.net)
    ensures var t := AfterNotice(s, m); KeysOk(t.planner.taken, t.log, t.net, pre)
  {
    hide Sound, Wired, Placed, InOrder, OfKnown, QueuesOnScript, Counted, LockAfter, CheckWhosWaiting, ChangeKeyStatus,
         Exclusive, Holder;
    LastLock(s.log, m.change.name, if m.change.status == Blocked then Get(m.change.key) else Store(m.change.key));
    NoticeHolders(s, m);
  }

  /** The holders after a notice. */
  lemma NoticeHolders(s: State, m: Msg)
    requires Inv(s) && s.net == [m, LineOk(m.who)] && m.Notice? && ChangeKeyStatus(s.planner, m.change).Some?
    requires Exclusive(s.planner.taken, s.net)
    ensures var t, a := AfterNotice(s, m), m.change;
            forall key :: Holder(t.planner.taken, key) ==
                          if key != a.key then Holder(s.planner.taken, key)
                          else if a.status == Blocked then Some(a.name) else None
  {
    hide Sound, Wired, Placed, InOrder, OfKnown, QueuesOnScript, Counted, CheckWhosWaiting;
    var t, a := AfterNotice(s, m), m.change;
    HolderIsFirst(s.planner.taken, a.key);
    if a.status == Blocked {
      forall key
        ensures Holder(t.planner.taken, key) == if key == a.key then Some(a.name) else Holder(s.planner.taken, key)
      {
        Appended(s.planner.taken, Alloc(a.name, a.key, Blocked), key);
      }
    } else {
      ReleaseIsFilter(s.planner, a.key);
      forall key
        ensures Holder(t.planner.taken, key) == if key == a.key then None else Holder(s.planner.taken, key)
      {
        TableReleased(s.planner.taken, a.key, key);
        HolderIsFirst(t.planner.taken, key);
      }
    }
  }

  /** The console's `unblock` releases whatever it is told to. It keeps the table in step with the operations carried
      out exactly if nobody holds the key; then it does nothing. */
  lemma UnblockKeepsHistoryIff(s: State, key: string, pre: set<string>)
    requires Inv(s) && Exclusive(s.planner.taken, s.net) && KeysOk(s.planner.taken, s.log, s.net, pre)
    ensures ReleaseKey(s.planner, key).Some?
    ensures KeysOk(ReleaseKey(s.planner, key).value.taken, s.log, s.net, pre) <==> !KeyHeld(s.planner.taken, key)
    ensures !KeyHeld(s.planner.taken, key) ==> ReleaseKey(s.planner, key).value == s.planner
  {
    hide Sound, Wired, Placed, InOrder, OfKnown, QueuesOnScript, FlightOnScript, Counted, OneOutstanding, LockAfter,
         ReleaseKey, RemoveHolder;
    if KeyHeld(s.planner.taken, key) {
      ReleaseIsFilter(s.planner, key);
      var taken, after := s.planner.taken, ReleaseKey(s.planner, key).value.taken;
      HolderIsFirst(taken, key);
      HolderIsFirst(after, key);
      TableReleased(taken, key, key);
      assert LockView(after, key) == Free != LockView(taken, key);
    } else {
      ReleaseFree(s.planner, key);
    }
  }

  /** The console does nothing to the locks: no `block`, and `unblock` only of keys that nobody holds. */
  predicate Harmless(s: State, step: Step) {
    !step.ConsoleBlock? && (step.ConsoleUnblock? ==> !KeyHeld(s.planner.taken, step.key))
  }

  /** The same of all steps of a run. */
  predicate HarmlessRun(s: State, steps: seq<Step>)
    requires Runs(s, steps)
    decreases |steps|
  {
    steps == [] || (Harmless(s, steps[0]) && HarmlessRun(Perform(s, steps[0]), steps[1..]))
  }

  lemma {:induction false} NoConsoleIsHarmless(s: State, steps: seq<Step>)
    requires Runs(s, steps) && forall i :: 0 <= i < |steps| ==> !steps[i].ConsoleBlock? && !steps[i].ConsoleUnblock?
    ensures HarmlessRun(s, steps)
    decreases |steps|
  {
    hide Enabled, Perform;
    if steps != [] {
      NoConsoleIsHarmless(Perform(s, steps[0]), steps[1..]);
    }
  }

  lemma {:induction false} HarmlessBlocksNothing(s: State, steps: seq<Step>)
    requires Runs(s, steps) && HarmlessRun(s, steps)
    ensures forall i :: 0 <= i < |steps| ==> !steps[i].ConsoleBlock?
    decreases |steps|
  {
    hide Enabled, Perform;
    if steps != [] {
      HarmlessBlocksNothing(Perform(s, steps[0]), steps[1..]);
      Head(steps);
    }
  }

  /** While the console does nothing to the locks, table, history and permissions stay together. */
  lemma StepKeys(s: State, step: Step, pre: set<string>)
    requires Inv(s) && Enabled(s, step) && Harmless(s, step)
    requires KeysOk(s.planner.taken, s.log, s.net, pre) && Exclusive(s.planner.taken, s.net)
    ensures var t := Perform(s, step); KeysOk(t.planner.taken, t.log, t.net, pre)
  {
    hide Sound, Wired, Placed, InOrder, OfKnown, QueuesOnScript, FlightOnScript, Counted, Perform, LockAfter, Received,
         Exclusive, CheckWhosWaiting, KeyHeld;
    var t := Perform(s, step);
    StepForm(s, step);
    if step.Deliver? && t.crashed {
      CrashOnly(s, t);
    } else if step.Deliver? {
      ReceivedKeys(s, t, pre);
    } else {
      if step.ConsoleUnblock? {
        ReleaseFree(s.planner, step.key);
      }
      SameTableKeys(s, t, pre);
    }
  }

  lemma ReceivedKeys(s: State, t: State, pre: set<string>)
    requires Inv(s) && s.net != [] && Received(s, s.net[0], t) && !t.crashed
    requires KeysOk(s.planner.taken, s.log, s.net, pre) && Exclusive(s.planner.taken, s.net)
    ensures KeysOk(t.planner.taken, t.log, t.net, pre)
  {
    hide Sound, Wired, Placed, InOrder, OfKnown, QueuesOnScript, Counted, LockAfter, Process, InRange, Exclusive,
         CheckWhosWaiting, KeyHeld, NextNode, LockView;
    var m := s.net[0];
    assert s.net == if m.Notice? then [m, LineOk(m.who)] else [m];
    match m
    case Question(_, _, _) => QuestionKeys(s, m, t, pre);
    case Apply(_, _, _, _) => ApplyKeys(s, m, pre);
    case Reply(_, _, _, _, _) => ReplyKeys(s, m, pre);
    case Notice(_, _) => NoticeKeys(s, m, pre);
    case _ => SameTableKeys(s, t, pre);
  }
}
