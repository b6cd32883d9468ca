/** The locks when the console releases keys: what the planner grants, together with these releases, keeps the lock
    discipline, and what is carried out is what was granted. */
module Releases {
  import opened Types
  import opened Lists
  import opened PlannerSpec
  import opened PlannerSound
  import opened InstanceSpec
  import opened KeyTable
  import opened LockHistory
  import opened System
  import opened Invariant
  import opened Moves
  import opened OneOrder
  import opened Locks
  import opened Isolation
  import opened Stuck

  // ---------- Grants and releases ----------

  /** The planner grants an operation, or the console takes a key from its holder. */
  datatype Act = Granted(name: string, op: Op) | Freed(freed: string)

  function KeyOf(a: Act): string {
    match a
    case Granted(_, op) => op.key
    case Freed(key) => key
  }

  /** What a step contributes. */
  function ActOf(s: State, step: Step): seq<Act> {
    match step
    case Deliver(i) =>
      if i < |s.net| && s.net[i].Question? then
        var m := s.net[i];
        if Ask(s.planner, m.name, m.op).Some? && Ask(s.planner, m.name, m.op).value.granted then [Granted(m.name, m.op)]
        else []
      else []
    case ConsoleUnblock(key) => if KeyHeld(s.planner.taken, key) then [Freed(key)] else []
    case _ => []
  }

  function Acts(s: State, steps: seq<Step>): seq<Act>
    requires Runs(s, steps)
    decreases |steps|
  {
    if steps == [] then [] else ActOf(s, steps[0]) + Acts(Perform(s, steps[0]), steps[1..])
  }

  /** A release frees a lock whoever holds it. */
  function LockAct(lock: Lock, a: Act): Lock {
    match a
    case Granted(name, op) => LockOp(lock, name, op)
    case Freed(_) => if lock == Broken then Broken else Free
  }

  /** The lock of a key after the acts; preloaded keys begin held by nobody. */
  function LockBy(h: seq<Act>, key: string, pre: set<string>): Lock {
    if h == [] then (if key in pre then Held("") else Free)
    else
      var before, a := LockBy(h[..|h| - 1], key, pre), h[|h| - 1];
      if KeyOf(a) == key then LockAct(before, a) else before
  }

  lemma LockByGrows(h: seq<Act>, a: Act, key: string, pre: set<string>)
    ensures LockBy(h + [a], key, pre) ==
            if KeyOf(a) == key then LockAct(LockBy(h, key, pre), a) else LockBy(h, key, pre)
  {
    assert (h + [a])[..|h|] == h;
  }

  // ---------- Table and acts ----------

  /** The operation has been granted and its effect on the table is still to come. */
  predicate Pends(net: seq<Msg>, op: Op) {
    net != []
    && match net[0]
       case Permit(_, _, o) => o == op
       case Apply(_, _, o, _) => o == op
       case Reply(_, _, o, _, success) => success && o == op
       case Notice(_, change) =>
         (change.status == Blocked && op == Get(change.key))
         || (change.status == AllocStatus.Released && op == Store(change.key))
       case _ => false
  }

  function NameIn(m: Msg): string {
    match m
    case Permit(_, name, _) => name
    case Apply(_, name, _, _) => name
    case Reply(_, name, _, _, _) => name
    case Notice(_, change) => change.name
    case _ => ""
  }

  /** The table is behind the acts by the operation that is under way. */
  predicate Agrees(view: Lock, net: seq<Msg>, key: string, lock: Lock) {
    if Pends(net, Get(key)) then view == Free && lock == Held(NameIn(net[0]))
    else if Pends(net, Store(key)) then lock == Free && (view == Free || view == Held(NameIn(net[0])))
    else view == lock
  }

  /** An operation has failed, so that nothing will be granted any more. */
  predicate Over(s: State) {
    s.crashed || Lost(s)
  }

  ghost predicate Disciplined(h: seq<Act>, pre: set<string>) {
    forall key :: LockBy(h, key, pre) != Broken
  }

  ghost predicate Follows(s: State, h: seq<Act>, pre: set<string>) {
    && Disciplined(h, pre)
    && (!Over(s) ==>
          forall key :: Agrees(LockView(s.planner.taken, key), s.net, key, LockBy(h, key, pre)))
  }

  /** The granted operations. */
  function Grants(h: seq<Act>): seq<Act> {
    if h == [] then []
    else
      var before, a := Grants(h[..|h| - 1]), h[|h| - 1];
      if a.Granted? then before + [a] else before
  }

  lemma GrantsGrow(h: seq<Act>, a: Act)
    ensures Grants(h + [a]) == if a.Granted? then Grants(h) + [a] else Grants(h)
  {
    assert (h + [a])[..|h|] == h;
  }

  /** The operations carried out are the granted ones, except perhaps for the last. */
  ghost predicate CarriesOut(log: seq<Event>, g: seq<Act>) {
    && |log| <= |g| <= |log| + 1
    && forall i :: 0 <= i < |log| ==> g[i] == Granted(log[i].name, log[i].op)
  }

  /** The last grant is under way, or an operation has failed, or else everything granted is carried out. */
  ghost predicate Tracks(s: State, h: seq<Act>) {
    var g := Grants(h);
    && CarriesOut(s.log, g)
    && if s.net != [] && (s.net[0].Permit? || s.net[0].Apply?)
       then |g| == |s.log| + 1 && g[|s.log|] == Granted(s.net[0].name, s.net[0].op)
       else |g| == |s.log| || Over(s)
  }

  lemma OverStays(s: State, step: Step)
    requires Inv(s) && Enabled(s, step) && Over(s)
    ensures Over(Perform(s, step)) && Perform(s, step).log == s.log
    ensures s.net != [] ==> s.net[0].Reply? && !step.StartEsi?
    ensures Perform(s, step).net != [] ==> Perform(s, step).net[0].Reply?
  {
    hide Sound, Wired, Placed, InOrder, OfKnown, QueuesOnScript, FlightOnScript, Counted, Perform, CheckWhosWaiting;
    StepForm(s, step);
    if step.ConsoleUnblock? {
      ReleaseKeepsRunning(s.planner, step.key);
    }
  }

  /** A release never breaks the discipline. */
  lemma FreedDisciplined(h: seq<Act>, key: string, pre: set<string>)
    requires Disciplined(h, pre)
    ensures Disciplined(h + [Freed(key)], pre) && Grants(h + [Freed(key)]) == Grants(h)
  {
    forall k ensures LockBy(h + [Freed(key)], k, pre) != Broken {
      LockByGrows(h, Freed(key), k, pre);
    }
    GrantsGrow(h, Freed(key));
  }

  /** The planner says yes: to a GET of a free key, and to a SET or STORE by the key's first holder. */
  predicate Grantable(taken: seq<Alloc>, m: Msg)
    requires m.Question?
  {
    if m.op.Get? then !KeyHeld(taken, m.op.key)
    else KeyHeld(taken, m.op.key) && taken[AllocIndex(taken, m.op.key, Blocked)].name == m.name
  }

  lemma GrantedAct(s: State)
    requires s.net != [] && s.net[0].Question?
    ensures ActOf(s, Deliver(0)) ==
            if Grantable(s.planner.taken, s.net[0]) then [Granted(s.net[0].name, s.net[0].op)] else []
  {}

  /** The planner grants an operation: the lock allows it. */
  lemma GrantFollows(s: State, t: State, h: seq<Act>, pre: set<string>)
    requires Inv(s) && s.net != [] && s.net[0].Question? && !Over(s) && Follows(s, h, pre) && Tracks(s, h)
    requires t == AfterAnswer(s, s.net[0], true)
    requires Grantable(s.planner.taken, s.net[0])
    ensures Follows(t, h + [Granted(s.net[0].name, s.net[0].op)], pre)
    ensures Tracks(t, h + [Granted(s.net[0].name, s.net[0].op)])
  {
    hide Inv, AllocIndex, KeyHeld, LockView, LockBy, LockAct, Agrees, Grantable, Grants;
    var m := s.net[0];
    var a := Granted(m.name, m.op);
    GrantView(s.planner.taken, m);
    GrantsGrow(h, a);
    forall key
      ensures LockBy(h + [a], key, pre) != Broken
      ensures Agrees(LockView(t.planner.taken, key), t.net, key, LockBy(h + [a], key, pre))
    {
      LockByGrows(h, a, key, pre);
      assert Agrees(LockView(s.planner.taken, key), s.net, key, LockBy(h, key, pre));
      GrantAgrees(LockView(s.planner.taken, key), s.net, m, key, LockBy(h, key, pre));
    }
  }

  lemma GrantView(taken: seq<Alloc>, m: Msg)
    requires m.Question? && Grantable(taken, m)
    ensures LockView(taken, m.op.key) == if m.op.Get? then Free else Held(m.name)
  {
    hide AllocIndex, KeyHeld;
    HolderIsFirst(taken, m.op.key);
  }

  lemma GrantAgrees(view: Lock, net: seq<Msg>, m: Msg, key: string, lock: Lock)
    requires net != [] && net[0] == m && m.Question? && Agrees(view, net, key, lock) && lock != Broken
    requires key == m.op.key ==> view == if m.op.Get? then Free else Held(m.name)
    ensures var after := if key == m.op.key then LockAct(lock, Granted(m.name, m.op)) else lock;
            after != Broken && Agrees(view, [Permit(m.who, m.name, m.op)], key, after)
  {}

  /** The table stays, and what is under way stays under way. */
  lemma SameFollows(s: State, t: State, h: seq<Act>, pre: set<string>)
    requires Follows(s, h, pre) && !Over(s)
    requires forall key :: LockView(t.planner.taken, key) == LockView(s.planner.taken, key)
    requires forall key :: Pends(t.net, Get(key)) == Pends(s.net, Get(key))
    requires forall key :: Pends(t.net, Store(key)) == Pends(s.net, Store(key))
    requires forall key :: Pends(s.net, Get(key)) && Pends(t.net, Get(key)) ==> NameIn(t.net[0]) == NameIn(s.net[0])
    requires forall key :: Pends(s.net, Store(key)) && Pends(t.net, Store(key)) ==> NameIn(t.net[0]) == NameIn(s.net[0])
    ensures Follows(t, h, pre)
  {
    forall key
      ensures !Over(t) ==> Agrees(LockView(t.planner.taken, key), t.net, key, LockBy(h, key, pre))
    {
      assert Agrees(LockView(s.planner.taken, key), s.net, key, LockBy(h, key, pre));
    }
  }

  /** The notice brings the table up to date. */
  lemma NoticeFollows(s: State, m: Msg, h: seq<Act>, pre: set<string>)
    requires Inv(s) && s.net == [m, LineOk(m.who)] && m.Notice? && ChangeKeyStatus(s.planner, m.change).Some?
    requires Follows(s, h, pre) && !Over(s) && Exclusive(s.planner.taken, s.net)
    ensures Follows(AfterNotice(s, m), h, pre)
  {
    hide Sound, Wired, Placed, InOrder, OfKnown, QueuesOnScript, Counted, CheckWhosWaiting, LockBy;
    var t, a := AfterNotice(s, m), m.change;
    forall key
      ensures Agrees(LockView(t.planner.taken, key), t.net, key, LockBy(h, key, pre))
    {
      assert Agrees(LockView(s.planner.taken, key), s.net, key, LockBy(h, key, pre));
      if a.status == Blocked {
        Appended(s.planner.taken, Alloc(a.name, a.key, Blocked), key);
      } else {
        ReleasedView(s.planner, a.key, key, s.net);
      }
    }
  }

  lemma ReleasedView(ps: Planner, released: string, key: string, net: seq<Msg>)
    requires Sound(ps) && Exclusive(ps.taken, net)
    ensures ReleaseKey(ps, released).Some?
    ensures LockView(ReleaseKey(ps, released).value.taken, key) ==
            if key == released then Free else LockView(ps.taken, key)
  {
    hide Sound, CheckWhosWaiting;
    ReleaseIsFilter(ps, released);
    TableReleased(ps.taken, released, key);
    HolderIsFirst(ReleaseKey(ps, released).value.taken, key);
  }

  /** The console takes a key from its holder. */
  lemma FreedFollows(s: State, key: string, h: seq<Act>, pre: set<string>)
    requires Inv(s) && Follows(s, h, pre) && !Over(s) && Exclusive(s.planner.taken, s.net)
    requires KeyHeld(s.planner.taken, key) && ReleaseKey(s.planner, key).Some?
    ensures Follows(AfterUnblock(s, key), h + [Freed(key)], pre)
  {
    hide Sound, Wired, Placed, InOrder, OfKnown, QueuesOnScript, FlightOnScript, Counted, OneOutstanding, KeyHeld,
         LockBy, ReleaseKey;
    var t := AfterUnblock(s, key);
    FreedDisciplined(h, key, pre);
    HolderIsFirst(s.planner.taken, key);
    forall k
      ensures Agrees(LockView(t.planner.taken, k), t.net, k, LockBy(h + [Freed(key)], k, pre))
    {
      assert Agrees(LockView(s.planner.taken, k), s.net, k, LockBy(h, k, pre));
      LockByGrows(h, Freed(key), k, pre);
      ReleasedView(s.planner, key, k, s.net);
    }
  }

  lemma ReceivedFollows(s: State, t: State, h: seq<Act>, pre: set<string>)
    requires Inv(s) && !Over(s) && s.net != [] && Received(s, s.net[0], t) && !t.crashed
    requires Follows(s, h, pre) && Tracks(s, h) && Exclusive(s.planner.taken, s.net)
    ensures Follows(t, h + ActOf(s, Deliver(0)), pre) && Tracks(t, h + ActOf(s, Deliver(0)))
  {
    hide Sound, Wired, Placed, InOrder, OfKnown, QueuesOnScript, Counted, KeyHeld, Exclusive, Follows, Process,
         InRange, NextNode, CheckWhosWaiting, Written, LockView, LockBy, Grants, AllocIndex, BlockEsi;
    var m := s.net[0];
    if m.Question? {
      AnsweredFollows(s, t, h, pre);
    } else {
      assert h + ActOf(s, Deliver(0)) == h;
      if m.Notice? {
        NoticeFollows(s, m, h, pre);
      } else if m.Apply? && !t.net[0].success {
        OverFollows(s, t, h, pre);
      } else {
        SameFollows(s, t, h, pre);
      }
    }
  }

  lemma AnsweredFollows(s: State, t: State, h: seq<Act>, pre: set<string>)
    requires Inv(s) && !Over(s) && s.net != [] && s.net[0].Question? && Received(s, s.net[0], t) && !t.crashed
    requires Follows(s, h, pre) && Tracks(s, h)
    ensures Follows(t, h + ActOf(s, Deliver(0)), pre) && Tracks(t, h + ActOf(s, Deliver(0)))
  {
    hide Sound, Wired, Placed, InOrder, OfKnown, QueuesOnScript, Counted, FlightOnScript, KeyHeld, Follows, LockView,
         LockBy, Grants, AllocIndex, BlockEsi, ActOf;
    var m := s.net[0];
    GrantedAct(s);
    if Grantable(s.planner.taken, m) {
      GrantFollows(s, t, h, pre);
    } else {
      assert h + [] == h;
      if m.op.Get? {
        DenialFollows(s, t, h, pre);
      } else {
        OverFollows(s, t, h, pre);
      }
    }
  }

  lemma OverFollows(s: State, t: State, h: seq<Act>, pre: set<string>)
    requires Follows(s, h, pre) && Over(t)
    ensures Follows(t, h, pre)
  {}

  lemma DenialFollows(s: State, t: State, h: seq<Act>, pre: set<string>)
    requires Follows(s, h, pre) && !Over(s) && s.net != [] && s.net[0].Question? && t.net == []
    requires t.planner.taken == s.planner.taken + [Alloc(s.net[0].name, s.net[0].op.key, Waiting)]
    ensures Follows(t, h, pre)
  {
    forall key
      ensures LockView(t.planner.taken, key) == LockView(s.planner.taken, key)
    {
      Appended(s.planner.taken, Alloc(s.net[0].name, s.net[0].op.key, Waiting), key);
    }
    SameFollows(s, t, h, pre);
  }

  lemma CrashActs(s: State)
    requires s.net != [] && Crashes(s, s.net[0])
    ensures ActOf(s, Deliver(0)) == []
  {
    if s.net[0].Question? {
      GrantedAct(s);
    }
  }

  lemma StepFollows(s: State, step: Step, h: seq<Act>, pre: set<string>)
    requires Inv(s) && Enabled(s, step) && !step.ConsoleBlock?
    requires Follows(s, h, pre) && Tracks(s, h) && Exclusive(s.planner.taken, s.net)
    ensures Follows(Perform(s, step), h + ActOf(s, step), pre) && Tracks(Perform(s, step), h + ActOf(s, step))
  {
    hide Sound, Wired, Placed, InOrder, OfKnown, QueuesOnScript, FlightOnScript, Counted, Perform, KeyHeld, Exclusive,
         Received, CheckWhosWaiting, LockView, LockBy, Grants;
    var t := Perform(s, step);
    StepForm(s, step);
    if Over(s) {
      OverStays(s, step);
      if step.ConsoleUnblock? && KeyHeld(s.planner.taken, step.key) {
        FreedDisciplined(h, step.key, pre);
      } else {
        assert h + ActOf(s, step) == h;
      }
    } else if step.Deliver? {
      if t.crashed {
        CrashOnly(s, t);
        CrashActs(s);
        assert h + [] == h;
        OverFollows(s, t, h, pre);
      } else {
        ReceivedFollows(s, t, h, pre);
      }
    } else if step.ConsoleUnblock? && KeyHeld(s.planner.taken, step.key) {
      FreedFollows(s, step.key, h, pre);
      FreedDisciplined(h, step.key, pre);
    } else {
      if step.ConsoleUnblock? {
        ReleaseFree(s.planner, step.key);
      }
      assert h + ActOf(s, step) == h;
      SameFollows(s, t, h, pre);
    }
  }

  // ---------- Own windows ----------

  /** From position j to the end the key belongs to `name`: a GET at j, then nothing but its own SETs. */
  ghost predicate GrantedWindow(g: seq<Act>, j: int, key: string, name: string) {
    && 0 <= j < |g| && g[j] == Granted(name, Get(key))
    && forall x :: j < x < |g| && KeyOf(g[x]) == key ==> g[x].Granted? && g[x].name == name && g[x].op.Set?
  }

  lemma {:induction false} OpenWindow(h: seq<Act>, key: string, name: string, pre: set<string>) returns (j: int)
    requires LockBy(h, key, pre) == Held(name) && name != ""
    ensures GrantedWindow(Grants(h), j, key, name)
  {
    var before, a := h[..|h| - 1], h[|h| - 1];
    assert h == before + [a];
    LockByGrows(before, a, key, pre);
    GrantsGrow(before, a);
    if KeyOf(a) == key && a.Granted? && a.op.Get? {
      j := |Grants(before)|;
    } else {
      j := OpenWindow(before, key, name, pre);
    }
  }

  /** A granted SET or STORE lies in its ESI's own window. */
  lemma {:induction false} GrantInWindow(h: seq<Act>, i: nat, pre: set<string>) returns (j: int)
    requires i < |Grants(h)| && Grants(h)[i].Granted? && !Grants(h)[i].op.Get? && Grants(h)[i].name != ""
    requires LockBy(h, Grants(h)[i].op.key, pre) != Broken
    ensures GrantedWindow(Grants(h)[..i], j, Grants(h)[i].op.key, Grants(h)[i].name)
  {
    var before, a := h[..|h| - 1], h[|h| - 1];
    assert h == before + [a];
    GrantsGrow(before, a);
    LockByGrows(before, a, Grants(h)[i].op.key, pre);
    if i == |Grants(before)| {
      assert Grants(h)[..i] == Grants(before);
      j := OpenWindow(before, a.op.key, a.name, pre);
    } else {
      assert Grants(h)[..i] == Grants(before)[..i];
      j := GrantInWindow(before, i, pre);
    }
  }

  /** So does every SET and STORE that is carried out, and the plain map then holds the window's value. */
  lemma CarriedInWindow(log: seq<Event>, h: seq<Act>, i: nat, pre: set<string>) returns (j: int)
    requires CarriesOut(log, Grants(h)) && Disciplined(h, pre)
    requires i < |log| && !log[i].op.Get? && log[i].name != ""
    ensures Window(log[..i], j, log[i].op.key, log[i].name)
    ensures log[i].op.key in MapOf(log[..i])
    ensures MapOf(log[..i])[log[i].op.key] == ValueSince(log[..i], j, log[i].op.key)
  {
    hide MapOf, ValueSince, LockBy;
    var g := Grants(h);
    assert g[i] == Granted(log[i].name, log[i].op);
    j := GrantInWindow(h, i, pre);
    forall x | 0 <= x < i
      ensures g[..i][x] == Granted(log[..i][x].name, log[..i][x].op)
    {
      assert g[x] == Granted(log[x].name, log[x].op);
    }
    WindowMap(log[..i], j, log[i].op.key, log[i].name);
  }

  // ---------- Whole runs ----------

  lemma {:induction false} RunFollows(s: State, steps: seq<Step>, h: seq<Act>, pre: set<string>)
    requires Inv(s) && Runs(s, steps) && forall i :: 0 <= i < |steps| ==> !steps[i].ConsoleBlock?
    requires Follows(s, h, pre) && Tracks(s, h) && Exclusive(s.planner.taken, s.net)
    ensures Follows(After(s, steps), h + Acts(s, steps), pre) && Tracks(After(s, steps), h + Acts(s, steps))
    decreases |steps|
  {
    hide Inv, Perform, Enabled, Exclusive, Follows, Tracks, ActOf;
    if steps == [] {
      assert h + Acts(s, steps) == h;
    } else {
      StepKeeps(s, steps[0]);
      StepExclusive(s, steps[0]);
      StepFollows(s, steps[0], h, pre);
      RunFollows(Perform(s, steps[0]), steps[1..], h + ActOf(s, steps[0]), pre);
      assert h + Acts(s, steps) == h + ActOf(s, steps[0]) + Acts(Perform(s, steps[0]), steps[1..]);
    }
  }

  lemma InitFollows(config: Config, keys: seq<string>, nodes: seq<Node>, pre: set<string>)
    requires forall key :: LockView(Preloaded(keys), key) == if key in pre then Held("") else Free
    ensures Follows(Init(config, keys, nodes), [], pre) && Tracks(Init(config, keys, nodes), [])
  {}

  /** Without releases the acts are the grants. */
  lemma {:induction false} HarmlessActs(s: State, steps: seq<Step>)
    requires Runs(s, steps) && HarmlessRun(s, steps)
    ensures forall i :: 0 <= i < |Acts(s, steps)| ==> Acts(s, steps)[i].Granted?
    decreases |steps|
  {
    hide Enabled, Perform, KeyHeld;
    if steps != [] {
      HarmlessActs(Perform(s, steps[0]), steps[1..]);
    }
  }
}
