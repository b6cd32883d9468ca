/** The history of one key. */
module LockHistory {
  import opened Types
  import opened System

  /** The operations on the key, oldest first. */
  function KeyLog(log: seq<Event>, key: string): seq<Event> {
    if log == [] then []
    else
      var last := |log| - 1;
      if log[last].op.key == key then KeyLog(log[..last], key) + [log[last]] else KeyLog(log[..last], key)
  }

  datatype Lock = Free | Held(name: string) | Broken

  /** What an operation of ESI `name` does to a lock: GET takes it, SET and STORE are the holder's, STORE gives it
      back. */
  function LockOp(lock: Lock, name: string, op: Op): Lock {
    match op
    case Get(_) => if lock.Free? then Held(name) else Broken
    case Set(_, _) => if lock == Held(name) then lock else Broken
    case Store(_) => if lock == Held(name) then Free else Broken
  }

  function LockStep(lock: Lock, e: Event): Lock {
    LockOp(lock, e.name, e.op)
  }

  function LockOf(h: seq<Event>): Lock {
    if h == [] then Free else LockStep(LockOf(h[..|h| - 1]), h[|h| - 1])
  }

  function LockAfter(log: seq<Event>, key: string): Lock {
    LockOf(KeyLog(log, key))
  }

  lemma LockGrows(log: seq<Event>, e: Event, key: string)
    ensures LockAfter(log + [e], key) ==
            if e.op.key == key then LockStep(LockAfter(log, key), e) else LockAfter(log, key)
  {
    assert (log + [e])[..|log|] == log;
    assert (KeyLog(log, key) + [e])[..|KeyLog(log, key)|] == KeyLog(log, key);
  }

  lemma UntouchedIsFree(log: seq<Event>, key: string)
    requires KeyLog(log, key) == []
    ensures LockAfter(log, key) == Free
  {
    assert LockOf([]) == Free;
  }

  // ---------- The same as a grammar ----------

  /** GET by somebody, then SETs by the same. */
  predicate OpenRound(r: seq<Event>) {
    && r != [] && r[0].op.Get?
    && forall j :: 0 < j < |r| ==> r[j].op.Set? && r[j].name == r[0].name
  }

  /** GET by somebody, SETs by the same, STORE by the same. */
  predicate FullRound(r: seq<Event>) {
    |r| >= 2 && OpenRound(r[..|r| - 1]) && r[|r| - 1].op.Store? && r[|r| - 1].name == r[0].name
  }

  /** A repetition of full rounds. */
  ghost predicate Rounds(h: seq<Event>)
    decreases |h|
  {
    h == [] || exists i :: 0 <= i < |h| && Rounds(h[..i]) && FullRound(h[i..])
  }

  /** A round that begins at i is still open. */
  ghost predicate OpensAt(h: seq<Event>, i: int) {
    0 <= i < |h| && Rounds(h[..i]) && OpenRound(h[i..])
  }

  /** A prefix of a repetition of full rounds: full rounds and perhaps the beginning of another. */
  ghost predicate Bracketed(h: seq<Event>) {
    Rounds(h) || exists i :: OpensAt(h, i)
  }

  /** A history that keeps the lock discipline consists of rounds; `i` is where the open one begins. */
  lemma {:induction false} DisciplineIsGrammar(h: seq<Event>) returns (i: int)
    ensures LockOf(h) == Free ==> Rounds(h)
    ensures LockOf(h).Held? ==> OpensAt(h, i) && h[i].name == LockOf(h).name
  {
    hide OpensAt;
    i := 0;
    if h != [] {
      var last := |h| - 1;
      var before, e := h[..last], h[last];
      var j := DisciplineIsGrammar(before);
      if e.op.Get? {
        i := last;
        if LockOf(before).Free? {
          RoundOpens(before, e);
          assert before + [e] == h;
        }
      } else if LockOf(before).Held? && LockOf(before).name == e.name {
        i := j;
        RoundContinues(before, e, j);
        assert before + [e] == h;
      }
    }
  }

  lemma RoundOpens(before: seq<Event>, e: Event)
    requires Rounds(before) && e.op.Get?
    ensures OpensAt(before + [e], |before|)
  {
    assert (before + [e])[..|before|] == before && (before + [e])[|before|..] == [e];
  }

  lemma RoundContinues(before: seq<Event>, e: Event, i: int)
    requires OpensAt(before, i) && before[i].name == e.name && !e.op.Get?
    ensures e.op.Set? ==> OpensAt(before + [e], i)
    ensures e.op.Store? ==> Rounds(before + [e])
  {
    var h := before + [e];
    assert h[..i] == before[..i];
    assert h[i..] == before[i..] + [e];
    assert (before[i..] + [e])[..|before| - i] == before[i..];
    assert e.op.Store? ==> FullRound(h[i..]);
  }

  lemma {:induction false} OpenRoundHolds(h: seq<Event>, i: nat)
    requires i < |h| && LockOf(h[..i]) == Free && OpenRound(h[i..])
    ensures LockOf(h) == Held(h[i].name)
    decreases |h|
  {
    var last := |h| - 1;
    if i == last {
      assert h[i..][0] == h[i];
    } else {
      var before := h[..last];
      assert before[..i] == h[..i] && before[i..] == h[i..][..last - i];
      OpenRoundHolds(before, i);
      assert h[i..][last - i] == h[last] && h[i..][0] == h[i];
    }
  }

  lemma FullRoundFrees(h: seq<Event>, i: nat)
    requires i < |h| && LockOf(h[..i]) == Free && FullRound(h[i..])
    ensures LockOf(h) == Free
  {
    hide OpenRound, LockOf;
    var last := |h| - 1;
    var before := h[..last];
    Slices(h, i);
    OpenRoundHolds(before, i);
    LockOfLast(h);
  }

  lemma Slices(h: seq<Event>, i: nat)
    requires i + 2 <= |h|
    ensures var last := |h| - 1;
            && h[..last][..i] == h[..i] && h[..last][i..] == h[i..][..|h[i..]| - 1]
            && h[i..][|h[i..]| - 1] == h[last] && h[i..][0] == h[i] && h[..last][i] == h[i]
  {}

  lemma LockOfLast(h: seq<Event>)
    requires h != []
    ensures LockOf(h) == LockStep(LockOf(h[..|h| - 1]), h[|h| - 1])
  {}

  lemma {:induction false} RoundsFree(h: seq<Event>)
    requires Rounds(h)
    ensures LockOf(h) == Free
    decreases |h|
  {
    if h != [] {
      var i :| 0 <= i < |h| && Rounds(h[..i]) && FullRound(h[i..]);
      RoundsFree(h[..i]);
      FullRoundFrees(h, i);
    }
  }

  lemma GrammarIsDiscipline(h: seq<Event>)
    requires Bracketed(h)
    ensures LockOf(h) != Broken
  {
    if Rounds(h) {
      RoundsFree(h);
    } else {
      var i :| OpensAt(h, i);
      RoundsFree(h[..i]);
      OpenRoundHolds(h, i);
    }
  }
}
