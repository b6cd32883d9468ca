/** Equitable Load takes the available instances in turn. */
module EquitableLoad {
  import opened CoordinatorSpec

  /** How many places lie between `last` and `i`, walking upwards and around. */
  function Steps(count: nat, last: int, i: nat): int {
    if i > last then i - last - 1 else i + count - last - 1
  }

  lemma {:induction false} ScanFinds(available: seq<bool>, last: int, index: nat, left: nat)
    requires -1 <= last < |available| && index < |available|
    requires left + Steps(|available|, last, index) == |available|
    requires forall i :: 0 <= i < |available| && available[i] ==>
               Steps(|available|, last, index) <= Steps(|available|, last, i)
    ensures var r := Scan(available, index, left);
            if r == -1 then forall i :: 0 <= i < |available| ==> !available[i]
            else && 0 <= r < |available| && available[r]
                 && forall i :: 0 <= i < |available| && available[i] ==>
                      Steps(|available|, last, r) <= Steps(|available|, last, i)
    decreases left
  {
    var n := |available|;
    if !available[index] {
      var next := Wrap(index + 1, n);
      if next == last + 1 || (last + 1 == n && next == 0) {
        // Back at the start: every place has been tried.
        assert Steps(n, last, index) == n - 1;
        assert left == 1;
        forall i | 0 <= i < n ensures !available[i] {
          assert Steps(n, last, i) <= n - 1;
        }
        assert !available[next];
      } else {
        forall i | 0 <= i < n && available[i]
          ensures Steps(n, last, next) <= Steps(n, last, i)
        {
          assert i != index;
        }
        ScanFinds(available, last, next, left - 1);
      }
    }
  }

  /** The choice is the first available instance after the last one used; -1 exactly when none is available. */
  lemma ChooseIsNext(available: seq<bool>, last: int)
    requires -1 <= last < |available|
    ensures var r := Choose(available, last);
            if r == -1 then forall i :: 0 <= i < |available| ==> !available[i]
            else && 0 <= r < |available| && available[r]
                 && forall i :: 0 <= i < |available| && available[i] ==>
                      Steps(|available|, last, r) <= Steps(|available|, last, i)
  {
    if available != [] {
      ScanFinds(available, last, Wrap(last + 1, |available|), |available|);
    }
  }

  /** Walking upwards from the place after `last`, and from the top on from the bottom, all places before r are not
      available. */
  predicate PassedOver(available: seq<bool>, last: int, r: int)
    requires -1 <= last < |available| && 0 <= r < |available|
  {
    if r > last then forall i :: last < i < r ==> !available[i]
    else (forall i :: last < i < |available| ==> !available[i]) && (forall i :: 0 <= i < r ==> !available[i])
  }

  lemma NextPassesOver(available: seq<bool>, last: int)
    requires -1 <= last < |available|
    ensures var r := Choose(available, last); r != -1 ==> 0 <= r < |available| && PassedOver(available, last, r)
  {
    ChooseIsNext(available, last);
  }

  // ---------- Fairness ----------

  /** The last index used after `m` choices. */
  function LastAfter(available: seq<bool>, last: int, m: nat): (r: int)
    requires -1 <= last < |available|
    requires exists i :: 0 <= i < |available| && available[i]
    ensures -1 <= r < |available|
  {
    if m == 0 then last
    else
      var before := LastAfter(available, last, m - 1);
      ChooseIsNext(available, before);
      Choose(available, before)
  }

  /** How often instance `i` is chosen in the first `m` choices. */
  function Turns(available: seq<bool>, last: int, m: nat, i: nat): nat
    requires -1 <= last < |available|
    requires exists i :: 0 <= i < |available| && available[i]
  {
    if m == 0 then 0
    else Turns(available, last, m - 1, i) + if LastAfter(available, last, m) == i then 1 else 0
  }

  /** The places count from the one after `last`: the current one is `reached`, the walk goes on from there. */
  ghost predicate At(count: nat, last: int, current: int, reached: int) {
    && -1 <= reached < count
    && forall i: nat :: i < count ==>
         Steps(count, current, i) ==
         if Steps(count, last, i) > reached then Steps(count, last, i) - reached - 1
         else Steps(count, last, i) + count - reached - 1
  }

  /** Everybody available has had `rounds` turns, and one more up to the place `reached` of the current round. */
  lemma {:induction false} InRounds(available: seq<bool>, last: int, m: nat) returns (rounds: nat, reached: int)
    requires -1 <= last < |available|
    requires exists i :: 0 <= i < |available| && available[i]
    ensures At(|available|, last, LastAfter(available, last, m), reached)
    ensures forall i :: 0 <= i < |available| && available[i] ==>
              Turns(available, last, m, i) == rounds + if Steps(|available|, last, i) <= reached then 1 else 0
  {
    hide Turns;
    var n := |available|;
    if m == 0 {
      NoTurns(available, last);
      rounds, reached := 0, -1;
    } else {
      var c, cur := InRounds(available, last, m - 1);
      var before := LastAfter(available, last, m - 1);
      ChooseIsNext(available, before);
      var r := LastAfter(available, last, m);
      reached := Steps(n, last, r);
      rounds := if reached > cur then c else c + 1;
      AtChosen(n, last, r);
      forall i | 0 <= i < n && available[i]
        ensures Turns(available, last, m, i) == rounds + if Steps(n, last, i) <= reached then 1 else 0
      {
        Advance(n, last, before, cur, r, i);
        NextTurn(available, last, m, i);
      }
    }
  }

  lemma NoTurns(available: seq<bool>, last: int)
    requires -1 <= last < |available|
    requires exists i :: 0 <= i < |available| && available[i]
    ensures forall i: nat :: Turns(available, last, 0, i) == 0
  {}

  lemma NextTurn(available: seq<bool>, last: int, m: nat, i: nat)
    requires -1 <= last < |available| && m > 0
    requires exists i :: 0 <= i < |available| && available[i]
    ensures Turns(available, last, m, i) ==
            Turns(available, last, m - 1, i) + if LastAfter(available, last, m) == i then 1 else 0
  {}

  lemma AtChosen(count: nat, last: int, r: nat)
    requires -1 <= last < count && r < count
    ensures At(count, last, r, Steps(count, last, r))
  {}

  /** Nobody stands between the place reached and the next one chosen. */
  lemma Advance(count: nat, last: int, before: int, cur: int, r: nat, i: nat)
    requires -1 <= last < count && r < count && i < count
    requires At(count, last, before, cur)
    requires Steps(count, before, r) <= Steps(count, before, i)
    ensures var o, next := Steps(count, last, i), Steps(count, last, r);
            && (o == next <==> i == r)
            && (next > cur ==> (o <= next <==> o <= cur || i == r))
            && (next <= cur ==> o <= cur && (o <= next <==> i == r))
  {}

  /** Over any number of choices, two available instances differ by at most one turn. */
  lemma Fair(available: seq<bool>, last: int, m: nat, i: nat, j: nat)
    requires -1 <= last < |available| && i < |available| && j < |available|
    requires available[i] && available[j]
    ensures Turns(available, last, m, i) <= Turns(available, last, m, j) + 1
  {
    var rounds, reached := InRounds(available, last, m);
  }
}
