/** The list operations of the commons library that the planner uses, on sequences. */
module Lists {
  import opened Types

  function RemoveAt<T>(s: seq<T>, i: nat): (r: seq<T>)
    requires i < |s|
    ensures |r| == |s| - 1
    ensures forall k :: 0 <= k < |r| ==> r[k] == s[if k < i then k else k + 1]
    ensures multiset(s) == multiset(r) + multiset{s[i]}
  {
    assert s == s[..i] + [s[i]] + s[i + 1..];
    s[..i] + s[i + 1..]
  }

  function Ids(q: seq<Esi>): (r: seq<string>)
    ensures |r| == |q|
    ensures forall i :: 0 <= i < |q| ==> r[i] == q[i].id
  {
    seq(|q|, i requires 0 <= i < |q| => q[i].id)
  }

  /** Position of the first ESI called `id`, or the length of the queue. */
  function EsiIndex(q: seq<Esi>, id: string): (i: nat)
    ensures i <= |q|
    ensures i < |q| ==> q[i].id == id
    ensures forall j :: 0 <= j < i ==> q[j].id != id
  {
    if q == [] then 0
    else if q[0].id == id then 0
    else
      var i := EsiIndex(q[1..], id);
      assert forall j :: 0 < j < |q| ==> q[j] == q[1..][j - 1];
      1 + i
  }

  /** Position of the first entry for `key` with this status, or the length of the list. */
  function AllocIndex(taken: seq<Alloc>, key: string, status: AllocStatus): (i: nat)
    ensures i <= |taken|
    ensures i < |taken| ==> taken[i].key == key && taken[i].status == status
    ensures forall j :: 0 <= j < i ==> !(taken[j].key == key && taken[j].status == status)
  {
    if taken == [] then 0
    else if taken[0].key == key && taken[0].status == status then 0
    else
      var i := AllocIndex(taken[1..], key, status);
      assert forall j :: 0 < j < |taken| ==> taken[j] == taken[1..][j - 1];
      1 + i
  }

  lemma Shift<T>(s: seq<T>, x: T, t: seq<T>)
    ensures s + ([x] + t) == (s + [x]) + t
  {}

  lemma Head<T>(s: seq<T>)
    requires s != []
    ensures s == [s[0]] + s[1..]
    ensures forall x :: x in s[1..] ==> x in s
  {}

  predicate Distinct<T(==)>(s: seq<T>) {
    forall i, j :: 0 <= i < j < |s| ==> s[i] != s[j]
  }

  lemma DistinctCounts<T>(s: seq<T>, x: T)
    requires Distinct(s)
    ensures multiset(s)[x] <= 1
  {
    if s != [] {
      assert s == [s[0]] + s[1..];
      DistinctCounts(s[1..], x);
      assert s[0] !in s[1..];
    }
  }

  lemma CountsDistinct<T>(s: seq<T>)
    requires forall x :: multiset(s)[x] <= 1
    ensures Distinct(s)
  {
    forall i, j | 0 <= i < j < |s|
      ensures s[i] != s[j]
    {
      assert s == s[..i] + [s[i]] + s[i + 1..];
      assert s[j] == s[i + 1..][j - i - 1];
      assert s[j] in multiset(s[i + 1..]);
      assert multiset(s)[s[i]] <= 1;
    }
  }
}
