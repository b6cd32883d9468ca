/** The coordinator as its program updates it. */
module CoordinatorProcess {
  import opened Types
  import opened CoordinatorSpec
  import opened EquitableLoad

  datatype Distribution = LSU | EL | KE

  class Coordinator {
    const algorithm: Distribution
    var available: seq<bool>
    var lastUsed: int

    ghost predicate Valid()
      reads this
    {
      -1 <= lastUsed < |available|
    }

    constructor (algorithm: Distribution)
      ensures Valid() && available == [] && lastUsed == -1 && this.algorithm == algorithm
    {
      this.algorithm := algorithm;
      available, lastUsed := [], -1;
    }

    /** INSTANCE_COORD_HANDSHAKE. */
    method RegisterInstance()
      requires Valid()
      modifies this`available
      ensures Valid() && available == old(available) + [true]
    {
      available := available + [true];
    }

    /** The first available instance after the last one used; -1 if there is none, or if the algorithm has no code. */
    method GetInstanceIndexToUse() returns (index: int)
      requires Valid()
      ensures index == if algorithm.EL? then Choose(available, lastUsed) else -1
      ensures index == -1 <==> !algorithm.EL? || forall i :: 0 <= i < |available| ==> !available[i]
      ensures index != -1 ==> 0 <= index < |available| && available[index]
      ensures index != -1 ==>
                (forall i :: 0 <= i < |available| && available[i] ==>
                   Steps(|available|, lastUsed, index) <= Steps(|available|, lastUsed, i))
      ensures index != -1 ==> PassedOver(available, lastUsed, index)
    {
      ChooseIsNext(available, lastUsed);
      NextPassesOver(available, lastUsed);
      if |available| == 0 {
        return -1;
      }
      match algorithm {
        case LSU => return -1;
        case KE => return -1;
        case EL =>
          var count := |available|;
          index := lastUsed + 1;
          var iterations := 0;
          if index == count { index := 0; }
          while !available[index] && iterations < count
            invariant 0 <= index < count && 0 <= iterations <= count && count == |available|
            invariant Scan(available, index, count - iterations) == Choose(available, lastUsed)
            decreases count - iterations
          {
            iterations := iterations + 1;
            index := index + 1;
            if index == count { index := 0; }
          }
          if !available[index] { index := -1; }
      }
    }

    /** PLANNER_COORDINATOR_OP_OK: the operation goes to the next instance, which becomes the last one used. Without
        an instance to use, `ok` is false. */
    method OnPermit(who: nat, name: string, op: Op) returns (ok: bool, sent: Option<Msg>)
      requires Valid()
      modifies this`lastUsed
      ensures Valid()
      ensures ok == (algorithm.EL? && old(Choose(available, lastUsed)) >= 0)
      ensures ok ==> lastUsed == old(Choose(available, lastUsed)) && sent == Some(Apply(who, name, op, lastUsed))
      ensures ok == (algorithm.EL? && exists i :: 0 <= i < |available| && available[i])
      ensures ok ==> 0 <= lastUsed < |available| && available[lastUsed]
      ensures ok ==> PassedOver(available, old(lastUsed), lastUsed)
      ensures !ok ==> lastUsed == old(lastUsed)
    {
      var index := GetInstanceIndexToUse();
      ok, sent := index >= 0, None;
      if ok {
        sent := Some(Apply(who, name, op, index));
        lastUsed := index;
      }
    }

    /** The instance's report: a success is passed on to the planner, with the lock change first; of a failure only
        the ESI hears (`error` is OPERATION_ERROR). */
    method OnReply(who: nat, name: string, op: Op, success: bool) returns (sent: seq<Msg>, error: bool)
      ensures sent == if success then Report(who, name, op) else []
      ensures error <==> !success
      ensures sent == if !success then []
                      else match op
                        case Get(key) => [Notice(who, Alloc(name, key, Blocked)), LineOk(who)]
                        case Set(_, _) => [LineOk(who)]
                        case Store(key) => [Notice(who, Alloc(name, key, Released)), LineOk(who)]
    {
      sent, error := [], !success;
      if success {
        if !op.Set? {
          var status := if op.Get? then Blocked else Released;
          sent := [Notice(who, Alloc(name, op.key, status))];
        }
        sent := sent + [LineOk(who)];
      }
    }
  }
}
