/** The coordinator (coordinator/src/launcher.c): its part in one operation, and the choice of an instance. */
module CoordinatorSpec {
  import opened Types

  /** The status change and the end-of-line report that follow an operation the instance carried out. */
  function Report(who: nat, name: string, op: Op): seq<Msg> {
    match op
    case Get(key) => [Notice(who, Alloc(name, key, Blocked)), LineOk(who)]
    case Set(_, _) => [LineOk(who)]
    case Store(key) => [Notice(who, Alloc(name, key, Released)), LineOk(who)]
  }

  // ---------- Equitable Load ----------

  function Wrap(index: nat, count: nat): nat {
    if index == count then 0 else index
  }

  /** The scan: from `index` on, at most `left` further places are tried. */
  function Scan(available: seq<bool>, index: nat, left: nat): int
    requires index < |available|
    decreases left
  {
    if available[index] then index
    else if left == 0 then -1
    else Scan(available, Wrap(index + 1, |available|), left - 1)
  }

  /** `get_instance_index_to_use` under Equitable Load. */
  function Choose(available: seq<bool>, last: int): int
    requires -1 <= last < |available|
  {
    if available == [] then -1 else Scan(available, Wrap(last + 1, |available|), |available|)
  }
}
