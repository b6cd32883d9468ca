/** The messages, records and script lines that the four processes share
    (libgrupo/libgrupo/structures.h and sockets.h). */
module Types {

  datatype Option<+T> = None | Some(value: T)

  /** One operation of an ESI script. */
  datatype Op = Get(key: string) | Set(key: string, value: string) | Store(key: string)

  /** A script line as the external parser reports it. */
  datatype Line = Valid(op: Op) | Garbage

  datatype AllocStatus = Blocked | Waiting | Released

  /** An entry of the planner's `taken_keys`, also the body of a status-change message. */
  datatype Alloc = Alloc(name: string, key: string, status: AllocStatus)

  /** The planner's record of an ESI. */
  datatype Esi = Esi(id: string, programCounter: nat, lastEstimate: real, redo: bool)

  datatype EsiSocket = EsiSocket(id: string, socket: nat)

  /** A message in flight. `who` is the number of the ESI at whose order it was sent: for messages on an ESI's own
      connection it is the connection; in LineOk and Notice, which travel on the connection between coordinator and
      planner and do not carry it, it is an observation that no handler reads. */
  datatype Msg =
    | RunOrder(who: nat, again: bool)                                             // planner to ESI
    | Finished(who: nat)                                                          // ESI to planner
    | Instruction(who: nat, name: string, op: Op)                                 // ESI to coordinator
    | Question(who: nat, name: string, op: Op)                                    // coordinator to planner
    | Permit(who: nat, name: string, op: Op)                                      // planner to coordinator
    | Apply(who: nat, name: string, op: Op, node: nat)                            // coordinator to instance
    | Reply(who: nat, name: string, op: Op, node: nat, success: bool)             // instance to coordinator
    | Notice(who: nat, change: Alloc)                                             // coordinator to planner
    | LineOk(who: nat)                                                            // coordinator to planner
}
