/** The ESI as its program updates it. */
module EsiProcess {
  import opened Types
  import opened EsiSpec

  /** What the line at this place makes the ESI send: its operation to the coordinator, or to the planner that it has
      finished, at the end of the script and at a bad line. */
  function LineAt(script: seq<Line>, at: nat, who: nat, name: string): Msg {
    if at < |script| && script[at].Valid? then Instruction(who, name, script[at].op) else Finished(who)
  }

  class ScriptReader {
    const script: seq<Line>
    var name: string
    var cursor: nat
    var mark: nat

    function State(): Proc
      reads this
    {
      Proc(name, script, cursor, mark)
    }

    constructor (script: seq<Line>)
      ensures State() == Proc("", script, 0, 0)
    {
      this.script := script;
      name, cursor, mark := "", 0, 0;
    }

    /** ESI_PLANNER_HANDSHAKE_OK. */
    method Registered(name: string)
      modifies this`name
      ensures State() == old(State()).(name := name)
    {
      this.name := name;
    }

    /** Reads a line. At the end of the script the coordinator is told as well (`closing`); it is not told of a line
        that does not parse. */
    method Parser(who: nat) returns (sent: Msg, closing: bool)
      modifies this`cursor, this`mark
      ensures Ran(State(), sent) == ParseLine(old(State()), who)
      ensures closing <==> old(cursor) >= |script|
      ensures mark == old(cursor) && cursor == (if old(cursor) < |script| then old(cursor) + 1 else old(cursor))
      ensures sent == LineAt(script, old(cursor), who, name)
    {
      mark, closing := cursor, false;
      if cursor < |script| {
        var line := script[cursor];
        cursor := cursor + 1;
        match line {
          case Valid(op) => sent := Instruction(who, name, op);
          case Garbage => sent := Finished(who);
        }
      } else {
        sent, closing := Finished(who), true;
      }
    }

    /** PLANNER_ESI_RUN and PLANNER_ESI_RUN_LAST_OPERATION. */
    method OnRunOrder(who: nat, again: bool) returns (sent: Msg, closing: bool)
      modifies this`cursor, this`mark
      ensures Ran(State(), sent) == Run(old(State()), who, again)
      ensures var from := if again then old(mark) else old(cursor);
              && (closing <==> from >= |script|)
              && mark == from && cursor == (if from < |script| then from + 1 else from)
              && sent == LineAt(script, from, who, name)
    {
      if again {
        cursor := mark;
      }
      sent, closing := Parser(who);
    }
  }
}
