/** The ESI process (esi/src/launcher.c) as a cursor over its script. */
module EsiSpec {
  import opened Types

  /** `cursor` is the file position in lines, `mark` is `fp_beginning_li`. */
  datatype Proc = Proc(name: string, script: seq<Line>, cursor: nat, mark: nat)

  datatype Ran = Ran(proc: Proc, sent: Msg)

  /** Reads the next line and sends it to the coordinator; a line that does not parse, like the end of the file,
      ends the process. */
  function ParseLine(proc: Proc, who: nat): Ran {
    var marked := proc.(mark := proc.cursor);
    if proc.cursor >= |proc.script| then Ran(marked, Finished(who))
    else
      var advanced := marked.(cursor := proc.cursor + 1);
      match proc.script[proc.cursor]
      case Valid(op) => Ran(advanced, Instruction(who, proc.name, op))
      case Garbage => Ran(advanced, Finished(who))
  }

  /** Answers a run order; a repetition first goes back to the beginning of the last line. */
  function Run(proc: Proc, who: nat, again: bool): Ran {
    ParseLine(if again then proc.(cursor := proc.mark) else proc, who)
  }
}
