/** The command interface and the list of executed commands that undo works from. */
module Command {
  import opened Errors
  import Transmission

  /**
   * The Command interface (Execute, and Undo returning an error). Its only two
   * implementations are the shift commands, so it is their datatype.
   */
  type Command = Transmission.ShiftCommand

  /** The directions of a list of commands, in the same order. */
  function Directions(cs: seq<Command>): (ds: seq<Transmission.Direction>)
    ensures |ds| == |cs|
    ensures forall i :: 0 <= i < |cs| ==> ds[i] == cs[i].Direction()
  {
    if cs == [] then [] else Directions(cs[..|cs| - 1]) + [cs[|cs| - 1].Direction()]
  }

  /** A stack of executed commands; push appends and pop removes from the end. */
  class CommandsList {
    var list: seq<Command>

    /** The transmission that undoing the last command touches (none when the list is empty). */
    function LastTarget(): set<Transmission.Transmission>
      reads this
    {
      if list == [] then {} else {list[|list| - 1].t}
    }

    /** NewCommandsList: an empty list. */
    constructor ()
      ensures list == []
    {
      list := [];
    }

    method PushCommand(command: Command)
      modifies this
      ensures list == old(list) + [command]
    {
      list := list + [command];
    }

    /** Removes the last command and returns it; on an empty list, fails and changes nothing. */
    method PopLastCommand() returns (r: Result<Command>)
      modifies this
      ensures old(list) == [] ==> r == Err(EmptyCommandList) && list == old(list)
      ensures old(list) != [] ==> r == Ok(old(list)[|old(list)| - 1]) && list == old(list)[..|old(list)| - 1]
    {
      if |list| == 0 {
        return Err(EmptyCommandList);
      }
      r, list := Ok(list[|list| - 1]), list[..|list| - 1];
    }

    /**
     * Pops the last command and runs its Undo. An empty list gives the pop's error and
     * no Undo runs; otherwise the entry is gone even when its Undo fails, and the result
     * is that Undo's.
     */
    method UndoLastCommand() returns (err: Outcome)
      modifies this, LastTarget()
      ensures old(list) == [] ==> err == Fail(EmptyCommandList) && list == old(list)
      ensures old(list) != [] ==>
        var c := old(list)[|old(list)| - 1];
        list == old(list)[..|old(list)| - 1] && (c.t.Value(), err) == old(c.t.Value()).Undo()
    {
      var popped := PopLastCommand();
      if popped.Err? {
        return Fail(popped.error);
      }
      err := popped.value.Undo();
    }
  }

  /** Pushing a command and popping straight away returns that command and restores the list. */
  method PushThenPop(l: CommandsList, c: Command) returns (r: Result<Command>)
    modifies l
    ensures r == Ok(c) && l.list == old(l.list)
  {
    l.PushCommand(c);
    r := l.PopLastCommand();
  }
}
