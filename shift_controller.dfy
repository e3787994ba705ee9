/** The controller that sits between a player and its transmission. */
module ShiftController {
  import opened Errors
  import Transmission
  import Command

  /** Holds one transmission and the two shift commands, both pointing at that transmission. */
  class ShiftController {
    const transmission: Transmission.Transmission
    const shiftDownCommand: Command.Command
    const shiftUpCommand: Command.Command

    /** Both commands alias the controller's own transmission. */
    predicate Valid() {
      shiftUpCommand == Transmission.ShiftUpCommand(transmission) &&
      shiftDownCommand == Transmission.ShiftDownCommand(transmission)
    }

    /** newShiftController: a fresh Idle transmission with no history, shared by both commands. */
    constructor ()
      ensures Valid() && fresh(transmission)
      ensures transmission.state == Transmission.Idle && transmission.previousStates == []
    {
      var t := new Transmission.Transmission();
      transmission := t;
      shiftDownCommand := Transmission.ShiftDownCommand(t);
      shiftUpCommand := Transmission.ShiftUpCommand(t);
    }

    /** Runs the shift-up command, then records it on the caller's list. */
    method ShiftUpAction(c: Command.CommandsList)
      requires Valid()
      modifies transmission, c
      ensures transmission.Value() == old(transmission.Value()).ShiftUp()
      ensures c.list == old(c.list) + [shiftUpCommand]
    {
      shiftUpCommand.Execute();
      c.PushCommand(shiftUpCommand);
    }

    /** Runs the shift-down command, then records it on the caller's list. */
    method ShiftDownAction(c: Command.CommandsList)
      requires Valid()
      modifies transmission, c
      ensures transmission.Value() == old(transmission.Value()).ShiftDown()
      ensures c.list == old(c.list) + [shiftDownCommand]
    {
      shiftDownCommand.Execute();
      c.PushCommand(shiftDownCommand);
    }

    /** An empty stub: with no modifies clause it changes nothing. */
    method UndoLastAction()
    {
    }

    /** Redo is not implemented: always an error, and no state is touched. */
    method RedoLastUndoAction() returns (err: Outcome)
      ensures err == Fail(RedoNotImplemented)
    {
      err := Fail(RedoNotImplemented);
    }

    /** The transmission's current state, read without changing anything. */
    function GetTransmissionState(): (s: string)
      reads transmission
      ensures s == transmission.Value().state
      ensures transmission.Value().Valid() ==> Transmission.IsState(s)
    {
      transmission.state
    }
  }
}
