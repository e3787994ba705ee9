/**
 * The player: one command list and one shift controller. Its calls are specified by a
 * step function over plain values, and the lemmas about that function carry what the
 * player promises across any sequence of calls.
 */
module Player {
  import opened Errors
  import Transmission
  import Command
  import ShiftController

  /** The four calls a player offers. */
  datatype Action = ShiftUp | ShiftDown | Undo | Redo

  /**
   * The value of a player: the directions of the commands on its list, oldest first,
   * and the value of its transmission.
   */
  datatype PlayerSnapshot = PlayerSnapshot(pending: seq<Transmission.Direction>, transmission: Transmission.Snapshot) {

    /**
     * Every recorded command was preceded by a shift that grew the history, and undo
     * never shrinks the history, so there are never more commands than history entries.
     */
    predicate Valid() {
      transmission.Valid() && |pending| <= |transmission.previousStates|
    }
  }

  /** What NewPlayer starts from. */
  function Initial(): PlayerSnapshot {
    PlayerSnapshot([], Transmission.Snapshot(Transmission.Idle, []))
  }

  /** One player call: its new value and the error it returns. */
  function Step(p: PlayerSnapshot, a: Action): (PlayerSnapshot, Outcome) {
    match a
    case ShiftUp => (PlayerSnapshot(p.pending + [Transmission.Up], p.transmission.ShiftUp()), Pass)
    case ShiftDown => (PlayerSnapshot(p.pending + [Transmission.Down], p.transmission.ShiftDown()), Pass)
    case Undo =>
      if p.pending == [] then (p, Fail(EmptyCommandList))
      else
        var (t, err) := p.transmission.Undo();
        (PlayerSnapshot(p.pending[..|p.pending| - 1], t), err)
    case Redo => (p, Fail(RedoNotImplemented))
  }

  /** A sequence of calls, first to last. */
  function Run(p: PlayerSnapshot, actions: seq<Action>): PlayerSnapshot
    decreases |actions|
  {
    if actions == [] then p else Run(Step(p, actions[0]).0, actions[1..])
  }

  /** A new player satisfies the invariant. */
  lemma InitialIsValid()
    ensures Initial().Valid() && Initial().pending == [] && Initial().transmission.state == Transmission.Idle
  {
  }

  /** Every call keeps the invariant. */
  lemma StepPreservesValid(p: PlayerSnapshot, a: Action)
    requires p.Valid()
    ensures Step(p, a).0.Valid()
  {
    Transmission.StepsPreserveValid(p.transmission);
  }

  /**
   * Under the invariant, Undo succeeds exactly when a command is pending; when none is,
   * it fails with the command list's error and changes nothing.
   */
  lemma UndoSucceedsIffPending(p: PlayerSnapshot)
    requires p.Valid()
    ensures Step(p, Undo).1 == Pass <==> p.pending != []
    ensures p.pending == [] ==> Step(p, Undo) == (p, Fail(EmptyCommandList))
  {
  }

  /** Undo, when it succeeds, removes the last command and restores the last recorded state. */
  lemma UndoRestoresLastRecorded(p: PlayerSnapshot)
    requires p.Valid() && p.pending != []
    ensures var (q, err) := Step(p, Undo);
      err == Pass && q.pending == p.pending[..|p.pending| - 1] &&
      q.transmission.state == p.transmission.previousStates[|p.transmission.previousStates| - 1] &&
      q.transmission.previousStates == p.transmission.previousStates
  {
  }

  /** Redo always fails and never changes anything. */
  lemma RedoChangesNothing(p: PlayerSnapshot)
    ensures Step(p, Redo) == (p, Fail(RedoNotImplemented))
  {
  }

  /** Any sequence of calls keeps the invariant. */
  lemma {:induction false} RunPreservesValid(p: PlayerSnapshot, actions: seq<Action>)
    requires p.Valid()
    ensures Run(p, actions).Valid()
    decreases |actions|
  {
    if actions != [] {
      StepPreservesValid(p, actions[0]);
      RunPreservesValid(Step(p, actions[0]).0, actions[1..]);
    }
  }

  /** Whatever a player has done since it was created, Undo succeeds exactly when its list is non-empty. */
  lemma ReachableUndoSucceedsIffPending(actions: seq<Action>)
    ensures var p := Run(Initial(), actions); Step(p, Undo).1 == Pass <==> p.pending != []
  {
    InitialIsValid();
    RunPreservesValid(Initial(), actions);
    UndoSucceedsIffPending(Run(Initial(), actions));
  }

  /** The player object: it owns its command list and its controller, and never replaces either. */
  class Player {
    const playerCommands: Command.CommandsList
    const shifter: ShiftController.ShiftController

    function Value(): PlayerSnapshot
      reads playerCommands, shifter.transmission
    {
      PlayerSnapshot(Command.Directions(playerCommands.list), shifter.transmission.Value())
    }

    /**
     * The controller's commands share its transmission, every recorded command points
     * at that same transmission, and the value keeps the snapshot invariant.
     */
    ghost predicate Valid()
      reads playerCommands, shifter.transmission
    {
      shifter.Valid() &&
      (forall i :: 0 <= i < |playerCommands.list| ==> playerCommands.list[i].t == shifter.transmission) &&
      Value().Valid()
    }

    /** NewPlayer: an empty command list and a fresh controller whose transmission is Idle. */
    constructor ()
      ensures Valid() && fresh(playerCommands) && fresh(shifter) && fresh(shifter.transmission)
      ensures Value() == Initial()
    {
      playerCommands := new Command.CommandsList();
      shifter := new ShiftController.ShiftController();
    }

    method ShiftDown()
      requires Valid()
      modifies playerCommands, shifter.transmission
      ensures Valid() && Value() == Step(old(Value()), Action.ShiftDown).0
    {
      StepPreservesValid(Value(), Action.ShiftDown);
      shifter.ShiftDownAction(playerCommands);
    }

    method ShiftUp()
      requires Valid()
      modifies playerCommands, shifter.transmission
      ensures Valid() && Value() == Step(old(Value()), Action.ShiftUp).0
    {
      StepPreservesValid(Value(), Action.ShiftUp);
      shifter.ShiftUpAction(playerCommands);
    }

    /** Undoes the last recorded command through the command list. */
    method Undo() returns (err: Outcome)
      requires Valid()
      modifies playerCommands, shifter.transmission
      ensures Valid() && (Value(), err) == Step(old(Value()), Action.Undo)
    {
      StepPreservesValid(Value(), Action.Undo);
      err := playerCommands.UndoLastCommand();
    }

    /** Redo is not implemented: always an error, and no state is touched. */
    method Redo() returns (err: Outcome)
      ensures err == Fail(RedoNotImplemented)
    {
      err := Fail(RedoNotImplemented);
    }
  }

  /** A new player cannot undo, and stays Idle. */
  method UndoOnNewPlayer() returns (err: Outcome, state: string)
    ensures err == Fail(EmptyCommandList) && state == Transmission.Idle
  {
    var p := new Player();
    err := p.Undo();
    state := p.shifter.GetTransmissionState();
  }

  /** Shifting down gives ShiftingDown; the following undo succeeds and gives Idle back. */
  method ShiftDownThenUndo() returns (shifted: string, err: Outcome, state: string)
    ensures shifted == Transmission.ShiftingDown && err == Pass && state == Transmission.Idle
  {
    var p := new Player();
    p.ShiftDown();
    shifted := p.shifter.GetTransmissionState();
    err := p.Undo();
    state := p.shifter.GetTransmissionState();
  }

  /** Shifting up gives ShiftingUp; the following undo succeeds and gives Idle back. */
  method ShiftUpThenUndo() returns (shifted: string, err: Outcome, state: string)
    ensures shifted == Transmission.ShiftingUp && err == Pass && state == Transmission.Idle
  {
    var p := new Player();
    p.ShiftUp();
    shifted := p.shifter.GetTransmissionState();
    err := p.Undo();
    state := p.shifter.GetTransmissionState();
  }

  /** After a shift up and its undo, Redo fails and the transmission stays Idle. */
  method RedoAfterUndo() returns (shifted: string, err: Outcome, undone: string, redoErr: Outcome, state: string)
    ensures shifted == Transmission.ShiftingUp
    ensures err == Pass && undone == Transmission.Idle
    ensures redoErr.Fail? && state == Transmission.Idle
  {
    var p := new Player();
    p.ShiftUp();
    shifted := p.shifter.GetTransmissionState();
    err := p.Undo();
    undone := p.shifter.GetTransmissionState();
    redoErr := p.Redo();
    state := p.shifter.GetTransmissionState();
  }

  /**
   * Shift up, shift down, then undo three times. Because undo reads the history without
   * shortening it, both undos land on ShiftingUp (not Idle); the third fails because
   * the command list is empty by then.
   */
  method TwoShiftsThreeUndos() returns (e1: Outcome, first: string, e2: Outcome, second: string, e3: Outcome, state: string)
    ensures e1 == Pass && first == Transmission.ShiftingUp
    ensures e2 == Pass && second == Transmission.ShiftingUp
    ensures e3 == Fail(EmptyCommandList) && state == Transmission.ShiftingUp
  {
    var p := new Player();
    p.ShiftUp();
    p.ShiftDown();
    e1 := p.Undo();
    first := p.shifter.GetTransmissionState();
    e2 := p.Undo();
    second := p.shifter.GetTransmissionState();
    e3 := p.Undo();
    state := p.shifter.GetTransmissionState();
  }
}
