/**
 * The gear-shift state machine: a current state and the list of states it was in
 * before, the two shift commands that wrap it, and the slice helpers behind its history.
 */
module Transmission {
  import opened Errors

  const Idle: string := "Idle"
  const ShiftingUp: string := "Shifting Up"
  const ShiftingDown: string := "Shifting Down"

  /** The three states the first version of the transmission knows. */
  predicate IsState(s: string) {
    s == Idle || s == ShiftingUp || s == ShiftingDown
  }

  /** Appends `s` to the end of `slc`; the earlier entries stay where they were. */
  function PushStringToSlice(s: string, slc: seq<string>): (r: seq<string>)
    ensures |r| == |slc| + 1
    ensures r[..|slc|] == slc && r[|slc|] == s
  {
    slc + [s]
  }

  /**
   * Reads the last entry of `slc`, failing on an empty slice. The code also reslices
   * `slc` to drop that entry, but only its own by-value copy, so the caller's slice is
   * never shortened: the result carries the entry alone.
   */
  function PopStringFromSlice(slc: seq<string>): (r: Result<string>)
    ensures r.Err? <==> slc == []
    ensures r.Err? ==> r.error == EmptyStringSlice
    ensures r.Ok? ==> r.value == slc[|slc| - 1]
  {
    if |slc| == 0 then Err(EmptyStringSlice) else Ok(slc[|slc| - 1])
  }

  /** Popping right after pushing gives back the pushed string. */
  lemma PopAfterPush(s: string, slc: seq<string>)
    ensures PopStringFromSlice(PushStringToSlice(s, slc)) == Ok(s)
  {
  }

  /** The value of a transmission: its fields `State` and `PreviousStates`. */
  datatype Snapshot = Snapshot(state: string, previousStates: seq<string>) {

    /** Every state held now or recorded in the history is one of the three. */
    predicate Valid() {
      IsState(state) && forall i :: 0 <= i < |previousStates| ==> IsState(previousStates[i])
    }

    /** pushCurrentState: the current state goes onto the end of the history. */
    function PushCurrentState(): (r: Snapshot)
      ensures r.state == state
      ensures r.previousStates == previousStates + [state]
    {
      Snapshot(state, PushStringToSlice(state, previousStates))
    }

    /** ShiftUp, unguarded: from any state, record it and move to ShiftingUp. */
    function ShiftUp(): (r: Snapshot)
      ensures r.state == ShiftingUp
      ensures |r.previousStates| == |previousStates| + 1
      ensures r.previousStates[..|previousStates|] == previousStates
      ensures r.previousStates[|previousStates|] == state
    {
      Snapshot(ShiftingUp, PushCurrentState().previousStates)
    }

    /** ShiftDown, unguarded: from any state, record it and move to ShiftingDown. */
    function ShiftDown(): (r: Snapshot)
      ensures r.state == ShiftingDown
      ensures |r.previousStates| == |previousStates| + 1
      ensures r.previousStates[..|previousStates|] == previousStates
      ensures r.previousStates[|previousStates|] == state
    {
      Snapshot(ShiftingDown, PushCurrentState().previousStates)
    }

    /**
     * Undo: the last history entry becomes the state. The history itself is left as it
     * was, because the shortened slice is never written back. On an empty history the
     * error is returned and nothing changes.
     */
    function Undo(): (r: (Snapshot, Outcome))
      ensures r.0.previousStates == previousStates
      ensures r.1.Fail? <==> previousStates == []
      ensures previousStates == [] ==> r.0 == this && r.1 == Fail(EmptyStringSlice)
      ensures previousStates != [] ==> r.0.state == previousStates[|previousStates| - 1]
    {
      match PopStringFromSlice(previousStates)
      case Err(e) => (this, Fail(e))
      case Ok(s) => (Snapshot(s, previousStates), Pass)
    }

    /** `n` undos in a row. */
    function UndoTimes(n: nat): (r: Snapshot)
      decreases n
    {
      if n == 0 then this else Undo().0.UndoTimes(n - 1)
    }
  }

  /** The snapshot NewTransmission starts from, Idle with no history, is valid. */
  lemma InitialIsValid()
    ensures Snapshot(Idle, []).Valid()
  {
  }

  /** Shifting and undoing keep every state one of the three. */
  lemma StepsPreserveValid(t: Snapshot)
    requires t.Valid()
    ensures t.ShiftUp().Valid() && t.ShiftDown().Valid() && t.Undo().0.Valid()
  {
  }

  /** Undo never changes the history, so a second undo lands where the first one did. */
  lemma UndoIdempotent(t: Snapshot)
    ensures t.Undo().0.Undo() == (t.Undo().0, t.Undo().1)
  {
  }

  /** Any positive number of undos in a row leaves the transmission where one undo does. */
  lemma {:induction false} UndoTimesIsOneUndo(t: Snapshot, n: nat)
    requires n >= 1
    ensures t.UndoTimes(n) == t.Undo().0
    decreases n
  {
    if n > 1 {
      UndoTimesIsOneUndo(t.Undo().0, n - 1);
      UndoIdempotent(t);
    }
  }

  /** Undo right after a shift restores the state before it, but keeps the recorded entry. */
  lemma ShiftThenUndo(t: Snapshot)
    ensures t.ShiftUp().Undo() == (Snapshot(t.state, t.previousStates + [t.state]), Pass)
    ensures t.ShiftDown().Undo() == (Snapshot(t.state, t.previousStates + [t.state]), Pass)
  {
  }

  /** The transmission object, whose two fields its methods overwrite in place. */
  class Transmission {
    var state: string
    var previousStates: seq<string>

    /** The current value of the two fields. */
    function Value(): Snapshot
      reads this
    {
      Snapshot(state, previousStates)
    }

    /** NewTransmission: Idle, with an empty history. */
    constructor ()
      ensures state == Idle && previousStates == []
      ensures Value().Valid()
    {
      state := Idle;
      previousStates := [];
      InitialIsValid();
    }

    method ShiftUp()
      modifies this
      ensures Value() == old(Value()).ShiftUp()
    {
      PushCurrentState();
      state := ShiftingUp;
    }

    method ShiftDown()
      modifies this
      ensures Value() == old(Value()).ShiftDown()
    {
      PushCurrentState();
      state := ShiftingDown;
    }

    method PushCurrentState()
      modifies this
      ensures Value() == old(Value()).PushCurrentState()
    {
      previousStates := PushStringToSlice(state, previousStates);
    }

    method Undo() returns (err: Outcome)
      modifies this
      ensures (Value(), err) == old(Value()).Undo()
    {
      var popped := PopStringFromSlice(previousStates);
      if popped.Err? {
        return Fail(popped.error);
      }
      state := popped.value;
      return Pass;
    }
  }

  /** Which of the two shifts a command performs. */
  datatype Direction = Up | Down

  /**
   * ShiftUpCommand and ShiftDownCommand: each holds a pointer to a transmission that it
   * shares with its creator. They are the two implementations of the Command interface.
   */
  datatype ShiftCommand = ShiftUpCommand(t: Transmission) | ShiftDownCommand(t: Transmission) {

    function Direction(): Direction {
      if ShiftUpCommand? then Up else Down
    }

    /** Execute has exactly the effect of the matching shift on the shared transmission. */
    method Execute()
      modifies t
      ensures t.Value() == if ShiftUpCommand? then old(t.Value()).ShiftUp() else old(t.Value()).ShiftDown()
    {
      match this
      case ShiftUpCommand(tr) => tr.ShiftUp();
      case ShiftDownCommand(tr) => tr.ShiftDown();
    }

    /** Undo is the transmission's own Undo, promoted through the embedded pointer, for either variant. */
    method Undo() returns (err: Outcome)
      modifies t
      ensures (t.Value(), err) == old(t.Value()).Undo()
    {
      err := t.Undo();
    }
  }
}
