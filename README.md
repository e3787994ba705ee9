# Gear-shift state machine with a command-pattern undo stack

A Dafny model of the core of a small Go teaching project. A transmission has a current
state, one of `Idle`, `Shifting Up` and `Shifting Down`, and a list of the states it
was in before. Two shift commands wrap its `ShiftUp` and `ShiftDown`. A command list
records executed commands and undoes the last one. A shift controller owns one
transmission and both commands. A player owns one command list and one controller.

Modules follow the Go packages:

- `errors.dfy`: `Errors`. The three error kinds. `Outcome` models a bare Go `error`, with `Pass` for nil. `Result<T>` models a `(T, error)` pair.
- `transmission.dfy`: `Transmission`. The state constants and the slice helpers. `Snapshot` is the value of a transmission, with one function per operation. The `Transmission` class has methods proved against those functions. `ShiftCommand` is the datatype of the two shift commands. Each holds a reference to the transmission it shares.
- `command.dfy`: `Command`. The `Command` interface, which is the `ShiftCommand` type since the shift commands are its only implementations. The `CommandsList` class.
- `shift_controller.dfy`: `ShiftController`. The controller class. Its two commands alias its transmission.
- `player.dfy`: `Player`. `PlayerSnapshot` is the value of a player and `Step` is one player call on that value. The `Player` class has methods proved against `Step`. Lemmas cover any sequence of calls. Four client methods replay the four cases of `player/player_test.go`. A fifth, `TwoShiftsThreeUndos`, runs shift up, shift down and three undos as the code does.

`ShiftController.UndoLastAction` is an empty stub in the code. It is modelled as a method with an empty body and no `modifies` clause, so by its frame it changes nothing. It carries no `ensures`, so it has no row below.

## Where the code differs from what its names suggest

The model follows the code in every case below.

- The struct comment calls the slice "a list of all previous states" (car/transmission/transmission.go:13-14). `Undo` is documented as undoing "the last state change" (car/transmission/transmission.go:42), and `PopStringFromSlice` as popping "the last string from a slice" (car/transmission/transmission.go:90). Yet `PopStringFromSlice` reslices only its own by-value copy of the slice (car/transmission/transmission.go:98), and `Undo` never writes a shortened slice back (car/transmission/transmission.go:44-48). So `Undo` reads the last history entry and leaves the history alone. Two undos in a row land on the same state (`Transmission.UndoIdempotent`, `Transmission.UndoTimesIsOneUndo`).
- After `ShiftUp; ShiftDown` on a new player, both of the next two undos succeed and both land on `Shifting Up`. A third undo fails because the command list is empty by then (`Player.TwoShiftsThreeUndos`).

## Model

| member | source | states |
|---|---|---|
| `Transmission.PushStringToSlice` | car/transmission/transmission.go:85-88 | the result is one longer, keeps every earlier entry in place and ends with the pushed string |
| `Transmission.PopStringFromSlice` | car/transmission/transmission.go:91-100 | fails with the empty-slice error exactly when the slice is empty; otherwise returns its last entry (the argument is a value, so it is not altered) |
| `Transmission.PopAfterPush` | car/transmission/transmission.go:85-100 | popping right after pushing `s` returns `s` without error |
| `Transmission.Snapshot.PushCurrentState` | car/transmission/transmission.go:38-40 | the state is unchanged and the history gains the current state at its end |
| `Transmission.Snapshot.ShiftUp` | car/transmission/transmission.go:26-29 | from any state: the new state is Shifting Up, the history grows by one, earlier entries are unchanged, and the new last entry is the old state |
| `Transmission.Snapshot.ShiftDown` | car/transmission/transmission.go:32-35 | from any state: the new state is Shifting Down, the history grows by one, earlier entries are unchanged, and the new last entry is the old state |
| `Transmission.Snapshot.Undo` | car/transmission/transmission.go:43-50 | the history is never changed; fails exactly on an empty history and then returns the empty-slice error with the state unchanged; otherwise the state becomes the last history entry |
| `Transmission.InitialIsValid` | car/transmission/transmission.go:21-23 | the snapshot a new transmission starts from (Idle, empty history) holds only the three known states |
| `Transmission.StepsPreserveValid` | car/transmission/transmission.go:13-50 | shifting up, shifting down and undoing keep every current and recorded state among the three |
| `Transmission.UndoIdempotent` | car/transmission/transmission.go:43-50 | a second undo gives the same snapshot and the same result as the first |
| `Transmission.UndoTimesIsOneUndo` | car/transmission/transmission.go:43-50 | any positive number of undos in a row leaves the transmission where one undo does |
| `Transmission.ShiftThenUndo` | car/transmission/transmission.go:26-50 | an undo right after a shift succeeds and restores the state from before the shift, while the history keeps the entry the shift recorded |
| `Transmission.Transmission.constructor` | car/transmission/transmission.go:21-23 | a new transmission is Idle with an empty history, and its value is valid |
| `Transmission.Transmission.ShiftUp` | car/transmission/transmission.go:26-29 | the object's new fields are the snapshot's ShiftUp of the old ones |
| `Transmission.Transmission.ShiftDown` | car/transmission/transmission.go:32-35 | the object's new fields are the snapshot's ShiftDown of the old ones |
| `Transmission.Transmission.PushCurrentState` | car/transmission/transmission.go:38-40 | the object's new history is the old one with the current state appended; the state is unchanged |
| `Transmission.Transmission.Undo` | car/transmission/transmission.go:43-50 | the new fields and the returned error are the snapshot's Undo of the old fields |
| `Transmission.ShiftCommand.Execute` | car/transmission/transmission.go:52-80 | the shift-up command has exactly the effect of ShiftUp and the shift-down command exactly that of ShiftDown, on the shared transmission |
| `Transmission.ShiftCommand.Undo` | car/transmission/transmission.go:43-70 | for either command it is the shared transmission's Undo, through the embedded pointer |
| `Command.CommandsList.constructor` | command/command.go:30-32 | a new command list is empty |
| `Command.CommandsList.PushCommand` | command/command.go:36-40 | the list becomes the old list followed by the command; nothing else changes |
| `Command.CommandsList.PopLastCommand` | command/command.go:54-61 | on an empty list, returns the empty-list error and leaves the list unchanged; otherwise returns the last command and leaves the old list without it |
| `Command.CommandsList.UndoLastCommand` | command/command.go:43-51 | on an empty list, returns the pop error and touches no transmission; otherwise removes exactly the last entry, even when that command's Undo fails, and returns that Undo's result together with its effect on the command's transmission |
| `Command.PushThenPop` | command/command.go:36-61 | a push followed by a pop returns the pushed command and restores the original list (LIFO) |
| `ShiftController.ShiftController.constructor` | car/controllers/shifter/shift_controller.go:16-21 | one fresh transmission, Idle with no history, and both commands refer to that same transmission |
| `ShiftController.ShiftController.ShiftUpAction` | car/controllers/shifter/shift_controller.go:24-29 | the transmission takes the ShiftUp step (so it ends in Shifting Up) and the up-command is appended to the given list |
| `ShiftController.ShiftController.ShiftDownAction` | car/controllers/shifter/shift_controller.go:32-35 | the transmission takes the ShiftDown step (so it ends in Shifting Down) and the down-command is appended to the given list |
| `ShiftController.ShiftController.RedoLastUndoAction` | car/controllers/shifter/shift_controller.go:43-45 | always returns the not-implemented error and modifies nothing |
| `ShiftController.ShiftController.GetTransmissionState` | car/controllers/shifter/shift_controller.go:48-50 | returns the transmission's state, reads only the transmission, and gives one of the three states whenever the transmission is valid |
| `Player.InitialIsValid` | player/player.go:26-30 | a new player has no pending commands, an Idle transmission, and satisfies the player invariant |
| `Player.StepPreservesValid` | player/player.go:33-49 | every player call keeps the invariant: each state is among the three, and there are never more recorded commands than history entries |
| `Player.UndoSucceedsIffPending` | player/player.go:43-45 | under the invariant, Undo succeeds exactly when the command list is non-empty; on an empty list it fails with the list's error and changes nothing |
| `Player.UndoRestoresLastRecorded` | player/player.go:43-45 | a successful Undo drops the last command, sets the state to the last history entry and keeps the history |
| `Player.RedoChangesNothing` | player/player.go:47-49 | Redo always fails with the not-implemented error and changes nothing |
| `Player.RunPreservesValid` | player/player.go:33-45 | any sequence of calls keeps the invariant |
| `Player.ReachableUndoSucceedsIffPending` | player/player.go:26-45 | for a player after any sequence of calls since NewPlayer, Undo succeeds exactly when its command list is non-empty |
| `Player.Player.constructor` | player/player.go:26-30 | a new player owns a fresh empty command list and a fresh controller with an Idle transmission, and satisfies the invariant |
| `Player.Player.ShiftDown` | player/player.go:33-35 | the object's new value is the ShiftDown step of its old value, and the invariant is kept |
| `Player.Player.ShiftUp` | player/player.go:38-40 | the object's new value is the ShiftUp step of its old value, and the invariant is kept |
| `Player.Player.Undo` | player/player.go:43-45 | the object's new value and the returned error are the Undo step of its old value, and the invariant is kept |
| `Player.Player.Redo` | player/player.go:47-49 | always returns the not-implemented error and modifies nothing |
| `Player.UndoOnNewPlayer` | player/player_test.go:16-20 | Undo on a new player fails and the state stays Idle |
| `Player.ShiftDownThenUndo` | player/player_test.go:21-27 | ShiftDown gives Shifting Down; the following Undo succeeds and restores Idle |
| `Player.ShiftUpThenUndo` | player/player_test.go:28-34 | ShiftUp gives Shifting Up; the following Undo succeeds and restores Idle |
| `Player.RedoAfterUndo` | player/player_test.go:35-44 | ShiftUp gives Shifting Up; the following Undo succeeds and gives Idle; Redo then fails and the state stays Idle |
| `Player.TwoShiftsThreeUndos` | car/transmission/transmission.go:43-50 | after ShiftUp and ShiftDown, two undos both succeed and both leave Shifting Up; a third fails with the empty-list error |

## Left out

- The mutex in `CommandsList` and its lock and unlock calls (command/command.go:26, 37-38, 44-45). They serve only concurrency. The methods are modelled as plain sequential updates. The property that concurrent pushes lose no entry is not modelled.
- The package-level `allCommands` list (command/command.go:9-11). It is never used.
- `command/command_test.go`. It calls `NewPlayer` and `p.State` from package `command`, where neither exists, so it pins nothing about that package.
- Go compile defects: missing `errors` imports, an unexported `newShiftController` called across packages, the names `s.shiftUpCommand`, `s.shiftDownCommand` and `s.transmission`, which are not fields of the controller, a missing `command` import, and names from other packages used without a qualifier. The model uses the intended referents: the embedded command pointers and the embedded transmission.
- The empty string that `PopStringFromSlice` returns next to its error, and the `nil` Command that `PopLastCommand` returns next to its error (command/command.go:56). `Result.Err` carries no value.
- Pointer identity of the command structs. `NewShiftUpCommand` and `NewShiftDownCommand` are the `ShiftCommand` constructors. A command is a value holding the transmission reference. The code never compares or mutates command structs, so nothing observable is lost.
- A working redo or a redo buffer. The code has none; `Redo` is modelled only as a constant error.
- The open `Command` interface (command/command.go:18-21). Any type with `Execute()` and `Undo() error` may implement it in Go. The model closes it to the two shift commands, so the `CommandsList` contracts describe `Undo` only as the shared transmission's `Undo`.
- The error message strings are kept in `Errors.Error.Message`. Contracts compare error kinds, not messages.
